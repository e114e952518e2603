/**
 * The accounting state of a Banker's-algorithm allocator and the validation
 * front end of its allocation request (rust/banker.rs).
 *
 * The Rust state is generic over two constants, NUM_RESOURCES and
 * NUM_PROCESSES. Both matrices are declared with outer dimension
 * NUM_PROCESSES and inner dimension NUM_RESOURCES, yet allocation indexes
 * them as [resource][process] after bounding `resource` by NUM_RESOURCES
 * only. The model keeps that layout and that indexing, states the condition
 * under which the access is in bounds, and proves when it always is.
 */
module Banker {

  /** Largest value of Rust's `usize` on a 64-bit target. */
  const USIZE_MAX: int := 0xFFFF_FFFF_FFFF_FFFF

  type Usize = x: int | 0 <= x <= USIZE_MAX

  /** Stands for one `Arc<Condvar>`; nothing of its behaviour is modelled. */
  datatype Condvar = Condvar

  /** `m` has `rows` rows of `cols` entries each. */
  predicate IsMatrix(m: seq<seq<Usize>>, rows: nat, cols: nat) {
    |m| == rows && forall i :: 0 <= i < rows ==> |m[i]| == cols
  }

  /** Every entry of `m` is zero. */
  predicate AllZero(m: seq<seq<Usize>>) {
    forall i, j :: 0 <= i < |m| && 0 <= j < |m[i]| ==> m[i][j] == 0
  }

  /** The rows of a two-dimensional array, as a value. */
  ghost function Rows(a: array2<Usize>): (m: seq<seq<Usize>>)
    reads a
    ensures IsMatrix(m, a.Length0, a.Length1)
    ensures forall i, j :: 0 <= i < a.Length0 && 0 <= j < a.Length1 ==> m[i][j] == a[i, j]
  {
    seq(a.Length0, i requires 0 <= i < a.Length0 reads a =>
      seq(a.Length1, j requires 0 <= j < a.Length1 reads a => a[i, j]))
  }

  /**
   * How one call of `allocate_resource` ends, including the two ways the
   * Rust code can panic instead of returning.
   */
  datatype Verdict =
    | Granted            // returns true
    | WrongParameters    // returns false: index out of range
    | WrongRequest       // returns false: request exceeds the claim
    | IndexOutOfBounds   // panics: `[resource][process]` outside the matrix
    | Overflow           // panics: `alloc + amount` exceeds usize (checked arithmetic)
  {
    predicate Panics() { IndexOutOfBounds? || Overflow? }
  }

  /**
   * The outcome of `allocate_resource(process, resource, amount)` on a state
   * whose allocation and claim matrices are `alloc` and `claim`, evaluated in
   * the order the Rust code evaluates it: the parameter check, the bounds
   * checks of `alloc[resource][process]`, the checked addition, then the
   * comparison with `claim[resource][process]` (same shape as `alloc`).
   */
  function AllocationVerdict(numResources: Usize, numProcesses: Usize,
                             alloc: seq<seq<Usize>>, claim: seq<seq<Usize>>,
                             process: Usize, resource: Usize, amount: Usize): (v: Verdict)
    requires IsMatrix(alloc, numProcesses, numResources)
    requires IsMatrix(claim, numProcesses, numResources)
    // the range check alone decides the parameter failure, whatever the matrices hold
    ensures v == WrongParameters <==> resource >= numResources || process >= numProcesses
    // a panic can only follow a call that passed the range check
    ensures v.Panics() ==> resource < numResources && process < numProcesses
    // a grant indexes both matrices in bounds and stays within the claim, without overflow
    ensures v == Granted ==>
              resource < |alloc| && process < |alloc[resource]| &&
              alloc[resource][process] + amount <= claim[resource][process]
  {
    if resource >= numResources || process >= numProcesses then WrongParameters
    else if resource >= |alloc| || process >= |alloc[resource]| then IndexOutOfBounds
    else if alloc[resource][process] + amount > USIZE_MAX then Overflow
    else if alloc[resource][process] + amount > claim[resource][process] then WrongRequest
    else Granted
  }

  /**
   * Every call that passes the parameter check indexes the matrices in bounds
   * exactly when the two dimensions agree (or one of them is zero, so that no
   * call passes the check).
   */
  lemma {:induction false} InBoundsForEveryCallIffSquare(numResources: Usize, numProcesses: Usize,
                                                         alloc: seq<seq<Usize>>, claim: seq<seq<Usize>>)
    requires IsMatrix(alloc, numProcesses, numResources)
    requires IsMatrix(claim, numProcesses, numResources)
    ensures (forall process: Usize, resource: Usize, amount: Usize ::
               !AllocationVerdict(numResources, numProcesses, alloc, claim, process, resource, amount).IndexOutOfBounds?)
            <==> (numResources == numProcesses || numResources == 0 || numProcesses == 0)
  {
    if numResources > numProcesses > 0 {
      assert AllocationVerdict(numResources, numProcesses, alloc, claim, 0, numProcesses, 0).IndexOutOfBounds?;
    } else if numProcesses > numResources > 0 {
      assert AllocationVerdict(numResources, numProcesses, alloc, claim, numResources, 0, 0).IndexOutOfBounds?;
    }
  }

  /** With more resources than processes, the request for resource number NUM_PROCESSES panics. */
  lemma MoreResourcesThanProcessesFaults(numResources: Usize, numProcesses: Usize,
                                          alloc: seq<seq<Usize>>, claim: seq<seq<Usize>>, amount: Usize)
    requires IsMatrix(alloc, numProcesses, numResources)
    requires IsMatrix(claim, numProcesses, numResources)
    requires 0 < numProcesses < numResources
    ensures AllocationVerdict(numResources, numProcesses, alloc, claim, 0, numProcesses, amount) == IndexOutOfBounds
  {
  }

  /**
   * The addition can overflow only on a request the claim check would reject
   * anyway: a claim is itself a usize, so an overflowing sum exceeds it.
   */
  lemma OverflowOnlyBeyondClaim(numResources: Usize, numProcesses: Usize,
                                alloc: seq<seq<Usize>>, claim: seq<seq<Usize>>,
                                process: Usize, resource: Usize, amount: Usize)
    requires IsMatrix(alloc, numProcesses, numResources)
    requires IsMatrix(claim, numProcesses, numResources)
    requires AllocationVerdict(numResources, numProcesses, alloc, claim, process, resource, amount) == Overflow
    ensures alloc[resource][process] + amount > claim[resource][process]
  {
  }

  /**
   * Once a cell holds a unit, a request of USIZE_MAX for it overflows. No
   * state the source builds gets there: `new` zeroes every allocation and
   * nothing writes to it afterwards (see InitialSquareStateAcceptsUpToClaim).
   */
  lemma OverflowOnceAllocated(numResources: Usize, alloc: seq<seq<Usize>>, claim: seq<seq<Usize>>,
                              process: Usize, resource: Usize)
    requires IsMatrix(alloc, numResources, numResources)
    requires IsMatrix(claim, numResources, numResources)
    requires resource < numResources && process < numResources
    requires alloc[resource][process] > 0
    ensures AllocationVerdict(numResources, numResources, alloc, claim, process, resource, USIZE_MAX) == Overflow
  {
  }

  /**
   * On a square state nothing panics unless the sum overflows, and a request
   * is granted exactly when it is in range and stays within the claim.
   */
  lemma SquareVerdict(numResources: Usize, alloc: seq<seq<Usize>>, claim: seq<seq<Usize>>,
                      process: Usize, resource: Usize, amount: Usize)
    requires IsMatrix(alloc, numResources, numResources)
    requires IsMatrix(claim, numResources, numResources)
    ensures var v := AllocationVerdict(numResources, numResources, alloc, claim, process, resource, amount);
            && !v.IndexOutOfBounds?
            && (v == WrongParameters <==> resource >= numResources || process >= numResources)
            && (v == Granted <==> resource < numResources && process < numResources &&
                                  alloc[resource][process] + amount <= claim[resource][process])
            && (v.Overflow? <==> resource < numResources && process < numResources &&
                                 alloc[resource][process] + amount > USIZE_MAX)
  {
  }

  /**
   * On a freshly built square state (nothing allocated), an in-range request
   * is granted exactly when the amount is at most the claim, and no request
   * panics.
   */
  lemma FreshStateGrantsUpToClaim(numResources: Usize, alloc: seq<seq<Usize>>, claim: seq<seq<Usize>>,
                                  process: Usize, resource: Usize, amount: Usize)
    requires IsMatrix(alloc, numResources, numResources) && AllZero(alloc)
    requires IsMatrix(claim, numResources, numResources)
    ensures AllocationVerdict(numResources, numResources, alloc, claim, process, resource, amount)
            == if resource >= numResources || process >= numResources then WrongParameters
               else if amount > claim[resource][process] then WrongRequest
               else Granted
  {
  }

  /** The fields of `BankerAlgorithmData` (rust/banker.rs:14-23). */
  class BankerAlgorithmData {
    const numResources: Usize
    const numProcesses: Usize
    const resources: array<Usize>
    const claim: array2<Usize>
    const available: array<Usize>
    const alloc: array2<Usize>
    const running: array<bool>
    const monitorCv: seq<Condvar>

    /** Every array has the dimensions its Rust type gives it. */
    ghost predicate Valid() {
      && resources.Length == numResources
      && claim.Length0 == numProcesses && claim.Length1 == numResources
      && available.Length == numResources
      && alloc.Length0 == numProcesses && alloc.Length1 == numResources
      && running.Length == numProcesses
      && |monitorCv| == numResources
      && resources != available && claim != alloc
    }

    /** The state `new(resources, claim)` builds. */
    ghost predicate IsInitialFor(resources0: seq<Usize>, claim0: seq<seq<Usize>>)
      reads resources, available, claim, alloc, running
    {
      && Valid()
      && numResources == |resources0| && numProcesses == |claim0|
      && resources[..] == resources0
      && available[..] == resources0
      && Rows(claim) == claim0
      && AllZero(Rows(alloc))
      && (forall p :: 0 <= p < numProcesses ==> running[p])
    }

    /**
     * `BankerAlgorithmData::new`: both capacity vectors are copies of
     * `resources0`, the claim a copy of `claim0`, nothing is allocated and
     * every process is running.
     */
    constructor (resources0: seq<Usize>, claim0: seq<seq<Usize>>)
      requires |resources0| <= USIZE_MAX && |claim0| <= USIZE_MAX
      requires IsMatrix(claim0, |claim0|, |resources0|)
      ensures IsInitialFor(resources0, claim0)
      ensures fresh(resources) && fresh(available) && fresh(claim) && fresh(alloc) && fresh(running)
    {
      var r := |resources0|;
      var p := |claim0|;
      numResources := r;
      numProcesses := p;
      resources := new Usize[r](i requires 0 <= i < r => resources0[i]);
      available := new Usize[r](i requires 0 <= i < r => resources0[i]);
      claim := new Usize[p, r]((i, j) requires 0 <= i < p && 0 <= j < r => claim0[i][j]);
      alloc := new Usize[p, r]((i, j) => 0);
      running := new bool[p](i => true);
      var cv := InitCv(resources0);
      monitorCv := cv;
      new;
      assert Rows(claim) == claim0 by {
        var m := Rows(claim);
        assert |m| == |claim0|;
        forall i | 0 <= i < p ensures m[i] == claim0[i] {
          assert |m[i]| == |claim0[i]|;
        }
      }
    }

    /** `init_cv`: one condition per resource. */
    static method InitCv(resources0: seq<Usize>) returns (v: seq<Condvar>)
      ensures |v| == |resources0|
    {
      v := [];
      for i := 0 to |resources0|
        invariant |v| == i
      {
        v := v + [Condvar];
      }
    }
  }

  /** `BankerAlgorithm`: the shared state, behind a mutex in the source. */
  class BankerAlgorithm {
    const data: BankerAlgorithmData

    /** `BankerAlgorithm::new`: wraps a freshly built state. */
    constructor (resources0: seq<Usize>, claim0: seq<seq<Usize>>)
      requires |resources0| <= USIZE_MAX && |claim0| <= USIZE_MAX
      requires IsMatrix(claim0, |claim0|, |resources0|)
      ensures fresh(data) && data.IsInitialFor(resources0, claim0)
      ensures fresh(data.resources) && fresh(data.available) && fresh(data.claim) &&
              fresh(data.alloc) && fresh(data.running)
    {
      data := new BankerAlgorithmData(resources0, claim0);
    }

    /**
     * `allocate_resource`: the parameter check, then the claim check; it
     * reads only the allocation and claim matrices and changes nothing.
     * The requires is the Rust code's own safety obligation: a call that
     * passes the parameter check must index both matrices in bounds and the
     * addition must not overflow.
     */
    function AllocateResource(process: Usize, resource: Usize, amount: Usize): (ok: bool)
      reads data.alloc, data.claim
      requires data.Valid()
      requires resource < data.numResources && process < data.numProcesses ==>
                 resource < data.numProcesses && process < data.numResources &&
                 data.alloc[resource, process] + amount <= USIZE_MAX
      ensures ok <==> resource < data.numResources && process < data.numProcesses &&
                      data.alloc[resource, process] + amount <= data.claim[resource, process]
      ensures var v := AllocationVerdict(data.numResources, data.numProcesses,
                                         Rows(data.alloc), Rows(data.claim), process, resource, amount);
              !v.Panics() && (ok <==> v == Granted)
    {
      if resource >= data.numResources || process >= data.numProcesses then false
      else if data.alloc[resource, process] + amount > data.claim[resource, process] then false
      else true
    }

    /**
     * On the state `new` builds with NUM_RESOURCES == NUM_PROCESSES, every
     * call meets the precondition of AllocateResource, and an in-range
     * request is granted exactly when the amount is at most its claim.
     */
    static lemma InitialSquareStateAcceptsUpToClaim(b: BankerAlgorithm, resources0: seq<Usize>, claim0: seq<seq<Usize>>,
                                                     process: Usize, resource: Usize, amount: Usize)
      requires b.data.IsInitialFor(resources0, claim0)
      requires |resources0| == |claim0|
      ensures resource < b.data.numResources && process < b.data.numProcesses ==>
                resource < b.data.numProcesses && process < b.data.numResources &&
                b.data.alloc[resource, process] + amount <= USIZE_MAX
      ensures b.AllocateResource(process, resource, amount) <==>
                resource < |resources0| && process < |claim0| && amount <= claim0[resource][process]
    {
    }

    /** `is_safe`: a stub that accepts every state. */
    static function IsSafe(): (safe: bool)
      ensures safe
    {
      true
    }
  }

  /** The demo configuration: three resources, three processes. */
  method Demo() {
    var claim := [[70, 70, 50], [1, 1, 0], [0, 0, 1]];
    var resources := [100, 1, 1];
    var banker := new BankerAlgorithm(resources, claim);
    assert Rows(banker.data.alloc)[0][1] == 0;
    assert banker.AllocateResource(1, 0, 70);
    assert !banker.AllocateResource(1, 0, 71);
    assert !banker.AllocateResource(3, 0, 1);
    assert !banker.AllocateResource(0, 2, 2);
  }
}
