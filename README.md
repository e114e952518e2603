# Banker's-algorithm allocator: state record and allocation front end

This project models the early Rust draft of a Banker's-algorithm allocator in
`rust/banker.rs`. The draft has two parts that carry logic:

- the accounting record `BankerAlgorithmData`, with its resource vector, claim
  matrix, available vector, allocation matrix, running flags and one condition
  variable per resource;
- `allocate_resource`, which rejects out-of-range indices, rejects a request
  whose `alloc + amount` exceeds the claim, and otherwise returns true without
  changing anything.

`is_safe` is a stub that returns true. `release` and `terminate` exist only as
comments.

Everything is in one module, `Banker` (`banker.dfy`):

- `BankerAlgorithmData` is a class whose fields are the struct's fields. The fixed
  Rust arrays are Dafny arrays. The two matrices are `array2` values with the
  dimensions the Rust type gives them: `Length0 == NUM_PROCESSES` and
  `Length1 == NUM_RESOURCES`. The constructor copies its inputs the way `new`
  clones them. `InitCv` is the `for` loop of `init_cv`. A condition variable is
  an opaque token (`Condvar`), and only how many of them exist is modelled.
- `BankerAlgorithm` wraps the state, which the source places behind
  `Arc<Mutex<..>>`. `AllocateResource` is a function that reads only the
  allocation and claim matrices, as the source does. Because a function cannot
  change state, every field is unchanged on every path.
- `AllocationVerdict` is the total semantics of `allocate_resource` over the
  matrices as values. It keeps the Rust evaluation order and has two extra
  outcomes for the two ways the call can panic: an out-of-bounds
  `[resource][process]` index, and a `usize` overflow of `alloc + amount`
  (checked arithmetic, as in a debug build).
- `Demo` builds the state from `main`'s demo inputs (three resources, three
  processes) and checks a few requests against it.

The key point is the index discipline. The matrices have outer length
`NUM_PROCESSES` but are indexed `[resource][process]`, and the guard bounds
`resource` only by `NUM_RESOURCES`. `AllocateResource` therefore requires
every call that passes the guard to be in bounds and not to overflow.
`InBoundsForEveryCallIffSquare` proves that every such call is in bounds
exactly when `NUM_RESOURCES == NUM_PROCESSES` (or one of them is zero). The
demo's 3×3 configuration meets this condition.

`usize` is taken to be 64 bits wide (`USIZE_MAX`).

## Model

| member | source | states |
|---|---|---|
| `Banker.BankerAlgorithmData.constructor` | rust/banker.rs:27-40 | `m_resources` and `m_available` both equal the supplied resource vector and `m_claim` equals the supplied claim matrix, each in a fresh array; every `m_alloc` entry is 0; every `m_running` flag is true; `m_num_resources`/`m_num_processes` are the two dimensions; there is one condition per resource |
| `Banker.BankerAlgorithmData.InitCv` | rust/banker.rs:42-49 | the loop produces exactly one condition per element of `resources`, so the vector's length is `NUM_RESOURCES` |
| `Banker.BankerAlgorithm.constructor` | rust/banker.rs:55-59 | the wrapper holds a fresh state record in the initial state described above, and every array of that record is fresh as well, so the wrapper owns its arrays outright |
| `Banker.AllocationVerdict` | rust/banker.rs:69-82 | the outcome of `allocate_resource` as written, in Rust's evaluation order: the parameter failure happens exactly for out-of-range indices, whatever the matrices hold; the two panics (out-of-bounds `[resource][process]`, overflowing `alloc + amount`) can only follow a call that passed the range check; a grant indexes both matrices in bounds and is within the claim |
| `Banker.BankerAlgorithm.AllocateResource` | rust/banker.rs:61-83 | under the explicit preconditions (a call that passes the range check indexes `[resource][process]` in bounds, and `alloc + amount` fits in `usize`), returns true exactly when both indices are in range and `alloc[resource][process] + amount <= claim[resource][process]`; it reads only `m_alloc` and `m_claim`; it agrees with `AllocationVerdict` and never reaches one of its panic outcomes |
| `Banker.InBoundsForEveryCallIffSquare` | rust/banker.rs:69-76 | every call that passes the range check at line 69 indexes the `NUM_PROCESSES`-by-`NUM_RESOURCES` matrices in bounds if and only if `NUM_RESOURCES == NUM_PROCESSES` (or a dimension is 0, so that no call passes the check) |
| `Banker.MoreResourcesThanProcessesFaults` | rust/banker.rs:69-76 | with `0 < NUM_PROCESSES < NUM_RESOURCES`, the request for resource `NUM_PROCESSES` by process 0 passes the range check and then indexes out of bounds |
| `Banker.OverflowOnlyBeyondClaim` | rust/banker.rs:76 | when `alloc + amount` overflows `usize`, the request exceeds the claim, so with unbounded arithmetic the claim check would have rejected it |
| `Banker.OverflowOnceAllocated` | rust/banker.rs:76 | on a square state where a cell already holds a unit, a request of `usize::MAX` units for that cell overflows the addition (such a state is not one the source builds, since `new` zeroes `m_alloc` and nothing writes to it) |
| `Banker.BankerAlgorithm.InitialSquareStateAcceptsUpToClaim` | rust/banker.rs:34 | on the state `new` builds with `NUM_RESOURCES == NUM_PROCESSES`, every call meets `AllocateResource`'s preconditions (in bounds, no overflow), and an in-range request is granted exactly when `amount` is at most its claim |
| `Banker.SquareVerdict` | rust/banker.rs:69-82 | on a square state no call indexes out of bounds; the range check rejects exactly the out-of-range indices; a call is granted exactly when it is in range and within the claim; it overflows exactly when in range and the sum exceeds `usize::MAX` |
| `Banker.FreshStateGrantsUpToClaim` | rust/banker.rs:61-83 | on a square state where nothing is allocated yet (as `new` leaves it), an in-range request is granted exactly when `amount <= claim[resource][process]`, is rejected as a wrong request otherwise, and nothing panics |
| `Banker.BankerAlgorithm.IsSafe` | rust/banker.rs:87-89 | the stub reports every state as safe |

## Left out

- Locking: `Arc<Mutex<..>>` and `lock().unwrap()`. These are concurrency plumbing, and the model is single-threaded.
- The waiting and waking behaviour of the `Condvar` objects. This is concurrency; only how many condition variables exist is modelled.
- The `println!` diagnostics in `allocate_resource` and `main`. This is console output.
- `print_state`. It is an empty stub.
- `release` and `terminate`. The source has them only as commented-out signatures, so there is no behaviour to model.
- The safe-sequence search. The source's `is_safe` is a constant.
- Allocation never commits a provisional grant. `allocate_resource` in this draft changes no state.
- The conservation invariant (available plus allocations equals capacity) is not stated. The draft has no operation that moves units, so the only state it could be checked on is the initial one, where the constructor's contract already implies it.
- `main`. It appears only as the demo inputs used by `Demo`.
- `AllocationVerdict`: models a debug build, where an overflowing `usize` addition panics. A release build would wrap around, and that is not modelled. Under wrap-around, `alloc = 1` and `amount = usize::MAX` sum to 0, so this over-claim request would be granted. `OverflowOnlyBeyondClaim` shows that every overflowing request exceeds its claim.
- `USIZE_MAX`: `usize` is assumed to be 64 bits wide. Rust's `usize` has the pointer width of the target, and other widths are not modelled.
- `BankerAlgorithmData.constructor`: requires the claim matrix to be `NUM_PROCESSES` rows of `NUM_RESOURCES` entries, with both dimensions fitting in a `usize`. In the source, Rust's array types enforce this.
