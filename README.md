# Template pallet accumulator — a Dafny model

The template pallet keeps one persistent record, `Accumulation { current_count, increment_per_call }`
(both `u128`), under the storage item `Acc`. Two dispatchable calls change it:

- `set_increment(origin, increment)` — a signed caller replaces `increment_per_call`; the count is kept and
  no event is deposited.
- `accumulate(origin)` — a signed caller adds `increment_per_call` to `current_count` with checked `u128`
  addition. On overflow the call fails with `AccumulationOverflow` before anything is written; otherwise the
  new record is written and then `Accumulated(new_count, caller)` is deposited.

The model (module `TemplatePallet`, file `template_pallet.dfy`):

- `U128` is the subset type `0 <= x <= 2^128 - 1`, so every stored count and increment is in range by
  construction, and `CheckedAdd` is `u128::checked_add` returning an `Option`.
- `Accumulation`, `Event` (`Accumulated(count, who)`), `DispatchError` (`BadOrigin`, `AccumulationOverflow`)
  and `DispatchResult` are datatypes. The origin is an `Option<AccountId>`: `None` is an unsigned origin,
  `Some(who)` a signed one whose account is `who`.
- `Step` is the reference transition over a `Snapshot` (stored record plus event log).
- Class `Pallet` holds the storage item as the field `acc` and the deposited events as the append-only field
  `events`. Its methods `SetIncrement` and `Accumulate` follow the source statement by statement (origin
  check, read `acc`, update one field, write back, then deposit) and are proved both against explicit
  postconditions and equal to `Step`.

Module `TemplatePalletRuns` (file `template_pallet_runs.dfy`) folds `Step` over any sequence of extrinsics
(`Run`) and proves what holds across runs, plus the worked scenarios. `ScenarioOnPallet` drives the same
scenario through the class's methods.

The code checks the origin itself (`ensure_signed`) and returns the runtime's `BadOrigin` error for an unsigned
origin; the model follows the code and makes `BadOrigin` a result of both calls, rather than treating
authentication as happening entirely before the pallet is reached.

## Model

| member | source | states |
|---|---|---|
| `TemplatePallet.CheckedAdd` | pallets/template/src/lib.rs:82 | the result is present exactly when `a + b` fits in 128 bits, and is then the exact sum, no smaller than either operand |
| `TemplatePallet.Step` | pallets/template/src/lib.rs:66-89 | a failed dispatch changes neither storage nor the log; the result is `BadOrigin` exactly when the origin is unsigned; a signed `set_increment` succeeds and only replaces the increment; a signed `accumulate` fails with `AccumulationOverflow` iff count + step exceeds `2^128 - 1` and succeeds iff it does not, and on success stores `{c + k, k}` and appends exactly `Accumulated(stored count, caller)`; the count never decreases and the log is append-only |
| `TemplatePallet.Pallet.constructor` | pallets/template/src/lib.rs:18-24 | a fresh store reads `Acc` as `{0, 0}` and has deposited no events; its state is `Genesis`, so the lemmas stated from `Genesis` apply to a new pallet |
| `TemplatePallet.Pallet.Acc` | pallets/template/src/lib.rs:35 | the getter returns the stored record |
| `TemplatePallet.Pallet.SetIncrement` | pallets/template/src/lib.rs:66-75 | unsigned origin: `BadOrigin` and nothing changes; signed: `Ok`, the increment becomes the argument, the count is kept, no event; the effect equals `Step` |
| `TemplatePallet.Pallet.Accumulate` | pallets/template/src/lib.rs:78-89 | `BadOrigin` exactly when the origin is unsigned; signed: `AccumulationOverflow` iff count + step exceeds `2^128 - 1`, and `Ok` iff it does not; any error leaves storage and log unchanged; success writes `{c + k, k}` and then appends one event carrying the written count and the caller; the effect equals `Step` |
| `TemplatePalletRuns.Run` | pallets/template/src/lib.rs:66-89 | across any sequence of dispatches the count never decreases and earlier events are never changed or removed |
| `TemplatePallet.Genesis` | pallets/template/src/lib.rs:18-24 | the state of a fresh store is `{0, 0}` with an empty log |
| `TemplatePalletRuns.GenesisTracksCount` | pallets/template/src/lib.rs:18-24 | a fresh store satisfies the invariant that the log agrees with the stored count |
| `TemplatePalletRuns.StepKeepsLogTracksCount` | pallets/template/src/lib.rs:81-86 | one dispatch keeps event counts non-decreasing and the stored count equal to the latest event's count (0 if none), because the event is emitted with the value just written |
| `TemplatePalletRuns.RunKeepsLogTracksCount` | pallets/template/src/lib.rs:66-89 | any sequence of dispatches keeps that invariant |
| `TemplatePalletRuns.FromGenesisEventsAgreeWithStorage` | pallets/template/src/lib.rs:81-86 | from a fresh store, after any run, every event's count is at most the stored count, the latest event carries exactly the stored count, and with no event the count is 0 |
| `TemplatePalletRuns.SetIncrementsLeaveCountAndLog` | pallets/template/src/lib.rs:66-75 | any run of `set_increment` calls leaves the count and the event log unchanged |
| `TemplatePalletRuns.UnsignedRunChangesNothing` | pallets/template/src/lib.rs:67-79 | dispatches of either call from unsigned origins leave the whole state unchanged, since both calls check the origin first (lines 67 and 79) |
| `TemplatePalletRuns.SetIncrementLastWriteWins` | pallets/template/src/lib.rs:69-72 | two signed `set_increment(x)`, `set_increment(y)` leave increment `y`, the original count and the original log |
| `TemplatePalletRuns.ScenarioFromGenesis` | pallets/template/src/lib.rs:66-89 | from `{0, 0}`: `set_increment(5)` gives `{0, 5}`; `accumulate` by `u1` gives `{5, 5}` and `Accumulated(5, u1)`; `accumulate` by `u2` then gives `{10, 5}` and `Accumulated(10, u2)` |
| `TemplatePalletRuns.ScenarioOnPallet` | pallets/template/src/lib.rs:66-89 | through the class's methods from a new pallet: `set_increment(5)`, `accumulate` by `u1`, `accumulate` by `u2` and an unsigned `accumulate` end with `{10, 5}`, the log `[Accumulated(5, u1), Accumulated(10, u2)]` and `BadOrigin` for the last call |
| `TemplatePalletRuns.ScenarioOverflow` | pallets/template/src/lib.rs:81-82 | from `{2^128 - 3, 5}`, `accumulate` fails with `AccumulationOverflow` and the state, log included, is unchanged |

## Left out

- The FRAME declaration macros (`decl_module!`, `decl_storage!`, `decl_event!`, `decl_error!`) and the
  `deposit_event` plumbing: modelled as the class's fields, methods and event sequence.
- SCALE `Encode`/`Decode` derivations: library serialisation, not part of this model.
- How `ensure_signed` inspects an origin: the origin is an already-authenticated `Option<AccountId>`.
- `#[weight = 100]`, the `Trait` configuration and the conversion of the pallet's event into the runtime's:
  fee and wiring concerns with no effect on the state.
- The `mock` and `tests` modules: test scaffolding; `mock.rs` and `tests.rs` are not part of this model.
- Host-side persistence, transaction rollback, block ordering and event delivery: the host environment's job.
  Dispatches are modelled as running one at a time.
- `events` is this pallet's cumulative, append-only log of every event it has deposited; the runtime clears its
  event store at the start of each block, and that per-block clearing is a host concern not modelled here.
