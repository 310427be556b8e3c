# Layered configuration merge and oneshot cell, modelled in Dafny

This project models two pieces of sequential logic in a small Rust example
repository.

- **Layered configuration** (`examples/config.rs`). A `Config` has a server
  section (a `u16` port) and a database section (host, database name, user and
  password strings). `merge` lays an overlay over a base field by field. A field
  is replaced only when the overlay's value is "set": a port is set when it is
  non-zero, and a string is set when it is non-empty. `Config::load` loads the
  default layer, then matches the environment name. `"prod"` and `"dev"` each
  overlay their own fixture file. Any other name panics.
- **Oneshot cell** (`examples/oneshot.rs`). The sender and the receiver share
  one cell: an `is_filled` flag and an optional value. `send` moves the flag
  from false to true and stores the value, or hands the value back. `recv` moves
  the flag from true to false and takes the value out, or fails with "Sender
  has not sent a value yet". Each call is modelled as one indivisible step on a
  plain state record, and returns `(result, new cell)`.

Files:

- `results.dfy`: module `Results`, the `Ok`/`Err` result type.
- `config.dfy`: module `ConfigMerge`, with the records, the three merges, `Load`
  and the merge laws.
- `oneshot.dfy`: module `Oneshot`, with the cell, `Channel`, `Send`, `Recv` and
  single-step lemmas.
- `oneshot_runs.dfy`: module `OneshotRuns`, with runs of many calls on one cell
  and what they deliver.

The prod and dev fixtures are read from disk and parsed by a YAML library;
the default layer is embedded at build time and only parsed. `Load` therefore
takes a function `fixture(path)`, which gives the outcome of loading the layer
at `path`. The paths are the ones the source uses.

The code does not enforce a single send per cell. A successful `recv` sets
the flag back to false, so a later `send` succeeds again
(`Oneshot.RecvResetsFlag`, `OneshotRuns.SendRecvRecvSend`). The model claims only what holds across any sequence of calls:
values come out in the order they went in, none twice and none lost
(`OneshotRuns.FreshRunDelivers`).

## Model

| member | source | states |
|---|---|---|
| ConfigMerge.MergeServer | examples/config.rs:60-66 | always `Ok`; the port becomes the overlay's port when that port is non-zero, and otherwise stays the base port |
| ConfigMerge.MergeDatabase | examples/config.rs:69-84 | always `Ok`; each of host, dbname, user and password becomes the overlay's string exactly when that string is non-empty, and otherwise stays the base string |
| ConfigMerge.Merge | examples/config.rs:87-93 | always `Ok`; the server section is the server merge of the two server sections, and the database section is the database merge of the two database sections |
| ConfigMerge.Load | examples/config.rs:35-57 | a failing default layer fails first, whatever the environment; with good defaults, an environment other than "prod" or "dev" panics; "prod" and "dev" succeed exactly when their own fixture loads, and the result is that fixture merged over the defaults; a failing fixture passes its error through |
| ConfigMerge.MergeDatabaseFieldwise | examples/config.rs:70-84 | for every database field, the merged value is the overlay's value if that is non-empty, and the base's value otherwise |
| ConfigMerge.MergeDatabaseFieldsIndependent | examples/config.rs:71-82 | nothing else changes: a merged database field depends only on the same field of the base and of the overlay |
| ConfigMerge.MergeDefaultOverlayIsIdentity | examples/config.rs:8-32 | merging the derived default config (port 0, empty strings) leaves any base unchanged |
| ConfigMerge.MergeOntoDefaultYieldsOverlay | examples/config.rs:8-32 | merging any overlay onto the derived default config yields that overlay |
| ConfigMerge.MergeIdempotent | examples/config.rs:60-93 | merging the same overlay a second time gives the same result as merging it once |
| ConfigMerge.MergeAssociative | examples/config.rs:60-93 | overlaying b and then c onto a equals overlaying onto a the layer made by overlaying c onto b |
| ConfigMerge.LoadReadsOnlyItsOwnLayer | examples/config.rs:35-51 | the load result depends only on the default fixture and on the fixture of the chosen environment |
| ConfigMerge.LoadEmptyLayerKeepsDefaults | examples/config.rs:35-51 | for "prod" or "dev", an environment layer that sets nothing loads the defaults unchanged |
| Oneshot.Channel | examples/oneshot.rs:21-28 | a new cell is unfilled, has an empty slot, and satisfies the flag/slot invariant |
| Oneshot.Send | examples/oneshot.rs:31-43 | on an unfilled cell: `Ok`, the flag is set, and the slot holds exactly the given value; on a filled cell: `Err` with the same value, and the cell is unchanged; the flag/slot invariant is kept |
| Oneshot.Recv | examples/oneshot.rs:46-59 | on an unfilled cell: fails with "not sent yet", and the cell is unchanged; on a filled cell: returns the stored value and leaves the cell unfilled and empty; with the flag set but the slot empty: fails with "No value"; under the invariant, it never reaches that error |
| Oneshot.RecvSucceedsIffSendRefused | examples/oneshot.rs:32-58 | on a valid cell, `recv` succeeds exactly when `send` would be refused |
| Oneshot.SendThenRecv | examples/oneshot.rs:32-56 | round trip from a new channel: `send(v)` succeeds, then `recv()` returns `v` and leaves the cell like a new one |
| Oneshot.SendRecvRoundTrip | examples/oneshot.rs:32-56 | round trip on any unfilled cell, whatever its slot held: `recv` after `send(v)` returns `v`, and the cell ends unfilled and empty |
| Oneshot.SecondSendRefused | examples/oneshot.rs:32-42 | a second `send` before any `recv` returns its own value as `Err`, and the first value stays in the slot |
| Oneshot.RecvResetsFlag | examples/oneshot.rs:47-58 | after a successful `recv`, a second `recv` fails with "not sent yet", and a later `send` succeeds because the flag was reset |
| OneshotRuns.Step | examples/oneshot.rs:31-59 | one call keeps the invariant; what was held plus what the call put in equals what it took out plus what is held afterwards; a send reports its own value |
| OneshotRuns.Run | examples/oneshot.rs:31-59 | a run yields one event per call and keeps the flag/slot invariant |
| OneshotRuns.RunConserves | examples/oneshot.rs:31-59 | conservation over any run from a valid cell: the value held at the start plus all values sent, in order, equals all values received plus the value held at the end |
| OneshotRuns.FreshRunDelivers | examples/oneshot.rs:21-59 | from a new channel, the received values are a prefix of the sent values, and exactly one sent value is still pending when the cell ends filled (none otherwise) |
| OneshotRuns.RecvOnUnfilledRepeats | examples/oneshot.rs:47-58 | repeated `recv` on an unfilled cell fails with "not sent yet" every time and never changes the cell |
| OneshotRuns.SendOnFilledRepeats | examples/oneshot.rs:32-42 | repeated `send` on a filled cell hands back each value unchanged and never changes the cell |
| OneshotRuns.RecvNeverNoValue | examples/oneshot.rs:48-55 | in any run from a valid cell, no `recv` fails with "No value": the flag-set-but-slot-empty state is never reached by whole steps |
| OneshotRuns.SendRecvRecvSend | examples/oneshot.rs:32-58 | send 42, receive 42, fail a second receive with "not sent yet", then send 7 successfully |

## Left out

- `examples/thread_pool.rs`: its behaviour is concurrency: worker threads, a mutex-guarded shared receiver, a bounded channel library, and shutdown when the pool is dropped.
- `examples/axum_handler.rs`, `examples/log.rs`, `examples/asref_borrow.rs`: an async web server, logging setup, and a one-line `Borrow` impl. None has sequential logic of its own.
- File reading and YAML parsing in `Config::load` and `load_default` (examples/config.rs:39-40, 44-45, 55). These are I/O and a foreign parser. Their outcome per path is the `fixture` parameter of `ConfigMerge.Load`.
- ConfigMerge.Load: the default layer is embedded by `include_str!` (examples/config.rs:54), so a missing file is a build error and at run time only the parse at examples/config.rs:55 can fail. `fixture(DefaultPath)` may still return `ReadFailed`; the model over-approximates the default layer's failures here.
- The `serde(default)` filling of missing fields happens during parsing. Only its effect is modelled: an unset field holds port 0 or the empty string.
- Interleavings in the oneshot cell, for example a `recv` between the compare-and-swap at examples/oneshot.rs:35 and the store at :38. Each call is one atomic step.
- The "Multiple receivers" failure of `Arc::try_unwrap` (examples/oneshot.rs:56). It depends on reference-count state, which the plain cell does not carry.
- The "No value" branch (examples/oneshot.rs:55) is kept in `Oneshot.Recv` as `NoValue`. Only a cell that breaks the flag/slot invariant reaches it, and no sequence of whole steps produces such a cell.
- The `Deref` impls and the two `main` functions: they are plumbing and demonstrations.
