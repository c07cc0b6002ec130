# Wildcard detection and connectivity preflight of a content-discovery scanner

This project models `src/heuristics.rs` of feroxbuster, a recursive
directory and file brute-forcer. Before scanning, the scanner does two things.
It checks which targets answer at all. Then, for each target, it probes for a
"wildcard" catch-all response: a 2xx/3xx reply to paths that cannot exist. It
probes with random tokens of known length and compares the two response
lengths. From that comparison it derives a `WildcardFilter`, which later
suppresses hits that are only the catch-all response.

Modules:

- `Types`: Rust's `u64` and `u16` as subset types of `int`. Also `+` and `-` on
  `u64` with the wrap-around of a release build, and an `Option` datatype.
- `Filters`: the `WildcardFilter { size, dynamic }` value and its default `{0, 0}`.
  It also holds the documented meaning of both fields (`IsWildcardNoise`).
- `Tokens`: `unique_string`. It is a loop that pushes one 32-character
  lower-case hex UUID block per unit onto a vector and then joins the vector.
  The random UUID source is a parameter `draw: nat -> Block`, where block `i`
  is what the `i`-th call of `Uuid::new_v4` within one `unique_string` call
  yields. Two calls given the same `draw` return the same token.
- `Dispatch`: the channel towards the output-file task, as a class with a
  message queue and a receiver-open flag, and `try_send_message_to_file`.
- `Wildcard`: `make_wildcard_request` and `wildcard_test`, both as functions.
  Each probe's HTTP exchange is an input. Either `format_url` failed, or
  `make_request` failed, or a reply arrived with its status, content length,
  URL path length, `Location` header and the response-filter verdict. The
  classifier returns the filter, the number of probes it issued and the
  advisory messages it emitted, in order.
- `Connectivity`: `connectivity_test`, as a method with a loop over the
  targets. The outcome of each target's preflight request is a parameter
  `attempt: nat -> Attempt`. `process::exit(1)` becomes the result `Exit(1)`.

Integer behaviour: `wc_length + UUID_LENGTH * 2` and `wc_length - url_len` are
`u64` operations. The model computes them as a release build does, wrapping
around. So when the URL path is longer than the first wildcard response, the
dynamic offset wraps to `L1 - P + 2^64` (`Wildcard.DynamicOffsetUnderflow`).

## Model

| member | source | states |
|---|---|---|
| `Types.WrappingAdd` | src/heuristics.rs:81 | `u64` addition: the exact sum when it fits, the sum minus 2^64 otherwise |
| `Types.WrappingSub` | src/heuristics.rs:86 | `u64` subtraction: the exact difference when `b <= a`, the difference plus 2^64 otherwise |
| `Tokens.Draws` | src/heuristics.rs:26-28 | the loop draws `n` blocks, and block `k` is the `k`-th UUID drawn |
| `Tokens.JoinBlocks` | src/heuristics.rs:17-30 | joining `n` UUID blocks gives exactly `32 * n` lower-case hex characters, with block `k` at offset `32 * k` |
| `Tokens.UniqueString` | src/heuristics.rs:17-34 | the result is the join of `length` freshly drawn blocks, in draw order. Its length is exactly `32 * length`, so `0` yields the empty string. It is all lower-case hex |
| `Tokens.ProbeTokenDelta` | src/heuristics.rs:74-81 | the 3-unit token of the second probe is exactly `2 * UUID_LENGTH = 64` characters longer than the 1-unit token of the first |
| `Dispatch.Channel.constructor` | src/heuristics.rs:353 | a new unbounded channel is empty and its receiver is open |
| `Dispatch.Channel.CloseReceiver` | src/heuristics.rs:382 | closing the receiver keeps the queued messages and refuses new ones |
| `Dispatch.Channel.Send` | src/heuristics.rs:308 | an open receiver gets the message appended unchanged. A closed receiver leaves the queue unchanged and hands the message back as a send error |
| `Dispatch.Channel.TryRecv` | src/heuristics.rs:358 | the receiver takes the oldest queued message, or gets `None` when nothing is queued |
| `Dispatch.TrySendMessageToFile` | src/heuristics.rs:302-325 | the message is appended unchanged only when `save_output` is set and the receiver is open. Otherwise the queue is unchanged. Either way the call returns normally |
| `Dispatch.SendWhenSaving` | src/heuristics.rs:349-359 | with saving on and the receiver open, the receiver gets exactly the message sent |
| `Dispatch.SendWhenNotSaving` | src/heuristics.rs:361-371 | with saving off, the receiver gets nothing |
| `Dispatch.SendWithClosedReceiver` | src/heuristics.rs:373-384 | with the receiver closed, the send is swallowed and nothing is delivered |
| `Wildcard.WildcardRequest` | src/heuristics.rs:146-242 | a probe returns the reply exactly when formatting and the request succeed and the status is in the configured set. Format errors, transport errors and other statuses give `None`. It emits a "Got" message unless quiet or filtered, plus a redirect message naming the `Location` target only for a 3xx reply carrying that header. Nothing is emitted for a miss, a suppressed reply or in quiet mode |
| `Wildcard.WildcardTest` | src/heuristics.rs:40-138 | the result is `None` exactly when filtering is off or the first probe misses. With filtering off no probe is issued. The second probe is issued exactly when the first response is non-empty. At most one filter field is set. Quiet mode emits nothing. A one-probe run emits exactly the first probe's messages. A two-probe run emits the first probe's messages, then the second's, then at most one verdict message, "static" or "dynamic", carrying the filter's value |
| `Wildcard.DontFilterSkipsProbes` | src/heuristics.rs:52-56 | `--dont-filter` returns `None` with no probe and no message |
| `Wildcard.FirstProbeMissMeansNoFilter` | src/heuristics.rs:61 | a first (1-unit) probe that finds nothing gives `None` after one probe |
| `Wildcard.ZeroLengthWildcard` | src/heuristics.rs:65-72 | an empty first wildcard response gives `Some({0, 0})`, without a second probe and with no message beyond the first probe's |
| `Wildcard.DynamicWildcardOffset` | src/heuristics.rs:81-105 | `L2 == L1 + 64` gives `{size: 0, dynamic: L1 - P}` when `P <= L1`, which is the inert `{0, 0}` when `P == L1`. When `P < L1` that filter marks the first probe's response as noise, and also the second's when that path is 64 characters longer. Unless quiet, the messages are the two probes' messages followed by one "dynamic" message carrying the offset |
| `Wildcard.DynamicOffsetUnderflow` | src/heuristics.rs:84-86 | with `P > L1` the offset wraps to `L1 - P + 2^64`, a value larger than the first response's length. Unless quiet, the "dynamic" message with that offset follows the two probes' messages |
| `Wildcard.StaticWildcardSize` | src/heuristics.rs:106-126 | `L2 == L1` (non-zero) gives `{size: L1, dynamic: 0}`. That filter marks every response of length `L1` as noise. Unless quiet, the messages are the two probes' messages followed by one "static" message carrying `L1` |
| `Wildcard.UnclassifiedWildcard` | src/heuristics.rs:76-133 | a second probe that misses, or lengths fitting neither pattern, still give `Some({0, 0})` after two probes, with only the two probes' messages and no verdict |
| `Wildcard.DynamicWildcardWrappedSum` | src/heuristics.rs:81-86 | when `L1 + 64` overflows `u64`, a second length equal to the wrapped sum `L1 + 64 - 2^64` (shorter than `L1`) still makes the wildcard dynamic, with the `u64` offset `L1 - P`. Unless quiet, the "dynamic" message with that offset follows the two probes' messages |
| `Wildcard.DefaultFilterIsAmbiguous` | src/heuristics.rs:65-72 | an empty wildcard and an unclassifiable one both yield `Some({0, 0})`, so the filter cannot tell them apart |
| `Connectivity.SelectByIndices` | src/heuristics.rs:254-283 | the kept targets are exactly the targets with the wanted outcome, each unchanged, in strictly increasing input order, and none is missed |
| `Connectivity.SelectEmpty` | src/heuristics.rs:285 | nothing is kept exactly when no target had the wanted outcome |
| `Connectivity.ConnectivityTest` | src/heuristics.rs:249-300 | the result is `Exit(1)` exactly when no target connected. Otherwise it is the targets whose formatting and request both succeeded, in input order and unchanged. "Skipping" notices name exactly the targets whose request failed, unless quiet. A format failure gets no notice |
| `Connectivity.DeadTargetDropped` | src/heuristics.rs:249-300 | of `good.example` (reachable) and `dead.example` (unreachable), exactly `["https://good.example"]` is returned |

## Left out

- HTTP: `make_request`, `FeroxResponse::from`, TLS and the client are network I/O. Each probe's outcome is an input instead.
- `format_url` (trailing slash, query parameters) and `get_url_path_length` are not part of this model. Their results are inputs: a format error, and the reply's `pathLength`.
- `Uuid::new_v4` is randomness from an external crate. It is the parameter `draw`. Collision resistance of the tokens cannot be stated.
- `should_filter_response` is an input flag (`Reply.suppressed`). It only decides whether a message is shown.
- Message text, colours, `ferox_print`, logging and the progress bar (`bar.inc`) are terminal output. Messages are kept only as abstract `Advisory` values.
- `Wildcard.WildcardTest`: returns its advisory messages as a sequence and does not pass them through `Dispatch.TrySendMessageToFile`. Forwarding them to the output file is the dispatcher's contract applied to each message.
- Debug-build overflow checks are not modelled: `u64` overflow in `wildcard_test` wraps around as in a release build, where a debug build would panic.
- `async`/tokio scheduling and the multi-producer channel are left out. The channel is one sequential queue. Dropping the last sender, which would also close it, is not modelled.
- `process::exit(1)` becomes the result `Connectivity.Exit(1)`. The error message printed before exiting is terminal output.
- `WildcardFilter` is defined in `src/filters.rs`, which is not part of this model. `Filters.IsWildcardNoise` states the documented meaning of its fields, which the scanner applies outside this core.
- `Filters.IsWildcardNoise` adds `dynamic` and the path length as unbounded integers, not with the consumer's `u64` addition. So it says nothing about how a wrapped offset (`Wildcard.DynamicOffsetUnderflow`) is matched later.
- The probe token of `unique_string` only feeds `format_url`, which is not part of this model. Each probe's path length is therefore an input of `Wildcard.WildcardRequest`, and `Tokens.ProbeTokenDelta` is stated apart from it. `Wildcard.DynamicWildcardOffset` takes the 64-character path difference between the probes as a hypothesis.
