# Broadcast handler of the ordering service

This project models the broadcast handler of the ordering service in Dafny and proves properties about it. The handler owns one client connection. It receives transaction envelopes and checks that each payload header carries a channel id. A CONFIG_UPDATE envelope goes to the config-update processor, and the processor's output is checked again. The envelope, transformed or not, is then routed to its chain's `Support`, filtered and enqueued. Each envelope gets exactly one response status. SUCCESS keeps the connection open. Every other status is sent and then ends the handler, which returns the result of that `Send`.

Files:

- `wrappers.dfy`: `Option` and `Result`.
- `messages.dfy`: envelopes, the decoded payload with its optional header and channel header, `CONFIG_UPDATE`, the five statuses, and `WellFormed`. `WellFormed` is the three-part header check: a header, a channel header, and a non-empty channel id.
- `collaborators.dfy`: the collaborators behind the interfaces `ConfigUpdateProcessor`, `SupportManager` and `Support`, gathered in the class `SupportManager`. Every answer comes from an oracle (`Backend`). The oracle is given the number of collaborator calls made so far, so collaborators with their own state are covered. Every call and its answer is appended to a ghost `trace`. The class invariant `Valid` says that the trace holds exactly the backend's answers, in call order (`Answered`).
- `stream.dfy`: the broadcast stream as a class. `Recv` replays a fixed script of envelopes, `io.EOF` and errors. Whether each `Send` succeeds comes from an oracle. Every status passed to `Send` is logged in `sent`.
- `broadcast.dfy`: the handler itself.
  - `Resolve` specifies what one envelope leads to: the status owed and the collaborator calls made. `Admit` covers the lookup, filter and enqueue part.
  - `Classify` is the failure taxonomy. It reads the status off the last collaborator call.
  - `Run` specifies a whole connection.
  - `Handler.Handle` is the loop, and it is proved to produce exactly `Run`'s statuses, calls and return value. The loop body is split into two methods, `Serve` and `Deliver`. They make the same calls and the same `Send`s, in the same order, as the single Go function.
- `properties.dfy`: properties of whole connections, and the protocol's typical connections.

## Model

| member | source | states |
|---|---|---|
| Collaborators.SupportManager.Process | orderer/common/broadcast/broadcast.go:34-38 | the processor's answer for the envelope is returned, and the call is appended to the trace |
| Collaborators.SupportManager.GetChain | orderer/common/broadcast/broadcast.go:46-52 | `ok` says whether the registry knows the channel; if it does, the returned support is the registry's; the lookup is appended to the trace |
| Collaborators.SupportManager.Apply | orderer/common/broadcast/broadcast.go:59-60 | the filter rule set's verdict on the envelope for that support is returned, and the call is appended to the trace |
| Collaborators.SupportManager.Enqueue | orderer/common/broadcast/broadcast.go:56-57 | true on acceptance and false on shutdown, as the backend answers; the call is appended to the trace |
| Transport.BroadcastStream.Recv | orderer/common/broadcast/broadcast.go:77 | yields the next scripted receive result and advances past it; once the script is exhausted, yields EOF |
| Transport.BroadcastStream.Send | orderer/common/broadcast/broadcast.go:132 | appends the status to the responses sent and returns that send's outcome |
| Broadcast.Handler.constructor | orderer/common/broadcast/broadcast.go:67-72 | the handler keeps the support manager it is given |
| Broadcast.Handler.Handle | orderer/common/broadcast/broadcast.go:75-138 | the statuses sent, the input consumed, the collaborator calls made and the error returned are exactly those `Run` specifies for the connection |
| Broadcast.Handler.Serve | orderer/common/broadcast/broadcast.go:85-104 | sends exactly one status for the envelope, `Resolve`'s; appends exactly `Resolve`'s calls to the trace; continues only after a SUCCESS whose send succeeded |
| Broadcast.Handler.Deliver | orderer/common/broadcast/broadcast.go:106-136 | sends exactly `Admit`'s status and makes exactly `Admit`'s lookup, filter and enqueue calls, in order |
| Broadcast.Admit | orderer/common/broadcast/broadcast.go:106-126 | looks up the given channel first; every recorded answer is the backend's for that call (`Answered`); NOT_FOUND exactly when the registry does not know it, and then nothing else is called; a chain that was found is filtered, and an envelope the filters pass is enqueued; the status is the taxonomy's for the last call; a filter rejection gives BAD_REQUEST with no enqueue; SUCCESS exactly when the enqueue was accepted; SERVICE_UNAVAILABLE exactly when it was refused; filter and enqueue see this envelope and the support the lookup returned |
| Broadcast.Resolve | orderer/common/broadcast/broadcast.go:85-126 | no collaborator is called exactly when the header check fails, and the status is then BAD_REQUEST; every recorded answer is the backend's for that call (`Answered`), so the status is the backend's verdict; the calls follow the order Process, GetChain, Apply, Enqueue, each at most once, and stop at the first failing answer; the status is the taxonomy's for the last call; Process is called, on the received envelope, exactly when that envelope is well formed and CONFIG_UPDATE; every later stage sees the transformed envelope and its channel id when there was a transformation, and the received ones otherwise |
| BroadcastProperties.AdmitCounts | orderer/common/broadcast/broadcast.go:106-126 | an admission accepts one enqueue exactly when its status is SUCCESS, and never calls the processor |
| BroadcastProperties.RoundCounts | orderer/common/broadcast/broadcast.go:92-132 | for one envelope, exactly one enqueue is accepted when the status is SUCCESS and none otherwise; the processor runs at most once, even if its output is again CONFIG_UPDATE |
| BroadcastProperties.RunExtends | orderer/common/broadcast/broadcast.go:76-137 | a run only consumes input and only appends statuses and calls; it consumes at least one receive result whenever input remains; at most one status per receive result consumed, in receipt order; every status but the last is SUCCESS; the position never passes the end of the script; on EOF or a receive error nothing is sent and no collaborator is called |
| BroadcastProperties.RunEnding | orderer/common/broadcast/broadcast.go:76-137 | every `Send` but the last succeeded; a non-SUCCESS status, or a SUCCESS whose `Send` failed, ends the run on that envelope with that `Send`'s result; a receive error ends the run with that error, EOF with nil; a returned error is either the last `Send`'s error or a receive error for which nothing was sent; a nil return with no status pending means the client sent EOF or the script ended after a served envelope |
| BroadcastProperties.RunStatuses | orderer/common/broadcast/broadcast.go:76-137 | a run sends exactly one status per envelope it receives; the closing EOF or receive error gets none |
| BroadcastProperties.RunCounts | orderer/common/broadcast/broadcast.go:76-137 | for any per-envelope pipeline whose rounds count up as `RoundCounts` says: the number of SUCCESS statuses equals the number of accepted enqueues, and the processor runs at most once per status sent, hence (by `RunStatuses`) per envelope received |
| BroadcastProperties.ConnectionCounts | orderer/common/broadcast/broadcast.go:75-138 | on a whole connection of the handler, SUCCESS statuses equal accepted enqueues, statuses sent equal the envelopes received, and processor calls are at most the statuses sent, so at most the envelopes received |
| BroadcastProperties.MalformedConnection | orderer/common/broadcast/broadcast.go:85-90 | a connection whose only envelope has no usable channel id gets one BAD_REQUEST, and no collaborator is called (for any connection this follows from `Resolve` and `RunEnding`) |
| BroadcastProperties.TwoAcceptedEnvelopes | orderer/common/broadcast/broadcast.go:106-137 | two accepted envelopes get two SUCCESS responses in order, with two accepted enqueues, and the handler waits for the client to close |
| BroadcastProperties.RejectedConfigUpdate | orderer/common/broadcast/broadcast.go:92-97 | a connection whose only envelope is a CONFIG_UPDATE that the processor rejects gets one BAD_REQUEST, after one Process call and nothing else (in general: `Resolve` and `RunEnding`) |
| BroadcastProperties.FaultyConfigUpdate | orderer/common/broadcast/broadcast.go:99-103 | a connection whose only envelope is a CONFIG_UPDATE whose processed output fails the header check gets INTERNAL_SERVER_ERROR, and the registry is not consulted (in general: `Resolve` and `RunEnding`) |
| BroadcastProperties.UnknownChannel | orderer/common/broadcast/broadcast.go:106-109 | a connection whose only envelope is for a channel the registry does not know gets one NOT_FOUND, and neither filters nor enqueue are called (in general: `Resolve` and `RunEnding`) |

The definitions these contracts are stated in are:

- `WellFormed`: the header check.
- `IsConfigUpdate`: the type test.
- `Classify`: the failure taxonomy. Malformed input, a rejected reconfiguration and a filter rejection map to BAD_REQUEST. A processor bug maps to INTERNAL_SERVER_ERROR. An unknown channel maps to NOT_FOUND. A refused enqueue maps to SERVICE_UNAVAILABLE.
- `FollowsPipeline`, `StopsAtFirstFailure` and `Routes`.
- `Answered`: each recorded call got the backend's answer for its arguments, at its place in the call order.
- `Run`: the connection.

Decoding and the header check:

- `proto.Unmarshal`'s error is ignored at lines 86 and 99. Validity is therefore the three-part check alone, not "decoding succeeded".
- `proto.Unmarshal` resets its target before decoding, so the payload after line 99 depends only on the processed envelope's bytes.

## Left out

- Protocol-buffer decoding: `proto.Unmarshal` is a function parameter of the handler, mapping payload bytes to the decoded header fields. Its code is not part of this model.
- The gRPC transport: a connection is a finite script of receive results, and the client closes the stream after the last entry. A connection that never ends is not modelled, because every loop here must terminate.
- Collaborator internals: the filter rule set, the chain registry and the ordering backend are oracles. The first result of `Filters().Apply` (the action) is discarded, as the handler discards it.
- `Support` values are opaque handles. `Filters().Apply` and `Enqueue` are methods of `SupportManager` that take the handle, so that one trace orders every collaborator call. A separate object per chain, and aliasing between chains, are not modelled.
- A processor that returns a nil envelope with a nil error is not modelled. The handler would dereference nil at line 99.
- A `GetChain` that answers a nil support with `true`, or a `Filters()` that returns a nil rule set, is not modelled. The handler would dereference nil at line 116. A `Support` handle of the model is never nil.
- Logging (`Debugf`, `IsEnabledFor`, and the `Criticalf` at line 101) is not modelled. INTERNAL_SERVER_ERROR is the only status that the handler pairs with a critical log entry.
- The numeric wire codes of the statuses are not modelled, and neither are statuses the handler never sends.
- Concurrency across connections: each `Handle` call is sequential.
- Blocking: every collaborator call, `Recv` and `Send` answers at once. A call that blocks forever, which would leave the handler waiting, is not modelled.
