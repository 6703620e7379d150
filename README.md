# goldelox Commander: a verified model of the protocol engine

This project models the request engine of `lib/Commander.js` and the frame encoders of `lib/commands/gfx.js`, `lib/commands/txt.js` and `lib/commands/other.js`. The engine drives a 4D Systems GOLDELOX display module over a serial line.

The engine accepts requests and keeps them in one of two FIFO queues:
- `readyQueue` holds requests submitted before the module is ready;
- `requestQueue` holds the requests waiting to be written.

It writes one request at a time and arms a response deadline for it. It accumulates the bytes that arrive until the request's response handler decides. It then settles the request's promise and dispatches the next request. While idle it arms a keep-alive `getPixel`.

A readiness handshake runs whenever the port opens:
- a probe (a cursor move to 0, 0);
- on a NAK reply, a reset;
- on an ACK reply, or a reset answered only with NAKs, the engine is ready;
- on any other outcome, a retry one second later.

`destroy` tears the engine down.

The model has two layers:

- **`Protocol`** (Protocol.dfy) is a state machine on values. `State` holds the fields the Commander object mutates (`readyState`, the two queues, `currentRequest`, `responseFrame`), plus modelling devices: `portOpen` and `attached` for the serial port, `nextId` to tell requests apart, `responseTimeout` for the armed deadline, the timer flags, and the logs `sent` and `settled`. Each handler is a function from state to state: `request`, `sendNextRequest`, `onReadable`, `handleResponseFrame`, `handleResponse`, `checkReadiness`, `reset`, `markAsReady`, `onOpen`, `onClose`, `destroy`, and the timer callbacks.
  - Timers are flags that are armed or not; their expiry is an event.
  - A promise's settlement is a `Settlement` record appended to `settled`.
  - A write to the port is a frame appended to `sent`.
  - The code that runs after `await` in `checkReadiness` and `reset` is folded into the event that settles the awaited request, after that event's own dispatch. This is the JavaScript microtask order.
- **`Engine.Commander`** (Engine.dfy) is a class with the same fields. Its methods are imperative: queue `push`/`shift`, the `while` loop that drains the port in `onReadable`, the `for` loop that folds `nak` in `reset`, the buffer filled by `requestWithWords`, and the rejection loop of `destroy`. Each method is proved to move the object from `old(Model())` to the state its `Protocol` function computes. So every property proved about `Protocol` holds of the object.

Response handlers are the datatype `Responses.Matcher`:
- plain ACK;
- readiness probe;
- the reset handler that never decides;
- `getPixel`.

`Responses.Match` runs a matcher on the accumulated bytes and answers `Incomplete`, `Invalid` or `Matched`. In JavaScript these are `undefined`, an `Error`, or a value.

The encoders are functions from parameters to a `Command`, that is, a frame and its matcher. `requestWithWords` fails with `Err(v)` when a value `v` is outside 0..0xFFFF: `writeUInt16BE` throws on it before anything is queued. `attributes` and `putstr` build their frame step by step, as the source does, and are methods.

The invariant `ProtocolProperties.Valid` covers:
- at most one request in flight, since the slot is an `Option`;
- the dispatcher never idles while the active queue has work;
- a detached engine holds no queued or in-flight request and no armed keep-alive;
- while attached, a response frame exists only for the request in flight, and its matcher is still waiting on it.

The invariant is proved for every run of events from a fresh engine (`EngineAlwaysValid`).

**`Tracking`** (Tracking.dfy) proves that a request is never in two places. A request's `id` stands for the identity of the `req` object that `request` creates (lib/Commander.js:325-331). The ledger of a state is the multiset of the ids in the settlements, the two queues and the in-flight slot. Each handler is proved to add at most the ids it issues and never a second copy of an id it holds. So on every run from construction:
- no promise settles twice;
- a waiting or in-flight request is in exactly one queue or the slot;
- it has not settled yet (`SettlesAtMostOnce`).

A request can also be held nowhere: `markAsReady` and `destroy` drop requests, as described below.

Behaviour of the code that the model keeps, although a reader might expect otherwise:
- `onClose` does not cancel the retry or keep-alive timers; it only marks the engine NOT_READY.
- `destroy` drops the in-flight request without settling its promise, and leaves `responseFrame` as it was.
- `destroy` rejects queued probe or reset requests. Their `catch` blocks then re-arm the one-second retry after teardown. When the retry fires, the engine leaves DESTROYED for CHECKING, and its probe fails on the released port (`DestroyedEngineKeepsRetrying`).
- `markAsReady` replaces the active queue with the pre-readiness queue. Requests still waiting in the active queue are dropped, not kept ahead of the others. This happens in particular when a reset ends with only NAKs while the engine is already READY, which a second `onOpen` during the first probe makes possible (`ResetTimeoutOutcome`).
- A NAK to the probe is not an error. It starts the reset (`ProbeNakStartsReset`).

## Model

| member | source | states |
|---|---|---|
| Frames.Uint16BERoundTrip | lib/Commander.js:355 | a word written big-endian reads back as the same word |
| Frames.ReadUint16BEInverse | lib/commands/gfx.js:65 | any two bytes are the big-endian encoding of the word read from them |
| Frames.WordsBESnoc | lib/Commander.js:357-360 | writing one more word appends exactly its two bytes to the frame |
| Frames.WordsBEAt | lib/Commander.js:353-360 | word i of the list is found at byte offset 2·i of the layout |
| Frames.DecodeWordsBE | lib/Commander.js:353-360 | decoding the word layout gives back the words in order |
| Frames.WordsBEDecode | lib/Commander.js:353-360 | every even-length frame is the layout of the words decoded from it, so the layout is a bijection |
| Frames.ConcatAppend | lib/Commander.js:218-238 | concatenating chunks received in two batches gives the same bytes as one batch |
| Responses.AckMatch | lib/Commander.js:301-309 | handleAckResponse matches iff the frame is exactly [0x06], and is otherwise an error with the ACK message; it never waits |
| Responses.ProbeMatch | lib/Commander.js:127-138 | the probe handler gives 1 iff the frame is [0x06], 0 iff it is [0x15], waits on every other frame, and never errs |
| Responses.PixelMatch | lib/commands/gfx.js:52-67 | the getPixel handler waits iff fewer than 3 bytes arrived; it matches iff there are exactly 3 and the first is ACK, with colour byte1·256+byte2; otherwise it errs with the ACK + color message |
| Responses.Match | lib/Commander.js:164 | the reset handler never decides, the probe handler never errs, and the ACK handler always decides |
| Responses.PixelReplyRoundTrip | lib/commands/gfx.js:59-66 | ACK followed by a colour's two bytes matches as that colour |
| Responses.PixelReplyPrefixWaits | lib/commands/gfx.js:54-57 | every proper prefix of a pixel reply leaves the getPixel handler waiting |
| Commands.FirstOutOfRange | lib/Commander.js:355-360 | the value writeUInt16BE throws on is out of range, and every value written before it is in range |
| Commands.FirstOutOfRangeAt | lib/Commander.js:355-360 | the refused value is the one at the first out-of-range index, whatever follows |
| Commands.WordsCommand | lib/Commander.js:351-363 | the frame exists iff the command and all words are 16-bit; its length is 2+2·\|words\|; the command is at offset 0 and word i at offset 2+2i; it decodes to [cmd]+words; the matcher defaults to ACK; an error names the first refused value |
| Engine.WriteUint16BE | lib/Commander.js:355 | writing an in-range word stores its high byte and then its low byte at the offset, after the bytes already written, and leaves every later byte unchanged |
| Engine.WriteWords | lib/Commander.js:357-360 | the word loop completes iff every word is 16-bit, and the buffer then holds the layout of [cmd]+words; otherwise it stops with the first refused value |
| Engine.EncodeWords | lib/Commander.js:351-360 | filling the allocated buffer gives exactly WordsCommand's frame, or stops at the first refused value |
| Gfx.BgColor | lib/commands/gfx.js:5-8 | frame 0xFF6E [color] with the ACK matcher; it exists iff color is 16-bit |
| Gfx.Circle | lib/commands/gfx.js:15-18 | frame 0xFFCD [x, y, radius, color], ACK matcher |
| Gfx.CircleFilled | lib/commands/gfx.js:20-23 | frame 0xFFCC [x, y, radius, color], ACK matcher |
| Gfx.Cls | lib/commands/gfx.js:35-38 | the frame is exactly the two bytes 0xFF 0xD7, with the ACK matcher |
| Gfx.GetPixel | lib/commands/gfx.js:50-68 | frame 0xFFCA [x, y] with the getPixel matcher |
| Gfx.Line | lib/commands/gfx.js:70-73 | frame 0xFFD2 [x1, y1, x2, y2, color], ACK matcher |
| Gfx.MoveTo | lib/commands/gfx.js:85-88 | frame 0xFFD6 [x, y], ACK matcher |
| Gfx.Rectangle | lib/commands/gfx.js:115-118 | frame 0xFFCF [x1, y1, x2, y2, color], ACK matcher |
| Gfx.RectangleFilled | lib/commands/gfx.js:120-123 | frame 0xFFCE [x1, y1, x2, y2, color], ACK matcher |
| Gfx.Triangle | lib/commands/gfx.js:150-153 | frame 0xFFC9 [x1, y1, x2, y2, x3, y3, color], ACK matcher |
| Gfx.GetPixelAnswered | lib/commands/gfx.js:50-67 | a pixel request for in-range coordinates, answered with a colour's reply, resolves with that colour |
| Txt.AttributeWord | lib/commands/txt.js:5-27 | the attribute word is in 0..240 with a clear low nibble, and bit 16/32/64/128 is set iff bold/italic/inverse/underlined |
| Txt.AttributeWordInjective | lib/commands/txt.js:5-27 | different style combinations give different words |
| Txt.Attributes | lib/commands/txt.js:5-30 | the `\|=` build-up always encodes, and its frame decodes to 0xFF72 followed by the attribute word |
| Txt.BgColor | lib/commands/txt.js:32-35 | frame 0xFF7E [color], ACK matcher |
| Txt.FgColor | lib/commands/txt.js:42-45 | frame 0xFF7F [color], ACK matcher |
| Txt.Height | lib/commands/txt.js:52-55 | frame 0xFF7B [multiplier], ACK matcher |
| Txt.MoveCursor | lib/commands/txt.js:67-70 | frame 0xFFE4 [line, column], ACK matcher |
| Txt.Opacity | lib/commands/txt.js:72-75 | always encodes; frame 0xFF77 [1] when opaque and [0] otherwise |
| Txt.Set | lib/commands/txt.js:77-80 | frame 0xFFE3 [func, value], ACK matcher |
| Txt.Width | lib/commands/txt.js:87-90 | frame 0xFF7C [multiplier], ACK matcher |
| Other.Printable | lib/commands/other.js:7 | the filter keeps exactly the characters of the input in ' '..'~', and is no longer than the input |
| Other.PrintableConcat | lib/commands/other.js:7 | filtering distributes over concatenation, so order is kept |
| Other.PrintableKeepsPrintable | lib/commands/other.js:7 | printable text passes the filter unchanged |
| Other.PrintableIdempotent | lib/commands/other.js:7 | filtering twice is filtering once |
| Other.Putstr | lib/commands/other.js:5-17 | the frame is 0x00 0x06, the filtered text's codes and a final 0, so its length is 3+\|filtered\|; no 0 occurs in the payload bytes 2..len-2; the payload reads back as the filtered text; the matcher is ACK |
| Protocol.SendNext | lib/Commander.js:365-386 | no-op while a request is in flight or the queue is empty; otherwise the head is in flight, its frame is written and the deadline is set by the ready state; the active sequence (in flight then queued) is unchanged, and afterwards a request is in flight or nothing is queued |
| Protocol.Submit | lib/Commander.js:311-349 | a destroyed, detached or closed engine rejects at once with that error and leaves both queues alone; otherwise the request joins the active queue iff it is a readiness request or the engine is READY, and the pre-readiness queue otherwise, with the other queue unchanged; the keep-alive is cancelled |
| Protocol.MarkAsReady | lib/Commander.js:193-202 | READY with an empty pre-readiness queue; the active sequence becomes the request in flight followed by the old pre-readiness queue, in order |
| Protocol.Complete | lib/Commander.js:268-299 | the request in flight settles once with the completion (an error carries the accumulated frame); slot and frame are cleared; the next queued request is written, or with none the keep-alive is armed |
| Protocol.KeepAliveCommand | lib/Commander.js:388-391 | the keep-alive is a getPixel at 0, 0 |
| Protocol.ReadableAccumulates | lib/Commander.js:211-242 | while the handler waits, the response frame becomes the old frame followed by the new chunks and nothing else changes |
| Engine.ScanNak | lib/Commander.js:172-177 | the `nak` fold is true iff every byte of the frame is NAK |
| Engine.Commander.constructor | lib/Commander.js:24-53 | a new engine is NOT_READY with empty queues, and runs onOpen at once when the port is already open |
| Engine.Commander.SendNextRequest | lib/Commander.js:365-386 | the object moves as Protocol.SendNext |
| Engine.Commander.Request | lib/Commander.js:311-349 | returns the error of an immediate rejection, checked in the source's order; the object moves as Protocol.Submit |
| Engine.Commander.RequestWithWords | lib/Commander.js:351-363 | returns WordsCommand's frame and submits it; on a refused value nothing changes |
| Engine.Commander.MarkAsReady | lib/Commander.js:193-202 | the object moves as Protocol.MarkAsReady |
| Engine.Commander.ResetFailed | lib/Commander.js:166-190 | an all-NAK accumulated frame marks the engine ready; otherwise the retry is armed |
| Engine.Commander.Reset | lib/Commander.js:158-191 | submits the reset frame [0x00] with the never-deciding handler; an immediate rejection runs the catch block |
| Engine.Commander.CheckReadiness | lib/Commander.js:119-156 | CHECKING, then the probe [FF E4 00 00 00 00]; an immediate rejection arms the retry |
| Engine.Commander.Continue | lib/Commander.js:139-155 | after the probe: 1 marks ready, any other value resets, an error arms the retry; after the reset: an error runs the catch block |
| Engine.Commander.Complete | lib/Commander.js:270-299 | returns the settled request and its outcome, an error carrying the accumulated frame; the object moves as Protocol.Complete |
| Engine.Commander.HandleResponse | lib/Commander.js:268-299 | the object moves as Protocol.HandleResponse: the bookkeeping, then the awaiting code's continuation |
| Engine.Commander.HandleResponseFrame | lib/Commander.js:244-266 | no request: no change; otherwise an undecided match changes nothing, an error rejects and a value resolves |
| Engine.Commander.OnReadable | lib/Commander.js:211-242 | the read loop collects the old frame and every chunk; a non-empty total becomes the frame and goes to the handler |
| Engine.Commander.OnTimeout | lib/Commander.js:378-380 | the deadline rejects the request in flight with 'Response timeout.' |
| Engine.Commander.KeepAlive | lib/Commander.js:388-391 | the keep-alive timer submits getPixel(0, 0) through requestWithWords |
| Engine.Commander.OnRetryTimer | lib/Commander.js:154 | the retry timer runs checkReadiness again |
| Engine.Commander.OnOpen | lib/Commander.js:109-117 | the port is open, the pending retry is cancelled, and the readiness check starts |
| Engine.Commander.OnClose | lib/Commander.js:204-209 | NOT_READY and the port closed; queues, in-flight request and timers are kept |
| Engine.Commander.ContinueRejected | lib/Commander.js:150-155 | the continuations of the requests destroy rejected run in rejection order |
| Engine.Commander.Destroy | lib/Commander.js:55-81 | the object moves as Protocol.Destroy |
| ProtocolProperties.SubmitValid | lib/Commander.js:311-349 | request keeps the engine invariant |
| ProtocolProperties.MarkAsReadyValid | lib/Commander.js:193-202 | markAsReady keeps the engine invariant |
| ProtocolProperties.ContinueValid | lib/Commander.js:139-190 | the handshake continuations keep the engine invariant |
| ProtocolProperties.HandleResponseValid | lib/Commander.js:268-299 | handleResponse restores the full invariant from queue discipline alone |
| ProtocolProperties.CheckReadinessValid | lib/Commander.js:119-156 | checkReadiness keeps the engine invariant |
| ProtocolProperties.OnReadableValid | lib/Commander.js:211-242 | onReadable keeps the engine invariant, including that a stored frame is one its handler still waits on |
| ProtocolProperties.ContinueAllRejected | lib/Commander.js:150-155 | after destroy, the rejected requests' continuations only re-arm the retry, and do so iff a probe or reset request was among them |
| ProtocolProperties.DestroyValid | lib/Commander.js:55-81 | destroy keeps the engine invariant |
| ProtocolProperties.StepValid | lib/Commander.js:45-52 | every event the engine can receive keeps the invariant |
| ProtocolProperties.InitialValid | lib/Commander.js:24-53 | a newly built engine satisfies the invariant |
| ProtocolProperties.RunValid | lib/Commander.js:45-47 | the invariant holds after any sequence of events |
| ProtocolProperties.EngineAlwaysValid | lib/Commander.js:24-53 | from construction on, every run keeps at most one request in flight, never idles with work queued, and keeps a frame, while attached, only for the request in flight; a detached engine holds no queued or in-flight request and no armed keep-alive |
| ProtocolProperties.RequestRefused | lib/Commander.js:313-321 | on a destroyed engine or a closed port, request rejects at once with 'Destroyed.' or 'No connection.', writes nothing and leaves both queues and the slot unchanged |
| ProtocolProperties.DispatchTakesHead | lib/Commander.js:365-381 | dispatch takes exactly the head, keeps the rest in order, writes the head's frame, and sets the deadline to 1000 ms iff CHECKING and 100 ms otherwise |
| ProtocolProperties.NoDispatchWhileInFlight | lib/Commander.js:365-370 | sendNextRequest changes nothing while a request is in flight |
| ProtocolProperties.CallerSettles | lib/Commander.js:244-299 | when the handler decides, the caller's request settles once with its verdict (an error carries the frame), the frame is cleared, the rest of the queue moves up, and the keep-alive is armed when nothing is left |
| ProtocolProperties.AckRoundTrip | lib/Commander.js:301-309 | a caller's ACK request answered by a lone ACK resolves |
| ProtocolProperties.CallerTimesOut | lib/Commander.js:378-380 | an elapsed deadline rejects the caller with 'Response timeout.' carrying any partial frame, and dispatches the next request |
| ProtocolProperties.ProbeAckMakesReady | lib/Commander.js:139-144 | a probe answered by a lone ACK makes the engine READY at once; the pre-readiness queue follows the at most one request dispatched meanwhile |
| ProtocolProperties.ProbeNakStartsReset | lib/Commander.js:141-148 | a probe answered by a lone NAK queues the reset request and arms no retry |
| ProtocolProperties.ProbeTimeoutRetries | lib/Commander.js:150-155 | a probe that times out arms the retry and keeps the state and the pre-readiness queue |
| ProtocolProperties.ResetOnlyAccumulates | lib/Commander.js:164 | bytes for the reset request only accumulate; the reset handler never settles it |
| ProtocolProperties.ResetTimeoutOutcome | lib/Commander.js:168-190 | a reset ends by timeout with markAsReady when bytes arrived and all were NAK: READY, and the active queue is the request dispatched meanwhile followed by the pre-readiness queue, so callers queued behind it are dropped (reachable while READY after a second onOpen); otherwise the retry is armed and the state kept; from a state other than READY, READY results iff all were NAK |
| ProtocolProperties.DestroyRejectsQueued | lib/Commander.js:55-81 | destroy leaves DESTROYED with empty queues and slot, rejects the pre-readiness queue then the active queue in order, settles nothing else, and ends with the retry armed iff a handshake request was queued |
| ProtocolProperties.DestroyedIsTerminal | lib/Commander.js:313-316 | a destroyed engine with no retry pending stays DESTROYED and empty under every event, and rejects submissions with 'Destroyed.' |
| ProtocolProperties.DestroyedEngineKeepsRetrying | lib/Commander.js:150-155 | a handshake request queued at teardown re-arms the retry; when it fires, the engine goes back to CHECKING and its probe fails on the released port |
| Tracking.SendNextLedger | lib/Commander.js:365-386 | dispatch moves the head of the active queue into flight: no id is added, lost or duplicated |
| Tracking.SubmitLedger | lib/Commander.js:311-349 | request adds exactly one new id, held once: in a queue, in flight, or settled as refused |
| Tracking.MarkAsReadyAccounts | lib/Commander.js:193-202 | markAsReady duplicates no id, and the ids it drops are exactly those of the replaced active queue |
| Tracking.CompleteLedger | lib/Commander.js:268-299 | settling moves the in-flight id into the settlements: no id is added, lost or duplicated |
| Tracking.ResetAccounts | lib/Commander.js:158-191 | reset adds only the id of its own request and duplicates none |
| Tracking.CheckReadinessAccounts | lib/Commander.js:119-156 | checkReadiness adds only the id of its probe and duplicates none |
| Tracking.ContinueAccounts | lib/Commander.js:139-190 | the handshake continuations add only the ids they issue and duplicate none |
| Tracking.HandleResponseAccounts | lib/Commander.js:268-299 | handleResponse with its continuation duplicates no id |
| Tracking.HandleResponseFrameAccounts | lib/Commander.js:244-266 | handleResponseFrame duplicates no id |
| Tracking.OnReadableAccounts | lib/Commander.js:211-242 | onReadable duplicates no id |
| Tracking.DestroyAccounts | lib/Commander.js:55-81 | destroy duplicates no id; the settlements gain exactly the queued ids, and the only id dropped is the in-flight one |
| Tracking.StepAccounts | lib/Commander.js:45-52 | every event adds only ids it issues and never a second copy of an id |
| Tracking.InitialTracked | lib/Commander.js:24-53 | a newly built engine holds each id at most once, and only ids it issued |
| Tracking.RunTracked | lib/Commander.js:45-47 | after any sequence of events, each id is held at most once, and only ids issued |
| Tracking.TrackedDistinct | lib/Commander.js:55-81 | when each id is held at most once, the settlements name distinct requests, the pending requests are distinct, and none of them has settled |
| Tracking.SettlesAtMostOnce | lib/Commander.js:311-349 | on every run from construction no promise settles twice, no request waits in two places, no waiting request has already settled, and every id was issued |
| Reassembly.ReadableWithoutRequest | lib/Commander.js:213-216 | bytes arriving with no request in flight change nothing |
| Reassembly.ReadableSplitEmpty | lib/Commander.js:218-241 | readable events that deliver no bytes do not affect what a later event does |
| Reassembly.ReadableSplitWaiting | lib/Commander.js:218-241 | chunks the handler is still waiting on, followed by more chunks, end where all the chunks in one event end |
| Reassembly.ReadableSplit | lib/Commander.js:211-242 | while the handler has not decided, two readable events give the same state as one carrying all the chunks |
| Reassembly.PixelReplyInTwoChunks | lib/commands/gfx.js:54-57 | a getPixel reply split anywhere into two chunks gives the same state as the whole reply |

## Left out

- Serial I/O is not modelled. The port is a flag `portOpen` plus the attachment flag. `read()` is the list of chunks a readable event drains, and `write` appends to `sent`. Bytes that arrive while no request is in flight stay in the port's buffer in the source; the model does not track them.
- The `tx`, `rx`, `open`, `close`, `readyCheck`, `notReady`, `resetting`, `reset` and `ready` notifications are not modelled: they have no effect on the engine's state.
- Timers are not modelled as durations. Each is a flag that is armed or not, and its expiry is an event. Overwriting an armed timer without clearing it, which can leave an earlier callback pending in the source, is not modelled.
- The `markAsReady` timer that `onOpen` clears is not modelled: nothing in the source arms it.
- `ready(timeout)` is not modelled. It only waits for the `ready` notification or a timeout, and changes no engine state.
- Promises are settlement records. A caller's `then` callbacks are outside the engine, and only the engine's own continuations in checkReadiness and reset run.
- PortDetached: `request` on a destroyed-then-retried engine throws a TypeError synchronously in the source, because the port is gone. The model records it as an immediate rejection, which is what the awaiting checkReadiness catches.
- Engine.Commander.Destroy requires an attached engine: a second `destroy` throws on the released port in the source, and that throw is not modelled.
- `lib/commands/media` is not part of this model, and neither is example/screens.js, a demo driver.
- The stub encoders of gfx.js and txt.js (`changeColor`, `clipping`, `bold` and the others with empty bodies) are not modelled: they send nothing.
- Other.Putstr works on characters: `asciiWrite` stores the low byte of each character code. After the filter every character is in 0x20..0x7E, so this is the code itself.
- Encoders take integer parameters. The source writes a non-integer number truncated (1.5 as 0x00 0x01) and NaN or `undefined` (a missing field) as 0x00 0x00, because writeUInt16BE checks only the range; the model's integer parameters cannot represent such values.
