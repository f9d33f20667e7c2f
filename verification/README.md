# mediasoup-go control channel and DataProducer, modelled in Dafny

This project models the sequential decision logic of the control channel
that a mediasoup-go host uses to drive its worker process (`channel.go`),
and the payload rules and close state of the `DataProducer`
(`data_producer.go`).

- `common.dfy` — `Option` (Go's nil) and the `byte` type.
- `decimal.dfy` — decimal rendering of integers and Go's `%0.0f` for a
  float64 (round half to even, "-0" for a negative value that rounds to 0),
  with a parser that inverts it.
- `channel.dfy` — the channel state (closed flag, id counter, pending
  table), `Close`, and `Request` split at its blocking point into `Admit`
  (closed check, id allocation with the reset at 4294967295, size check,
  storing the pending entry) and `Finish` (the `select` case that fired, and
  the deferred delete). The id counter is given in closed form.
- `dispatch.dfy` — `processPayload` (classification on the first byte) and
  `processMessage` (response, notification or protocol violation) as total
  functions over a decoded message record, with worker-side encoders of
  replies, notifications and log lines that the reader is proved to invert.
- `data_producer.dfy` — `Send`/`SendText` PPID and payload selection after
  the WebRTC table of section 8 of RFC 8831, with a receiver that the sends
  are proved to round-trip through, and the closed flag shared by `Close`
  and `transportClosed`.

Things the model takes as inputs: the output of `json.Marshal` for a request
(its bytes), the result of `json.Unmarshal` of an incoming frame (`None` when
it fails), which case of each `select` fired, the codec's close error, the
value of `NS_MESSAGE_MAX_LEN` (a parameter `maxLen`; the constant is defined
in a file that is not part of this model) and the worker's answer to the
close request of `DataProducer.Close`.

Behaviour of the code worth noting, which the model follows:

- The id is allocated before the size check, so a request rejected as too
  big still consumes an id.
- For requests issued one at a time, when the counter reaches 4294967295 it
  is reset to 1, so after the wrap the next id is 2; id 1 is issued only
  once, and ids then recur every 4294967294 requests (`Channel.IdReused`).
  Concurrent callers can skip the reset (see `Channel.Admit` under
  "Left out").
- The reader looks the entry up (`Load`) and does not remove it; the entry is
  removed only by the requester's deferred delete.
- A `Request` on a closed channel fails with an invalid-state error whose text
  is "PayloadChannel closed".
- The timeout errors come from `fmt.Errorf` without `%w`, so in Go they have
  the same type as `errors.New(reason)` and differ only in their text; the
  model's `RequestTimeout` and `ResponseTimeout` constructors stand for that
  text.
- `SendText` sends an empty message as a single space with PPID "56", while
  section 6.6 of RFC 8831 describes a single zero byte; a receiver ignores
  the byte either way. `Send` uses the zero byte.

## Model

| member | source | states |
|---|---|---|
| Channel.NewChannel | channel.go:27-42 | a new channel is open (flag 0), its counter is 0 and nothing is pending |
| Channel.Close | channel.go:49-56 | only a call on an open channel flips the flag to 1 and returns the codec's close error; otherwise nil and no change; the channel is closed afterwards |
| Channel.ClosedMatchesFlag | channel.go:58-60 | a new channel reads as open, and Closed holds exactly when the flag is positive, i.e. exactly when a Close call would not perform the teardown |
| Channel.CloseIdempotent | channel.go:49-56 | a second Close is a no-op returning nil |
| Channel.CloseFiresOnce | channel.go:49-56 | in any series of Close calls only the first call, and only on an open channel, performs the teardown |
| Channel.CounterClosedForm | channel.go:67-68 | after k allocations from 0 the counter is 0 for k = 0 and (k-1) mod 4294967294 + 1 otherwise |
| Channel.IdInRange | channel.go:67-68 | every issued id lies in 1..4294967295 |
| Channel.IdWraps | channel.go:67-68 | the first id is 1, the 4294967295th is 4294967295 and the next one is 2 |
| Channel.IdsDistinctInWindow | channel.go:67-68 | requests fewer than 4294967294 apart get distinct ids |
| Channel.IdReused | channel.go:67-68 | after the wrap an id recurs every 4294967294 requests, so a pending id can be reissued |
| Channel.Admit | channel.go:62-92 | closed: invalid-state error, state unchanged; else a new id in 1..4294967295 and the counter advanced; too big: "Channel request too big" with the pending table unchanged; else the entry stored under the new id |
| Channel.Finish | channel.go:92-117 | the id's entry is deleted and nothing else changes; a reply is returned as is; a timeout or closure is an error naming id and method, invalid-state exactly for closure, never a worker rejection |
| Channel.Request | channel.go:62-118 | a whole call keeps the counter valid, removes no entry but its own id's, leaves no new entry behind, and fails on a closed channel without any change; when admitted it returns the reply as is, or a timeout or closure error naming its id and method, invalid-state exactly for closure |
| Channel.RunFromFresh | channel.go:62-118 | after any series of requests from a fresh channel the counter is where that many allocations put it and the pending table is empty |
| Channel.RunOnClosed | channel.go:63-66 | on a closed channel every request fails with the closed error and the state never changes |
| Decimal.Digits | channel.go:214 | the decimal text of a number is non-empty, all digits, without leading zero |
| Decimal.ParseDigitsOfDigits | channel.go:214 | parsing the decimal text of n gives n back |
| Decimal.DigitsInjective | channel.go:214 | distinct numbers get distinct decimal texts |
| Decimal.RoundHalfEven | channel.go:214 | the result is within 1/2 of the value, and even on a tie |
| Decimal.FormatFixed0 | channel.go:214 | the `%0.0f` text is a signed decimal whose value is the rounded number, with a '-' exactly for negative values and no leading zero in its digits |
| Dispatch.RenderTarget | channel.go:208-217 | a string target id is kept; a number becomes the shortest signed decimal text (no leading zero) of its rounded value, '-' exactly when negative; anything else its `%v` text |
| Dispatch.Answer | channel.go:192-203 | accepted data is delivered as is; a rejection is a TypeError exactly when the kind is "TypeError", else a plain error, both carrying the reason |
| Dispatch.ProcessMessage | channel.go:166-222 | delivery happens exactly for a positive id with a pending entry that is accepted or rejected, to that id; a notification exactly for id <= 0 with a target id and non-empty event; an unknown id is dropped; nothing is logged as a diagnostic |
| Dispatch.ProcessPayload | channel.go:149-164 | a '{' frame is handed to message processing; any other frame is logged by its tag with the rest as text; only '{' frames can deliver or emit |
| Dispatch.LogFrameRoundTrip | channel.go:153-162 | a 'D', 'W', 'E' or 'X' log line is read back as the same kind and text |
| Dispatch.ReplyDelivered | channel.go:184-206 | a worker reply for a pending id is delivered to that id with the data, a TypeError, or a plain error |
| Dispatch.NotificationEmitted | channel.go:207-218 | a notification with a non-empty event is emitted to its target id with its event and data |
| Dispatch.NumericTargetRendered | channel.go:213-214 | a whole-number target id is emitted as its decimal text, which parses back to the number |
| Dispatch.AdmittedRequestGetsReply | channel.go:184-195 | while a request waits, a reply with its id is delivered to it and returned to its caller |
| Dispatch.LateReplyDropped | channel.go:184-189 | once a request has returned, a reply with its id is dropped as unknown |
| Dispatch.ExampleExchange | channel.go:62-206 | on a fresh channel "dump" gets id 1 and its accepted reply delivers the data; "create" then gets id 2 and a "TypeError" rejection arrives as a TypeError with reason "bad param" |
| DataProducer.NewDataProducer | data_producer.go:95-118 | a new producer is open; a nil appData becomes an empty map; any other appData is kept |
| DataProducer.Send | data_producer.go:251-257 | non-empty data goes with PPID "53" unchanged; empty data with PPID "57" and one zero byte; the payload is never empty |
| DataProducer.SendText | data_producer.go:263-271 | a non-empty message goes with PPID "51" as its bytes; the empty one with PPID "56" and a single space; the payload is never empty |
| DataProducer.PpidTextInjective | data_producer.go:236-250 | the PPID texts of the WebRTC table are pairwise distinct |
| DataProducer.SendRoundTrip | data_producer.go:251-257 | a receiver following sections 6.6 and 8 of RFC 8831 reads back exactly the binary data sent, empty included |
| DataProducer.SendTextRoundTrip | data_producer.go:263-271 | a receiver following sections 6.6 and 8 of RFC 8831 reads back exactly the text sent, empty included |
| DataProducer.Close | data_producer.go:173-197 | only the 0-to-1 call unsubscribes, requests the worker-side close, emits "@close" and the observer's "close", and returns the request's error; otherwise nothing and nil |
| DataProducer.TransportClosed | data_producer.go:200-211 | only the 0-to-1 call emits "transportclose" and the observer's "close"; otherwise nothing |
| DataProducer.TeardownOnce | data_producer.go:173-211 | in any series of Close and transportClosed calls on an open producer only the first performs its teardown; on a closed one none does |
| DataProducer.ClosedFlagLifecycle | data_producer.go:126-128 | a new producer reads as open and reads as closed after any closing call |
| DataProducer.StaysClosed | data_producer.go:173-211 | no closing call reopens or changes a closed producer |

## Left out

- Goroutines and Go channels: `Start`, `runWriteLoop`, `runReadLoop`, the
  `select` statements and `go c.SafeEmit`. Which `select` case fires is an
  input (`Channel.Outcome`); the write loop's failure reply is one of the
  responses a `Replied` outcome can carry. Interleavings are modelled only
  as operations applied one after another to the same state.
- Channel.Admit: merges `AddInt64` and the following `CompareAndSwapInt64`
  (channel.go:67-68) into one step. In Go they are two atomic steps: if a
  second caller's `AddInt64` runs after the first caller got 4294967295 but
  before its compare-and-swap, the counter passes 4294967295, both swaps
  fail, and ids then grow beyond 4294967295 without any reset. The proved
  id range, wrap and reuse period (`Channel.IdInRange`, `Channel.IdWraps`,
  `Channel.IdReused`) hold only for requests that do not overlap there.
- Dispatch.ProcessPayload: requires a non-empty frame. In Go an empty frame
  makes `nsPayload[0]` (channel.go:150) panic inside the read loop's
  goroutine; nothing recovers that panic, so the whole process ends. The
  model does not represent that crash.
- Channel.Finish: does not constrain which `select` case fires; in Go the
  closed cases can fire only after `Close`, the timeout cases only after
  the 3000 ms timer (channel.go:94) has expired, and a reply only after the
  reader, or the write loop on a write failure, sent one.
- The blocking send `sent.respCh <- ...` in `processMessage`: its
  interaction with a requester that has already timed out is a
  concurrency matter and is not modelled.
- `json.Marshal`, `json.Unmarshal`, the codec (`ReadPayload`, `WritePayload`,
  `Close`) and `NS_MESSAGE_MAX_LEN`: inputs, as described above.
- Decimal.FormatFixed0: takes the float64 as an exact real; the sign of a
  negative zero (JSON `-0`) is not representable, so it renders as "0".
- Dispatch.RenderTarget: the `%v` rendering of a non-string, non-number
  target id is an input rather than computed.
- Logging (`logger.go` and every logger call), `fmt.Printf` of 'X' lines,
  and the event emitter: the model returns the effect instead.
- `Dump` and `GetStats` of the DataProducer: request and unmarshal plumbing.
- The accessors of the DataProducer (`Id`, `Type`, `Label`, ...): plain
  field reads.
- `active_speaker_observer.go`, `types.go` and the integration tests: thin
  wiring over the emitter and JSON, and tests that need a live worker.
- The payload channel's `Notify` used by `Send`/`SendText`: the model
  returns the notification it would be given; its error is not modelled.
