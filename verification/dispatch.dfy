/**
  The reader side of the control channel (channel.go): classifying each
  incoming frame by its first byte (`processPayload`) and deciding what a
  decoded JSON message is (`processMessage`): a response to a pending
  request, a notification for a subscriber, or a protocol violation.

  JSON decoding is not modelled: the decoded message is an input, `None`
  when `json.Unmarshal` fails. Logging and the emitter are not modelled
  either: the functions return the effect the Go code performs.
*/
module Dispatch {
  import opened Common
  import Channel
  import Decimal

  /**
    The decoded `targetId` field, an `interface{}`: absent or null (nil),
    a JSON string, a JSON number (a float64, given as its exact value), or
    any other JSON value, given with its `%v` rendering.
  */
  datatype TargetId = Nil | Text(text: string) | Number(value: real) | Other(rendered: string)

  /** The fields `processMessage` decodes; missing ones hold Go's zero values. */
  datatype Msg = Msg(
    id: int,
    accepted: bool,
    error: string,
    reason: string,
    targetId: TargetId,
    event: string,
    data: seq<byte>)

  /** The log lines a non-JSON frame becomes. */
  datatype Diagnostic = Debug | Warn | LogError | Dump | Unexpected

  /** Why a JSON frame was logged and dropped. */
  datatype Violation =
    | Malformed
    | UnknownId(id: int)
    | NotAcceptedNorRejected(id: int)
    | NotResponseNorNotification

  /** What the reader does with one frame. */
  datatype Effect =
    | Log(kind: Diagnostic, text: seq<byte>)
    | Deliver(id: int, rsp: Channel.Response)
    | Emit(targetId: string, event: string, data: seq<byte>)
    | Drop(violation: Violation)

  /** Error kind the worker uses for a caller's invalid input. */
  const TypeErrorKind: string := "TypeError"

  const OpenBrace: byte := 0x7B  // '{'
  const TagDebug: byte := 0x44   // 'D'
  const TagWarn: byte := 0x57    // 'W'
  const TagError: byte := 0x45   // 'E'
  const TagDump: byte := 0x58    // 'X'

  /**
    The text a `targetId` becomes: a string as is, a number through
    `%0.0f`, anything else through `%v`.
  */
  function RenderTarget(t: TargetId): (r: string)
    requires !t.Nil?
    ensures t.Text? ==> r == t.text
    ensures t.Number? ==>
              && Decimal.IsIntText(r) && Decimal.ParseInt(r) == Decimal.RoundHalfEven(t.value)
              && (r[0] == '-' <==> t.value < 0.0)
              && |Decimal.Magnitude(r)| > 0
              && (Decimal.Magnitude(r)[0] == '0' ==> |Decimal.Magnitude(r)| == 1)
    ensures t.Other? ==> r == t.rendered
  {
    match t
    case Text(s) => s
    case Number(v) => Decimal.FormatFixed0(v)
    case Other(s) => s
  }

  /** What the requester receives for a response that is accepted or rejected. */
  function Answer(m: Msg): (r: Channel.Response)
    requires m.accepted || |m.error| > 0
    ensures m.accepted ==> r == Channel.Ok(m.data)
    ensures !m.accepted ==> r.Err? && Channel.IsRejectionError(r.error) && r.error.message == m.reason
    ensures !m.accepted ==> (r.error.TypeError? <==> m.error == TypeErrorKind)
  {
    if m.accepted then Channel.Ok(m.data)
    else if m.error == TypeErrorKind then Channel.Err(Channel.TypeError(m.reason))
    else Channel.Err(Channel.PlainError(m.reason))
  }

  /**
    `processMessage` on a decoded message. A positive id makes it a
    response: delivered to the entry under that id when there is one and
    it is accepted or rejected. Otherwise it is a notification when it has
    a target id and a non-empty event. The pending table is only read.
  */
  function ProcessMessage(pending: map<int, Channel.Entry>, decoded: Option<Msg>): (e: Effect)
    ensures decoded.None? ==> e == Drop(Malformed)
    ensures e.Deliver? <==>
              && decoded.Some? && decoded.value.id > 0 && decoded.value.id in pending
              && (decoded.value.accepted || |decoded.value.error| > 0)
    ensures e.Deliver? ==> e.id == decoded.value.id && e.rsp == Answer(decoded.value)
    ensures e.Emit? <==>
              && decoded.Some? && decoded.value.id <= 0
              && !decoded.value.targetId.Nil? && |decoded.value.event| > 0
    ensures e.Emit? ==>
              && e.targetId == RenderTarget(decoded.value.targetId)
              && e.event == decoded.value.event && e.data == decoded.value.data
    ensures e.Drop? && decoded.Some? && decoded.value.id > 0 ==>
              e.violation == (if decoded.value.id in pending then NotAcceptedNorRejected(decoded.value.id)
                              else UnknownId(decoded.value.id))
    ensures !e.Log?
  {
    match decoded
    case None => Drop(Malformed)
    case Some(m) =>
      if m.id > 0 then
        if m.id !in pending then Drop(UnknownId(m.id))
        else if m.accepted || |m.error| > 0 then Deliver(m.id, Answer(m))
        else Drop(NotAcceptedNorRejected(m.id))
      else if !m.targetId.Nil? && |m.event| > 0 then
        Emit(RenderTarget(m.targetId), m.event, m.data)
      else
        Drop(NotResponseNorNotification)
  }

  /** The diagnostic a tag byte stands for; any unknown tag is unexpected. */
  function DiagnosticOf(tag: byte): Diagnostic {
    if tag == TagDebug then Debug
    else if tag == TagWarn then Warn
    else if tag == TagError then LogError
    else if tag == TagDump then Dump
    else Unexpected
  }

  /**
    `processPayload`: a frame starting with '{' is a JSON message
    (`decoded` is what it decodes to); any other frame is a log line whose
    text is the rest of the frame. Only a '{' frame can reach the pending
    table or the subscribers.
  */
  function ProcessPayload(pending: map<int, Channel.Entry>, payload: seq<byte>, decoded: Option<Msg>): (e: Effect)
    requires |payload| > 0
    ensures payload[0] == OpenBrace ==> e == ProcessMessage(pending, decoded)
    ensures payload[0] != OpenBrace ==> e == Log(DiagnosticOf(payload[0]), payload[1..])
    ensures e.Log? <==> payload[0] != OpenBrace
    ensures e.Deliver? || e.Emit? ==> payload[0] == OpenBrace
  {
    if payload[0] == OpenBrace then ProcessMessage(pending, decoded)
    else Log(DiagnosticOf(payload[0]), payload[1..])
  }

  // ---------------------------------------------------------------------
  // What the worker sends, and what the reader makes of it

  /** The tag byte the worker puts in front of a log line of each kind. */
  function TagOf(kind: Diagnostic): byte
    requires !kind.Unexpected?
  {
    match kind
    case Debug => TagDebug
    case Warn => TagWarn
    case LogError => TagError
    case Dump => TagDump
  }

  /** A log line as the worker frames it. */
  function LogFrame(kind: Diagnostic, text: seq<byte>): seq<byte>
    requires !kind.Unexpected?
  {
    [TagOf(kind)] + text
  }

  /** Every log line framed by the worker is read back as the same kind and text. */
  lemma LogFrameRoundTrip(pending: map<int, Channel.Entry>, kind: Diagnostic, text: seq<byte>, decoded: Option<Msg>)
    requires !kind.Unexpected?
    ensures ProcessPayload(pending, LogFrame(kind, text), decoded) == Log(kind, text)
  {
    assert LogFrame(kind, text)[1..] == text;
  }

  /** The outcome of a command as the worker reports it. */
  datatype Reply = Accepted(data: seq<byte>) | Rejected(errorKind: string, reason: string)

  /** The response message the worker sends for request `id`. */
  function ReplyMsg(id: int, reply: Reply): Msg {
    match reply
    case Accepted(d) => Msg(id, true, "", "", Nil, "", d)
    case Rejected(k, r) => Msg(id, false, k, r, Nil, "", [])
  }

  /** The notification message the worker sends for a string target id. */
  function NotificationMsg(targetId: string, event: string, data: seq<byte>): Msg {
    Msg(0, false, "", "", Text(targetId), event, data)
  }

  /**
    A reply to a pending request reaches exactly that request: accepted
    data as is, a "TypeError" rejection as a TypeError with the reason,
    any other non-empty kind as a plain error with the reason.
  */
  lemma ReplyDelivered(pending: map<int, Channel.Entry>, id: int, reply: Reply)
    requires id > 0 && id in pending
    requires reply.Rejected? ==> |reply.errorKind| > 0
    ensures ProcessMessage(pending, Some(ReplyMsg(id, reply))) ==
              Deliver(id, match reply
                          case Accepted(d) => Channel.Ok(d)
                          case Rejected(k, r) =>
                            if k == TypeErrorKind then Channel.Err(Channel.TypeError(r))
                            else Channel.Err(Channel.PlainError(r)))
  {
  }

  /** A notification with a non-empty event reaches the subscribers of its target id unchanged. */
  lemma NotificationEmitted(pending: map<int, Channel.Entry>, targetId: string, event: string, data: seq<byte>)
    requires |event| > 0
    ensures ProcessMessage(pending, Some(NotificationMsg(targetId, event, data))) == Emit(targetId, event, data)
  {
  }

  /** A numeric target id that is a whole number is emitted as its decimal text. */
  lemma NumericTargetRendered(n: int)
    ensures RenderTarget(Number(n as real)) == Decimal.IntText(n)
    ensures Decimal.ParseInt(RenderTarget(Number(n as real))) == n
  {
    Decimal.ParseDigitsOfDigits(if n < 0 then -n else n);
  }

  // ---------------------------------------------------------------------
  // The reader together with `Request`

  /**
    While a request waits, a reply carrying its id is delivered to it; and
    the `Replied` outcome hands exactly that response to the caller.
  */
  lemma AdmittedRequestGetsReply(s: Channel.State, methodName: string, requestData: seq<byte>, maxLen: int, reply: Reply)
    requires Channel.Valid(s)
    requires Channel.Admit(s, methodName, requestData, maxLen).Admitted?
    requires reply.Rejected? ==> |reply.errorKind| > 0
    ensures var a := Channel.Admit(s, methodName, requestData, maxLen);
            var e := ProcessMessage(a.state.pending, Some(ReplyMsg(a.id, reply)));
            && e.Deliver? && e.id == a.id
            && Channel.Finish(a.state, a.id, methodName, Channel.Replied(e.rsp)).rsp == e.rsp
  {
    var a := Channel.Admit(s, methodName, requestData, maxLen);
    ReplyDelivered(a.state.pending, a.id, reply);
  }

  /**
    Once a request has returned (by reply, timeout or closure), a late
    reply for its id finds no entry and is dropped. This holds even when
    an older entry shared the id: the deferred delete removed it too.
  */
  lemma LateReplyDropped(s: Channel.State, methodName: string, requestData: seq<byte>, maxLen: int,
                         outcome: Channel.Outcome, reply: Reply)
    requires Channel.Valid(s) && !Channel.Closed(s) && |requestData| <= maxLen
    ensures var c := Channel.Request(s, methodName, requestData, maxLen, outcome);
            ProcessMessage(c.state.pending, Some(ReplyMsg(s.nextId + 1, reply))) == Drop(UnknownId(s.nextId + 1))
  {
  }

  /**
    The example exchange: on a fresh channel, request "dump" gets id 1 and
    its accepted reply delivers the data; the next request, "create",
    gets id 2 and its "TypeError" rejection arrives as a TypeError with
    the worker's reason.
  */
  lemma ExampleExchange(dumpData: seq<byte>, maxLen: int)
    requires maxLen >= 0
    ensures var a1 := Channel.Admit(Channel.NewChannel(), "dump", [], maxLen);
            && a1.Admitted? && a1.id == 1
            && ProcessMessage(a1.state.pending, Some(ReplyMsg(1, Accepted(dumpData)))) == Deliver(1, Channel.Ok(dumpData))
    ensures var c1 := Channel.Request(Channel.NewChannel(), "dump", [], maxLen, Channel.Replied(Channel.Ok(dumpData)));
            var a2 := Channel.Admit(c1.state, "create", [], maxLen);
            && a2.Admitted? && a2.id == 2
            && ProcessMessage(a2.state.pending, Some(ReplyMsg(2, Rejected("TypeError", "bad param"))))
               == Deliver(2, Channel.Err(Channel.TypeError("bad param")))
  {
  }
}
