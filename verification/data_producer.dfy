/**
  The DataProducer (data_producer.go): how `Send` and `SendText` choose the
  SCTP payload protocol identifier (PPID) and payload of a message, after
  the WebRTC table of section 8 of RFC 8831, and the single-fire closed
  flag shared by `Close` and `transportClosed`.

  The payload channel's `Notify`, the control channel request made by
  `Close` and the emitters are not modelled: the functions return the
  notification or the actions the Go code performs, and the response to
  the close request is an input.
*/
module DataProducer {
  import opened Common
  import Channel

  /** The method name of the notification that carries a message. */
  const SendMethod: string := "dataProducer.send"

  /** The method name of the request `Close` sends to the worker. */
  const CloseMethod: string := "transport.closeDataProducer"

  /** The PPIDs of the WebRTC table, section 8 of RFC 8831. */
  datatype Ppid =
    | WebRtcString
    | WebRtcBinaryPartial
    | WebRtcBinary
    | WebRtcStringPartial
    | WebRtcStringEmpty
    | WebRtcBinaryEmpty

  /** The decimal text of each PPID, as passed to `Notify`. */
  function PpidText(p: Ppid): string {
    match p
    case WebRtcString => "51"
    case WebRtcBinaryPartial => "52"
    case WebRtcBinary => "53"
    case WebRtcStringPartial => "54"
    case WebRtcStringEmpty => "56"
    case WebRtcBinaryEmpty => "57"
  }

  /** Distinct PPIDs have distinct texts, so a receiver can tell them apart. */
  lemma PpidTextInjective(p: Ppid, q: Ppid)
    requires PpidText(p) == PpidText(q)
    ensures p == q
  {
  }

  /** The `Notify` call a send makes: method, PPID and payload. */
  datatype Notification = Notification(methodName: string, dataProducerId: string, ppid: string, payload: seq<byte>)

  /** `appData`, an `interface{}`: nil, a map, or any other value. */
  datatype AppData = NilAppData | MapAppData(entries: map<string, string>) | OtherAppData(rendered: string)

  /** The producer's state: its id, the uint32 closed flag and its app data. */
  datatype Producer = Producer(id: string, closed: nat, appData: AppData)

  /** Go's `Closed()`: the flag is positive. */
  predicate Closed(p: Producer) {
    p.closed > 0
  }

  /** `newDataProducer`: open, and a nil `appData` replaced by an empty map. */
  function NewDataProducer(id: string, appData: AppData): (p: Producer)
    ensures !Closed(p) && p.id == id
    ensures !p.appData.NilAppData?
    ensures appData.NilAppData? ==> p.appData == MapAppData(map[])
    ensures !appData.NilAppData? ==> p.appData == appData
  {
    Producer(id, 0, if appData.NilAppData? then MapAppData(map[]) else appData)
  }

  // ---------------------------------------------------------------------
  // Sending

  /**
    `Send`: binary data goes out as WebRTC Binary; empty data as WebRTC
    Binary Empty with a single zero byte, since an SCTP message may not be
    empty.
  */
  function Send(p: Producer, data: seq<byte>): (n: Notification)
    ensures n.methodName == SendMethod && n.dataProducerId == p.id
    ensures |n.payload| > 0
    ensures |data| > 0 ==> n.ppid == PpidText(WebRtcBinary) && n.payload == data
    ensures |data| == 0 ==> n.ppid == PpidText(WebRtcBinaryEmpty) && n.payload == [0]
  {
    if |data| == 0 then Notification(SendMethod, p.id, PpidText(WebRtcBinaryEmpty), [0])
    else Notification(SendMethod, p.id, PpidText(WebRtcBinary), data)
  }

  /**
    `SendText`: a text message (a Go string, so its bytes) goes out as
    WebRTC String; the empty message as WebRTC String Empty with a single
    space.
  */
  function SendText(p: Producer, message: seq<byte>): (n: Notification)
    ensures n.methodName == SendMethod && n.dataProducerId == p.id
    ensures |n.payload| > 0
    ensures |message| > 0 ==> n.ppid == PpidText(WebRtcString) && n.payload == message
    ensures |message| == 0 ==> n.ppid == PpidText(WebRtcStringEmpty) && n.payload == [Ascii(' ')]
  {
    if |message| == 0 then Notification(SendMethod, p.id, PpidText(WebRtcStringEmpty), [Ascii(' ')])
    else Notification(SendMethod, p.id, PpidText(WebRtcString), message)
  }

  /** A message as the receiving end sees it. */
  datatype Message = Binary(bytes: seq<byte>) | TextMessage(bytes: seq<byte>)

  /**
    How a receiver reads a (PPID, payload) pair: the PPIDs are those of
    section 8 of RFC 8831, and by section 6.6 of RFC 8831 the "Empty" PPIDs
    mean an empty message whatever the payload byte; the partial PPIDs and
    unknown ones are not understood.
  */
  function Receive(ppid: string, payload: seq<byte>): Option<Message> {
    if ppid == PpidText(WebRtcString) then Some(TextMessage(payload))
    else if ppid == PpidText(WebRtcBinary) then Some(Binary(payload))
    else if ppid == PpidText(WebRtcStringEmpty) then Some(TextMessage([]))
    else if ppid == PpidText(WebRtcBinaryEmpty) then Some(Binary([]))
    else None
  }

  /** Whatever `Send` puts on the wire is received as the same binary data. */
  lemma SendRoundTrip(p: Producer, data: seq<byte>)
    ensures Receive(Send(p, data).ppid, Send(p, data).payload) == Some(Binary(data))
  {
  }

  /** Whatever `SendText` puts on the wire is received as the same text. */
  lemma SendTextRoundTrip(p: Producer, message: seq<byte>)
    ensures Receive(SendText(p, message).ppid, SendText(p, message).payload) == Some(TextMessage(message))
  {
  }

  // ---------------------------------------------------------------------
  // Closing

  /** The observable steps of a teardown, in order. */
  datatype Action =
    | RemoveChannelListeners(targetId: string)
    | RemovePayloadChannelListeners(targetId: string)
    | CloseRequest(methodName: string, dataProducerId: string)
    | EmitEvent(event: string)
    | RemoveAllListeners
    | ObserverEmit(event: string)
    | ObserverRemoveAllListeners

  /** The result of `Close` or `transportClosed`. */
  datatype Transition = Transition(producer: Producer, actions: seq<Action>, err: Option<Channel.Error>)

  /** The teardown of `Close`. */
  function CloseActions(id: string): seq<Action> {
    [ RemoveChannelListeners(id), RemovePayloadChannelListeners(id),
      CloseRequest(CloseMethod, id),
      EmitEvent("@close"), RemoveAllListeners,
      ObserverEmit("close"), ObserverRemoveAllListeners ]
  }

  /** The teardown of `transportClosed`. */
  function TransportClosedActions(): seq<Action> {
    [ EmitEvent("transportclose"), RemoveAllListeners,
      ObserverEmit("close"), ObserverRemoveAllListeners ]
  }

  /**
    `Close`: only the call that moves the flag from 0 to 1 unsubscribes,
    asks the worker to close the producer (`closeResponse` is its answer)
    and emits "@close" and the observer's "close"; it returns the
    request's error. Any other call does nothing and returns nil.
  */
  function Close(p: Producer, closeResponse: Channel.Response): (t: Transition)
    ensures Closed(t.producer)
    ensures t.producer.id == p.id && t.producer.appData == p.appData
    ensures p.closed == 0 ==>
              && t.producer.closed == 1 && t.actions == CloseActions(p.id)
              && t.err == (if closeResponse.Err? then Some(closeResponse.error) else None)
    ensures p.closed != 0 ==> t == Transition(p, [], None)
  {
    if p.closed == 0 then
      Transition(p.(closed := 1), CloseActions(p.id),
                 if closeResponse.Err? then Some(closeResponse.error) else None)
    else
      Transition(p, [], None)
  }

  /**
    `transportClosed`: only the call that moves the flag from 0 to 1 emits
    "transportclose" and the observer's "close"; otherwise nothing.
  */
  function TransportClosed(p: Producer): (t: Transition)
    ensures Closed(t.producer) && t.err == None
    ensures t.producer.id == p.id && t.producer.appData == p.appData
    ensures p.closed == 0 ==> t.producer.closed == 1 && t.actions == TransportClosedActions()
    ensures p.closed != 0 ==> t.producer == p && t.actions == []
  {
    if p.closed == 0 then Transition(p.(closed := 1), TransportClosedActions(), None)
    else Transition(p, [], None)
  }

  /** One call of either closing path. */
  datatype CloseCall = CallClose(closeResponse: Channel.Response) | CallTransportClosed

  function Apply(p: Producer, c: CloseCall): Transition {
    match c
    case CallClose(rsp) => Close(p, rsp)
    case CallTransportClosed => TransportClosed(p)
  }

  /** The actions of each call in a series of closing calls. */
  function CloseCalls(p: Producer, calls: seq<CloseCall>): (log: seq<seq<Action>>)
    ensures |log| == |calls|
    decreases |calls|
  {
    if |calls| == 0 then []
    else
      var t := Apply(p, calls[0]);
      [t.actions] + CloseCalls(t.producer, calls[1..])
  }

  /**
    `Close` and `transportClosed` share one flag: in any series of calls
    on an open producer, the first call performs its own teardown and
    every later call does nothing; on a closed producer none does.
  */
  lemma {:induction false} TeardownOnce(p: Producer, calls: seq<CloseCall>)
    ensures forall i :: 0 <= i < |calls| ==>
              CloseCalls(p, calls)[i] ==
                if i == 0 && !Closed(p) then
                  (match calls[0]
                   case CallClose(_) => CloseActions(p.id)
                   case CallTransportClosed => TransportClosedActions())
                else []
    decreases |calls|
  {
    if |calls| > 0 {
      var t := Apply(p, calls[0]);
      TeardownOnce(t.producer, calls[1..]);
    }
  }

  /** The producer after a series of closing calls. */
  function AfterCalls(p: Producer, calls: seq<CloseCall>): Producer
    decreases |calls|
  {
    if |calls| == 0 then p else AfterCalls(Apply(p, calls[0]).producer, calls[1..])
  }

  /**
    `Closed()` reports the flag: a new producer is open, and it reads as
    closed after any closing call, whichever path made it.
  */
  lemma {:induction false} ClosedFlagLifecycle(id: string, appData: AppData, calls: seq<CloseCall>)
    ensures !Closed(NewDataProducer(id, appData))
    ensures |calls| > 0 ==> Closed(AfterCalls(NewDataProducer(id, appData), calls))
  {
    if |calls| > 0 {
      StaysClosed(Apply(NewDataProducer(id, appData), calls[0]).producer, calls[1..]);
    }
  }

  /** No call reopens a closed producer. */
  lemma {:induction false} StaysClosed(p: Producer, calls: seq<CloseCall>)
    requires Closed(p)
    ensures AfterCalls(p, calls) == p
    decreases |calls|
  {
    if |calls| > 0 {
      StaysClosed(Apply(p, calls[0]).producer, calls[1..]);
    }
  }
}
