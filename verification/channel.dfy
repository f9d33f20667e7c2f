/**
  The request bookkeeping of the control channel to the worker process
  (channel.go): the closed flag, the request id counter and the table of
  pending requests, with the non-blocking steps of `Request` and `Close`.

  Goroutines, timers and Go channels are not modelled. `Request` is split
  at its blocking point: `Admit` runs the guards and stores the pending
  entry, `Finish` takes whichever `select` case fired (an input) and runs
  the deferred delete. Between the two, other operations (`Close`, the
  reader's dispatch) may act on the same state.
*/
module Channel {
  import opened Common

  /** The counter value at which the id counter is reset to 1 (2^32 - 1). */
  const MaxId: int := 4294967295

  /** Error text returned by `Request` on a closed channel (sic: "PayloadChannel"). */
  const ClosedMessage: string := "PayloadChannel closed"

  /** Error text returned for a request whose encoding is over the size limit. */
  const TooBigMessage: string := "Channel request too big"

  /** A pending request (Go's `sentInfo`); the reply channel is implicit. */
  datatype Entry = Entry(methodName: string, requestData: seq<byte>)

  /**
    The errors a request can end with. `InvalidStateError`, `TypeError` and
    `PlainError` carry the text given to `NewInvalidStateError`,
    `NewTypeError` and `errors.New`; the other three stand for the
    formatted messages that name the request's id and method.
  */
  datatype Error =
    | InvalidStateError(message: string)
    | TypeError(message: string)
    | PlainError(message: string)
    | RequestTimeout(id: int, methodName: string)
    | ResponseTimeout(id: int, methodName: string)
    | ClosedWhileWaiting(id: int, methodName: string)

  /** Errors built by `NewInvalidStateError`. */
  predicate IsInvalidState(e: Error) {
    e.InvalidStateError? || e.ClosedWhileWaiting?
  }

  /**
    Errors built by `NewTypeError` or `errors.New`: the worker's rejections,
    and the local "Channel request too big".
  */
  predicate IsRejectionError(e: Error) {
    e.TypeError? || e.PlainError?
  }

  /** Go's `workerResponse`: data on success, or an error. */
  datatype Response = Ok(data: seq<byte>) | Err(error: Error)

  /**
    The channel's state: `closed` is the int32 flag flipped by a
    compare-and-swap, `nextId` the int64 id counter, `pending` the
    `sents` map from request id to entry.
  */
  datatype State = State(closed: nat, nextId: int, pending: map<int, Entry>)

  /** Go's `Closed()`: the flag is positive. */
  predicate Closed(s: State) {
    s.closed > 0
  }

  /** What every reachable state satisfies: the counter stays below `MaxId`. */
  predicate Valid(s: State) {
    0 <= s.nextId < MaxId
  }

  /** A fresh channel (`newChannel`): open, counter 0, nothing pending. */
  function NewChannel(): (s: State)
    ensures Valid(s) && !Closed(s) && s.pending == map[]
    ensures s.closed == 0 && s.nextId == 0
  {
    State(0, 0, map[])
  }

  // ---------------------------------------------------------------------
  // Close

  /**
    The result of `Close`: the new state, whether this call performed the
    teardown (closing `closeCh` and the codec), and the returned error.
  */
  datatype CloseResult = CloseResult(state: State, fired: bool, err: Option<string>)

  /**
    `Close`: only the call that moves the flag from 0 to 1 closes `closeCh`
    and returns the codec's close error (`codecErr`, an input); any other
    call returns nil and changes nothing.
  */
  function Close(s: State, codecErr: Option<string>): (r: CloseResult)
    ensures Closed(r.state)
    ensures r.fired <==> s.closed == 0
    ensures r.fired ==> r.state == s.(closed := 1) && r.err == codecErr
    ensures !r.fired ==> r.state == s && r.err == None
  {
    if s.closed == 0 then CloseResult(s.(closed := 1), true, codecErr)
    else CloseResult(s, false, None)
  }

  /**
    `Closed()` reads the flag: a new channel is open, and a channel is
    closed exactly when a `Close` call on it would not perform the teardown.
  */
  lemma ClosedMatchesFlag(s: State, codecErr: Option<string>)
    ensures !Closed(NewChannel())
    ensures Closed(s) <==> !Close(s, codecErr).fired
  {
  }

  /** A second `Close` is a no-op, whatever the first one returned. */
  lemma CloseIdempotent(s: State, e1: Option<string>, e2: Option<string>)
    ensures Close(Close(s, e1).state, e2) == CloseResult(Close(s, e1).state, false, None)
  {
  }

  /** Which calls of a series of `Close` calls performed the teardown. */
  function CloseSeries(s: State, errs: seq<Option<string>>): (fired: seq<bool>)
    ensures |fired| == |errs|
    decreases |errs|
  {
    if |errs| == 0 then []
    else
      var r := Close(s, errs[0]);
      [r.fired] + CloseSeries(r.state, errs[1..])
  }

  /**
    However many times `Close` is called (by the write loop, the read loop
    or the owner), the teardown runs at most once: on the first call, and
    only if the channel was still open.
  */
  lemma {:induction false} CloseFiresOnce(s: State, errs: seq<Option<string>>)
    ensures forall i :: 0 <= i < |errs| ==> (CloseSeries(s, errs)[i] <==> i == 0 && !Closed(s))
    decreases |errs|
  {
    if |errs| > 0 {
      var r := Close(s, errs[0]);
      CloseFiresOnce(r.state, errs[1..]);
    }
  }

  // ---------------------------------------------------------------------
  // Request ids

  /**
    The counter after one allocation: `AddInt64` then the
    compare-and-swap that resets `MaxId` to 1.
  */
  function NextCounter(c: int): int {
    if c + 1 == MaxId then 1 else c + 1
  }

  /** The counter of a fresh channel after `k` allocations. */
  function CounterAfter(k: nat): int {
    if k == 0 then 0 else NextCounter(CounterAfter(k - 1))
  }

  /** The id handed to the `k`-th request (1-based) of a fresh channel. */
  function IdAt(k: nat): int
    requires k >= 1
  {
    CounterAfter(k - 1) + 1
  }

  /** One step of the counter in closed form, modulo `MaxId - 1`. */
  lemma CounterStep(k: nat)
    ensures (k + 1) % (MaxId - 1) == if k % (MaxId - 1) == MaxId - 2 then 0 else k % (MaxId - 1) + 1
  {
  }

  /**
    Closed form of the counter: 0 at first, then it cycles through
    1 .. MaxId - 1, so it never reaches `MaxId` after the reset.
  */
  lemma {:induction false} CounterClosedForm(k: nat)
    ensures CounterAfter(k) == if k == 0 then 0 else (k - 1) % (MaxId - 1) + 1
  {
    if k > 0 {
      CounterClosedForm(k - 1);
      if k > 1 {
        CounterStep(k - 2);
      }
    }
  }

  /** Every id issued lies in 1 .. MaxId. */
  lemma IdInRange(k: nat)
    requires k >= 1
    ensures 1 <= IdAt(k) <= MaxId
  {
    CounterClosedForm(k - 1);
  }

  /**
    Ids 1, 2, ..., MaxId are issued first; the counter then resets to 1,
    so the request after the one that got `MaxId` gets id 2, not 1.
  */
  lemma IdWraps()
    ensures IdAt(1) == 1
    ensures IdAt(MaxId) == MaxId
    ensures IdAt(MaxId + 1) == 2
  {
    CounterClosedForm(0);
    CounterClosedForm(MaxId - 1);
    CounterClosedForm(MaxId);
  }

  /** Requests fewer than `MaxId - 1` apart always get distinct ids. */
  lemma IdsDistinctInWindow(j: nat, k: nat)
    requires 1 <= j < k && k - j < MaxId - 1
    ensures IdAt(j) != IdAt(k)
  {
    CounterClosedForm(j - 1);
    CounterClosedForm(k - 1);
  }

  /**
    After the wrap, ids are reused with period `MaxId - 1`: nothing stops
    a new request from taking the id of one that is still pending.
  */
  lemma IdReused(j: nat)
    requires j >= 2
    ensures IdAt(j + MaxId - 1) == IdAt(j)
  {
    CounterClosedForm(j - 1);
    CounterClosedForm(j + MaxId - 2);
  }

  // ---------------------------------------------------------------------
  // Request

  /**
    The outcome of the steps of `Request` before it blocks: either it has
    already returned `rsp`, or it has stored a pending entry under `id`.
  */
  datatype Admission = Rejected(state: State, rsp: Response) | Admitted(state: State, id: int)

  /**
    The guard steps of `Request`: refuse on a closed channel; allocate an
    id; refuse a request whose encoding (`requestData`, the output of
    `json.Marshal`) is longer than `maxLen` (`NS_MESSAGE_MAX_LEN`);
    otherwise store the pending entry under the new id.
  */
  function Admit(s: State, methodName: string, requestData: seq<byte>, maxLen: int): (a: Admission)
    requires Valid(s)
    ensures Valid(a.state) && a.state.closed == s.closed
    ensures a.Admitted? <==> !Closed(s) && |requestData| <= maxLen
    ensures Closed(s) ==> a == Rejected(s, Err(InvalidStateError(ClosedMessage)))
    ensures !Closed(s) ==> a.state.nextId == NextCounter(s.nextId)
    ensures !Closed(s) && |requestData| > maxLen ==>
              a.Rejected? && a.rsp == Err(PlainError(TooBigMessage)) && a.state.pending == s.pending
    ensures a.Admitted? ==>
              && 1 <= a.id <= MaxId && a.id == s.nextId + 1
              && a.state.pending == s.pending[a.id := Entry(methodName, requestData)]
  {
    if Closed(s) then
      Rejected(s, Err(InvalidStateError(ClosedMessage)))
    else
      var id := s.nextId + 1;
      var s1 := s.(nextId := NextCounter(s.nextId));
      if |requestData| > maxLen then
        Rejected(s1, Err(PlainError(TooBigMessage)))
      else
        Admitted(s1.(pending := s1.pending[id := Entry(methodName, requestData)]), id)
  }

  /**
    Which case of the two `select` statements fired. The first `select`
    hands the request to the write loop; `Replied` means it did and the
    second `select` then received `rsp` on the entry's reply channel (from
    the reader, or from the write loop on a write failure).
  */
  datatype Outcome =
    | HandOffTimeout
    | HandOffClosed
    | Replied(rsp: Response)
    | ReplyTimeout
    | ReplyClosed

  datatype Completion = Completion(state: State, rsp: Response)

  /**
    The blocking tail of `Request` for the entry stored under `id`: the
    response follows the `select` case that fired, and the deferred delete
    removes `id` from the pending table whichever case it was.
  */
  function Finish(s: State, id: int, methodName: string, outcome: Outcome): (c: Completion)
    ensures c.state.closed == s.closed && c.state.nextId == s.nextId
    ensures c.state.pending == s.pending - {id}
    ensures outcome.Replied? ==> c.rsp == outcome.rsp
    ensures !outcome.Replied? ==>
              && c.rsp.Err? && !IsRejectionError(c.rsp.error)
              && !c.rsp.error.InvalidStateError?
              && c.rsp.error.id == id && c.rsp.error.methodName == methodName
    ensures !outcome.Replied? ==>
              (IsInvalidState(c.rsp.error) <==> outcome.HandOffClosed? || outcome.ReplyClosed?)
  {
    var rsp := match outcome
      case HandOffTimeout => Err(RequestTimeout(id, methodName))
      case HandOffClosed => Err(ClosedWhileWaiting(id, methodName))
      case Replied(r) => r
      case ReplyTimeout => Err(ResponseTimeout(id, methodName))
      case ReplyClosed => Err(ClosedWhileWaiting(id, methodName));
    Completion(s.(pending := s.pending - {id}), rsp)
  }

  /**
    A whole `Request` call with no other operation in between its steps.
    The call never leaves an entry behind, and it removes at most the
    entry stored under its own id.
  */
  function Request(s: State, methodName: string, requestData: seq<byte>, maxLen: int, outcome: Outcome): (c: Completion)
    requires Valid(s)
    ensures Valid(c.state) && c.state.closed == s.closed
    ensures Closed(s) ==> c == Completion(s, Err(InvalidStateError(ClosedMessage)))
    ensures !Closed(s) ==> c.state.nextId == NextCounter(s.nextId)
    ensures !Closed(s) && |requestData| > maxLen ==>
              c == Completion(s.(nextId := NextCounter(s.nextId)), Err(PlainError(TooBigMessage)))
    ensures !Closed(s) && |requestData| <= maxLen ==>
              c.state.pending == s.pending - {s.nextId + 1}
    ensures !Closed(s) && |requestData| <= maxLen && outcome.Replied? ==> c.rsp == outcome.rsp
    ensures !Closed(s) && |requestData| <= maxLen && !outcome.Replied? ==>
              && c.rsp.Err? && !IsRejectionError(c.rsp.error)
              && !c.rsp.error.InvalidStateError?
              && c.rsp.error.id == s.nextId + 1 && c.rsp.error.methodName == methodName
              && (IsInvalidState(c.rsp.error) <==> outcome.HandOffClosed? || outcome.ReplyClosed?)
    ensures forall k :: k in s.pending && k != s.nextId + 1 ==> k in c.state.pending && c.state.pending[k] == s.pending[k]
    ensures c.state.pending.Keys <= s.pending.Keys
  {
    match Admit(s, methodName, requestData, maxLen)
    case Rejected(s1, rsp) => Completion(s1, rsp)
    case Admitted(s1, id) => Finish(s1, id, methodName, outcome)
  }

  /** One call in a series of sequential requests. */
  datatype Call = Call(methodName: string, requestData: seq<byte>, outcome: Outcome)

  /** Runs requests one after another; returns the final state and the responses. */
  function Run(s: State, calls: seq<Call>, maxLen: int): (r: (State, seq<Response>))
    requires Valid(s)
    ensures Valid(r.0) && |r.1| == |calls|
    decreases |calls|
  {
    if |calls| == 0 then (s, [])
    else
      var c := Request(s, calls[0].methodName, calls[0].requestData, maxLen, calls[0].outcome);
      var rest := Run(c.state, calls[1..], maxLen);
      (rest.0, [c.rsp] + rest.1)
  }

  /**
    Starting from a fresh channel, after any series of requests the id
    counter stands where `k` allocations put it, and the pending table is
    empty again: every return path deleted its entry.
  */
  lemma {:induction false} RunFromFresh(calls: seq<Call>, maxLen: int)
    ensures Run(NewChannel(), calls, maxLen).0.nextId == CounterAfter(|calls|)
    ensures Run(NewChannel(), calls, maxLen).0.pending == map[]
  {
    RunCounterAndPending(NewChannel(), calls, maxLen, 0);
  }

  lemma {:induction false} RunCounterAndPending(s: State, calls: seq<Call>, maxLen: int, k: nat)
    requires Valid(s) && !Closed(s) && s.pending == map[] && s.nextId == CounterAfter(k)
    ensures Run(s, calls, maxLen).0.nextId == CounterAfter(k + |calls|)
    ensures Run(s, calls, maxLen).0.pending == map[]
    decreases |calls|
  {
    if |calls| > 0 {
      var c := Request(s, calls[0].methodName, calls[0].requestData, maxLen, calls[0].outcome);
      assert c.state.pending.Keys <= s.pending.Keys;
      assert c.state.pending == map[];
      RunCounterAndPending(c.state, calls[1..], maxLen, k + 1);
    }
  }

  /** On a closed channel every request fails at once and nothing changes. */
  lemma {:induction false} RunOnClosed(s: State, calls: seq<Call>, maxLen: int)
    requires Valid(s) && Closed(s)
    ensures Run(s, calls, maxLen).0 == s
    ensures forall i :: 0 <= i < |calls| ==> Run(s, calls, maxLen).1[i] == Err(InvalidStateError(ClosedMessage))
    decreases |calls|
  {
    if |calls| > 0 {
      RunOnClosed(s, calls[1..], maxLen);
    }
  }
}
