// `JsonRpcSocket`: many calls in flight over one WebSocket, answered in any order or not at all,
// and the per-call timeout that a session races against each of them.

module JsonRpc {
  import opened Wrappers

  datatype Json =
    | Null | Bool(b: bool) | Number(n: real) | Text(s: string) | Array(items: seq<Json>)
    | Object(fields: map<string, Json>)

  /** JavaScript truthiness of a possibly absent member. */
  predicate Truthy(v: Option<Json>) {
    match v
    case None => false
    case Some(Null) => false
    case Some(Bool(b)) => b
    case Some(Number(n)) => n != 0.0
    case Some(Text(s)) => s != ""
    case Some(_) => true
  }

  /** The values that JavaScript counts as false; JSON has no NaN. */
  const FALSY: set<Option<Json>> := {None, Some(Null), Some(Bool(false)), Some(Number(0.0)), Some(Text(""))}

  lemma TruthyExactly(v: Option<Json>)
    ensures Truthy(v) <==> v !in FALSY
  {
  }

  /** A frame: the JSON text `null`, anything else that is not an object with a numeric id, or a response. */
  datatype Message = NullFrame | Noise | Response(id: nat, error: Option<Json>, result: Option<Json>)

  datatype Reason = RpcError(error: Json) | SendFailed | SocketClosed

  datatype Outcome = Resolved(result: Option<Json>) | Rejected(reason: Reason)

  datatype Settlement = Settlement(id: nat, outcome: Outcome)

  /** What a session's caller sees: the settlement of its call, or its timer. */
  datatype Answer = Got(outcome: Outcome) | TimedOut

  datatype Event =
    | Call(sends: bool)
    | Receive(message: Message)
    | Close
    | Expire(id: nat)

  datatype State = State(
    nextId: nat, pending: seq<nat>, settled: seq<Settlement>, answers: map<nat, Answer>, closed: bool)

  const START := State(1, [], [], map[], false)

  function OutcomeOf(m: Message): Outcome
    requires m.Response?
  {
    if Truthy(m.error) then Rejected(RpcError(m.error.value)) else Resolved(m.result)
  }

  function Without(ids: seq<nat>, id: nat): seq<nat> {
    if ids == [] then [] else if ids[0] == id then Without(ids[1..], id) else [ids[0]] + Without(ids[1..], id)
  }

  function Answered(answers: map<nat, Answer>, id: nat, a: Answer): map<nat, Answer> {
    if id in answers then answers else answers[id := a]
  }

  function Issue(s: State): State {
    s.(nextId := s.nextId + 1, pending := s.pending + [s.nextId])
  }

  function Settle(s: State, id: nat, o: Outcome): State {
    s.(pending := Without(s.pending, id), settled := s.settled + [Settlement(id, o)],
       answers := Answered(s.answers, id, Got(o)))
  }

  function FailHead(s: State, ids: seq<nat>): State
    requires ids != []
  {
    s.(settled := s.settled + [Settlement(ids[0], Rejected(SocketClosed))],
       answers := Answered(s.answers, ids[0], Got(Rejected(SocketClosed))))
  }

  /** Rejecting every waiter, in the order the calls were made. */
  function FailAll(s: State, ids: seq<nat>): State
    decreases |ids|
  {
    if ids == [] then s.(pending := []) else FailAll(FailHead(s, ids), ids[1..])
  }

  function Step(s: State, e: Event): State {
    match e
    case Call(sends) =>
      if s.closed then s
      else
        var t := Issue(s);
        if sends then t else Settle(t, s.nextId, Rejected(SendFailed))
    case Receive(m) => if m.Response? && m.id in s.pending then Settle(s, m.id, OutcomeOf(m)) else s
    case Close => if s.closed then s else FailAll(s.(closed := true), s.pending)
    case Expire(id) => if 1 <= id < s.nextId then s.(answers := Answered(s.answers, id, TimedOut)) else s
  }

  function RunAll(events: seq<Event>): State {
    if events == [] then START else Step(RunAll(events[..|events| - 1]), events[|events| - 1])
  }

  /** The socket object; `settled` and `answers` record the promise callbacks it has invoked. */
  class JsonRpcSocket {
    var nextId: nat
    var pending: seq<nat>
    var closed: bool
    var settled: seq<Settlement>
    var answers: map<nat, Answer>

    ghost function Value(): State
      reads this
    {
      State(nextId, pending, settled, answers, closed)
    }

    constructor ()
      ensures Value() == START
    {
      nextId, pending, closed, settled, answers := 1, [], false, [], map[];
    }

    method Settled(id: nat, o: Outcome)
      modifies this`settled, this`answers
      ensures settled == old(settled) + [Settlement(id, o)]
      ensures answers == Answered(old(answers), id, Got(o))
    {
      settled := settled + [Settlement(id, o)];
      if id !in answers {
        answers := answers[id := Got(o)];
      }
    }

    method Call(sends: bool) returns (id: Option<nat>)
      modifies this
      ensures Value() == Step(old(Value()), Event.Call(sends))
      ensures id == if old(closed) then None else Some(old(nextId))
    {
      if closed {
        return None;
      }
      id := Some(nextId);
      nextId := nextId + 1;
      pending := pending + [id.value];
      if !sends {
        pending := Without(pending, id.value);
        Settled(id.value, Rejected(SendFailed));
      }
    }

    /** The handler; reading the id of `null` throws, before anything has changed. */
    method OnMessage(m: Message) returns (threw: bool)
      modifies this
      ensures Value() == Step(old(Value()), Receive(m))
      ensures threw == m.NullFrame?
    {
      threw := m.NullFrame?;
      if !m.Response? || m.id !in pending {
        return;
      }
      pending := Without(pending, m.id);
      if Truthy(m.error) {
        Settled(m.id, Rejected(RpcError(m.error.value)));
      } else {
        Settled(m.id, Resolved(m.result));
      }
    }

    method OnClose()
      modifies this
      ensures Value() == Step(old(Value()), Close)
    {
      if closed {
        return;
      }
      closed := true;
      ghost var goal := FailAll(Value(), pending);
      for i := 0 to |pending|
        invariant pending == old(pending) && nextId == old(nextId) && closed
        invariant FailAll(Value(), pending[i..]) == goal
      {
        assert pending[i..][1..] == pending[i + 1..];
        Settled(pending[i], Rejected(SocketClosed));
      }
      pending := [];
    }

    /** The timer of `withTimeout`: the caller is told, the pending entry stays. */
    method OnExpire(id: nat)
      modifies this`answers
      ensures Value() == Step(old(Value()), Expire(id))
    {
      if 1 <= id < nextId && id !in answers {
        answers := answers[id := TimedOut];
      }
    }
  }

  // ---------- The reference: what a call's fate should be, read off the events alone ----------

  predicate ClosedBy(events: seq<Event>) {
    Close in events
  }

  /** The id of a call made after `events`: one more than the calls accepted so far. */
  function IdAfter(events: seq<Event>): nat {
    if events == [] then 1
    else
      var before := events[..|events| - 1];
      if events[|events| - 1].Call? && !ClosedBy(before) then IdAfter(before) + 1 else IdAfter(before)
  }

  /** What a response says to its call: a result, unless its error is something that counts as true. */
  function Told(error: Option<Json>, result: Option<Json>): Outcome {
    if error in FALSY then Resolved(result) else Rejected(RpcError(error.value))
  }

  lemma ToldExactly(m: Message)
    requires m.Response?
    ensures OutcomeOf(m) == Told(m.error, m.result)
  {
    TruthyExactly(m.error);
  }

  /** How call `id` is settled by the events after it: by the first response with its id or by the close. */
  function Fate(id: nat, later: seq<Event>): Option<Outcome> {
    if later == [] then None
    else
      match later[0]
      case Receive(Response(j, error, result)) =>
        if j == id then Some(Told(error, result)) else Fate(id, later[1..])
      case Close => Some(Rejected(SocketClosed))
      case _ => Fate(id, later[1..])
  }

  /** What its caller is told: whichever of settlement and timer comes first. */
  function FirstAnswer(id: nat, later: seq<Event>): Option<Answer> {
    if later == [] then None
    else if later[0] == Expire(id) then Some(TimedOut)
    else
      var now := Fate(id, later[..1]);
      if now.Some? then Some(Got(now.value)) else FirstAnswer(id, later[1..])
  }

  function CallFate(events: seq<Event>, k: nat): Option<Outcome>
    requires k < |events| && events[k].Call?
  {
    if !events[k].sends then Some(Rejected(SendFailed)) else Fate(IdAfter(events[..k]), events[k + 1..])
  }

  function CallAnswer(events: seq<Event>, k: nat): Option<Answer>
    requires k < |events| && events[k].Call?
  {
    if !events[k].sends then Some(Got(Rejected(SendFailed))) else FirstAnswer(IdAfter(events[..k]), events[k + 1..])
  }

  lemma {:induction false} FateAppend(id: nat, later: seq<Event>, e: Event)
    ensures Fate(id, later + [e]) == if Fate(id, later).Some? then Fate(id, later) else Fate(id, [e])
  {
    if later != [] {
      assert (later + [e])[1..] == later[1..] + [e];
      FateAppend(id, later[1..], e);
    } else {
      assert later + [e] == [e];
    }
  }

  lemma {:induction false} AnswerAppend(id: nat, later: seq<Event>, e: Event)
    ensures FirstAnswer(id, later + [e]) ==
            if FirstAnswer(id, later).Some? then FirstAnswer(id, later) else FirstAnswer(id, [e])
  {
    if later != [] {
      assert (later + [e])[1..] == later[1..] + [e];
      assert (later + [e])[..1] == later[..1];
      AnswerAppend(id, later[1..], e);
    } else {
      assert later + [e] == [e];
    }
  }

  // ---------- The invariant over every interleaving ----------

  /** `outcome` is the one settlement of `id`, or there is none and the call is pending. */
  ghost predicate HasFate(s: State, id: nat, fate: Option<Outcome>) {
    match fate
    case None => id in s.pending && forall x | x in s.settled :: x.id != id
    case Some(o) =>
      && id !in s.pending && Settlement(id, o) in s.settled
      && forall x | x in s.settled && x.id == id :: x.outcome == o
  }

  ghost predicate HasAnswer(s: State, id: nat, answer: Option<Answer>) {
    match answer
    case None => id !in s.answers
    case Some(a) => id in s.answers && s.answers[id] == a
  }

  function Ids(settled: seq<Settlement>): (ids: seq<nat>)
    ensures |ids| == |settled| && forall i | 0 <= i < |ids| :: ids[i] == settled[i].id
  {
    seq(|settled|, i requires 0 <= i < |settled| => settled[i].id)
  }

  /** The ids handed out while the counter went from 1 to `nextId`. */
  function Issued(nextId: nat): seq<nat> {
    if nextId <= 1 then [] else Issued(nextId - 1) + [nextId - 1]
  }

  /** Conservation: pending and settled calls together are the calls issued, each exactly once. */
  ghost predicate Conserved(s: State) {
    multiset(s.pending) + multiset(Ids(s.settled)) == multiset(Issued(s.nextId))
  }

  ghost predicate WellFormed(s: State) {
    && s.nextId >= 1
    && Conserved(s)
    && (forall id | id in s.answers :: 1 <= id < s.nextId)
    && (s.closed ==> s.pending == [])
  }

  lemma {:induction false} WithoutCount(ids: seq<nat>, id: nat)
    ensures multiset(Without(ids, id)) == multiset(ids)[id := 0]
  {
    if ids != [] {
      WithoutCount(ids[1..], id);
      assert ids == [ids[0]] + ids[1..];
    }
  }

  lemma {:induction false} IssuedOnce(nextId: nat, id: nat)
    ensures multiset(Issued(nextId))[id] == if 1 <= id < nextId then 1 else 0
  {
    if nextId > 1 {
      IssuedOnce(nextId - 1, id);
    }
  }

  /** What conservation says about one id. */
  lemma OnceEach(s: State, id: nat)
    requires Conserved(s)
    ensures multiset(s.pending)[id] + multiset(Ids(s.settled))[id] == if 1 <= id < s.nextId then 1 else 0
    ensures id in s.pending ==> 1 <= id < s.nextId && id !in Ids(s.settled)
  {
    var all := multiset(s.pending) + multiset(Ids(s.settled));
    assert all[id] == multiset(Issued(s.nextId))[id];
    IssuedOnce(s.nextId, id);
  }

  lemma IdsAppend(settled: seq<Settlement>, x: Settlement)
    ensures Ids(settled + [x]) == Ids(settled) + [x.id]
  {
  }

  lemma SettleConserves(s: State, id: nat, o: Outcome)
    requires Conserved(s) && id in s.pending
    ensures Conserved(Settle(s, id, o))
  {
    OnceEach(s, id);
    WithoutCount(s.pending, id);
    IdsAppend(s.settled, Settlement(id, o));
    assert multiset(s.pending) == multiset(s.pending)[id := 0] + multiset{id};
  }

  lemma OneMore(a: seq<nat>, b: seq<nat>, all: seq<nat>, x: nat)
    requires multiset(a) + multiset(b) == multiset(all)
    ensures multiset(a + [x]) + multiset(b) == multiset(all + [x])
  {
  }

  lemma CallConserves(s: State)
    requires Conserved(s) && s.nextId >= 1
    ensures Conserved(Issue(s))
  {
    OneMore(s.pending, Ids(s.settled), Issued(s.nextId), s.nextId);
    assert Issued(s.nextId + 1) == Issued(s.nextId) + [s.nextId];
  }

  function Closings(ids: seq<nat>): seq<Settlement> {
    seq(|ids|, i requires 0 <= i < |ids| => Settlement(ids[i], Rejected(SocketClosed)))
  }

  /** A close settles exactly the calls it finds pending, all alike and in order. */
  lemma {:induction false} FailAllSettles(s: State, ids: seq<nat>)
    ensures var t := FailAll(s, ids);
            && t.pending == [] && t.nextId == s.nextId && t.closed == s.closed
            && t.settled == s.settled + Closings(ids)
    decreases |ids|
  {
    if ids != [] {
      FailAllSettles(FailHead(s, ids), ids[1..]);
    }
  }

  lemma {:induction false} FailAllAnswers(s: State, ids: seq<nat>)
    ensures var t := FailAll(s, ids);
            && (forall id :: id in t.answers <==> id in s.answers || id in ids)
            && (forall id | id in t.answers ::
                  t.answers[id] == if id in s.answers then s.answers[id] else Got(Rejected(SocketClosed)))
    decreases |ids|
  {
    if ids != [] {
      assert ids == [ids[0]] + ids[1..];
      FailAllAnswers(FailHead(s, ids), ids[1..]);
    }
  }

  lemma FailAllSpec(s: State, ids: seq<nat>)
    ensures var t := FailAll(s, ids);
            && t.pending == [] && t.nextId == s.nextId && t.closed == s.closed
            && Ids(t.settled) == Ids(s.settled) + ids
            && (forall x: Settlement ::
                  x in t.settled <==> x in s.settled || (x.id in ids && x.outcome == Rejected(SocketClosed)))
            && (forall id :: id in t.answers <==> id in s.answers || id in ids)
            && (forall id | id in t.answers ::
                  t.answers[id] == if id in s.answers then s.answers[id] else Got(Rejected(SocketClosed)))
  {
    FailAllSettles(s, ids);
    FailAllAnswers(s, ids);
    forall x: Settlement | x.id in ids && x.outcome == Rejected(SocketClosed)
      ensures x in Closings(ids)
    {
      var i :| 0 <= i < |ids| && ids[i] == x.id;
      assert Closings(ids)[i] == x;
    }
  }

  lemma CloseKeepsWellFormed(s: State)
    requires WellFormed(s) && !s.closed
    ensures WellFormed(Step(s, Close))
  {
    var t := Step(s, Close);
    FailAllSpec(s.(closed := true), s.pending);
    assert multiset(Ids(t.settled)) == multiset(Ids(s.settled)) + multiset(s.pending);
    forall id | id in s.pending
      ensures 1 <= id < s.nextId
    {
      OnceEach(s, id);
    }
  }

  lemma SettleKeepsWellFormed(s: State, id: nat, o: Outcome)
    requires WellFormed(s) && id in s.pending
    ensures WellFormed(Settle(s, id, o))
  {
    OnceEach(s, id);
    SettleConserves(s, id, o);
  }

  lemma StepKeepsWellFormed(s: State, e: Event)
    requires WellFormed(s)
    ensures WellFormed(Step(s, e))
  {
    if e.Call? && !s.closed {
      CallConserves(s);
      if e.sends {
        assert Step(s, e) == Issue(s);
      } else {
        SettleKeepsWellFormed(Issue(s), s.nextId, Rejected(SendFailed));
      }
    } else if e.Receive? && e.message.Response? && e.message.id in s.pending {
      SettleKeepsWellFormed(s, e.message.id, OutcomeOf(e.message));
    } else if e.Close? && !s.closed {
      CloseKeepsWellFormed(s);
    } else {
      var t := Step(s, e);
      assert t.nextId == s.nextId && t.pending == s.pending && t.settled == s.settled && t.closed == s.closed;
    }
  }

  lemma StepCounts(s: State, e: Event)
    ensures Step(s, e).nextId == if e.Call? && !s.closed then s.nextId + 1 else s.nextId
    ensures Step(s, e).closed == (s.closed || e.Close?)
  {
    if e.Close? && !s.closed {
      FailAllSettles(s.(closed := true), s.pending);
    }
  }

  lemma {:induction false} RunIsWellFormed(events: seq<Event>)
    ensures var s := RunAll(events);
            WellFormed(s) && s.nextId == IdAfter(events) && s.closed == ClosedBy(events)
  {
    if events != [] {
      var before, e := events[..|events| - 1], events[|events| - 1];
      assert events == before + [e];
      RunIsWellFormed(before);
      StepKeepsWellFormed(RunAll(before), e);
      StepCounts(RunAll(before), e);
    }
  }

  lemma FateOfOne(id: nat, e: Event)
    ensures Fate(id, [e]) ==
            if e.Receive? && e.message.Response? && e.message.id == id
            then Some(Told(e.message.error, e.message.result))
            else if e.Close? then Some(Rejected(SocketClosed)) else None
    ensures FirstAnswer(id, [e]) ==
            if e == Expire(id) then Some(TimedOut)
            else if Fate(id, [e]).Some? then Some(Got(Fate(id, [e]).value)) else None
  {
    assert [e][1..] == [] && [e][..1] == [e];
  }

  lemma {:induction false} WithoutSpec(ids: seq<nat>, id: nat)
    ensures forall x :: x in Without(ids, id) <==> x in ids && x != id
  {
    if ids != [] {
      WithoutSpec(ids[1..], id);
      assert ids == [ids[0]] + ids[1..];
    }
  }

  /** One more event extends the fate and the answer of an issued call as the reference says. */
  lemma StepExtendsFate(s: State, e: Event, id: nat, fate: Option<Outcome>, answer: Option<Answer>)
    requires WellFormed(s) && 1 <= id < s.nextId && HasFate(s, id, fate) && HasAnswer(s, id, answer)
    requires fate.Some? ==> answer.Some?
    ensures HasFate(Step(s, e), id, if fate.Some? then fate else Fate(id, [e]))
    ensures HasAnswer(Step(s, e), id, if answer.Some? then answer else FirstAnswer(id, [e]))
    ensures fate.Some? || Fate(id, [e]).Some? ==> answer.Some? || FirstAnswer(id, [e]).Some?
  {
    FateOfOne(id, e);
    match e
    case Call(sends) => WithoutSpec(s.pending + [s.nextId], s.nextId);
    case Receive(m) =>
      if m.Response? {
        ToldExactly(m);
        WithoutSpec(s.pending, m.id);
      }
    case Close => FailAllSpec(s.(closed := true), s.pending);
    case Expire(j) =>
  }

  /** A call just made is pending, or settled at once when sending throws. */
  lemma CallStarts(s: State, sends: bool)
    requires WellFormed(s) && !s.closed
    ensures var t := Step(s, Call(sends));
            && HasFate(t, s.nextId, if sends then None else Some(Rejected(SendFailed)))
            && HasAnswer(t, s.nextId, if sends then None else Some(Got(Rejected(SendFailed))))
  {
    WithoutSpec(s.pending + [s.nextId], s.nextId);
    OnceEach(s, s.nextId);
    assert s.nextId !in Ids(s.settled);
  }

  /** What the theorem says of the call made by event `k`. */
  ghost predicate MeetsFate(events: seq<Event>, k: nat)
    requires k < |events| && events[k].Call?
  {
    var s, id := RunAll(events), IdAfter(events[..k]);
    && HasFate(s, id, CallFate(events, k))
    && HasAnswer(s, id, CallAnswer(events, k))
    && (CallFate(events, k).Some? ==> CallAnswer(events, k).Some?)
    && 1 <= id < s.nextId
  }

  /** The call is the last event. */
  lemma LastCallMeetsItsFate(before: seq<Event>, e: Event)
    requires e.Call? && !ClosedBy(before)
    ensures MeetsFate(before + [e], |before|)
  {
    var events := before + [e];
    assert events[..|before|] == before && events[|before| + 1..] == [];
    assert events[..|events| - 1] == before;
    RunIsWellFormed(before);
    CallStarts(RunAll(before), e.sends);
  }

  /** Some other event is the last. */
  lemma LaterEventKeepsFate(before: seq<Event>, e: Event, k: nat)
    requires k < |before| && before[k].Call? && MeetsFate(before, k)
    ensures MeetsFate(before + [e], k)
  {
    var events, id := before + [e], IdAfter(before[..k]);
    assert events[..k] == before[..k] && events[k + 1..] == before[k + 1..] + [e];
    assert events[..|events| - 1] == before;
    RunIsWellFormed(before);
    RunIsWellFormed(events);
    StepExtendsFate(RunAll(before), e, id, CallFate(before, k), CallAnswer(before, k));
    FateAppend(id, before[k + 1..], e);
    AnswerAppend(id, before[k + 1..], e);
  }

  /**
   * Exactly once, and only one's own: after any interleaving, the call made by event `k` has been
   * settled as the first response with its id (or the send failure, or the close) says, or is
   * still pending; its caller was told that settlement or the timeout, whichever came first.
   */
  lemma {:induction false} EachCallMeetsItsFate(events: seq<Event>, k: nat)
    requires k < |events| && events[k].Call? && !ClosedBy(events[..k])
    ensures MeetsFate(events, k)
  {
    var before, e := events[..|events| - 1], events[|events| - 1];
    assert events == before + [e];
    if k == |before| {
      LastCallMeetsItsFate(before, e);
    } else {
      assert before[..k] == events[..k];
      EachCallMeetsItsFate(before, k);
      LaterEventKeepsFate(before, e, k);
    }
  }

  /** The event settles call `id` if nothing has. */
  predicate Decides(e: Event, id: nat) {
    e.Close? || (e.Receive? && e.message.Response? && e.message.id == id)
  }

  lemma {:induction false} FateAtFirst(id: nat, later: seq<Event>, m: nat)
    requires m < |later| && Decides(later[m], id) && forall j | 0 <= j < m :: !Decides(later[j], id)
    ensures Fate(id, later) == Fate(id, [later[m]])
    ensures FirstAnswer(id, later) ==
            if Expire(id) in later[..m] then Some(TimedOut) else FirstAnswer(id, [later[m]])
    decreases m
  {
    FateOfOne(id, later[0]);
    FateOfOne(id, later[m]);
    assert later[..1] == [later[0]];
    if m > 0 {
      assert later[..m] == [later[0]] + later[1..][..m - 1];
      FateAtFirst(id, later[1..], m - 1);
    }
  }

  lemma FateOfCall(events: seq<Event>, k: nat, m: nat)
    requires k < m < |events| && events[k] == Call(true) && Decides(events[m], IdAfter(events[..k]))
    requires forall j | k < j < m :: !Decides(events[j], IdAfter(events[..k]))
    ensures var id := IdAfter(events[..k]);
            && CallFate(events, k) == Fate(id, [events[m]])
            && CallAnswer(events, k) ==
               if Expire(id) in events[k + 1..m] then Some(TimedOut) else FirstAnswer(id, [events[m]])
  {
    var id, later := IdAfter(events[..k]), events[k + 1..];
    assert later[m - k - 1] == events[m] && later[..m - k - 1] == events[k + 1..m];
    forall j | 0 <= j < m - k - 1
      ensures !Decides(later[j], id)
    {
      assert later[j] == events[k + 1 + j];
    }
    FateAtFirst(id, later, m - k - 1);
  }

  /**
   * Spelled out: a call that was sent, and whose first response is event `m` with no close before it, is
   * settled once by that response, as a rejection exactly if its error counts as true; and its caller hears
   * just that, or the timeout if the timer was first.
   */
  lemma FirstResponseSettles(events: seq<Event>, k: nat, m: nat)
    requires k < m < |events| && events[k] == Call(true) && !ClosedBy(events[..k])
    requires events[m].Receive? && Decides(events[m], IdAfter(events[..k]))
    requires forall j | k < j < m :: !Decides(events[j], IdAfter(events[..k]))
    ensures var s, id, response := RunAll(events), IdAfter(events[..k]), events[m].message;
            var outcome := if response.error in FALSY then Resolved(response.result)
                           else Rejected(RpcError(response.error.value));
            && Settlement(id, outcome) in s.settled && (forall x | x in s.settled && x.id == id :: x.outcome == outcome)
            && id in s.answers
            && s.answers[id] == if Expire(id) in events[k + 1..m] then TimedOut else Got(outcome)
  {
    EachCallMeetsItsFate(events, k);
    FateOfCall(events, k, m);
    FateOfOne(IdAfter(events[..k]), events[m]);
  }

  /** Different calls have different ids, so no response can reach two of them. */
  lemma {:induction false} IdsAreFresh(events: seq<Event>, j: nat, k: nat)
    requires j < k <= |events| && events[j].Call? && !ClosedBy(events[..j])
    ensures IdAfter(events[..j]) < IdAfter(events[..k])
    decreases k
  {
    assert events[..k][..k - 1] == events[..k - 1];
    if j < k - 1 {
      IdsAreFresh(events, j, k - 1);
    }
  }

  /** After a close nothing is pending and a later call is refused without an id. */
  lemma ClosedForGood(events: seq<Event>, sends: bool)
    requires ClosedBy(events)
    ensures RunAll(events).pending == []
    ensures Step(RunAll(events), Call(sends)) == RunAll(events)
  {
    RunIsWellFormed(events);
  }
}
