/** Reference-counted LLM client slots: retire on a new configuration, close when idle. */
module ClientSlots {
  import opened Wrappers

  type SlotId = nat
  type RequestId = nat
  type CallId = nat

  /** The slot's close task: not created, waiting for idle, woken, inside client.close, ended. */
  datatype CloseTask = NoTask | Waiting | Woken | Closing | Ended(ok: bool)

  datatype Slot = Slot(fingerprint: int, inFlight: nat, retired: bool, closed: bool, task: CloseTask) {
    /** Start or reuse the close task. */
    function Schedule(): Slot {
      if closed || task.Waiting? || task.Woken? || task.Closing? then this else this.(task := Waiting)
    }

    function Shut(): Slot {
      if closed then this else this.(retired := true).Schedule()
    }
  }

  /** `users` lists the slot of every request between acquire and release; no step reads it. */
  datatype State = State(
    closed: bool,
    active: Option<SlotId>,
    slots: map<SlotId, Slot>,
    users: map<RequestId, SlotId>,
    closing: map<CallId, set<SlotId>>)

  const INITIAL := State(false, None, map[], map[], map[])

  /** A closed slot has left the provider's list. */
  function Listed(s: State): set<SlotId> {
    set i <- s.slots | !s.slots[i].closed
  }

  datatype Event =
    | Acquire(r: RequestId, i: SlotId, fingerprint: int)   // i names the slot if a new one is made
    | Release(r: RequestId)
    | Wakes(i: SlotId)
    | CloseBegins(i: SlotId)
    | CloseEnds(i: SlotId, ok: bool)
    | AcloseBegins(c: CallId)
    | AcloseReturns(c: CallId)

  predicate Enabled(s: State, e: Event) {
    match e
    case Acquire(r, i, _) =>
      !s.closed && r !in s.users && i !in s.slots && (s.active.Some? ==> s.active.value in s.slots)
    case Release(r) => r in s.users && s.users[r] in s.slots
    case Wakes(i) => i in s.slots && s.slots[i].task.Waiting? && s.slots[i].inFlight == 0
    case CloseBegins(i) => i in s.slots && s.slots[i].task.Woken?
    case CloseEnds(i, _) => i in s.slots && s.slots[i].task.Closing?
    case AcloseBegins(c) => c !in s.closing
    case AcloseReturns(c) =>
      c in s.closing && forall i <- s.closing[c] :: i in s.slots && s.slots[i].task == Ended(true)
  }

  /** The slot a request gets: the active one if its configuration still matches. */
  function Chosen(s: State, i: SlotId, fingerprint: int): SlotId {
    if s.active.Some? && s.active.value in s.slots && s.slots[s.active.value].fingerprint == fingerprint
    then s.active.value else i
  }

  function AfterAcquire(s: State, r: RequestId, i: SlotId, fingerprint: int): State
    requires Enabled(s, Acquire(r, i, fingerprint))
  {
    var k := Chosen(s, i, fingerprint);
    var made :=
      if k != i then s.slots
      else
        var added := s.slots[i := Slot(fingerprint, 0, false, false, NoTask)];
        if s.active.None? then added
        else added[s.active.value := s.slots[s.active.value].(retired := true).Schedule()];
    s.(active := Some(k), slots := made[k := made[k].(inFlight := made[k].inFlight + 1)], users := s.users[r := k])
  }

  function AfterRelease(s: State, r: RequestId): State
    requires Enabled(s, Release(r))
  {
    var i := s.users[r];
    var x := s.slots[i].(inFlight := if s.slots[i].inFlight > 0 then s.slots[i].inFlight - 1 else 0);
    s.(slots := s.slots[i := if x.inFlight == 0 && (x.retired || s.closed) then x.Schedule() else x],
       users := s.users - {r})
  }

  function Next(s: State, e: Event): State
    requires Enabled(s, e)
  {
    match e
    case Acquire(r, i, fingerprint) => AfterAcquire(s, r, i, fingerprint)
    case Release(r) => AfterRelease(s, r)
    case Wakes(i) => s.(slots := s.slots[i := s.slots[i].(task := Woken)])
    case CloseBegins(i) =>
      s.(slots := s.slots[i := s.slots[i].(task := if s.slots[i].closed then Ended(true) else Closing)])
    case CloseEnds(i, ok) =>
      if !ok then s.(slots := s.slots[i := s.slots[i].(task := Ended(false))])
      else s.(slots := s.slots[i := s.slots[i].(task := Ended(true), closed := true)],
              active := if s.active == Some(i) then None else s.active)
    case AcloseBegins(c) =>
      s.(closed := true,
         slots := map i <- s.slots :: s.slots[i].Shut(),
         closing := s.closing[c := Listed(s)])
    case AcloseReturns(c) => s.(closing := s.closing - {c})
  }

  function Users(s: State, i: SlotId): set<RequestId> {
    set r <- s.users | s.users[r] == i
  }

  /** Counts, retirement and close tasks agree, slot by slot. */
  ghost predicate SlotOk(s: State, i: SlotId)
    requires i in s.slots
  {
    var x := s.slots[i];
    && x.inFlight == |Users(s, i)|
    && (x.retired <==> s.active != Some(i) || s.closed)
    && (x.task != NoTask <==> x.retired)
    && (x.task.Woken? || x.task.Closing? || x.closed ==> x.inFlight == 0)
    && (x.closed <==> x.task == Ended(true))
  }

  ghost predicate Inv(s: State) {
    && (forall i <- s.slots :: SlotOk(s, i))
    && (s.active.Some? ==> s.active.value in s.slots && !s.slots[s.active.value].closed)
    && (forall r <- s.users :: s.users[r] in s.slots)
    && (forall c <- s.closing :: s.closed && forall i <- s.slots :: s.slots[i].closed || i in s.closing[c])
  }

  lemma UsersAfterAcquire(s: State, t: State, r: RequestId, k: SlotId, i: SlotId)
    requires r !in s.users && t.users == s.users[r := k]
    ensures |Users(t, i)| == |Users(s, i)| + if i == k then 1 else 0
  {
    assert Users(t, i) == Users(s, i) + if i == k then {r} else {};
  }

  lemma UsersAfterRelease(s: State, t: State, r: RequestId, i: SlotId)
    requires r in s.users && t.users == s.users - {r}
    ensures |Users(t, i)| == |Users(s, i)| - if i == s.users[r] then 1 else 0
  {
    assert Users(t, i) == Users(s, i) - if i == s.users[r] then {r} else {};
  }

  lemma AcquireKeepsInv(s: State, r: RequestId, i: SlotId, fingerprint: int)
    requires Inv(s) && Enabled(s, Acquire(r, i, fingerprint))
    ensures Inv(Next(s, Acquire(r, i, fingerprint)))
  {
    var t := Next(s, Acquire(r, i, fingerprint));
    var k := Chosen(s, i, fingerprint);
    assert Users(s, i) == {};
    forall n <- t.slots ensures SlotOk(t, n) {
      UsersAfterAcquire(s, t, r, k, n);
      assert n != i ==> SlotOk(s, n);
    }
  }

  lemma ReleaseKeepsInv(s: State, r: RequestId)
    requires Inv(s) && Enabled(s, Release(r))
    ensures Inv(Next(s, Release(r)))
  {
    var t := Next(s, Release(r));
    assert r in Users(s, s.users[r]);
    forall n <- t.slots ensures SlotOk(t, n) {
      UsersAfterRelease(s, t, r, n);
      assert SlotOk(s, n);
    }
  }

  lemma CloseKeepsInv(s: State, e: Event)
    requires Inv(s) && Enabled(s, e) && (e.Wakes? || e.CloseBegins? || e.CloseEnds?)
    ensures Inv(Next(s, e))
  {
    var t := Next(s, e);
    forall n <- t.slots ensures SlotOk(t, n) {
      assert SlotOk(s, n) && Users(t, n) == Users(s, n);
    }
  }

  lemma AcloseKeepsInv(s: State, e: Event)
    requires Inv(s) && Enabled(s, e) && (e.AcloseBegins? || e.AcloseReturns?)
    ensures Inv(Next(s, e))
  {
    var t := Next(s, e);
    forall n <- t.slots ensures SlotOk(t, n) {
      assert SlotOk(s, n) && Users(t, n) == Users(s, n);
    }
  }

  lemma StepKeepsInv(s: State, e: Event)
    requires Inv(s) && Enabled(s, e)
    ensures Inv(Next(s, e))
  {
    if e.Acquire? {
      AcquireKeepsInv(s, e.r, e.i, e.fingerprint);
    } else if e.Release? {
      ReleaseKeepsInv(s, e.r);
    } else if e.AcloseBegins? || e.AcloseReturns? {
      AcloseKeepsInv(s, e);
    } else {
      CloseKeepsInv(s, e);
    }
  }

  ghost predicate Step(s: State, e: Event, t: State) {
    Enabled(s, e) && t == Next(s, e)
  }

  ghost predicate Trace(ss: seq<State>, es: seq<Event>) {
    |ss| == |es| + 1 && forall n | 0 <= n < |es| :: Step(ss[n], es[n], ss[n + 1])
  }

  lemma {:induction false} TraceKeepsInv(ss: seq<State>, es: seq<Event>, n: nat)
    requires Trace(ss, es) && n < |ss| && ss[0] == INITIAL
    ensures Inv(ss[n])
  {
    if n > 0 {
      TraceKeepsInv(ss, es, n - 1);
      assert Step(ss[n - 1], es[n - 1], ss[n]);
      StepKeepsInv(ss[n - 1], es[n - 1]);
    }
  }

  /** client.close never begins while a request is using the slot, and never runs twice at once. */
  lemma CloseOnlyWhenUnused(ss: seq<State>, es: seq<Event>, n: nat, i: SlotId)
    requires Trace(ss, es) && n < |es| && ss[0] == INITIAL && es[n] == CloseBegins(i)
    ensures Users(ss[n], i) == {} && i in ss[n].slots && ss[n].slots[i].retired && !ss[n].slots[i].task.Closing?
  {
    TraceKeepsInv(ss, es, n);
    assert Step(ss[n], es[n], ss[n + 1]);
    assert SlotOk(ss[n], i);
  }

  /** At most one slot is in service, and the counts are the outstanding requests. */
  lemma OneSlotInService(ss: seq<State>, es: seq<Event>, n: nat)
    requires Trace(ss, es) && n < |ss| && ss[0] == INITIAL
    ensures var s := ss[n];
            && (forall i, k | i in s.slots && k in s.slots && !s.slots[i].retired && !s.slots[k].retired :: i == k)
            && (forall i <- s.slots :: s.slots[i].inFlight == |Users(s, i)|)
  {
    TraceKeepsInv(ss, es, n);
    assert forall i <- ss[n].slots :: SlotOk(ss[n], i);
  }

  /** From s to t a retired slot has only drained: same object, no new request, and closed means untouched. */
  ghost predicate OnlyDrained(s: State, t: State, i: SlotId) {
    && i in s.slots && i in t.slots
    && t.slots[i].retired && t.slots[i].fingerprint == s.slots[i].fingerprint
    && t.slots[i].inFlight <= s.slots[i].inFlight
    && Users(t, i) <= Users(s, i)
    && (s.slots[i].closed ==> t.slots[i] == s.slots[i])
  }

  lemma StepOnlyDrains(s: State, e: Event, i: SlotId)
    requires Inv(s) && Enabled(s, e) && i in s.slots && s.slots[i].retired
    ensures OnlyDrained(s, Next(s, e), i)
  {
    assert SlotOk(s, i);
  }

  /** A retired slot stays retired, is never handed out again, and once closed stays closed. */
  lemma {:induction false} RetiredSlotsOnlyDrain(ss: seq<State>, es: seq<Event>, n: nat, m: nat, i: SlotId)
    requires Trace(ss, es) && ss[0] == INITIAL && n <= m < |ss|
    requires i in ss[n].slots && ss[n].slots[i].retired
    ensures OnlyDrained(ss[n], ss[m], i)
    decreases m
  {
    if n < m {
      RetiredSlotsOnlyDrain(ss, es, n, m - 1, i);
      TraceKeepsInv(ss, es, m - 1);
      assert Step(ss[m - 1], es[m - 1], ss[m]);
      StepOnlyDrains(ss[m - 1], es[m - 1], i);
    }
  }

  lemma ReturnFindsAllClosed(s: State, c: CallId)
    requires Inv(s) && Enabled(s, AcloseReturns(c))
    ensures var t := Next(s, AcloseReturns(c)); t.closed && Listed(t) == {}
  {
    forall i <- s.slots ensures s.slots[i].closed {
      assert SlotOk(s, i);
    }
  }

  lemma NothingIsAddedOnceClosed(s: State, e: Event)
    requires s.closed && Listed(s) == {} && Enabled(s, e) && Inv(s)
    ensures !e.Acquire? && Next(s, e).closed && Listed(Next(s, e)) == {}
  {
    forall i <- s.slots ensures s.slots[i].closed && SlotOk(s, i) {
      assert i !in Listed(s);
    }
    var t := Next(s, e);
    forall i <- t.slots ensures t.slots[i].closed {
      assert s.slots[i].closed && SlotOk(s, i);
    }
  }

  /** Once a close call returns, nothing is listed and nothing can be added. */
  lemma {:induction false} AcloseLeavesNothing(ss: seq<State>, es: seq<Event>, n: nat, m: nat, c: CallId)
    requires Trace(ss, es) && ss[0] == INITIAL && n < m < |ss| && es[n] == AcloseReturns(c)
    ensures ss[m].closed && Listed(ss[m]) == {}
    ensures m < |es| ==> !es[m].Acquire?
    decreases m
  {
    TraceKeepsInv(ss, es, m - 1);
    assert Step(ss[m - 1], es[m - 1], ss[m]);
    if n < m - 1 {
      AcloseLeavesNothing(ss, es, n, m - 1, c);
      NothingIsAddedOnceClosed(ss[m - 1], es[m - 1]);
    } else {
      ReturnFindsAllClosed(ss[m - 1], c);
    }
    if m < |es| {
      assert Step(ss[m], es[m], ss[m + 1]);
    }
  }

  datatype ProviderError = Configuration

  /** The provider itself; each method is one block under the client lock and takes exactly one step. */
  class OpenAICompatibleProvider {
    var closed: bool
    var active: Option<SlotId>
    var slots: map<SlotId, Slot>
    ghost var users: map<RequestId, SlotId>
    ghost var closing: map<CallId, set<SlotId>>

    ghost function Abstract(): State
      reads this
    {
      State(closed, active, slots, users, closing)
    }

    constructor ()
      ensures Abstract() == INITIAL && Inv(Abstract())
    {
      closed, active, slots, users, closing := false, None, map[], map[], map[];
    }

    method ScheduleSlotCloseLocked(i: SlotId)
      requires i in slots
      modifies `slots
      ensures slots == old(slots)[i := old(slots[i]).Schedule()]
    {
      var x := slots[i];
      if !x.closed && !(x.task.Waiting? || x.task.Woken? || x.task.Closing?) {
        x := x.(task := Waiting);
      }
      slots := slots[i := x];
    }

    /** `fingerprint` is None when no API key resolves; `unused` names the slot object if one is built. */
    method AcquireClient(r: RequestId, fingerprint: Option<int>, unused: SlotId)
      returns (slot: Result<SlotId, ProviderError>)
      requires r !in users && unused !in slots && (active.Some? ==> active.value in slots)
      modifies this
      ensures slot.Failure? <==> old(closed) || fingerprint.None?
      ensures slot.Failure? ==> Abstract() == old(Abstract())
      ensures slot.Success? ==>
        && Step(old(Abstract()), Acquire(r, unused, fingerprint.value), Abstract())
        && slot.value in slots && slots[slot.value].fingerprint == fingerprint.value
        && r in users && users[r] == slot.value
    {
      if closed || fingerprint.None? {
        return Failure(Configuration);
      }
      var k: SlotId;
      if active.None? || slots[active.value].fingerprint != fingerprint.value {
        k := unused;
        slots := slots[k := Slot(fingerprint.value, 0, false, false, NoTask)];
        if active.Some? {
          slots := slots[active.value := slots[active.value].(retired := true)];
          ScheduleSlotCloseLocked(active.value);
        }
        active := Some(k);
      } else {
        k := active.value;
      }
      slots := slots[k := slots[k].(inFlight := slots[k].inFlight + 1)];
      users := users[r := k];
      slot := Success(k);
    }

    method ReleaseClient(r: RequestId, i: SlotId)
      requires r in users && users[r] == i && i in slots
      modifies this
      ensures Step(old(Abstract()), Release(r), Abstract())
    {
      if slots[i].inFlight > 0 {
        slots := slots[i := slots[i].(inFlight := slots[i].inFlight - 1)];
      }
      if slots[i].inFlight == 0 && (slots[i].retired || closed) {
        ScheduleSlotCloseLocked(i);
      }
      users := users - {r};
    }

    method CloseSlotEnds(i: SlotId, ok: bool)
      requires i in slots && slots[i].task.Closing?
      modifies this
      ensures Step(old(Abstract()), CloseEnds(i, ok), Abstract())
    {
      slots := slots[i := slots[i].(task := Ended(ok))];
      if ok {
        slots := slots[i := slots[i].(closed := true)];
        if active == Some(i) {
          active := None;
        }
      }
    }

    /** Every listed slot is retired and has a close task; the call then awaits those tasks. */
    method AcloseScheduling(c: CallId)
      requires c !in closing
      modifies this
      ensures Step(old(Abstract()), AcloseBegins(c), Abstract())
    {
      ghost var before := Abstract();
      closed := true;
      var rest := set i <- slots | !slots[i].closed;
      while rest != {}
        invariant closed && active == before.active && users == before.users && closing == before.closing
        invariant rest <= Listed(before) && slots.Keys == before.slots.Keys
        invariant forall i <- slots :: slots[i] == if i in rest then before.slots[i] else before.slots[i].Shut()
        decreases rest
      {
        var i :| i in rest;
        slots := slots[i := slots[i].(retired := true)];
        ScheduleSlotCloseLocked(i);
        rest := rest - {i};
      }
      closing := closing[c := Listed(before)];
    }
  }
}
