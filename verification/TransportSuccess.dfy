/** When a bounded TeamSpeak operation succeeds: exactly when connect and operation both answer
    with a value before their limits on a connection not stopped till then. */
module TransportSuccess {
  import opened Wrappers
  import opened Transport

  // ------------------------------------------------------------ which calls are made

  /** The call this event makes, with its time limit. */
  predicate MakesCall(o: Connection, e: Event, kind: Kind, limit: Option<nat>) {
    match e
    case Executes(_) => kind == Command && limit == Some(20000)
    case Continues(_) =>
      (match o.phase
       case Connecting(i) =>
         && i < |o.calls| && o.calls[i].settled && |o.calls[i].deliveries| > 0
         && (if o.calls[i].deliveries[0].outcome.Resolved? then kind == Operate && limit == None
             else o.stopped.None? && kind == Quit && limit == Some(2000))
       case Operating(i) =>
         i < |o.calls| && o.calls[i].settled && |o.calls[i].deliveries| > 0 && o.stopped.None?
         && kind == Quit && limit == Some(2000)
       case _ => false)
    case _ => false
  }

  /** A call is sent exactly on a running connection before the deadline; it then waits, with its
      own timer, till its limit or the deadline. Otherwise it fails at once. */
  predicate CallMade(o: Connection, kind: Kind, limit: Option<nat>, start: Start, o': Connection) {
    && |o'.calls| == |o.calls| + 1
    && var c := o'.calls[|o.calls|];
    && c.kind == kind && (c.sent <==> o.stopped.None? && o.now < o.deadline) && (c.sent <==> o'.stopped.None?)
    && c.expiresAt == (if limit.Some? && o.now + limit.value < o.deadline then o.now + limit.value else o.deadline)
    && c.timer == (if limit.Some? then Some(o.now + limit.value) else None)
    && (c.sent && start.Promised? ==> !c.replied && !c.settled && c.deliveries == [])
    && (c.sent && start.Throws? ==>
          c.replied && c.deliveries == [Settlement(Rejected(ClientError(start.text)), o.now, false)])
    && (!c.sent ==>
          c.deliveries == [Settlement(Rejected(if o.stopped.Some? then o.stopped.value else TimedOut), o.now, true)])
  }

  lemma BoundedMade(o: Connection, kind: Kind, limit: Option<nat>, start: Start)
    ensures CallMade(o, kind, limit, start, Bounded(o, kind, limit, start))
  {
  }

  /** Exactly these events make a call, and this is the call they make. */
  lemma CallsAre(o: Connection, e: Event)
    requires Inv(o)
    ensures forall kind, limit :: MakesCall(o, e, kind, limit) ==> CallMade(o, kind, limit, e.start, Step(o, e))
    ensures |Step(o, e).calls| != |o.calls| ==> exists kind, limit :: MakesCall(o, e, kind, limit)
  {
    forall kind, limit | MakesCall(o, e, kind, limit) ensures CallMade(o, kind, limit, e.start, Step(o, e)) {
      BoundedMade(o, kind, limit, e.start);
      BoundedMade(o.(deadlineCleared := true), kind, limit, e.start);
    }
    if |Step(o, e).calls| != |o.calls| {
      assert !o.phase.Quitting? && !o.phase.Done? ==> CallInv(o, o.phase.main);
      var kind := if e.Executes? then Command
                  else if o.phase.Connecting? && o.calls[o.phase.main].deliveries[0].outcome.Resolved? then Operate
                  else Quit;
      var limit := if kind == Command then Some(20000) else if kind == Operate then None else Some(2000);
      assert MakesCall(o, e, kind, limit);
    }
  }

  /** The connect is sent at once, with 20 of the 180 seconds. */
  lemma BeginIs(now: nat, start: Start)
    ensures var o := Begin(now, start);
      && o.now == now && o.deadline == now + 180000 && o.stopped.None? && o.phase == Connecting(0)
      && |o.calls| == 1 && o.calls[0].kind == Connect && o.calls[0].sent
      && o.calls[0].expiresAt == now + 20000 && o.calls[0].timer == Some(now + 20000)
      && o.calls[0].replied == o.calls[0].settled == start.Throws?
  {
  }

  // ------------------------------------------------------------ when it stops

  /** What stops a running connection: an overdue timer, deadline or value, a call made after the
      deadline, and the end. */
  predicate StopsAt(o: Connection, e: Event) {
    match e
    case Executes(_) => o.now >= o.deadline
    case Replies(i, error) =>
      i < |o.calls| && o.calls[i].sent && !o.calls[i].replied && error.None? && o.now >= o.calls[i].expiresAt
    case TimerFires(i) =>
      i < |o.calls| && !o.calls[i].settled && o.calls[i].timer.Some? && o.now >= o.calls[i].timer.value
    case DeadlineFires => !o.deadlineCleared && o.now >= o.deadline
    case Continues(_) => EndsAt(o) || (OverdueAt(o) && o.now >= o.deadline)
    case Ticks(_) => false
  }

  /** The disconnect has settled. */
  predicate EndsAt(o: Connection) {
    o.phase.Quitting? && o.phase.quit < |o.calls| && o.calls[o.phase.quit].settled
  }

  /** Connect or operation has settled, and the next call is due. */
  predicate OverdueAt(o: Connection) {
    (o.phase.Connecting? || o.phase.Operating?) && o.phase.main < |o.calls| && o.calls[o.phase.main].settled
  }

  lemma StopsIff(o: Connection, e: Event)
    requires Inv(o) && o.stopped.None?
    ensures Step(o, e).stopped.Some? <==> StopsAt(o, e)
    ensures StopsAt(o, e) ==> Step(o, e).stopped.value == if e.Continues? && EndsAt(o) then Finished else TimedOut
  {
    if e.Continues? {
      match o.phase {
        case Connecting(i) => assert CallInv(o, i);
        case Operating(i) => assert CallInv(o, i);
        case Quitting(_, i, _) => assert CallInv(o, i);
        case Done(_, _) =>
      }
    } else if e.Replies? && e.call < |o.calls| {
      assert CallInv(o, e.call);
    }
  }

  // ------------------------------------------------------------ what happened

  /** The connection when event `k` comes. */
  function At(o: Connection, events: seq<Event>, k: nat): Connection
    requires k <= |events|
  {
    Run(o, events[..k])
  }

  /** Event `k` is the first answer to call `i`: a value, before `limit`, and not stopped so far. */
  predicate ValueInTime(o: Connection, events: seq<Event>, k: nat, i: nat, limit: nat) {
    && k < |events| && events[k] == Replies(i, None)
    && var o1 := At(o, events, k);
    && i < |o1.calls| && o1.calls[i].sent && !o1.calls[i].replied && o1.stopped.None? && o1.now < limit
  }

  lemma AtPrefix(o: Connection, events: seq<Event>, n: nat, k: nat)
    requires k <= n <= |events|
    ensures At(o, events[..n], k) == At(o, events, k)
  {
    assert events[..n][..k] == events[..k];
  }

  lemma AtNext(o: Connection, events: seq<Event>, k: nat)
    requires k < |events|
    ensures At(o, events, k + 1) == Step(At(o, events, k), events[k])
  {
    assert events[..k + 1][..k] == events[..k];
  }

  lemma {:induction false} AtInv(o: Connection, events: seq<Event>, k: nat)
    requires Inv(o) && k <= |events|
    ensures Inv(At(o, events, k))
  {
    RunInv(o, events[..k]);
  }

  lemma {:induction false} Persists(o: Connection, events: seq<Event>, k: nat, n: nat)
    requires Inv(o) && k <= n <= |events|
    ensures Keeps(At(o, events, k), At(o, events, n))
    decreases n
  {
    if k == n {
      KeepsSelf(At(o, events, k));
    } else {
      Persists(o, events, k, n - 1);
      PersistsNext(o, events, k, n);
    }
  }

  lemma KeepsSelf(o: Connection)
    ensures Keeps(o, o)
  {
  }

  lemma PersistsNext(o: Connection, events: seq<Event>, k: nat, n: nat)
    requires Inv(o) && k < n <= |events| && Keeps(At(o, events, k), At(o, events, n - 1))
    ensures Keeps(At(o, events, k), At(o, events, n))
  {
    AtInv(o, events, n - 1);
    AtNext(o, events, n - 1);
    KeepsNext(At(o, events, k), At(o, events, n - 1), events[n - 1]);
  }

  lemma KeepsNext(a: Connection, b: Connection, e: Event)
    requires Inv(b) && Keeps(a, b)
    ensures Keeps(a, Step(b, e))
  {
    StepInv(b, e);
    KeepsBoth(a, b, Step(b, e));
  }

  // ------------------------------------------------------------ one connect, one operation

  predicate Succeeded(c: Call) {
    c.settled && |c.deliveries| == 1 && c.deliveries[0].outcome == Resolved
  }

  /** The only connect is call 0, and an operation is there only after it succeeded; it is the
      only one and what the continuation is about. */
  predicate RoleInv(o: Connection, i: nat)
    requires i < |o.calls|
  {
    var c := o.calls[i];
    && (c.kind == Connect <==> i == 0)
    && (i == 0 ==> c.expiresAt + 160000 == o.deadline)
    && (c.kind == Operate ==>
          && c.expiresAt == o.deadline && Succeeded(o.calls[0])
          && !o.phase.Connecting? && o.phase.main == i)
  }

  predicate RolesInv(o: Connection) {
    && |o.calls| > 0
    && (forall i :: 0 <= i < |o.calls| ==> RoleInv(o, i))
    && (o.phase.Connecting? ==> o.phase.main == 0)
  }

  lemma RolesStep(o: Connection, e: Event)
    requires Inv(o) && RolesInv(o)
    ensures RolesInv(Step(o, e))
  {
    var o' := Step(o, e);
    StepInv(o, e);
    PhaseStep(o, e);
    forall i | 0 <= i < |o'.calls| ensures RoleInv(o', i) {
      if i < |o.calls| {
        RoleKept(o, o', i);
      } else {
        CallsAre(o, e);
        NewRole(o, e, o', i);
      }
    }
  }

  /** The continuation turns to the operation only when the connect succeeded, and to no other. */
  predicate PhaseMoves(o: Connection, o': Connection) {
    && (o'.phase.Connecting? ==> o.phase.Connecting? && o'.phase.main == o.phase.main)
    && (o.phase.Connecting? || o'.phase.main == o.phase.main)
  }

  lemma PhaseStep(o: Connection, e: Event)
    ensures PhaseMoves(o, Step(o, e))
  {
  }

  lemma RoleKept(o: Connection, o': Connection, i: nat)
    requires RolesInv(o) && CallsInv(o) && CallsInv(o') && Keeps(o, o') && PhaseMoves(o, o') && i < |o.calls|
    ensures RoleInv(o', i)
  {
    assert RoleInv(o, i) && KeepsCall(o.calls[i], o'.calls[i]);
    assert KeepsCall(o.calls[0], o'.calls[0]) && CallInv(o', 0) && CallInv(o, 0);
  }

  lemma NewRole(o: Connection, e: Event, o': Connection, i: nat)
    requires Inv(o) && RolesInv(o) && o' == Step(o, e) && Keeps(o, o') && CallsInv(o') && |o.calls| <= i < |o'.calls|
    requires forall kind, limit :: MakesCall(o, e, kind, limit) ==> CallMade(o, kind, limit, e.start, o')
    requires exists kind, limit :: MakesCall(o, e, kind, limit)
    ensures RoleInv(o', i)
  {
    var kind, limit :| MakesCall(o, e, kind, limit);
    assert CallMade(o, kind, limit, e.start, o');
    assert RoleInv(o, 0) && KeepsCall(o.calls[0], o'.calls[0]) && CallInv(o', 0) && CallInv(o, 0);
  }

  lemma {:induction false} RolesRun(now: nat, start: Start, events: seq<Event>)
    ensures var o := Run(Begin(now, start), events); Inv(o) && RolesInv(o) && o.deadline == now + 180000
  {
    BeginInv(now, start);
    RunInv(Begin(now, start), events);
    if events != [] {
      var before := events[..|events| - 1];
      RolesRun(now, start, before);
      RolesStep(Run(Begin(now, start), before), events[|events| - 1]);
    } else {
      BeginIs(now, start);
    }
  }

  // ------------------------------------------------------------ success

  /** A call is resolved by a step only when its value comes in time. */
  lemma ResolvedBy(o: Connection, e: Event, i: nat)
    requires Inv(o) && i < |Step(o, e).calls| && Succeeded(Step(o, e).calls[i])
    requires i < |o.calls| ==> !Succeeded(o.calls[i])
    ensures e == Replies(i, None) && i < |o.calls| && o.calls[i].sent && !o.calls[i].replied
    ensures o.stopped.None? && o.now < o.calls[i].expiresAt
  {
    if i < |o.calls| {
      assert CallInv(o, i);
      StepInv(o, e);
      assert KeepsCall(o.calls[i], Step(o, e).calls[i]);
      if e.Replies? && e.call == i && o.calls[i].sent && !o.calls[i].replied {
        match e.error {
          case Some(text) => ErrorIs(o, i, text);
          case None => ValueIs(o, i);
        }
      } else {
        NotResolved(o, e, i);
      }
    } else {
      NewUnresolved(o, e, i);
    }
  }

  lemma NewUnresolved(o: Connection, e: Event, i: nat)
    requires Inv(o) && |o.calls| <= i < |Step(o, e).calls|
    ensures !Succeeded(Step(o, e).calls[i])
  {
    CallsAre(o, e);
    var kind, limit :| MakesCall(o, e, kind, limit);
    assert CallMade(o, kind, limit, e.start, Step(o, e));
  }

  lemma NotResolved(o: Connection, e: Event, i: nat)
    requires Inv(o) && i < |o.calls| && !o.calls[i].settled
    requires !(e.Replies? && e.call == i && o.calls[i].sent && !o.calls[i].replied)
    ensures i < |Step(o, e).calls| && !Succeeded(Step(o, e).calls[i])
  {
    assert CallInv(o, i);
    if e.Continues? {
      NotByContinuing(o, e.start, i);
    }
  }

  lemma NotByContinuing(o: Connection, start: Start, i: nat)
    requires Inv(o) && i < |o.calls| && !o.calls[i].settled
    ensures i < |Continue(o, start).calls| && !Succeeded(Continue(o, start).calls[i])
  {
    assert CallInv(o, i);
  }

  /** Every call that succeeded was answered in time. */
  lemma {:induction false} AnsweredInTime(o: Connection, events: seq<Event>, n: nat, i: nat) returns (k: nat)
    requires Inv(o) && n <= |events| && i < |At(o, events, n).calls| && Succeeded(At(o, events, n).calls[i])
    requires i < |o.calls| ==> !Succeeded(o.calls[i])
    ensures k < n && ValueInTime(o, events, k, i, At(o, events, n).calls[i].expiresAt)
  {
    assert n > 0;
    AtNext(o, events, n - 1);
    AtInv(o, events, n - 1);
    var before := At(o, events, n - 1);
    if i < |before.calls| && Succeeded(before.calls[i]) {
      k := AnsweredInTime(o, events, n - 1, i);
    } else {
      k := n - 1;
      ResolvedBy(before, events[k], i);
    }
    SameLimit(before, events[n - 1], i);
  }

  lemma SameLimit(o: Connection, e: Event, i: nat)
    requires Inv(o) && i < |o.calls|
    ensures i < |Step(o, e).calls| && Step(o, e).calls[i].expiresAt == o.calls[i].expiresAt
  {
    StepInv(o, e);
    assert KeepsCall(o.calls[i], Step(o, e).calls[i]);
  }

  /** Connect and operation both answered with a value in time. */
  predicate BothInTime(now: nat, start: Start, events: seq<Event>, j: nat, k: nat, i: nat) {
    && j < k && ValueInTime(Begin(now, start), events, j, 0, now + 20000)
    && ValueInTime(Begin(now, start), events, k, i, now + 180000)
    && At(Begin(now, start), events, k).calls[i].kind == Operate
  }

  /** `runTeamSpeakOperation` returns a value exactly when the connect answered with a value
      within 20 seconds and then the operation within 180 of the beginning, both for the first
      time and with the connection not stopped till then. */
  lemma SuccessIff(now: nat, start: Start, events: seq<Event>)
    requires Run(Begin(now, start), events).phase.Done?
    ensures Run(Begin(now, start), events).phase.result == Resolved <==>
            exists j, k, i :: BothInTime(now, start, events, j, k, i)
  {
    var first, o := Begin(now, start), Run(Begin(now, start), events);
    RolesRun(now, start, events);
    BeginInv(now, start);
    assert events[..|events|] == events;
    if o.phase.result == Resolved {
      var i := o.phase.main;
      assert RoleInv(o, i);
      var k := AnsweredInTime(first, events, |events|, i);
      var o1 := At(first, events, k);
      Persists(first, events, k, |events|);
      RolesRun(now, start, events[..k]);
      assert KeepsCall(o1.calls[i], o.calls[i]) && RoleInv(o1, i);
      assert RoleInv(o1, 0);
      var j := AnsweredInTime(first, events, k, 0);
      assert BothInTime(now, start, events, j, k, i);
    }
    if j, k, i :| BothInTime(now, start, events, j, k, i) {
      TimelySucceeds(now, start, events, k, i);
    }
  }

  lemma TimelySucceeds(now: nat, start: Start, events: seq<Event>, k: nat, i: nat)
    requires Run(Begin(now, start), events).phase.Done?
    requires ValueInTime(Begin(now, start), events, k, i, now + 180000)
    requires At(Begin(now, start), events, k).calls[i].kind == Operate
    ensures Run(Begin(now, start), events).phase.result == Resolved
  {
    var first, o := Begin(now, start), Run(Begin(now, start), events);
    BeginInv(now, start);
    RolesRun(now, start, events[..k]);
    RolesRun(now, start, events);
    var o1 := At(first, events, k);
    assert RoleInv(o1, i) && CallInv(o1, i);
    OpenUnlessStopped(now, start, events[..k], i);
    ValueIs(o1, i);
    AtNext(first, events, k);
    assert events[..|events|] == events;
    Persists(first, events, k + 1, |events|);
    assert KeepsCall(At(first, events, k + 1).calls[i], o.calls[i]);
    assert RoleInv(o, i);
  }

  /** A call sent and not answered on a running connection is open. */
  predicate OpenInv(o: Connection, i: nat)
    requires i < |o.calls|
  {
    o.calls[i].sent && !o.calls[i].replied && o.stopped.None? ==> !o.calls[i].settled
  }

  lemma {:induction false} OpenUnlessStopped(now: nat, start: Start, events: seq<Event>, i: nat)
    requires i < |Run(Begin(now, start), events).calls|
    ensures OpenInv(Run(Begin(now, start), events), i)
  {
    if events == [] {
      BeginIs(now, start);
    } else {
      var before, e := events[..|events| - 1], events[|events| - 1];
      RolesRun(now, start, before);
      var o := Run(Begin(now, start), before);
      if i < |o.calls| {
        OpenUnlessStopped(now, start, before, i);
        OpenStep(o, e, i);
      } else {
        CallsAre(o, e);
        var kind, limit :| MakesCall(o, e, kind, limit);
        assert CallMade(o, kind, limit, e.start, Step(o, e));
      }
    }
  }

  lemma OpenStep(o: Connection, e: Event, i: nat)
    requires Inv(o) && i < |o.calls| && OpenInv(o, i)
    ensures i < |Step(o, e).calls| && OpenInv(Step(o, e), i)
  {
    assert CallInv(o, i);
  }

  // ------------------------------------------------------------ it can succeed

  /** Connect answers after `a`, the operation `b` later, then the disconnect. */
  function Undelayed(a: nat, b: nat): seq<Event> {
    [Ticks(a), Replies(0, None), Continues(Promised), Ticks(b), Replies(1, None), Continues(Promised),
     Replies(2, None), Continues(Promised)]
  }

  function Fourth(o: Connection, events: seq<Event>): Connection
    requires |events| == 4
  {
    Step(Step(Step(Step(o, events[0]), events[1]), events[2]), events[3])
  }

  lemma FourSteps(o: Connection, events: seq<Event>, k: nat)
    requires k + 4 <= |events|
    ensures At(o, events, k + 4) == Fourth(At(o, events, k), events[k..k + 4])
  {
    var o1, o2, o3 := At(o, events, k + 1), At(o, events, k + 2), At(o, events, k + 3);
    assert o1 == Step(At(o, events, k), events[k]) by { AtNext(o, events, k); }
    assert o2 == Step(o1, events[k + 1]) by { AtNext(o, events, k + 1); }
    assert o3 == Step(o2, events[k + 2]) by { AtNext(o, events, k + 2); }
    assert At(o, events, k + 4) == Step(o3, events[k + 3]) by { AtNext(o, events, k + 3); }
  }

  lemma EightSteps(o: Connection, events: seq<Event>)
    requires |events| == 8
    ensures Run(o, events) == Fourth(Fourth(o, events[..4]), events[4..])
  {
    FourSteps(o, events, 0);
    FourSteps(o, events, 4);
    assert events[..8] == events && events[..0] == [] && events[4..8] == events[4..];
  }

  /** With answers in time the operation does succeed, whatever the times. */
  lemma CanSucceed(now: nat, a: nat, b: nat)
    requires a < 20000 && a + b < 180000
    ensures Run(Begin(now, Promised), Undelayed(a, b)).phase == Done(1, Resolved)
  {
    EightSteps(Begin(now, Promised), Undelayed(a, b));
    var o := Fourth(Begin(now, Promised), Undelayed(a, b)[..4]);
    Connects(now, a, b);
    Operates(o, Undelayed(a, b)[4..]);
  }

  lemma Connects(now: nat, a: nat, b: nat)
    requires a < 20000 && a + b < 180000
    ensures InOperation(Fourth(Begin(now, Promised), Undelayed(a, b)[..4]))
  {
    var o := Step(Step(Begin(now, Promised), Ticks(a)), Replies(0, None));
    assert o.calls[0].deliveries == [Settlement(Resolved, now + a, false)];
    var o' := Step(Step(o, Continues(Promised)), Ticks(b));
    assert o'.calls == o.calls + [Call(Operate, true, now + 180000, None, false, false, [])];
  }

  predicate InOperation(o: Connection) {
    && |o.calls| == 2 && o.phase == Operating(1) && o.stopped.None? && o.now < o.deadline
    && o.calls[1] == Call(Operate, true, o.deadline, None, false, false, [])
  }

  lemma Operates(o: Connection, events: seq<Event>)
    requires InOperation(o)
    requires events == [Replies(1, None), Continues(Promised), Replies(2, None), Continues(Promised)]
    ensures Fourth(o, events).phase == Done(1, Resolved)
  {
    var o1 := Step(o, Replies(1, None));
    assert o1.calls[1].deliveries == [Settlement(Resolved, o.now, false)] && o1.calls[1].settled;
    var o2 := Step(o1, Continues(Promised));
    assert o2.phase == Quitting(1, 2, Resolved);
    assert |o2.calls| == 3 && o2.calls[2].sent && !o2.calls[2].settled && !o2.calls[2].replied;
    var o3 := Step(o2, Replies(2, None));
    assert o3.phase == o2.phase && o3.calls[2].settled;
  }
}
