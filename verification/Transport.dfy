/** One bounded TeamSpeak connection: connect, run an operation, disconnect, each command under
    a time limit and everything under one deadline.

    A *call* is one use of `bounded`: the connect, the operation as a whole, the disconnect, or
    a command anybody sends through the client. The client's replies, the timers and the
    continuation of `runTeamSpeakOperation` come in any order. */
module Transport {
  import opened Wrappers

  const COMMAND_MS := 20000
  const OPERATION_MS := 180000
  const DISCONNECT_MS := 2000

  datatype Error = TimedOut | Finished | ClientError(text: string)
  datatype Outcome = Resolved | Rejected(error: Error)
  /** A settlement of a call's promise: what, when, and whether the connection was stopped by then. */
  datatype Settlement = Settlement(outcome: Outcome, at: nat, stopped: bool)

  datatype Kind = Connect | Operate | Quit | Command
  datatype Call = Call(
    kind: Kind,
    sent: bool,                     // `start` was called
    expiresAt: nat,
    timer: Option<nat>,             // due time of its own timer
    replied: bool,                  // the promise `start` returned has settled
    settled: bool,
    deliveries: seq<Settlement>)    // every time its own promise was resolved or rejected

  /** Where `runTeamSpeakOperation` stands. `main` is the call whose outcome it returns. */
  datatype Phase =
    | Connecting(main: nat) | Operating(main: nat)
    | Quitting(main: nat, quit: nat, result: Outcome)
    | Done(main: nat, result: Outcome)

  datatype Connection = Connection(
    deadline: nat,
    now: nat,
    stopped: Option<Error>,
    pending: set<nat>,
    calls: seq<Call>,
    deadlineCleared: bool,
    phase: Phase,
    forceQuits: nat)

  /** How `start` answers: with a promise, or by throwing at once. */
  datatype Start = Promised | Throws(text: string)

  datatype Event =
    | Executes(start: Start)              // somebody sends a command
    | Replies(call: nat, error: Option<string>)
    | TimerFires(call: nat)
    | DeadlineFires
    | Continues(start: Start)             // the awaiting code goes on
    | Ticks(ms: nat)

  // ------------------------------------------------------------ stop and bounded

  /** `finish`: only the first settlement gets through. */
  function Finish(c: Call, outcome: Outcome, at: nat, stopped: bool): Call {
    if c.settled then c
    else c.(settled := true, deliveries := c.deliveries + [Settlement(outcome, at, stopped)])
  }

  function AbortAll(calls: seq<Call>, pending: set<nat>, error: Error, at: nat): (r: seq<Call>)
    ensures |r| == |calls|
  {
    seq(|calls|, i requires 0 <= i < |calls| =>
      if i in pending then Finish(calls[i], Rejected(error), at, true) else calls[i])
  }

  function Stop(o: Connection, error: Error): Connection {
    if o.stopped.Some? then o
    else o.(stopped := Some(error), calls := AbortAll(o.calls, o.pending, error, o.now), pending := {},
            forceQuits := o.forceQuits + 1)
  }

  function Settle(o: Connection, i: nat, outcome: Outcome): Connection
    requires i < |o.calls|
  {
    if o.calls[i].settled then o
    else o.(calls := o.calls[i := Finish(o.calls[i], outcome, o.now, o.stopped.Some?)], pending := o.pending - {i})
  }

  function Min(a: nat, b: nat): nat {
    if a < b then a else b
  }

  /** `bounded`: the new call is the last one. */
  function Bounded(o: Connection, kind: Kind, timeout: Option<nat>, start: Start): Connection {
    var o := if o.now >= o.deadline then Stop(o, TimedOut) else o;
    var due := if timeout.Some? then Some(o.now + timeout.value) else None;
    var expiresAt := if timeout.Some? then Min(o.deadline, o.now + timeout.value) else o.deadline;
    match o.stopped
    case Some(error) =>
      o.(calls := o.calls + [Call(kind, false, expiresAt, due, false, true, [Settlement(Rejected(error), o.now, true)])])
    case None =>
      var i := |o.calls|;
      var o := o.(calls := o.calls + [Call(kind, true, expiresAt, due, start.Throws?, false, [])],
                  pending := o.pending + {i});
      if start.Throws? then Settle(o, i, Rejected(ClientError(start.text))) else o
  }

  function Reply(o: Connection, i: nat, error: Option<string>): Connection
    requires i < |o.calls|
  {
    var o1 := o.(calls := o.calls[i := o.calls[i].(replied := true)]);
    match error
    case Some(text) => Settle(o1, i, Rejected(ClientError(text)))
    case None => Settle(if o.now >= o.calls[i].expiresAt then Stop(o1, TimedOut) else o1, i, Resolved)
  }

  // ------------------------------------------------------------ the operation

  function Begin(now: nat, start: Start): Connection {
    Bounded(Connection(now + OPERATION_MS, now, None, {}, [], false, Connecting(0), 0), Connect, Some(COMMAND_MS), start)
  }

  /** The `finally` block. */
  function Finally(o: Connection, main: nat, result: Outcome, start: Start): Connection {
    var o := o.(deadlineCleared := true);
    if o.stopped.Some? then o.(phase := Done(main, result))
    else Bounded(o, Quit, Some(DISCONNECT_MS), start).(phase := Quitting(main, |o.calls|, result))
  }

  function Continue(o: Connection, start: Start): Connection {
    match o.phase
    case Connecting(i) =>
      if i < |o.calls| && o.calls[i].settled && |o.calls[i].deliveries| > 0 then
        match o.calls[i].deliveries[0].outcome
        case Resolved => Bounded(o, Operate, None, start).(phase := Operating(|o.calls|))
        case Rejected(e) => Finally(o, i, Rejected(e), start)
      else o
    case Operating(i) =>
      if i < |o.calls| && o.calls[i].settled && |o.calls[i].deliveries| > 0
      then Finally(o, i, o.calls[i].deliveries[0].outcome, start)
      else o
    case Quitting(main, i, result) =>
      if i < |o.calls| && o.calls[i].settled then Stop(o, Finished).(phase := Done(main, result)) else o
    case Done(_, _) => o
  }

  function Step(o: Connection, e: Event): Connection {
    match e
    case Executes(start) => Bounded(o, Command, Some(COMMAND_MS), start)
    case Replies(i, error) =>
      if i < |o.calls| && o.calls[i].sent && !o.calls[i].replied then Reply(o, i, error) else o
    case TimerFires(i) =>
      if i < |o.calls| && !o.calls[i].settled && o.calls[i].timer.Some? && o.now >= o.calls[i].timer.value
      then Stop(o, TimedOut) else o
    case DeadlineFires => if !o.deadlineCleared && o.now >= o.deadline then Stop(o, TimedOut) else o
    case Continues(start) => Continue(o, start)
    case Ticks(ms) => o.(now := o.now + ms)
  }

  function Run(o: Connection, events: seq<Event>): Connection {
    if events == [] then o else Step(Run(o, events[..|events| - 1]), events[|events| - 1])
  }

  // ------------------------------------------------------------ what every step keeps

  predicate CallInv(o: Connection, i: nat)
    requires i < |o.calls|
  {
    var c := o.calls[i];
    && (i in o.pending <==> !c.settled)
    && |c.deliveries| == (if c.settled then 1 else 0)
    && (c.settled && c.deliveries[0].outcome == Resolved ==> c.deliveries[0].at < c.expiresAt && !c.deliveries[0].stopped)
    && c.expiresAt <= o.deadline
    && (!c.settled ==> c.sent)
    && (c.kind == Quit && !c.settled ==> c.timer.Some?)
  }

  predicate PhaseInv(o: Connection) {
    match o.phase
    case Connecting(i) => i < |o.calls| && o.calls[i].kind == Connect && !o.deadlineCleared
    case Operating(i) => i < |o.calls| && o.calls[i].kind == Operate && !o.deadlineCleared
    case Quitting(main, i, result) =>
      && ResultInv(o, main, result)
      && i < |o.calls| && o.calls[i].kind == Quit
    case Done(main, result) => ResultInv(o, main, result) && o.stopped.Some?
  }

  /** The result is the outcome of the operation, or of a connect that failed. */
  predicate ResultInv(o: Connection, main: nat, result: Outcome) {
    && main < |o.calls| && o.calls[main].settled && |o.calls[main].deliveries| == 1
    && o.calls[main].deliveries[0].outcome == result
    && (o.calls[main].kind == Operate || (o.calls[main].kind == Connect && result.Rejected?))
  }

  predicate CallsInv(o: Connection) {
    && (forall i :: 0 <= i < |o.calls| ==> CallInv(o, i))
    && (forall i :: i in o.pending ==> i < |o.calls|)
    && (o.stopped.Some? ==> o.pending == {})
    && o.forceQuits == (if o.stopped.Some? then 1 else 0)
  }

  predicate Inv(o: Connection) {
    CallsInv(o) && PhaseInv(o)
  }

  /** Settled calls stay as they are. */
  predicate Keeps(o: Connection, o': Connection) {
    && |o.calls| <= |o'.calls|
    && (forall i :: 0 <= i < |o.calls| ==> KeepsCall(o.calls[i], o'.calls[i]))
    && (o.stopped.Some? ==> o'.stopped == o.stopped)
    && o'.deadline == o.deadline
  }

  predicate KeepsCall(c: Call, c': Call) {
    && c'.kind == c.kind && c'.sent == c.sent && c'.timer == c.timer && c'.expiresAt == c.expiresAt
    && (c.settled ==> c'.settled && c'.deliveries == c.deliveries)
  }

  lemma StopKeeps(o: Connection, error: Error)
    requires CallsInv(o)
    ensures var o' := Stop(o, error); CallsInv(o') && Keeps(o, o') && o'.stopped.Some?
  {
    var o' := Stop(o, error);
    forall i | 0 <= i < |o'.calls| ensures CallInv(o', i) && KeepsCall(o.calls[i], o'.calls[i]) {
      assert CallInv(o, i);
    }
  }

  lemma SettleKeeps(o: Connection, i: nat, outcome: Outcome)
    requires CallsInv(o) && i < |o.calls|
    requires outcome == Resolved && !o.calls[i].settled ==> o.now < o.calls[i].expiresAt && o.stopped.None?
    ensures var o' := Settle(o, i, outcome); CallsInv(o') && Keeps(o, o')
  {
    var o' := Settle(o, i, outcome);
    forall k | 0 <= k < |o'.calls| ensures CallInv(o', k) && KeepsCall(o.calls[k], o'.calls[k]) {
      assert CallInv(o, k);
    }
  }

  lemma BoundedKeeps(o: Connection, kind: Kind, timeout: Option<nat>, start: Start)
    requires CallsInv(o) && (kind == Quit ==> timeout.Some?)
    ensures var o' := Bounded(o, kind, timeout, start);
      && CallsInv(o') && Keeps(o, o')
      && |o'.calls| == |o.calls| + 1 && o'.calls[|o.calls|].kind == kind
      && o'.phase == o.phase && o'.deadlineCleared == o.deadlineCleared
      && (o'.calls[|o.calls|].sent ==> o'.stopped.None?)
  {
    if o.now >= o.deadline {
      var o1 := Stop(o, TimedOut);
      StopKeeps(o, TimedOut);
      BoundedLate(o, kind, timeout, start);
      Append(o1, kind, timeout, start);
      KeepsBoth(o, o1, Bounded(o1, kind, timeout, start));
    } else {
      Append(o, kind, timeout, start);
    }
  }

  lemma BoundedLate(o: Connection, kind: Kind, timeout: Option<nat>, start: Start)
    requires o.now >= o.deadline
    ensures Bounded(o, kind, timeout, start) == Bounded(Stop(o, TimedOut), kind, timeout, start)
  {
  }

  lemma KeepsBoth(a: Connection, b: Connection, c: Connection)
    requires Keeps(a, b) && Keeps(b, c)
    ensures Keeps(a, c)
  {
    forall i | 0 <= i < |a.calls| ensures KeepsCall(a.calls[i], c.calls[i]) {
      assert KeepsCall(a.calls[i], b.calls[i]) && KeepsCall(b.calls[i], c.calls[i]);
    }
  }

  lemma Append(o: Connection, kind: Kind, timeout: Option<nat>, start: Start)
    requires CallsInv(o) && (kind == Quit ==> timeout.Some?)
    requires o.now < o.deadline || o.stopped.Some?
    ensures var o' := Bounded(o, kind, timeout, start);
      && CallsInv(o') && Keeps(o, o')
      && |o'.calls| == |o.calls| + 1 && o'.calls[|o.calls|].kind == kind
      && o'.phase == o.phase && o'.deadlineCleared == o.deadlineCleared
      && (o'.calls[|o.calls|].sent ==> o'.stopped.None?)
  {
    var o' := Bounded(o, kind, timeout, start);
    forall k | 0 <= k < |o'.calls| ensures CallInv(o', k) {
      assert k < |o.calls| ==> CallInv(o, k);
    }
  }

  lemma ReplyKeeps(o: Connection, i: nat, error: Option<string>)
    requires CallsInv(o) && i < |o.calls|
    ensures var o' := Reply(o, i, error);
      CallsInv(o') && Keeps(o, o') && o'.phase == o.phase && o'.deadlineCleared == o.deadlineCleared
  {
    var o1 := o.(calls := o.calls[i := o.calls[i].(replied := true)]);
    forall k | 0 <= k < |o1.calls| ensures CallInv(o1, k) && KeepsCall(o.calls[k], o1.calls[k]) {
      assert CallInv(o, k);
    }
    match error {
      case Some(text) => SettleKeeps(o1, i, Rejected(ClientError(text)));
      case None =>
        StopKeeps(o1, TimedOut);
        var o2 := if o.now >= o.calls[i].expiresAt then Stop(o1, TimedOut) else o1;
        assert CallInv(o2, i) && CallInv(o1, i);
        SettleKeeps(o2, i, Resolved);
    }
  }

  lemma PhaseKept(o: Connection, o': Connection)
    requires PhaseInv(o) && Keeps(o, o') && o'.phase == o.phase && o'.deadlineCleared == o.deadlineCleared
    ensures PhaseInv(o')
  {
  }

  lemma StepInv(o: Connection, e: Event)
    requires Inv(o)
    ensures Inv(Step(o, e)) && Keeps(o, Step(o, e))
  {
    if e.Continues? {
      ContinueInv(o, e.start);
    } else {
      if e.Executes? {
        BoundedKeeps(o, Command, Some(COMMAND_MS), e.start);
      } else if e.Replies? {
        if e.call < |o.calls| {
          ReplyKeeps(o, e.call, e.error);
        }
      } else if e.TimerFires? || e.DeadlineFires? {
        StopKeeps(o, TimedOut);
      } else {
        assert forall i :: 0 <= i < |o.calls| ==> CallInv(o, i) ==> CallInv(Step(o, e), i);
      }
      PhaseKept(o, Step(o, e));
    }
  }

  lemma ContinueInv(o: Connection, start: Start)
    requires Inv(o)
    ensures Inv(Continue(o, start)) && Keeps(o, Continue(o, start))
  {
    match o.phase {
      case Connecting(i) => ContinueConnected(o, start);
      case Operating(i) =>
        assert CallInv(o, i);
        if o.calls[i].settled {
          FinallyInv(o, i, o.calls[i].deliveries[0].outcome, start);
        }
      case Quitting(main, i, result) => ContinueQuit(o, start);
      case Done(_, _) =>
    }
  }

  lemma ContinueConnected(o: Connection, start: Start)
    requires Inv(o) && o.phase.Connecting?
    ensures Inv(Continue(o, start)) && Keeps(o, Continue(o, start))
  {
    var i := o.phase.main;
    assert CallInv(o, i);
    if o.calls[i].settled {
      var outcome := o.calls[i].deliveries[0].outcome;
      if outcome.Rejected? {
        FinallyInv(o, i, outcome, start);
      } else {
        var o1 := Bounded(o, Operate, None, start);
        BoundedKeeps(o, Operate, None, start);
        Moved(o1, o1.(phase := Operating(|o.calls|)));
      }
    }
  }

  lemma ContinueQuit(o: Connection, start: Start)
    requires Inv(o) && o.phase.Quitting?
    ensures Inv(Continue(o, start)) && Keeps(o, Continue(o, start))
  {
    var o1 := Stop(o, Finished);
    StopKeeps(o, Finished);
    Moved(o1, o1.(phase := Done(o.phase.main, o.phase.result)));
  }

  /** The continuation moves on without touching calls. */
  lemma Moved(o: Connection, o': Connection)
    requires CallsInv(o) && o' == o.(phase := o'.phase, deadlineCleared := o'.deadlineCleared)
    ensures CallsInv(o') && Keeps(o, o')
  {
    forall i | 0 <= i < |o.calls| ensures CallInv(o', i) {
      assert CallInv(o, i);
    }
  }

  lemma FinallyInv(o: Connection, main: nat, result: Outcome, start: Start)
    requires CallsInv(o) && ResultInv(o, main, result)
    ensures var o' := Finally(o, main, result, start); Inv(o') && Keeps(o, o')
  {
    var o1 := o.(deadlineCleared := true);
    Moved(o, o1);
    if o.stopped.Some? {
      Moved(o1, o1.(phase := Done(main, result)));
    } else {
      BoundedKeeps(o1, Quit, Some(DISCONNECT_MS), start);
      var o2 := Bounded(o1, Quit, Some(DISCONNECT_MS), start);
      Moved(o2, o2.(phase := Quitting(main, |o.calls|, result)));
    }
  }

  lemma {:induction false} RunInv(o: Connection, events: seq<Event>)
    requires Inv(o)
    ensures Inv(Run(o, events)) && Keeps(o, Run(o, events))
  {
    if events != [] {
      RunInv(o, events[..|events| - 1]);
      StepInv(Run(o, events[..|events| - 1]), events[|events| - 1]);
    }
  }

  lemma BeginInv(now: nat, start: Start)
    ensures Inv(Begin(now, start))
  {
    BoundedKeeps(Connection(now + OPERATION_MS, now, None, {}, [], false, Connecting(0), 0), Connect, Some(COMMAND_MS), start);
  }

  ghost predicate Reachable(o: Connection) {
    exists now, start, events :: o == Run(Begin(now, start), events)
  }

  lemma ReachableInv(o: Connection)
    requires Reachable(o)
    ensures Inv(o)
  {
    var now, start, events :| o == Run(Begin(now, start), events);
    BeginInv(now, start);
    RunInv(Begin(now, start), events);
  }

  // ------------------------------------------------------------ replies

  /** What call `k` was settled with, or with a time-out now. */
  function TimedOutNow(o: Connection, k: nat): seq<Settlement>
    requires k < |o.calls|
  {
    if o.calls[k].settled then o.calls[k].deliveries else [Settlement(Rejected(TimedOut), o.now, true)]
  }

  /** A value in time settles its call, and only that; a late one stops the connection, which
      settles every open call as timed out. */
  lemma ValueIs(o: Connection, i: nat)
    requires CallsInv(o) && i < |o.calls|
    ensures var o', c := Reply(o, i, None), o.calls[i];
      && |o'.calls| == |o.calls| && o'.now == o.now && o'.phase == o.phase && o'.calls[i].replied
      && (!c.settled && o.now < c.expiresAt ==>
            && o'.calls[i] == c.(replied := true, settled := true, deliveries := [Settlement(Resolved, o.now, false)])
            && o'.stopped.None? && o'.forceQuits == 0 && o'.pending == o.pending - {i}
            && (forall k :: 0 <= k < |o.calls| && k != i ==> o'.calls[k] == o.calls[k]))
      && (c.settled && o.now < c.expiresAt ==> o' == o.(calls := o.calls[i := c.(replied := true)]))
      && (o.now >= c.expiresAt ==>
            && o'.stopped == Some(if o.stopped.Some? then o.stopped.value else TimedOut) && o'.pending == {}
            && (forall k :: 0 <= k < |o.calls| ==> o'.calls[k].deliveries == TimedOutNow(o, k)))
  {
    assert CallInv(o, i);
    if o.now >= o.calls[i].expiresAt {
      var o' := Reply(o, i, None);
      forall k | 0 <= k < |o.calls| ensures o'.calls[k].deliveries == TimedOutNow(o, k) {
        assert CallInv(o, k);
      }
    }
  }

  /** An error settles its call with that error, and only that, at any time. */
  lemma ErrorIs(o: Connection, i: nat, text: string)
    requires CallsInv(o) && i < |o.calls|
    ensures var o', c := Reply(o, i, Some(text)), o.calls[i];
      && |o'.calls| == |o.calls| && o'.now == o.now && o'.phase == o.phase
      && o'.stopped == o.stopped && o'.forceQuits == o.forceQuits && o'.pending == o.pending - {i}
      && o'.calls[i] == (if c.settled then c.(replied := true)
                         else c.(replied := true, settled := true,
                                 deliveries := [Settlement(Rejected(ClientError(text)), o.now, false)]))
      && (forall k :: 0 <= k < |o.calls| && k != i ==> o'.calls[k] == o.calls[k])
  {
    assert CallInv(o, i);
  }

  // ------------------------------------------------------------ the promises

  /** No call is ever settled twice, and what it was settled with never changes. */
  lemma SettlesOnce(o: Connection, later: seq<Event>, i: nat)
    requires Reachable(o) && i < |o.calls|
    ensures |o.calls[i].deliveries| <= 1
    ensures var calls := Run(o, later).calls;
      i < |calls| && o.calls[i].deliveries <= calls[i].deliveries && |calls[i].deliveries| <= 1
  {
    ReachableInv(o);
    RunInv(o, later);
    assert CallInv(o, i) && CallInv(Run(o, later), i);
  }

  function SentCalls(o: Connection): set<nat> {
    set i | 0 <= i < |o.calls| && o.calls[i].sent
  }

  /** Once the connection is stopped nothing is sent to the client, it stays stopped, and
      nothing is left waiting. */
  lemma {:induction false} SilentAfterStop(o: Connection, later: seq<Event>)
    requires Reachable(o) && o.stopped.Some?
    ensures SentCalls(Run(o, later)) == SentCalls(o)
    ensures Run(o, later).stopped == o.stopped
    ensures forall i :: 0 <= i < |Run(o, later).calls| ==> |Run(o, later).calls[i].deliveries| == 1
  {
    ReachableInv(o);
    RunInv(o, later);
    var o' := Run(o, later);
    forall i | 0 <= i < |o'.calls| ensures |o'.calls[i].deliveries| == 1 {
      assert CallInv(o', i);
    }
    if later != [] {
      var before := later[..|later| - 1];
      SilentAfterStop(o, before);
      RunInv(o, before);
      StepSilent(Run(o, before), later[|later| - 1]);
    }
  }

  lemma StepSilent(o: Connection, e: Event)
    requires Inv(o) && o.stopped.Some?
    ensures SentCalls(Step(o, e)) == SentCalls(o)
  {
    StepInv(o, e);
    var o' := Step(o, e);
    assert forall i :: 0 <= i < |o.calls| ==> KeepsCall(o.calls[i], o'.calls[i]);
    if |o'.calls| > |o.calls| {
      assert |o'.calls| == |o.calls| + 1 && !o'.calls[|o.calls|].sent;
    }
  }

  /** When `runTeamSpeakOperation` returns, the client was force-quit exactly once and every
      call, also of a command the operation forgot, has been settled. */
  lemma CleanAtReturn(o: Connection)
    requires Reachable(o) && o.phase.Done?
    ensures o.stopped.Some? && o.forceQuits == 1 && o.pending == {}
    ensures forall i :: 0 <= i < |o.calls| ==> |o.calls[i].deliveries| == 1
  {
    ReachableInv(o);
    forall i | 0 <= i < |o.calls| ensures |o.calls[i].deliveries| == 1 {
      assert CallInv(o, i);
    }
  }

  /** Success is returned only if the operation itself resolved, before the deadline, with the
      connection not stopped by then: no earlier command had timed out, caught or not. */
  lemma SuccessMeans(o: Connection)
    requires Reachable(o) && o.phase.Done? && o.phase.result == Resolved
    ensures o.phase.main < |o.calls| && o.calls[o.phase.main].kind == Operate
    ensures exists at: nat :: at < o.deadline && o.calls[o.phase.main].deliveries == [Settlement(Resolved, at, false)]
  {
    ReachableInv(o);
    assert CallInv(o, o.phase.main);
    var d := o.calls[o.phase.main].deliveries;
    assert d == [Settlement(Resolved, d[0].at, false)];
  }

  /** Once the operation has settled, its outcome is what is returned, whatever becomes of the
      disconnect. */
  lemma {:induction false} DisconnectNeverReplaces(o: Connection, later: seq<Event>, i: nat)
    requires Reachable(o) && o.phase == Operating(i) && i < |o.calls| && o.calls[i].settled
    ensures |o.calls[i].deliveries| == 1
    ensures Returns(Run(o, later).phase, i, o.calls[i].deliveries[0].outcome)
  {
    ReachableInv(o);
    assert CallInv(o, i);
    if later != [] {
      var before := later[..|later| - 1];
      DisconnectNeverReplaces(o, before, i);
      RunInv(o, before);
      assert KeepsCall(o.calls[i], Run(o, before).calls[i]);
      StepKeepsResult(Run(o, before), later[|later| - 1], i, o.calls[i].deliveries[0].outcome);
    }
  }

  predicate Returns(phase: Phase, i: nat, outcome: Outcome) {
    phase == Operating(i) || (phase.Quitting? && phase.main == i && phase.result == outcome) || phase == Done(i, outcome)
  }

  lemma StepKeepsResult(o: Connection, e: Event, i: nat, outcome: Outcome)
    requires i < |o.calls| && |o.calls[i].deliveries| == 1 && o.calls[i].deliveries[0].outcome == outcome
    requires Returns(o.phase, i, outcome)
    ensures Returns(Step(o, e).phase, i, outcome)
  {
  }

  /** The due timers fire. */
  function TimersFire(o: Connection): Connection {
    var o1 := Step(o, DeadlineFires);
    if o.phase.Quitting? then Step(o1, TimerFires(o.phase.quit)) else o1
  }

  /** It returns without any help from the client: once the deadline and the disconnect limit
      are over, the timers and the awaiting code are enough. */
  lemma AlwaysReturns(o: Connection, start: Start)
    requires Reachable(o) && o.now >= o.deadline
    requires o.phase.Quitting? ==> CallOver(o, o.phase.quit)
    ensures Continue(Continue(TimersFire(o), start), start).phase.Done?
  {
    ReachableInv(o);
    var o1 := Step(o, DeadlineFires);
    StepInv(o, DeadlineFires);
    if o.phase.Quitting? {
      QuitReturns(o, o1, start);
    } else {
      ContinueStopped(o1, start);
      ContinueStopped(Continue(o1, start), start);
    }
  }

  lemma QuitReturns(o: Connection, o1: Connection, start: Start)
    requires Inv(o1) && o1.phase == o.phase && o.phase.Quitting? && Keeps(o, o1) && o1.now == o.now
    requires CallOver(o, o.phase.quit)
    ensures Continue(Continue(Step(o1, TimerFires(o.phase.quit)), start), start).phase.Done?
  {
    var o2 := Step(o1, TimerFires(o.phase.quit));
    StepInv(o1, TimerFires(o.phase.quit));
    assert CallInv(o2, o.phase.quit);
  }

  lemma ContinueStopped(o: Connection, start: Start)
    requires Inv(o) && (o.phase.Done? || (o.stopped.Some? && !o.phase.Quitting?))
    ensures var o' := Continue(o, start);
      Inv(o') && (o'.phase.Done? || (o'.stopped.Some? && o'.phase.Operating? && o.phase.Connecting?))
  {
    ContinueInv(o, start);
    if !o.phase.Done? {
      assert CallInv(o, o.phase.main);
    }
  }

  /** The call is settled or its timer is due. */
  predicate CallOver(o: Connection, i: nat) {
    i < |o.calls| && (o.calls[i].settled || (o.calls[i].timer.Some? && o.now >= o.calls[i].timer.value))
  }

  // ------------------------------------------------------------ the code

  /** The closures of `runTeamSpeakOperation` over the variables they share. */
  class TeamSpeakOperation {
    const deadline: nat
    var now: nat
    var stopped: Option<Error>
    var pending: set<nat>
    var calls: seq<Call>
    var deadlineCleared: bool
    var phase: Phase
    var forceQuits: nat

    function View(): Connection
      reads this
    {
      Connection(deadline, now, stopped, pending, calls, deadlineCleared, phase, forceQuits)
    }

    constructor (start: nat)
      ensures View() == Connection(start + OPERATION_MS, start, None, {}, [], false, Connecting(0), 0)
    {
      deadline := start + OPERATION_MS;
      now, stopped, pending, calls := start, None, {}, [];
      deadlineCleared, phase, forceQuits := false, Connecting(0), 0;
    }

    /** Rejects every pending call, then closes the socket; only the first time. */
    method StopAll(error: Error)
      requires CallsInv(View())
      modifies this
      ensures View() == Stop(old(View()), error)
    {
      if stopped.Some? {
        return;
      }
      stopped := Some(error);
      ghost var all, before := pending, calls;
      var todo := pending;
      while todo != {}
        invariant todo <= all && |calls| == |before|
        invariant forall i :: i in todo ==> i < |calls|
        invariant forall i :: 0 <= i < |calls| ==>
                    calls[i] == if i in all - todo then Finish(before[i], Rejected(error), now, true) else before[i]
        invariant pending == todo
        invariant View() == old(View()).(stopped := Some(error), calls := calls, pending := pending)
      {
        var i :| i in todo;
        assert CallInv(old(View()), i);
        todo := todo - {i};
        FinishCall(i, Rejected(error));
      }
      assert calls == AbortAll(before, all, error, now);
      forceQuits := forceQuits + 1;
    }

    /** `finish`: settles a call that is not settled yet. */
    method FinishCall(i: nat, outcome: Outcome)
      requires i < |calls|
      modifies this
      ensures View() == Settle(old(View()), i, outcome)
    {
      if calls[i].settled {
        return;
      }
      calls := calls[i := calls[i].(settled := true,
                                    deliveries := calls[i].deliveries + [Settlement(outcome, now, stopped.Some?)])];
      pending := pending - {i};
    }

    method BoundedCall(kind: Kind, timeout: Option<nat>, start: Start) returns (i: nat)
      requires CallsInv(View())
      modifies this
      ensures View() == Bounded(old(View()), kind, timeout, start) && i == |old(calls)|
    {
      if now >= deadline {
        StopAll(TimedOut);
      }
      i := |calls|;
      var due := if timeout.Some? then Some(now + timeout.value) else None;
      var expiresAt := if timeout.Some? then Min(deadline, now + timeout.value) else deadline;
      if stopped.Some? {
        calls := calls + [Call(kind, false, expiresAt, due, false, true, [Settlement(Rejected(stopped.value), now, true)])];
        return;
      }
      pending := pending + {i};
      calls := calls + [Call(kind, true, expiresAt, due, start.Throws?, false, [])];
      if start.Throws? {
        FinishCall(i, Rejected(ClientError(start.text)));
      }
    }

    /** The callbacks attached to the client's promise. */
    method OnReply(i: nat, error: Option<string>)
      requires CallsInv(View()) && i < |calls|
      modifies this
      ensures View() == Reply(old(View()), i, error)
      ensures |calls| == |old(calls)|
      ensures !old(calls[i].settled) ==>
                calls[i].deliveries == [if error.Some? then Settlement(Rejected(ClientError(error.value)), now, false)
                                        else if now < old(calls[i].expiresAt) then Settlement(Resolved, now, false)
                                        else Settlement(Rejected(TimedOut), now, true)]
      ensures error.Some? || now < old(calls[i].expiresAt) ==>
                stopped == old(stopped) && forall k :: 0 <= k < |calls| && k != i ==> calls[k] == old(calls)[k]
      ensures error.None? && now >= old(calls[i].expiresAt) ==> stopped.Some? && pending == {}
    {
      calls := calls[i := calls[i].(replied := true)];
      if error.Some? {
        ErrorIs(old(View()), i, error.value);
        FinishCall(i, Rejected(ClientError(error.value)));
      } else {
        ValueIs(old(View()), i);
        if now >= calls[i].expiresAt {
          assert forall k :: 0 <= k < |calls| ==> CallInv(old(View()), k) ==> CallInv(View(), k);
          StopAll(TimedOut);
        }
        FinishCall(i, Resolved);
      }
    }

    /** The code after an `await` of the main function. */
    method ContinueMain(start: Start)
      requires Inv(View())
      modifies this
      ensures View() == Continue(old(View()), start)
    {
      assert !phase.Done? ==> CallInv(View(), if phase.Quitting? then phase.quit else phase.main);
      match phase {
        case Connecting(i) =>
          if calls[i].settled {
            if calls[i].deliveries[0].outcome.Resolved? {
              var op := BoundedCall(Operate, None, start);
              phase := Operating(op);
            } else {
              FinallyBlock(i, calls[i].deliveries[0].outcome, start);
            }
          }
        case Operating(i) =>
          if calls[i].settled {
            FinallyBlock(i, calls[i].deliveries[0].outcome, start);
          }
        case Quitting(main, i, result) =>
          if calls[i].settled {
            StopAll(Finished);
            phase := Done(main, result);
          }
        case Done(_, _) =>
      }
    }

    method FinallyBlock(main: nat, result: Outcome, start: Start)
      requires CallsInv(View())
      modifies this
      ensures View() == Finally(old(View()), main, result, start)
    {
      deadlineCleared := true;
      Moved(old(View()), View());
      if stopped.None? {
        var quit := BoundedCall(Quit, Some(DISCONNECT_MS), start);
        phase := Quitting(main, quit, result);
      } else {
        phase := Done(main, result);
      }
    }
  }
}
