/** The gate in front of image processing: a fixed number of slots and a bounded queue.

    Jobs are numbered as they arrive. A slot freed by one job is handed to the first waiting
    job by resolving its promise; that job is *granted*, but starts only when the event loop
    wakes it, and other jobs can arrive and settle before that. */
module ProcessingGate {
  type Job = nat

  datatype Limits = Limits(concurrency: nat, queueLimit: nat)

  /** The gate's two fields, and the history around them. */
  datatype Gate = Gate(
    active: int,
    waiting: seq<Job>,
    granted: seq<Job>,     // resolved, not yet awake
    running: set<Job>,
    started: seq<Job>,     // jobs whose operation was called, in that order
    taken: seq<Job>,       // jobs that got a slot, in that order
    arrived: nat,
    refused: nat,
    settled: nat)

  const EMPTY := Gate(0, [], [], {}, [], [], 0, 0, 0)

  datatype Event = Arrives | Settles(job: Job) | Wakes

  function Step(limits: Limits, g: Gate, e: Event): Gate {
    match e
    case Arrives => Arrive(limits, g.(arrived := g.arrived + 1), g.arrived)
    case Settles(j) => if j in g.running then Release(g.(running := g.running - {j}, settled := g.settled + 1)) else g
    case Wakes =>
      if g.granted == [] then g
      else g.(granted := g.granted[1..], running := g.running + {g.granted[0]}, started := g.started + [g.granted[0]])
  }

  function Arrive(limits: Limits, g: Gate, j: Job): Gate {
    if g.active >= limits.concurrency then
      if |g.waiting| >= limits.queueLimit then g.(refused := g.refused + 1)
      else g.(waiting := g.waiting + [j])
    else g.(active := g.active + 1, running := g.running + {j}, started := g.started + [j], taken := g.taken + [j])
  }

  /** What `finally` does, whether the operation succeeded or failed. */
  function Release(g: Gate): Gate {
    if g.waiting == [] then g.(active := g.active - 1)
    else g.(waiting := g.waiting[1..], granted := g.granted + [g.waiting[0]], taken := g.taken + [g.waiting[0]])
  }

  function Run(limits: Limits, events: seq<Event>): Gate {
    if events == [] then EMPTY else Step(limits, Run(limits, events[..|events| - 1]), events[|events| - 1])
  }

  predicate Ascending(s: seq<Job>) {
    forall i, k :: 0 <= i < k < |s| ==> s[i] < s[k]
  }

  predicate Below(s: seq<Job>, n: nat) {
    forall i :: 0 <= i < |s| ==> s[i] < n
  }

  /** Everyone who was not refused, in starting order. */
  function Schedule(g: Gate): seq<Job> {
    g.started + g.granted + g.waiting
  }

  predicate Inv(limits: Limits, g: Gate) {
    && g.active == |g.running| + |g.granted| <= limits.concurrency
    && |g.waiting| <= limits.queueLimit
    && (g.waiting != [] ==> g.active == limits.concurrency)
    && g.arrived == g.refused + g.settled + |g.running| + |g.granted| + |g.waiting|
    && Ascending(g.taken + g.waiting)
    && Ascending(g.granted)
    && Below(g.taken + g.waiting, g.arrived)
    && (forall j :: j in g.running ==> j in g.taken && j !in g.granted)
    && (forall j :: j in g.granted ==> j in g.taken)
  }

  /** A job enters directly while a granted one still sleeps. */
  predicate Overtakes(limits: Limits, g: Gate, e: Event) {
    e.Arrives? && g.active < limits.concurrency && g.granted != []
  }

  /** Some step of the run does. */
  predicate SomeOvertakes(limits: Limits, events: seq<Event>) {
    exists k :: 0 <= k < |events| && Overtakes(limits, Run(limits, events[..k]), events[k])
  }

  // ------------------------------------------------------------ every step

  lemma StepInv(limits: Limits, g: Gate, e: Event)
    requires Inv(limits, g)
    ensures Inv(limits, Step(limits, g, e))
  {
    match e {
      case Arrives => ArriveInv(limits, g);
      case Settles(j) => if j in g.running { ReleaseInv(limits, g, j); }
      case Wakes => if g.granted != [] { WakeInv(limits, g); }
    }
  }

  lemma ArriveInv(limits: Limits, g: Gate)
    requires Inv(limits, g)
    ensures Inv(limits, Step(limits, g, Arrives))
  {
    var g' := Step(limits, g, Arrives);
    if g.active < limits.concurrency || |g.waiting| < limits.queueLimit {
      assert g'.taken + g'.waiting == g.taken + g.waiting + [g.arrived];
      Append(g.taken + g.waiting, g.arrived);
    }
    NewJob(limits, g);
  }

  /** The next job's number is not in use. */
  lemma NewJob(limits: Limits, g: Gate)
    requires Inv(limits, g)
    ensures g.arrived !in g.taken && g.arrived !in g.running && g.arrived !in g.granted && g.arrived !in g.waiting
  {
    forall i | 0 <= i < |g.taken| ensures g.taken[i] < g.arrived {
      assert (g.taken + g.waiting)[i] == g.taken[i];
    }
    forall i | 0 <= i < |g.waiting| ensures g.waiting[i] < g.arrived {
      assert (g.taken + g.waiting)[|g.taken| + i] == g.waiting[i];
    }
  }

  lemma Append(s: seq<Job>, j: Job)
    requires Below(s, j)
    ensures Ascending(s + [j]) <==> Ascending(s)
    ensures Below(s + [j], j + 1)
  {
    var t := s + [j];
    assert forall i :: 0 <= i < |s| ==> t[i] == s[i];
    if Ascending(t) {
      forall i, k | 0 <= i < k < |s| ensures s[i] < s[k] {
        assert t[i] < t[k];
      }
    }
  }

  lemma ReleaseInv(limits: Limits, g: Gate, j: Job)
    requires Inv(limits, g) && j in g.running
    ensures Inv(limits, Step(limits, g, Settles(j)))
  {
    var g' := Step(limits, g, Settles(j));
    assert g'.taken + g'.waiting == g.taken + g.waiting;
    if g.waiting != [] {
      var n := |g.taken|;
      forall k | k in g.taken ensures k < g.waiting[0] {
        var i :| 0 <= i < n && g.taken[i] == k;
        assert (g.taken + g.waiting)[i] == k && (g.taken + g.waiting)[n] == g.waiting[0];
      }
      forall i | 0 <= i < |g.granted| ensures g.granted[i] < g.waiting[0] {
        assert g.granted[i] in g.granted;
      }
    }
  }

  lemma WakeInv(limits: Limits, g: Gate)
    requires Inv(limits, g) && g.granted != []
    ensures Inv(limits, Step(limits, g, Wakes))
  {
    assert g.granted[0] in g.granted;
  }

  lemma StepOrder(limits: Limits, g: Gate, e: Event)
    requires Inv(limits, g) && Below(Schedule(g), g.arrived)
    ensures var g' := Step(limits, g, e);
      && Below(Schedule(g'), g'.arrived)
      && (Ascending(Schedule(g')) <==> Ascending(Schedule(g)) && !Overtakes(limits, g, e))
  {
    var g' := Step(limits, g, e);
    if e.Arrives? {
      ArriveOrder(limits, g);
    } else if e.Settles? {
      assert Schedule(g') == Schedule(g);
    } else {
      assert Schedule(g') == Schedule(g);
    }
  }

  lemma ArriveOrder(limits: Limits, g: Gate)
    requires Inv(limits, g) && Below(Schedule(g), g.arrived)
    ensures var g' := Step(limits, g, Arrives);
      && Below(Schedule(g'), g'.arrived)
      && (Ascending(Schedule(g')) <==> Ascending(Schedule(g)) && !Overtakes(limits, g, Arrives))
  {
    var g' := Step(limits, g, Arrives);
    if g.active < limits.concurrency {
      assert Schedule(g) == g.started + g.granted;
      assert Schedule(g') == g.started + [g.arrived] + g.granted;
      Insert(g.started, g.granted, g.arrived);
    } else if |g.waiting| < limits.queueLimit {
      assert Schedule(g') == Schedule(g) + [g.arrived];
      Append(Schedule(g), g.arrived);
    } else {
      assert Schedule(g') == Schedule(g);
    }
  }

  /** A newcomer put before `b` keeps the order only if there is nobody in `b`. */
  lemma Insert(a: seq<Job>, b: seq<Job>, j: Job)
    requires Below(a + b, j)
    ensures Ascending(a + [j] + b) <==> Ascending(a + b) && b == []
    ensures Below(a + [j] + b, j + 1)
  {
    var s := a + [j] + b;
    forall i | 0 <= i < |s| ensures s[i] < j + 1 {
      assert i < |a| ==> s[i] == (a + b)[i];
      assert i > |a| ==> s[i] == (a + b)[i - 1];
    }
    if b == [] {
      assert a + b == a && s == a + [j];
      Append(a, j);
    } else {
      assert s[|a|] == j && s[|a| + 1] == (a + b)[|a|];
    }
  }

  // ------------------------------------------------------------ every run

  /** At every moment of every run: never more than `concurrency` jobs hold a slot, never more
      than `queueLimit` wait, jobs wait only while all slots are taken, no job and no slot is
      lost, and slots are handed out in order of arrival. */
  lemma {:induction false} Bounded(limits: Limits, events: seq<Event>)
    ensures Inv(limits, Run(limits, events))
  {
    if events != [] {
      Bounded(limits, events[..|events| - 1]);
      StepInv(limits, Run(limits, events[..|events| - 1]), events[|events| - 1]);
    }
  }

  /** A newcomer starts at once exactly if a slot is free, waits last exactly if none is but the queue
      has room, and is refused exactly if both are full. */
  lemma ArrivesIff(limits: Limits, events: seq<Event>)
    ensures var g, g' := Run(limits, events), Step(limits, Run(limits, events), Arrives);
      var busy, j := |g.running| + |g.granted|, g.arrived;
      && busy <= limits.concurrency && |g.waiting| <= limits.queueLimit && j !in g.running
      && (j in g'.running <==> busy < limits.concurrency)
      && (j in g'.running ==> g'.running == g.running + {j} && g'.started == g.started + [j] && g'.waiting == g.waiting)
      && (g'.waiting == g.waiting + [j] <==> busy == limits.concurrency && |g.waiting| < limits.queueLimit)
      && (g'.refused == g.refused + 1 <==> busy == limits.concurrency && |g.waiting| == limits.queueLimit)
      && (j !in g'.running ==> g'.running == g.running && g'.started == g.started)
      && (g'.waiting != g.waiting + [j] ==> g'.waiting == g.waiting)
      && (g'.refused != g.refused + 1 ==> g'.refused == g.refused) && g'.granted == g.granted
  {
    Bounded(limits, events);
    var g := Run(limits, events);
    NewJob(limits, g);
    assert |g.waiting + [g.arrived]| != |g.waiting|;
  }

  /** A settled job's slot goes to the job that waits longest, or is free if none waits. */
  lemma SettlesIs(limits: Limits, events: seq<Event>, j: Job)
    requires j in Run(limits, events).running
    ensures var g, g' := Run(limits, events), Step(limits, Run(limits, events), Settles(j));
      && g'.running == g.running - {j}
      && g'.granted == g.granted + (if g.waiting == [] then [] else [g.waiting[0]])
      && g'.waiting == (if g.waiting == [] then [] else g.waiting[1..])
      && |g'.running| + |g'.granted| == |g.running| + |g.granted| - (if g.waiting == [] then 1 else 0)
      && g'.started == g.started && g'.refused == g.refused
  {
  }

  /** When every job is done and awake, all slots are free and nobody waits. */
  lemma BackToZero(limits: Limits, events: seq<Event>)
    requires limits.concurrency >= 1
    requires var g := Run(limits, events); g.running == {} && g.granted == []
    ensures var g := Run(limits, events); g.active == 0 && g.waiting == [] && g.settled + g.refused == g.arrived
  {
    Bounded(limits, events);
  }

  /** Jobs start in order of arrival exactly when none entered directly while a granted job
      still slept. */
  lemma {:induction false} StartsInOrderIff(limits: Limits, events: seq<Event>)
    ensures var g := Run(limits, events); Below(Schedule(g), g.arrived)
    ensures Ascending(Schedule(Run(limits, events))) <==> !SomeOvertakes(limits, events)
  {
    if events != [] {
      var n := |events| - 1;
      var before := events[..n];
      Bounded(limits, before);
      StartsInOrderIff(limits, before);
      StepOrder(limits, Run(limits, before), events[n]);
      assert forall k :: 0 <= k <= n ==> before[..k] == events[..k];
      if SomeOvertakes(limits, before) {
        var k :| 0 <= k < n && Overtakes(limits, Run(limits, before[..k]), before[k]);
        assert Overtakes(limits, Run(limits, events[..k]), events[k]);
      }
      if SomeOvertakes(limits, events) && !Overtakes(limits, Run(limits, events[..n]), events[n]) {
        var k :| 0 <= k <= n && Overtakes(limits, Run(limits, events[..k]), events[k]);
        assert Overtakes(limits, Run(limits, before[..k]), before[k]);
      }
    }
  }

  /** With a single slot that never happens. */
  lemma OneSlotInOrder(limits: Limits, events: seq<Event>)
    requires limits.concurrency <= 1
    ensures Ascending(Schedule(Run(limits, events)))
  {
    StartsInOrderIff(limits, events);
    forall k | 0 <= k < |events| ensures !Overtakes(limits, Run(limits, events[..k]), events[k]) {
      Bounded(limits, events[..k]);
    }
  }

  /** With the default limits it does: two jobs settle, the first hands its slot to job 2, and
      job 3 takes the other slot before job 2 wakes. */
  lemma StartsOutOfOrder(limits: Limits, events: seq<Event>)
    requires limits == Limits(2, 2)
    requires events == [Arrives, Arrives, Arrives, Settles(0), Settles(1), Arrives, Wakes]
    ensures var g := Run(limits, events);
      g.started == [0, 1, 3, 2] && !Ascending(g.started)
  {
    var g, es := TwoSettle(limits);
    g, es := Then(limits, es, g, Arrives, Gate(2, [], [2], {3}, [0, 1, 3], [0, 1, 2, 3], 4, 0, 2));
    g, es := Then(limits, es, g, Wakes, Gate(2, [], [], {3, 2}, [0, 1, 3, 2], [0, 1, 2, 3], 4, 0, 2));
    assert es == events;
    assert g.started[2] > g.started[3];
  }

  lemma TwoSettle(limits: Limits) returns (g: Gate, events: seq<Event>)
    requires limits == Limits(2, 2)
    ensures events == [Arrives, Arrives, Arrives, Settles(0), Settles(1)]
    ensures g == Run(limits, events) == Gate(1, [], [2], {}, [0, 1], [0, 1, 2], 3, 0, 2)
  {
    g, events := ThreeArrive(limits);
    assert {0, 1} - {0} == {1};
    g, events := Then(limits, events, g, Settles(0), Gate(2, [], [2], {1}, [0, 1], [0, 1, 2], 3, 0, 1));
    g, events := Then(limits, events, g, Settles(1), Gate(1, [], [2], {}, [0, 1], [0, 1, 2], 3, 0, 2));
  }

  lemma ThreeArrive(limits: Limits) returns (g: Gate, events: seq<Event>)
    requires limits == Limits(2, 2)
    ensures events == [Arrives, Arrives, Arrives]
    ensures g == Run(limits, events) == Gate(2, [2], [], {0, 1}, [0, 1], [0, 1], 3, 0, 0)
  {
    g, events := Then(limits, [], EMPTY, Arrives, Gate(1, [], [], {0}, [0], [0], 1, 0, 0));
    g, events := Then(limits, events, g, Arrives, Gate(2, [], [], {0, 1}, [0, 1], [0, 1], 2, 0, 0));
    g, events := Then(limits, events, g, Arrives, Gate(2, [2], [], {0, 1}, [0, 1], [0, 1], 3, 0, 0));
  }

  lemma Then(limits: Limits, before: seq<Event>, g: Gate, e: Event, next: Gate)
    returns (g': Gate, events: seq<Event>)
    requires Run(limits, before) == g && Step(limits, g, e) == next
    ensures events == before + [e] && g' == next == Run(limits, events)
  {
    g', events := next, before + [e];
    assert events[..|before|] == before;
  }

  // ------------------------------------------------------------ the object

  datatype Entry = Refused | Queued | Entered

  /** The object itself. `log` is what happened around its two fields. */
  class ImageProcessingGate {
    const limits: Limits
    var active: int
    var waiting: seq<Job>
    ghost var log: Gate

    ghost predicate Valid()
      reads this
    {
      log.active == active && log.waiting == waiting && Inv(limits, log)
    }

    constructor (concurrency: nat := 2, queueLimit: nat := 2)
      ensures Valid() && limits == Limits(concurrency, queueLimit) && log == EMPTY
    {
      limits := Limits(concurrency, queueLimit);
      active, waiting, log := 0, [], EMPTY;
    }

    /** `run` up to its first await, or up to the call of the operation. */
    method Enter(job: Job) returns (entry: Entry)
      requires Valid() && job == log.arrived
      modifies this
      ensures Valid() && log == Step(limits, old(log), Arrives)
      ensures match entry
              case Refused => log.refused == old(log.refused) + 1 && Schedule(log) == old(Schedule(log))
              case Queued => log.waiting == old(log.waiting) + [job] && job !in log.running
              case Entered => job in log.running && log.started == old(log.started) + [job]
      ensures entry == Entered <==> old(|log.running| + |log.granted|) < limits.concurrency
      ensures entry == Refused <==> old(|log.running| + |log.granted|) == limits.concurrency
                                    && old(|log.waiting|) == limits.queueLimit
    {
      NewJob(limits, log);
      StepInv(limits, log, Arrives);
      if active >= limits.concurrency {
        if |waiting| >= limits.queueLimit {
          entry := Refused;
        } else {
          waiting := waiting + [job];
          entry := Queued;
        }
      } else {
        active := active + 1;
        entry := Entered;
      }
      log := Step(limits, log, Arrives);
    }

    /** The `finally` block of a settled job: hands its slot over or gives it back. */
    method Leave(ghost job: Job) returns (next: seq<Job>)
      requires Valid() && job in log.running
      modifies this
      ensures Valid() && log == Step(limits, old(log), Settles(job))
      ensures if old(log.waiting) == [] then next == [] && log.active == old(log.active) - 1
              else next == [old(log.waiting)[0]] && log.active == old(log.active)
      ensures log.granted == old(log.granted) + next
    {
      StepInv(limits, log, Settles(job));
      if waiting != [] {
        next := [waiting[0]];
        waiting := waiting[1..];
      } else {
        next := [];
        active := active - 1;
      }
      log := Step(limits, log, Settles(job));
    }

    /** The await of a granted job returns: its operation is called. */
    ghost method Wake()
      requires Valid()
      modifies this`log
      ensures Valid() && log == Step(limits, old(log), Wakes)
    {
      StepInv(limits, log, Wakes);
      log := Step(limits, log, Wakes);
    }
  }
}
