/** A run in which undo is about to delete a channel that has a subchannel, though no outsider
    ever did anything: the subchannel's creation was applied after undo had listed the channels.
    The plan has one row under another. Worker 0 saves the first and sends the creation of the
    second, whose reply is lost; worker 1 undoes. */
module RunLateChild {
  import opened Wrappers
  import opened TreeBuilders
  import opened RunMachine
  import opened RunCommands
  import opened RunCalm

  function Plan(): Job {
    Job(["a", "b"], [0, 1], ["x", "y"], None)
  }

  // ------------------------------------------------------------ the shared state on the way

  function Rows(a: Row, b: Row): seq<Row> {
    [a, b]
  }

  lemma Set0(a: Row, b: Row, x: Row)
    ensures Rows(a, b)[0 := x] == Rows(x, b)
  {
  }

  lemma Set1(a: Row, b: Row, x: Row)
    ensures Rows(a, b)[1 := x] == Rows(a, x)
  {
  }

  function Untouched(): Row {
    Row(Waiting, None, None, Some("y"))
  }

  const RESUMING := RunRow(Running, Some(0), Some(LEASE_MS))
  const UNDOING := RunRow(Undoing, Some(1), Some(LEASE_MS))

  function Before(run: RunRow, a: RowStatus, latched: map<nat, Token>): Shared {
    Shared(run, Rows(Row(a, None, None, Some("x")), Untouched()), map[], map[], 0, {}, [0, 0], map[], latched, 0, {}, {})
  }

  function Channel5(banner: Url): Channel {
    Channel(Listed("a", None, banner), Some(0))
  }

  /** The first row's channel 5 is there. */
  function With5(run: RunRow, a: Row, b: Row, images: map<Cid, Bytes>, banner: Url, latched: map<nat, Token>): Shared {
    Shared(run, Rows(a, b), images, map[5 := Channel5(banner)], 0, {5}, [1, 0], map[0 := Creation(5, Link(None, None))],
           latched, 1, {}, {})
  }

  /** The first row as it is saved, and the second as its announcement leaves it. */
  function SavedA(): Row {
    Row(Saved, Some(5), None, None)
  }

  function OpenB(status: RowStatus): Row {
    Row(status, None, Some(5), Some("y"))
  }

  // ------------------------------------------------------------ worker 0

  function FirstRow(pc: Pc, a: Row, snap: map<Cid, Listed>, flight: Flight): Worker {
    Worker(Resume, Inside, pc, 0, Rows(a, Untouched()), snap, 0, map[0 := None], map[], false, false, flight)
  }

  /** `lost`: the reply is, and with it the connection. */
  function SecondRow(outer: Outer, pc: Pc, b: Row, lost: bool, flight: Flight): Worker {
    Worker(Resume, outer, pc, 1, Rows(Row(Saved, Some(5), None, Some("x")), b), map[5 := Listed("a", None, RowUrl(0))], 0,
           map[0 := None, 1 := Some(5)], map[None := 5], lost, lost, flight)
  }

  function LocalA(status: RowStatus, cid: Option<Cid>): Row {
    Row(status, cid, None, Some("x"))
  }

  const LISTED5 := map[5 := Listed("a", None, RowUrl(0))]
  const CREATE_A := CreateCmd(0, Link(None, None))
  const CREATE_B := CreateCmd(1, Link(Some(5), None))

  // ------------------------------------------------------------ worker 1

  function Undoer(pc: Pc, idx: int, failed: bool, flight: Flight): Worker {
    Worker(Undo, Inside, pc, idx, Rows(SavedA(), OpenB(Uncertain)), map[5 := Listed("a", None, IdUrl(5))], 1,
           map[0 := None], map[], failed, false, flight)
  }

  // ------------------------------------------------------------ the states of the run

  const IMAGE5: map<Cid, Bytes> := map[5 := "x"]

  function Start(): State {
    State(Plan(), Before(RunRow(Pending, None, None), Waiting, map[]), [])
  }

  /** Worker 0 before it announces the first row, */
  function Seeking(pc: Pc): State {
    State(Plan(), Before(RESUMING, Waiting, map[]), [FirstRow(pc, LocalA(Waiting, None), map[], NoFlight)])
  }

  /** after that, */
  function Creating1(pc: Pc, flight: Flight): State {
    State(Plan(), Before(RESUMING, Creating, map[0 := 0]), [FirstRow(pc, LocalA(Creating, None), map[], flight)])
  }

  /** and once channel 5 was created. */
  function Saving(pc: Pc, a: Row, images: map<Cid, Bytes>, banner: Url, flight: Flight): State {
    State(Plan(), With5(RESUMING, a, Untouched(), images, banner, map[0 := 0]),
          [FirstRow(pc, LocalA(Creating, Some(5)), LISTED5, flight)])
  }

  function Saved5(run: RunRow, b: Row, latched: map<nat, Token>): Shared {
    With5(run, SavedA(), b, IMAGE5, IdUrl(5), latched)
  }

  /** Worker 0 at the second row: before it is announced, */
  function Seeking2(pc: Pc, b: Row, local: Row): State {
    State(Plan(), Saved5(RESUMING, b, map[0 := 0]), [SecondRow(Inside, pc, local, false, NoFlight)])
  }

  const BOTH: map<nat, Token> := map[0 := 0, 1 := 0]

  /** and after that. */
  function Creating2(outer: Outer, pc: Pc, run: RunRow, status: RowStatus, lost: bool, flight: Flight): State {
    State(Plan(), Saved5(run, OpenB(status), BOTH), [SecondRow(outer, pc, OpenB(Creating), lost, flight)])
  }

  function Gone0(): Worker {
    SecondRow(Gone, BodyDone(false), OpenB(Creating), true, Sent(CREATE_B))
  }

  function Undoing1(w: Worker): State {
    State(Plan(), Saved5(UNDOING, OpenB(Uncertain), BOTH), [Gone0(), w])
  }

  function Deleting1(pc: Pc, flight: Flight): State {
    State(Plan(), With5(UNDOING, Row(Deleting, Some(5), None, None), OpenB(Uncertain), IMAGE5, IdUrl(5), BOTH),
          [Gone0(), Undoer(pc, 0, true, flight)])
  }

  // ------------------------------------------------------------ the run

  ghost predicate Comes(s: State) {
    exists events :: Undisturbed(events) && Run(Start(), events) == s
  }

  lemma Then(a: State, e: Event, b: State)
    requires Comes(a) && b == Next(a, e) && !e.Outsiders?
    ensures Comes(b)
  {
    var events :| Undisturbed(events) && Run(Start(), events) == a;
    RunOneMore(Start(), events, e);
    assert Undisturbed(events + [e]);
  }

  const ACT0 := Acts(0, 0)
  const ACT1 := Acts(1, 0)

  lemma Claims()
    ensures Comes(Seeking(RowStart))
  {
    assert Undisturbed([]) && Run(Start(), []) == Start();
    var s1, w := Next(Start(), ClaimBy(Resume)), NewWorker(Plan(), Resume);
    Then(Start(), ClaimBy(Resume), s1);
    assert w.rows == Rows(Row(Waiting, None, None, None), Row(Waiting, None, None, None));
    var s2 := Next(s1, ACT0);
    Then(s1, ACT0, s2);
    assert Next(s2, ACT0) == Seeking(RowStart);
    Then(s2, ACT0, Seeking(RowStart));
  }

  lemma Announces()
    ensures Comes(Creating1(CreateLease, NoFlight))
  {
    Claims();
    Set0(LocalA(Waiting, None), Untouched(), LocalA(Waiting, None));
    Then(Seeking(RowStart), ACT0, Seeking(WriteParent));
    assert Candidates(Seeking(WriteParent).workers[0]) == {};
    Then(Seeking(WriteParent), ACT0, Seeking(Identify({}, [])));
    Then(Seeking(Identify({}, [])), ACT0, Seeking(Latch));
    Set0(LocalA(Waiting, None), Untouched(), LocalA(Creating, None));
    Then(Seeking(Latch), ACT0, Creating1(CreateLease, NoFlight));
  }

  lemma Literals5()
    ensures map[][5 := Channel5(RowUrl(0))] == map[5 := Channel5(RowUrl(0))]
    ensures map[][5 := Listed("a", None, RowUrl(0))] == LISTED5
    ensures map[][0 := Creation(5, Link(None, None))] == map[0 := Creation(5, Link(None, None))]
    ensures {} + {5} == {5} && [0, 0][0 := 1] == [1, 0]
  {
  }

  function Created5(): State {
    Next(Creating1(AwaitCreate, Sent(CREATE_A)), Delivers(0, 5))
  }

  lemma Sends()
    ensures Comes(Created5())
  {
    Announces();
    Then(Creating1(CreateLease, NoFlight), ACT0, Creating1(SendCreate, NoFlight));
    Then(Creating1(SendCreate, NoFlight), ACT0, Creating1(AwaitCreate, Sent(CREATE_A)));
    Then(Creating1(AwaitCreate, Sent(CREATE_A)), Delivers(0, 5), Created5());
  }

  lemma Creates()
    ensures Comes(Saving(CidLease, LocalA(Creating, None), map[], RowUrl(0), NoFlight))
  {
    Sends();
    Set0(LocalA(Creating, None), Untouched(), LocalA(Creating, Some(5)));
    Literals5();
    Then(Created5(), ACT0, Saving(CidLease, LocalA(Creating, None), map[], RowUrl(0), NoFlight));
  }

  /** A lease check by the holder. */
  lemma Leased(s: State, t: Token)
    requires t < |s.workers| && AtRow(s.job, s.workers[t]) && |s.g.rows| == |s.job.depths| && Held(s.g, t)
    requires LeasePc(s.workers[t].pc)
    ensures Next(s, Acts(t, 0)) == s.With(Renew(s.g), t, s.workers[t].Go(LeaseNext(s.workers[t].pc)))
  {
    assert Act(s, t, 0) == AssertLease(s, t, s.workers[t].Go(LeaseNext(s.workers[t].pc)));
  }

  lemma Checks()
    ensures Comes(Saving(WriteCid, LocalA(Creating, None), map[], RowUrl(0), NoFlight))
  {
    Creates();
    var a := LocalA(Creating, None);
    Then(Saving(CidLease, a, map[], RowUrl(0), NoFlight), ACT0, Saving(WriteCid, a, map[], RowUrl(0), NoFlight));
  }

  lemma Records()
    ensures Comes(Saving(ImageLease, LocalA(Created, Some(5)), map[], RowUrl(0), NoFlight))
  {
    Checks();
    var a, b := LocalA(Creating, None), LocalA(Created, Some(5));
    Set0(a, Untouched(), b);
    Then(Saving(WriteCid, a, map[], RowUrl(0), NoFlight), ACT0, Saving(ImageLease, b, map[], RowUrl(0), NoFlight));
  }

  lemma ChecksImage()
    ensures Comes(Saving(SaveImage, LocalA(Created, Some(5)), map[], RowUrl(0), NoFlight))
  {
    Records();
    var b := LocalA(Created, Some(5));
    Leased(Saving(ImageLease, b, map[], RowUrl(0), NoFlight), 0);
    Then(Saving(ImageLease, b, map[], RowUrl(0), NoFlight), ACT0, Saving(SaveImage, b, map[], RowUrl(0), NoFlight));
  }

  lemma Stores()
    ensures Comes(Saving(EditLease, LocalA(Created, Some(5)), IMAGE5, RowUrl(0), NoFlight))
  {
    ChecksImage();
    var b := LocalA(Created, Some(5));
    StoresOne();
    Then(Saving(SaveImage, b, map[], RowUrl(0), NoFlight), ACT0, Saving(EditLease, b, IMAGE5, RowUrl(0), NoFlight));
  }

  lemma StoresOne()
    ensures map[][5 := "x"] == IMAGE5
  {
  }

  const EDIT_A := EditCmd(0, 5)

  lemma SendsEdit()
    ensures Comes(Saving(AwaitEdit, LocalA(Created, Some(5)), IMAGE5, RowUrl(0), Sent(EDIT_A)))
  {
    Stores();
    var b := LocalA(Created, Some(5));
    Leased(Saving(EditLease, b, IMAGE5, RowUrl(0), NoFlight), 0);
    Then(Saving(EditLease, b, IMAGE5, RowUrl(0), NoFlight), ACT0, Saving(SendEdit, b, IMAGE5, RowUrl(0), NoFlight));
    Then(Saving(SendEdit, b, IMAGE5, RowUrl(0), NoFlight), ACT0, Saving(AwaitEdit, b, IMAGE5, RowUrl(0), Sent(EDIT_A)));
  }

  lemma Edits()
    ensures Comes(Saving(WriteSaved, LocalA(Created, Some(5)), IMAGE5, IdUrl(5), NoFlight))
  {
    SendsEdit();
    var b := LocalA(Created, Some(5));
    EditsOne();
    Then(Saving(AwaitEdit, b, IMAGE5, RowUrl(0), Sent(EDIT_A)), Delivers(0, 0),
         Saving(AwaitEdit, b, IMAGE5, IdUrl(5), Applied(EDIT_A, 5)));
    Then(Saving(AwaitEdit, b, IMAGE5, IdUrl(5), Applied(EDIT_A, 5)), ACT0,
         Saving(WriteSaved, b, IMAGE5, IdUrl(5), NoFlight));
  }

  lemma EditsOne()
    ensures map[5 := Channel5(RowUrl(0))][5 := Channel5(IdUrl(5))] == map[5 := Channel5(IdUrl(5))]
  {
  }

  lemma Saves()
    ensures Comes(Seeking2(RowStart, Untouched(), Untouched()))
  {
    Edits();
    Set0(LocalA(Created, Some(5)), Untouched(), SavedA());
    TakesIn();
    var s := Saving(WriteSaved, LocalA(Created, Some(5)), IMAGE5, IdUrl(5), NoFlight);
    assert Next(s, ACT0) == WriteSavedStep(s, 0);
    Then(s, ACT0, Seeking2(RowStart, Untouched(), Untouched()));
  }

  lemma TakesIn()
    ensures SavedWorker(Plan(), FirstRow(WriteSaved, LocalA(Creating, Some(5)), LISTED5, NoFlight))
         == SecondRow(Inside, RowStart, Untouched(), false, NoFlight)
  {
    Set0(LocalA(Creating, Some(5)), Untouched(), Row(Saved, Some(5), None, Some("x")));
    Prunes();
  }

  const NONE: map<Option<Cid>, Cid> := map[]

  lemma Prunes()
    ensures Prune<Option<Cid>>(map[0 := None][1 := Some(5)], 1) == map[0 := None, 1 := Some(5)]
    ensures NONE[None := 5] == map[None := 5]
  {
  }

  lemma Seeks2()
    ensures Comes(Seeking2(Identify({}, []), OpenB(Waiting), OpenB(Waiting)))
  {
    Saves();
    Set1(Row(Saved, Some(5), None, Some("x")), Untouched(), OpenB(Waiting));
    Then(Seeking2(RowStart, Untouched(), Untouched()), ACT0, Seeking2(WriteParent, Untouched(), OpenB(Waiting)));
    Set1(SavedA(), Untouched(), OpenB(Waiting));
    assert Candidates(Seeking2(WriteParent, Untouched(), OpenB(Waiting)).workers[0]) == {};
    Then(Seeking2(WriteParent, Untouched(), OpenB(Waiting)), ACT0,
         Seeking2(Identify({}, []), OpenB(Waiting), OpenB(Waiting)));
  }

  lemma Announces2()
    ensures Comes(Creating2(Inside, CreateLease, RESUMING, Creating, false, NoFlight))
  {
    Seeks2();
    Then(Seeking2(Identify({}, []), OpenB(Waiting), OpenB(Waiting)), ACT0,
         Seeking2(Latch, OpenB(Waiting), OpenB(Waiting)));
    Latches2();
  }

  lemma Latches2()
    requires Comes(Seeking2(Latch, OpenB(Waiting), OpenB(Waiting)))
    ensures Comes(Creating2(Inside, CreateLease, RESUMING, Creating, false, NoFlight))
  {
    Set1(Row(Saved, Some(5), None, Some("x")), OpenB(Waiting), OpenB(Creating));
    Set1(SavedA(), OpenB(Waiting), OpenB(Creating));
    assert map[0 := 0][1 := 0] == BOTH;
    Then(Seeking2(Latch, OpenB(Waiting), OpenB(Waiting)), ACT0,
         Creating2(Inside, CreateLease, RESUMING, Creating, false, NoFlight));
  }

  lemma Sends2()
    ensures Comes(Creating2(Inside, AwaitCreate, RESUMING, Creating, false, Sent(CREATE_B)))
  {
    Announces2();
    Then(Creating2(Inside, CreateLease, RESUMING, Creating, false, NoFlight), ACT0,
         Creating2(Inside, SendCreate, RESUMING, Creating, false, NoFlight));
    Then(Creating2(Inside, SendCreate, RESUMING, Creating, false, NoFlight), ACT0,
         Creating2(Inside, AwaitCreate, RESUMING, Creating, false, Sent(CREATE_B)));
  }

  /** The reply is lost and the failure recorded. */
  lemma Fails2()
    ensures Comes(Creating2(Inside, BodyDone(false), RESUMING, Uncertain, true, Sent(CREATE_B)))
  {
    Sends2();
    var s := Next(Creating2(Inside, AwaitCreate, RESUMING, Creating, false, Sent(CREATE_B)), Fails(0));
    Then(Creating2(Inside, AwaitCreate, RESUMING, Creating, false, Sent(CREATE_B)), Fails(0), s);
    Set1(SavedA(), OpenB(Creating), OpenB(Uncertain));
    Then(s, ACT0, Creating2(Inside, BodyDone(false), RESUMING, Uncertain, true, Sent(CREATE_B)));
  }

  const PARTIAL := RunRow(PartialFailure, None, None)

  lemma Leaves()
    ensures Comes(Creating2(Gone, BodyDone(false), PARTIAL, Uncertain, true, Sent(CREATE_B)))
  {
    Fails2();
    var s := Creating2(Closing(false), BodyDone(false), RESUMING, Uncertain, true, Sent(CREATE_B));
    Then(Creating2(Inside, BodyDone(false), RESUMING, Uncertain, true, Sent(CREATE_B)), Finishes(0), s);
    var s1 := Next(s, Finishes(0));
    Then(s, Finishes(0), s1);
    Then(s1, Finishes(0), Creating2(Gone, BodyDone(false), PARTIAL, Uncertain, true, Sent(CREATE_B)));
  }

  lemma Undoes()
    ensures Comes(Undoing1(Undoer(RowStart, 1, false, NoFlight)))
  {
    Leaves();
    var s := Creating2(Gone, BodyDone(false), PARTIAL, Uncertain, true, Sent(CREATE_B));
    var s1 := Next(s, ClaimBy(Undo));
    Then(s, ClaimBy(Undo), s1);
    var s2 := Next(s1, ACT1);
    Then(s1, ACT1, s2);
    assert Looks(s2.g.server) == map[5 := Listed("a", None, IdUrl(5))];
    Then(s2, ACT1, Undoing1(Undoer(RowStart, 1, false, NoFlight)));
  }

  lemma NoneToAsk()
    ensures Candidates(Undoer(RowStart, 1, false, NoFlight)) == {}
    ensures Candidates(Undoer(RowStart, 0, true, NoFlight)) == {5}
    ensures {5} - {5} == {} && [] + [5] == [5]
  {
  }

  /** The second row's fate is unknown: undo notes it and goes on. */
  lemma PassesOver()
    ensures Comes(Undoing1(Undoer(RowCatch, 1, false, NoFlight)))
  {
    Undoes();
    NoneToAsk();
    Then(Undoing1(Undoer(RowStart, 1, false, NoFlight)), ACT1, Undoing1(Undoer(Identify({}, []), 1, false, NoFlight)));
    Then(Undoing1(Undoer(Identify({}, []), 1, false, NoFlight)), ACT1, Undoing1(Undoer(RowCatch, 1, false, NoFlight)));
  }

  lemma TurnsBack()
    ensures Comes(Undoing1(Undoer(RowStart, 0, true, NoFlight)))
  {
    PassesOver();
    Then(Undoing1(Undoer(RowCatch, 1, false, NoFlight)), ACT1, Undoing1(Undoer(RowStart, 0, true, NoFlight)));
  }

  lemma Asks()
    ensures Comes(Undoing1(Undoer(Identify({}, [5]), 0, true, NoFlight)))
  {
    TurnsBack();
    NoneToAsk();
    Then(Undoing1(Undoer(RowStart, 0, true, NoFlight)), ACT1, Undoing1(Undoer(Identify({5}, []), 0, true, NoFlight)));
    Then(Undoing1(Undoer(Identify({5}, []), 0, true, NoFlight)), Acts(1, 5),
         Undoing1(Undoer(Identify({}, [5]), 0, true, NoFlight)));
  }

  lemma Finds()
    ensures Comes(Undoing1(Undoer(IntentLease, 0, true, NoFlight)))
  {
    Asks();
    Set0(SavedA(), OpenB(Uncertain), SavedA());
    Then(Undoing1(Undoer(Identify({}, [5]), 0, true, NoFlight)), ACT1, Undoing1(Undoer(IntentLease, 0, true, NoFlight)));
  }

  lemma Holds()
    ensures Comes(Undoing1(Undoer(WriteIntent, 0, true, NoFlight)))
  {
    Finds();
    Leased(Undoing1(Undoer(IntentLease, 0, true, NoFlight)), 1);
    Then(Undoing1(Undoer(IntentLease, 0, true, NoFlight)), ACT1, Undoing1(Undoer(WriteIntent, 0, true, NoFlight)));
  }

  lemma Intends()
    ensures Comes(Deleting1(DeleteLease, NoFlight))
  {
    Holds();
    Set0(SavedA(), OpenB(Uncertain), Row(Deleting, Some(5), None, None));
    Then(Undoing1(Undoer(WriteIntent, 0, true, NoFlight)), ACT1, Deleting1(DeleteLease, NoFlight));
  }

  lemma HoldsStill()
    ensures Comes(Deleting1(SendDelete, NoFlight))
  {
    Intends();
    Leased(Deleting1(DeleteLease, NoFlight), 1);
    Then(Deleting1(DeleteLease, NoFlight), ACT1, Deleting1(SendDelete, NoFlight));
  }

  lemma Deletes()
    ensures Comes(Deleting1(AwaitDelete, Sent(DeleteCmd(0, 5))))
  {
    HoldsStill();
    Then(Deleting1(SendDelete, NoFlight), ACT1, Deleting1(AwaitDelete, Sent(DeleteCmd(0, 5))));
  }

  lemma StartIsFresh()
    ensures Init(Start())
  {
    assert Start().g.rows == seq(2, p requires 0 <= p < 2 => Row(Waiting, None, None, Some(Plan().images[p])));
    assert Start().g.applied == seq(2, _ => 0);
  }

  /** Channel 5 is there, and worker 1's delete of it is on its way. */
  predicate AboutToDelete5(s: State) {
    |s.workers| == 2 && s.workers[1].flight == Sent(DeleteCmd(0, 5)) && 5 in s.g.server
  }

  predicate ChildOf5(s: State, c: Cid) {
    c in s.g.server && s.g.server[c].look.pid == Some(5)
  }

  lemma StalledApplied(s: State)
    requires s == Deleting1(AwaitDelete, Sent(DeleteCmd(0, 5)))
    ensures AboutToDelete5(Next(s, Delivers(0, 6))) && ChildOf5(Next(s, Delivers(0, 6)), 6)
  {
  }

  lemma DeleteApplied(s: State)
    requires AboutToDelete5(s) && ChildOf5(s, 6)
    ensures var s' := Next(s, Delivers(1, 0)); ChildOf5(s', 6) && 5 !in s'.g.server
  {
  }

  /** Nobody but the run's own workers did anything, and the delete on its way names a leaf. Then
      the stalled creation is applied, and the delete names a channel with a child; once it is
      applied too, the child has lost its parent. */
  lemma LateChild() returns (events: seq<Event>)
    ensures Init(Start()) && Undisturbed(events)
    ensures var s := Run(Start(), events); AboutToDelete5(s) && forall c :: !ChildOf5(s, c)
    ensures var s := Run(Start(), events + [Delivers(0, 6)]); AboutToDelete5(s) && ChildOf5(s, 6)
    ensures var s := Run(Start(), events + [Delivers(0, 6)] + [Delivers(1, 0)]); ChildOf5(s, 6) && 5 !in s.g.server
  {
    StartIsFresh();
    Deletes();
    events :| Undisturbed(events) && Run(Start(), events) == Deleting1(AwaitDelete, Sent(DeleteCmd(0, 5)));
    RunOneMore(Start(), events, Delivers(0, 6));
    RunOneMore(Start(), events + [Delivers(0, 6)], Delivers(1, 0));
    StalledApplied(Run(Start(), events));
    DeleteApplied(Run(Start(), events + [Delivers(0, 6)]));
  }
}
