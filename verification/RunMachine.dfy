/** The durable wallpaper-run protocol as a step machine.

    One run is modelled. Its database row and row table, the TeamSpeak server and any number
    of workers take atomic steps in any order. A worker stands still at an await: a step of
    it is the awaited operation taking effect plus the code up to the next await. A worker
    that crashed is one that takes no more steps. Other runs and people are outsiders: they
    add, edit and delete channels and images at any time, but no outsider writes this run's
    ownership marker onto a channel. */
module RunMachine {
  import opened Wrappers
  import opened TreeBuilders

  /** Lease tokens are fresh: a claim uses the new worker's number. */
  type Token = nat
  type Bytes = string

  const LEASE_MS := 60000

  /** What `prepare` stores once and nothing changes afterwards. */
  datatype Job = Job(names: seq<string>, depths: seq<nat>, images: seq<Bytes>, root: Option<Cid>) {
    ghost predicate Valid() {
      |names| == |depths| == |images|
    }
  }

  datatype RunStatus = Pending | Running | PartialFailure | Completed | Undoing | UndoPartial | Undone
  datatype RunRow = RunRow(status: RunStatus, leaseToken: Option<Token>, leaseUntil: Option<nat>)

  datatype RowStatus = Waiting | Creating | Uncertain | Created | Saved | Deleting | Deleted
  datatype Row = Row(status: RowStatus, cid: Option<Cid>, parentCid: Option<Cid>, image: Option<Bytes>)

  /** Banner URLs. `RowUrl` and `IdUrl` stand for texts that differ whenever these values do. */
  datatype Url = NoUrl | RowUrl(row: nat) | IdUrl(cid: Cid) | OtherUrl(text: string)
  /** A channel as a listing shows it. */
  datatype Listed = Listed(name: string, pid: Option<Cid>, banner: Url)
  /** `marker` is `Some(p)` when the description is this run's marker for row `p`. */
  datatype Channel = Channel(look: Listed, marker: Option<nat>)

  /** A channelCreate the server applied for a row. */
  datatype Creation = Creation(cid: Cid, link: Link)

  /** Everything workers share, and (below) what happened, which no step reads. */
  datatype Shared = Shared(
    run: RunRow,
    rows: seq<Row>,
    images: map<Cid, Bytes>,
    server: map<Cid, Channel>,
    now: nat,
    used: set<Cid>,              // ids ever given to a channel
    applied: seq<nat>,           // per row: channelCreate commands applied
    born: map<nat, Creation>,    // per row: the last such command
    latchedBy: map<nat, Token>,  // per row: who last stored "creating"
    moves: nat,                  // channels added or moved so far
    edited: set<Cid>,            // channels an outsider edited
    touched: set<Cid>)           // channels whose stored image an outsider changed

  datatype Kind = Resume | Undo
  datatype Cmd = CreateCmd(row: nat, link: Link) | EditCmd(row: nat, cid: Cid) | DeleteCmd(row: nat, cid: Cid)
  /** A command on its way. `Sent` may be applied long after the worker gave up on it. */
  datatype Flight = NoFlight | Sent(cmd: Cmd) | Refused(cmd: Cmd) | Applied(cmd: Cmd, cid: Cid)

  /** What the row loop awaits. `...Lease` is an assertLease. */
  datatype Pc =
    | Load | ListChannels | RowStart | WriteParent | Identify(todo: set<Cid>, owned: seq<Cid>)
    | Latch | CreateLease | SendCreate | AwaitCreate | CidLease | WriteCid
    | ImageLease | SaveImage | EditLease | SendEdit | AwaitEdit | WriteSaved
    | IntentLease | WriteIntent | DeleteLease | SendDelete | AwaitDelete | MarkDeleted
    | RowCatch | BodyDone(ok: bool)

  /** What the code around the row loop awaits: the loop, the final status, the release. When
      the connection is stopped the loop is abandoned, but goes on beside this code. */
  datatype Outer = Inside | Closing(ok: bool) | Releasing | Gone

  datatype Worker = Worker(
    kind: Kind,
    outer: Outer,
    pc: Pc,
    idx: int,                          // current row
    rows: seq<Row>,                    // loaded copy
    snap: map<Cid, Listed>,            // loaded listing
    listedAt: nat,                     // `moves` when it was loaded (not read by any step)
    parents: map<nat, Option<Cid>>,
    siblings: map<Option<Cid>, Cid>,
    failed: bool,
    stopped: bool,                     // the connection rejects every further command
    flight: Flight)
  {
    function Go(next: Pc): Worker { this.(pc := next) }
    function Catch(): Worker { this.(pc := RowCatch) }
    /** The current row's loaded copy changes. */
    function Local(row: Row): Worker
      requires 0 <= idx < |rows|
    {
      this.(rows := rows[idx := row])
    }
  }

  datatype State = State(job: Job, g: Shared, workers: seq<Worker>) {
    function Put(t: Token, w: Worker): State
      requires t < |workers|
    {
      this.(workers := workers[t := w])
    }
    function With(g': Shared, t: Token, w: Worker): State
      requires t < |workers|
    {
      State(job, g', workers[t := w])
    }
  }

  predicate Held(g: Shared, t: Token) {
    g.run.leaseToken == Some(t)
  }

  predicate UndoSide(status: RunStatus) {
    status == Undoing || status == UndoPartial || status == Undone
  }

  // ------------------------------------------------------------ the lease

  predicate Claimable(g: Shared, kind: Kind) {
    && (match kind
        case Resume => g.run.status == Pending || g.run.status == Running || g.run.status == PartialFailure
        case Undo => g.run.status != Undone)
    && (g.run.leaseUntil.None? || g.run.leaseUntil.value < g.now)
  }

  function NewWorker(job: Job, kind: Kind): Worker {
    Worker(kind, Inside, Load, if kind == Resume then 0 else |job.depths| - 1,
           seq(|job.depths|, _ => Row(Waiting, None, None, None)), map[], 0, map[0 := job.root], map[],
           false, false, NoFlight)
  }

  function Claim(s: State, kind: Kind): State {
    if !Claimable(s.g, kind) then s
    else State(s.job,
               s.g.(run := RunRow(if kind == Resume then Running else Undoing,
                                  Some(|s.workers|), Some(s.g.now + LEASE_MS))),
               s.workers + [NewWorker(s.job, kind)])
  }

  function Renew(g: Shared): Shared {
    g.(run := g.run.(leaseUntil := Some(g.now + LEASE_MS)))
  }

  /** assertLease: renews under the own token, else throws. */
  function AssertLease(s: State, t: Token, next: Worker): State
    requires t < |s.workers|
  {
    if Held(s.g, t) then s.With(Renew(s.g), t, next) else s.Put(t, s.workers[t].Catch())
  }

  /** A row update that names the token: it throws when the token is not the run's. */
  function Fenced(s: State, t: Token, row: Row, next: Worker): State
    requires t < |s.workers|
    requires 0 <= s.workers[t].idx < |s.g.rows|
  {
    if Held(s.g, t) then s.With(s.g.(rows := s.g.rows[s.workers[t].idx := row]), t, next)
    else s.Put(t, s.workers[t].Catch())
  }

  // ------------------------------------------------------------ identification

  /** Channels to inspect: the recorded one, else every one showing the row's own URL. */
  function Candidates(w: Worker): set<Cid>
    requires 0 <= w.idx < |w.rows|
  {
    match w.rows[w.idx].cid
    case Some(c) => if c in w.snap then {c} else {}
    case None => set c | c in w.snap && w.snap[c].banner == RowUrl(w.idx)
  }

  /** The listed channel still is what the run made for row `p`. */
  predicate UnchangedAt(job: Job, w: Worker, p: int, c: Cid)
    requires 0 <= p < |w.rows| && p < |job.names|
  {
    && c in w.snap
    && w.snap[c].name == job.names[p]
    && w.snap[c].pid == w.rows[p].parentCid
    && (w.snap[c].banner == RowUrl(p) || w.snap[c].banner == IdUrl(c))
  }

  predicate Unchanged(job: Job, w: Worker, c: Cid)
    requires 0 <= w.idx < |w.rows| && w.idx < |job.names|
  {
    UnchangedAt(job, w, w.idx, c)
  }

  predicate HasChild(snap: map<Cid, Listed>, c: Cid) {
    exists d :: d in snap && snap[d].pid == Some(c)
  }

  predicate NameTaken(snap: map<Cid, Listed>, parentCid: Option<Cid>, name: string) {
    exists d :: d in snap && snap[d].pid == parentCid && snap[d].name == name
  }

  predicate OutcomeUnknown(status: RowStatus) {
    status == Creating || status == Uncertain
  }

  /** Identification is over; the code up to the next await. */
  function Decide(job: Job, w: Worker, owned: seq<Cid>): Worker
    requires 0 <= w.idx < |w.rows| && w.idx < |job.names|
  {
    var row := w.rows[w.idx];
    if |owned| > 1 then w.Catch()
    else if |owned| == 1 then
      var found := w.Local(row.(cid := Some(owned[0])));
      match w.kind
      case Resume => found.Go(CidLease)
      case Undo => if HasChild(w.snap, owned[0]) then found.Catch() else found.Go(IntentLease)
    else match w.kind
      case Resume =>
        if row.cid.Some? || OutcomeUnknown(row.status) then w.Catch()
        else if NameTaken(w.snap, row.parentCid, job.names[w.idx]) then w.Catch()
        else w.Go(Latch)
      case Undo =>
        if row.cid.None? && OutcomeUnknown(row.status) then w.Catch() else w.Go(MarkDeleted)
  }

  /** One channelInfo reply, or, with none left to ask for, the decision. */
  function IdentifyStep(s: State, t: Token, pick: Cid): State
    requires t < |s.workers| && s.workers[t].pc.Identify?
    requires 0 <= s.workers[t].idx < |s.workers[t].rows| && s.workers[t].idx < |s.job.names|
  {
    var w := s.workers[t];
    var Identify(todo, owned) := w.pc;
    if todo == {} then s.Put(t, Decide(s.job, w, owned))
    else if pick !in todo then s
    else if w.stopped || pick !in s.g.server then s.Put(t, w.Catch())
    else if s.g.server[pick].marker != Some(w.idx) then
      if w.rows[w.idx].cid.Some? then s.Put(t, w.Catch())
      else s.Put(t, w.Go(Identify(todo - {pick}, owned)))
    else if !Unchanged(s.job, w, pick) then s.Put(t, w.Catch())
    else s.Put(t, w.Go(Identify(todo - {pick}, owned + [pick])))
  }

  // ------------------------------------------------------------ the row loop

  predicate AtRow(job: Job, w: Worker) {
    0 <= w.idx < |w.rows| == |job.depths| == |job.names| == |job.images|
  }

  function LoadStep(s: State, t: Token): State
    requires t < |s.workers|
  {
    s.Put(t, s.workers[t].(rows := s.g.rows, pc := ListChannels))
  }

  function Looks(server: map<Cid, Channel>): map<Cid, Listed> {
    map c | c in server :: server[c].look
  }

  function ListStep(s: State, t: Token): State
    requires t < |s.workers|
  {
    var w := s.workers[t];
    if w.stopped then s.Put(t, w.Go(BodyDone(false)))
    else s.Put(t, w.(snap := Looks(s.g.server), listedAt := s.g.moves, pc := RowStart))
  }

  function ResumeRow(s: State, t: Token): State
    requires t < |s.workers| && |s.workers[t].rows| == |s.job.depths|
  {
    var w := s.workers[t];
    if !(0 <= w.idx < |w.rows|) then s.Put(t, w.Go(BodyDone(true)))
    else if s.job.depths[w.idx] !in w.parents then s.Put(t, w.Go(BodyDone(false)))
    else
      var parentCid := w.parents[s.job.depths[w.idx]];
      if parentCid.Some? && parentCid.value !in w.snap then s.Put(t, w.Go(BodyDone(false)))
      else if !Held(s.g, t) then s.Put(t, w.Go(BodyDone(false)))
      else s.With(Renew(s.g), t, w.Local(w.rows[w.idx].(parentCid := parentCid)).Go(WriteParent))
  }

  function UndoRow(s: State, t: Token): State
    requires t < |s.workers|
  {
    var w := s.workers[t];
    if !(0 <= w.idx < |w.rows|) then s.Put(t, w.Go(BodyDone(true)))
    else if w.rows[w.idx].status == Deleted then s.Put(t, w.(idx := w.idx - 1))
    else AssertLease(s, t, w.Go(Identify(Candidates(w), [])))
  }

  function WriteParentStep(s: State, t: Token): State
    requires t < |s.workers| && AtRow(s.job, s.workers[t]) && |s.g.rows| == |s.job.depths|
  {
    var w := s.workers[t];
    Fenced(s, t, s.g.rows[w.idx].(parentCid := w.rows[w.idx].parentCid), w.Go(Identify(Candidates(w), [])))
  }

  function LatchStep(s: State, t: Token): State
    requires t < |s.workers| && AtRow(s.job, s.workers[t]) && |s.g.rows| == |s.job.depths|
  {
    var w := s.workers[t];
    if Held(s.g, t) then
      s.With(s.g.(rows := s.g.rows[w.idx := s.g.rows[w.idx].(status := Creating)],
                  latchedBy := s.g.latchedBy[w.idx := t]),
             t, w.Local(w.rows[w.idx].(status := Creating)).Go(CreateLease))
    else s.Put(t, w.Catch())
  }

  /** Sending fails at once on a stopped connection. */
  function SendStep(s: State, t: Token, cmd: Cmd, next: Pc): State
    requires t < |s.workers|
  {
    var w := s.workers[t];
    if w.stopped then s.Put(t, w.Catch()) else s.Put(t, w.(flight := Sent(cmd), pc := next))
  }

  /** The create command of the current row. */
  function CreateFor(w: Worker): Cmd
    requires 0 <= w.idx < |w.rows|
  {
    CreateCmd(w.idx, LinkFrom(w.rows[w.idx].parentCid, w.siblings))
  }

  function AwaitCreateStep(s: State, t: Token): State
    requires t < |s.workers| && AtRow(s.job, s.workers[t])
  {
    var w := s.workers[t];
    match w.flight
    case Applied(_, c) =>
      var row := w.rows[w.idx];
      s.Put(t, w.Local(row.(cid := Some(c)))
                .(snap := w.snap[c := Listed(s.job.names[w.idx], row.parentCid, RowUrl(w.idx))],
                  flight := NoFlight, pc := CidLease))
    case Refused(_) => s.Put(t, w.(flight := NoFlight, pc := RowCatch))
    case _ => s
  }

  function WriteCidStep(s: State, t: Token): State
    requires t < |s.workers| && AtRow(s.job, s.workers[t]) && |s.g.rows| == |s.job.depths|
  {
    var w := s.workers[t];
    Fenced(s, t, s.g.rows[w.idx].(cid := w.rows[w.idx].cid, status := Created), w.Go(ImageLease))
  }

  /** Stores the prepared image under the channel id; not fenced by the lease. */
  function SaveImageStep(s: State, t: Token): State
    requires t < |s.workers| && AtRow(s.job, s.workers[t])
  {
    var w := s.workers[t];
    var row := w.rows[w.idx];
    if row.cid.None? then s
    else match row.image
      case Some(b) => s.With(s.g.(images := s.g.images[row.cid.value := b]), t, w.Go(EditLease))
      case None => if row.cid.value in s.g.images then s.Put(t, w.Go(EditLease)) else s.Put(t, w.Catch())
  }

  function AwaitEditStep(s: State, t: Token): State
    requires t < |s.workers|
  {
    var w := s.workers[t];
    match w.flight
    case Applied(_, _) => s.Put(t, w.(flight := NoFlight, pc := WriteSaved))
    case Refused(_) => s.Put(t, w.(flight := NoFlight, pc := RowCatch))
    case _ => s
  }

  function WriteSavedStep(s: State, t: Token): State
    requires t < |s.workers| && AtRow(s.job, s.workers[t]) && |s.g.rows| == |s.job.depths|
  {
    var w := s.workers[t];
    var row := w.rows[w.idx];
    if row.cid.None? then s
    else
      Fenced(s, t, s.g.rows[w.idx].(status := Saved, image := None), SavedWorker(s.job, w))
  }

  /** The worker after its row is saved: both maps take the row in. */
  function SavedWorker(job: Job, w: Worker): Worker
    requires AtRow(job, w) && w.rows[w.idx].cid.Some?
  {
    var row := w.rows[w.idx];
    var depth := job.depths[w.idx];
    w.Local(row.(status := Saved))
     .(parents := Prune(w.parents[depth + 1 := row.cid], depth + 1),
       siblings := w.siblings[row.parentCid := row.cid.value],
       idx := w.idx + 1, pc := RowStart)
  }

  function WriteIntentStep(s: State, t: Token): State
    requires t < |s.workers| && AtRow(s.job, s.workers[t]) && |s.g.rows| == |s.job.depths|
  {
    var w := s.workers[t];
    Fenced(s, t, s.g.rows[w.idx].(cid := w.rows[w.idx].cid, status := Deleting), w.Go(DeleteLease))
  }

  function AwaitDeleteStep(s: State, t: Token): State
    requires t < |s.workers|
  {
    var w := s.workers[t];
    match w.flight
    case Applied(_, c) => s.Put(t, w.(snap := w.snap - {c}, flight := NoFlight, pc := MarkDeleted))
    case Refused(_) => s.Put(t, w.(flight := NoFlight, pc := RowCatch))
    case _ => s
  }

  /** One transaction: still holding the lease, drop the channel's image and mark the row. */
  function MarkDeletedStep(s: State, t: Token): State
    requires t < |s.workers| && AtRow(s.job, s.workers[t]) && |s.g.rows| == |s.job.depths|
  {
    var w := s.workers[t];
    var cid := w.rows[w.idx].cid;
    if Held(s.g, t) then s.With(WithoutImage(s.g, w.idx, cid), t, w.(idx := w.idx - 1, pc := RowStart))
    else s.Put(t, w.Catch())
  }

  function WithoutImage(g: Shared, p: int, cid: Option<Cid>): Shared
    requires 0 <= p < |g.rows|
  {
    g.(images := if cid.Some? then g.images - {cid.value} else g.images,
       rows := g.rows[p := g.rows[p].(status := Deleted, image := None, cid := cid)])
  }

  /** The row's catch block. `resume` records an unknown creation outcome and gives up; `undo`
      notes the failure and goes on with the next row. A lost token escapes the loop. */
  function RowCatchStep(s: State, t: Token): State
    requires t < |s.workers| && AtRow(s.job, s.workers[t]) && |s.g.rows| == |s.job.depths|
  {
    var w := s.workers[t];
    var row := w.rows[w.idx];
    if !Held(s.g, t) then s.Put(t, w.(failed := true, pc := BodyDone(false)))
    else match w.kind
      case Undo => s.Put(t, w.(failed := true, idx := w.idx - 1, pc := RowStart))
      case Resume =>
        if row.status == Creating && row.cid.None? then
          s.With(s.g.(rows := s.g.rows[w.idx := s.g.rows[w.idx].(status := Uncertain)]),
                 t, w.(failed := true, pc := BodyDone(false)))
        else s.Put(t, w.(failed := true, pc := BodyDone(false)))
  }

  function LeaseNext(pc: Pc): Pc {
    match pc
    case CreateLease => SendCreate
    case CidLease => WriteCid
    case ImageLease => SaveImage
    case EditLease => SendEdit
    case IntentLease => WriteIntent
    case DeleteLease => SendDelete
    case _ => pc
  }

  /** The awaited operation of worker `t` takes effect. `pick` is the channel whose info came in. */
  function Act(s: State, t: Token, pick: Cid): State
    requires t < |s.workers|
  {
    var w := s.workers[t];
    if |s.g.rows| != |s.job.depths| || |w.rows| != |s.job.depths| then s
    else match w.pc
      case Load => LoadStep(s, t)
      case ListChannels => ListStep(s, t)
      case RowStart => if w.kind == Resume then ResumeRow(s, t) else UndoRow(s, t)
      case BodyDone(_) => s
      case _ => if AtRow(s.job, w) then ActOnRow(s, t, pick) else s
  }

  function ActOnRow(s: State, t: Token, pick: Cid): State
    requires t < |s.workers| && AtRow(s.job, s.workers[t]) && |s.g.rows| == |s.job.depths|
  {
    var w := s.workers[t];
    var cid := w.rows[w.idx].cid;
    match w.pc
    case WriteParent => WriteParentStep(s, t)
    case Identify(_, _) => IdentifyStep(s, t, pick)
    case Latch => LatchStep(s, t)
    case SendCreate => SendStep(s, t, CreateFor(w), AwaitCreate)
    case AwaitCreate => AwaitCreateStep(s, t)
    case WriteCid => WriteCidStep(s, t)
    case SaveImage => SaveImageStep(s, t)
    case SendEdit => if cid.Some? then SendStep(s, t, EditCmd(w.idx, cid.value), AwaitEdit) else s
    case AwaitEdit => AwaitEditStep(s, t)
    case WriteSaved => WriteSavedStep(s, t)
    case WriteIntent => WriteIntentStep(s, t)
    case SendDelete => if cid.Some? then SendStep(s, t, DeleteCmd(w.idx, cid.value), AwaitDelete) else s
    case AwaitDelete => AwaitDeleteStep(s, t)
    case MarkDeleted => MarkDeletedStep(s, t)
    case RowCatch => RowCatchStep(s, t)
    case _ => AssertLease(s, t, w.Go(LeaseNext(w.pc)))
  }

  /** The awaited operation of worker `t` throws, without effect or with its reply lost. A
      command without a reply stops the connection. */
  function Fail(s: State, t: Token): State
    requires t < |s.workers|
  {
    var w := s.workers[t];
    match w.pc
    case Load => s.Put(t, w.(outer := Releasing, pc := BodyDone(false)))
    case ListChannels => s.Put(t, w.(failed := true, pc := BodyDone(false)))
    case RowStart =>
      if w.kind == Resume || !(0 <= w.idx < |w.rows|) then s.Put(t, w.(failed := true, pc := BodyDone(false)))
      else s.Put(t, w.Catch())
    case RowCatch => s.Put(t, w.(failed := true, pc := BodyDone(false)))
    case BodyDone(_) => s
    case _ => s.Put(t, w.(stopped := w.stopped || Awaiting(w.pc)).Catch())
  }

  /** A command is on its way. */
  predicate Awaiting(pc: Pc) {
    pc.AwaitCreate? || pc.AwaitEdit? || pc.AwaitDelete?
  }

  // ------------------------------------------------------------ around the loop

  /** The connection is stopped at its deadline: the loop is abandoned while it still runs. */
  function Deadline(s: State, t: Token): State
    requires t < |s.workers|
  {
    var w := s.workers[t];
    if w.outer == Inside && w.pc != Load then s.Put(t, w.(outer := Closing(false), stopped := true)) else s
  }

  /** The final status. */
  function FinalStatus(kind: Kind, ok: bool): RunStatus {
    match kind
    case Resume => if ok then Completed else PartialFailure
    case Undo => if ok then Undone else UndoPartial
  }

  function Finish(s: State, t: Token): State
    requires t < |s.workers|
  {
    var w := s.workers[t];
    match w.outer
    case Inside =>
      if w.pc.BodyDone? then s.Put(t, w.(outer := Closing(w.pc.ok && !w.failed && !w.stopped))) else s
    case Closing(ok) =>
      if Held(s.g, t)
      then s.With(s.g.(run := s.g.run.(status := FinalStatus(w.kind, ok))), t, w.(outer := Releasing))
      else s.Put(t, w.(outer := Releasing))
    case Releasing =>
      if Held(s.g, t)
      then s.With(s.g.(run := RunRow(s.g.run.status, None, None)), t, w.(outer := Gone))
      else s.Put(t, w.(outer := Gone))
    case Gone => s
  }

  /** The final write or the release throws. */
  function FinishFail(s: State, t: Token): State
    requires t < |s.workers|
  {
    var w := s.workers[t];
    match w.outer
    case Closing(ok) =>
      s.Put(t, w.(outer := if ok && w.kind == Resume then Closing(false) else Releasing))
    case Releasing => s.Put(t, w.(outer := Gone))
    case _ => s
  }

  function Heartbeat(s: State, t: Token): State
    requires t < |s.workers|
  {
    if Held(s.g, t) && (s.workers[t].outer == Inside || s.workers[t].outer.Closing?) then s.(g := Renew(s.g)) else s
  }

  // ------------------------------------------------------------ the server

  /** The server executes the command in flight; a create gets the unused id `c`. */
  function Deliver(s: State, t: Token, c: Cid): State
    requires t < |s.workers|
  {
    var w := s.workers[t];
    if !w.flight.Sent? then s
    else match w.flight.cmd
      case CreateCmd(p, link) =>
        if c in s.g.used || p >= |s.job.names| || p >= |s.g.applied| then s
        else s.With(ApplyCreate(s.job, s.g, p, link, c), t, w.(flight := Applied(w.flight.cmd, c)))
      case EditCmd(_, d) =>
        if d !in s.g.server then s
        else s.With(s.g.(server := s.g.server[d := s.g.server[d].(look := s.g.server[d].look.(banner := IdUrl(d)))]),
                    t, w.(flight := Applied(w.flight.cmd, d)))
      case DeleteCmd(_, d) =>
        if d !in s.g.server then s
        else s.With(s.g.(server := s.g.server - {d}), t, w.(flight := Applied(w.flight.cmd, d)))
  }

  function ApplyCreate(job: Job, g: Shared, p: nat, link: Link, c: Cid): Shared
    requires p < |job.names| && p < |g.applied|
  {
    g.(server := g.server[c := Channel(Listed(job.names[p], link.parent, RowUrl(p)), Some(p))],
       used := g.used + {c},
       applied := g.applied[p := g.applied[p] + 1],
       born := g.born[p := Creation(c, link)],
       moves := g.moves + 1)
  }

  function Refuse(s: State, t: Token): State
    requires t < |s.workers|
  {
    var w := s.workers[t];
    if w.flight.Sent? then s.Put(t, w.(flight := Refused(w.flight.cmd))) else s
  }

  // ------------------------------------------------------------ outsiders

  datatype Outside =
    | AddChannel(cid: Cid, channel: Channel)
    | EditChannel(cid: Cid, channel: Channel)
    | RemoveChannel(cid: Cid)
    | SetImage(cid: Cid, image: Option<Bytes>)

  /** An outsider may give a channel back the marker it was created with, never another. */
  predicate Honest(g: Shared, c: Cid, channel: Channel) {
    channel.marker.Some? ==> channel.marker.value in g.born && g.born[channel.marker.value].cid == c
  }

  function Outsider(g: Shared, o: Outside): Shared {
    match o
    case AddChannel(c, channel) =>
      if c in g.used || channel.marker.Some? then g
      else g.(server := g.server[c := channel], used := g.used + {c}, moves := g.moves + 1)
    case EditChannel(c, channel) =>
      if c !in g.server || !Honest(g, c, channel) then g
      else g.(server := g.server[c := channel], edited := g.edited + {c},
              moves := if channel.look.pid == g.server[c].look.pid then g.moves else g.moves + 1)
    case RemoveChannel(c) => g.(server := g.server - {c})
    case SetImage(c, image) =>
      g.(images := if image.Some? then g.images[c := image.value] else g.images - {c},
         touched := g.touched + {c})
  }

  // ------------------------------------------------------------ runs

  datatype Event =
    | ClaimBy(kind: Kind)
    | Acts(t: Token, pick: Cid) | Fails(t: Token)
    | HitsDeadline(t: Token) | Finishes(t: Token) | FinishFails(t: Token) | Beats(t: Token)
    | Delivers(t: Token, cid: Cid) | Refuses(t: Token)
    | Outsiders(o: Outside) | Ticks(ms: nat)

  function Next(s: State, e: Event): State {
    match e
    case ClaimBy(kind) => Claim(s, kind)
    case Outsiders(o) => s.(g := Outsider(s.g, o))
    case Ticks(ms) => s.(g := s.g.(now := s.g.now + ms))
    case _ => if e.t < |s.workers| then Turn(s, e.t, e) else s
  }

  /** A step of worker `t` or of the server on its behalf. */
  function Turn(s: State, t: Token, e: Event): State
    requires t < |s.workers|
  {
    match e
    case Acts(_, pick) => Act(s, t, pick)
    case Fails(_) => Fail(s, t)
    case HitsDeadline(_) => Deadline(s, t)
    case Finishes(_) => Finish(s, t)
    case FinishFails(_) => FinishFail(s, t)
    case Beats(_) => Heartbeat(s, t)
    case Delivers(_, c) => Deliver(s, t, c)
    case Refuses(_) => Refuse(s, t)
    case _ => s
  }

  function Run(s: State, events: seq<Event>): State {
    if events == [] then s else Next(Run(s, events[..|events| - 1]), events[|events| - 1])
  }

  /** A run as `prepare` stores it: every row waiting with its image, nothing leased, no
      channel marked yet, and the selected parent among the ids the server has used. */
  ghost predicate Init(s: State) {
    && s.job.Valid()
    && s.workers == []
    && s.g.run == RunRow(Pending, None, None)
    && s.g.rows == seq(|s.job.depths|, p requires 0 <= p < |s.job.depths| && s.job.Valid() =>
                         Row(Waiting, None, None, Some(s.job.images[p])))
    && s.g.server.Keys <= s.g.used
    && (forall c :: c in s.g.server ==> s.g.server[c].marker == None)
    && (s.job.root.Some? ==> s.job.root.value in s.g.used)
    && s.g.images.Keys <= s.g.used + s.g.touched
    && s.g.applied == seq(|s.job.depths|, _ => 0)
    && s.g.born == map[] && s.g.latchedBy == map[]
  }
}
