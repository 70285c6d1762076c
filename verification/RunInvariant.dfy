/** What holds in every state of the run protocol. Facts are kept per row, per channel and per
    worker. A worker's facts only mention things that never become false again, so they
    survive whatever others do; facts about the current rows are claimed for the lease holder. */
module RunInvariant {
  import opened Wrappers
  import opened TreeBuilders
  import opened RunMachine

  // ------------------------------------------------------------ lasting facts

  predicate BornCid(g: Shared, p: int, c: Cid) {
    p in g.born && g.born[p].cid == c
  }

  predicate Dead(g: Shared, c: Cid) {
    c in g.used && c !in g.server
  }

  function BornCids(born: map<nat, Creation>): map<nat, Cid> {
    map p | p in born :: born[p].cid
  }

  /** `link` is the place the plan gives row `p` among the channels created so far. */
  predicate LinkOk(job: Job, born: map<nat, Creation>, p: int, link: Link) {
    && 0 <= p < |job.depths|
    && Known(BornCids(born), p)
    && Planned(job.depths, BornCids(born), job.root, p, link)
  }

  /** Delete intent and channel id are stored in the row. */
  predicate Intent(g: Shared, p: int, c: Cid) {
    && 0 <= p < |g.rows|
    && g.rows[p].cid == Some(c)
    && (g.rows[p].status == Deleting || g.rows[p].status == Deleted)
  }

  /** Unless an outsider interfered, the channel shows its final banner. */
  predicate EditDone(g: Shared, c: Cid) {
    c in g.server && c !in g.edited ==> g.server[c].look.banner == IdUrl(c)
  }

  // ------------------------------------------------------------ rows

  /** A creation was announced: nobody starts another one for the row. */
  predicate Latched(row: Row) {
    row.cid.Some? || OutcomeUnknown(row.status)
  }

  predicate Open(row: Row) {
    row.cid.None? && OutcomeUnknown(row.status)
  }

  /** Worker `t`, and nobody else, may still cause the creation of row `p`. */
  predicate Ticket(g: Shared, t: Token, p: int) {
    && 0 <= p < |g.rows|
    && p in g.latchedBy && g.latchedBy[p] == t
    && p !in g.born
    && Open(g.rows[p])
  }

  predicate ImageKept(job: Job, g: Shared, p: int, c: Cid)
    requires 0 <= p < |job.images|
  {
    c in g.touched || (c in g.images && g.images[c] == job.images[p])
  }

  predicate RowInv(job: Job, g: Shared, p: int) {
    0 <= p < |job.depths| == |job.images| == |g.rows| == |g.applied| ==>
      var r := g.rows[p];
      && (r.cid.Some? ==> BornCid(g, p, r.cid.value))
      && (p in g.born ==> p in g.latchedBy)
      && (p in g.latchedBy ==> Latched(r))
      && g.applied[p] == (if p in g.born then 1 else 0)
      && (r.status == Created || r.status == Saved || r.status == Deleting ==> r.cid.Some?)
      && (r.status == Deleted && r.cid.Some? ==> Dead(g, r.cid.value))
      && (r.status == Deleting || r.status == Deleted ==> UndoSide(g.run.status))
      && (r.status == Saved ==> r.image.None? && EditDone(g, r.cid.value))
      && (r.image.Some? ==> r.image.value == job.images[p])
      && (r.image.None? && r.status != Deleted ==> r.cid.Some? && ImageKept(job, g, p, r.cid.value))
  }

  // ------------------------------------------------------------ channels

  /** The live channel of a creation still looks like it unless an outsider edited it. */
  predicate LookOk(job: Job, g: Shared, p: int)
    requires p in g.born && 0 <= p < |job.names|
  {
    var c := g.born[p].cid;
    c in g.server && c !in g.edited ==>
      && g.server[c].marker == Some(p)
      && g.server[c].look.name == job.names[p]
      && g.server[c].look.pid == g.born[p].link.parent
      && (g.server[c].look.banner == RowUrl(p) || g.server[c].look.banner == IdUrl(c))
  }

  predicate BornInv(job: Job, g: Shared, p: int) {
    p in g.born ==>
      && 0 <= p < |job.depths| == |job.images| == |job.names|
      && g.born[p].cid in g.used
      && LinkOk(job, g.born, p, g.born[p].link)
      && LookOk(job, g, p)
      && (g.born[p].cid !in g.touched && g.born[p].cid in g.images ==> g.images[g.born[p].cid] == job.images[p])
  }

  predicate ChannelInv(g: Shared, c: Cid) {
    c in g.server ==>
      && c in g.used
      && (g.server[c].marker.Some? ==> BornCid(g, g.server[c].marker.value, c))
  }

  ghost predicate SharedInv(job: Job, g: Shared) {
    && job.Valid()
    && |g.rows| == |g.applied| == |job.depths|
    && Fresh(BornCids(g.born), job.root)
    && (job.root.Some? ==> job.root.value in g.used)
    && (forall p :: RowInv(job, g, p))
    && (forall p :: BornInv(job, g, p))
    && (forall c :: ChannelInv(g, c))
    && (forall c :: c in g.images ==> c in g.used || c in g.touched)
    && (g.run.status == Completed ==> forall p :: 0 <= p < |g.rows| ==> g.rows[p].status == Saved)
    && (g.run.status == Undone ==> forall p :: 0 <= p < |g.rows| ==> g.rows[p].status == Deleted)
    && (g.run.leaseToken.Some? <==> g.run.leaseUntil.Some?)
  }

  // ------------------------------------------------------------ workers

  predicate RowPc(pc: Pc) {
    !(pc.Load? || pc.ListChannels? || pc.RowStart? || pc.BodyDone?)
  }

  predicate ResumePc(pc: Pc) {
    || pc.WriteParent? || pc.Latch? || pc.CreateLease? || pc.SendCreate? || pc.AwaitCreate? || pc.CidLease?
    || pc.WriteCid? || pc.ImageLease? || pc.SaveImage? || pc.EditLease? || pc.SendEdit? || pc.AwaitEdit?
    || pc.WriteSaved?
  }

  predicate UndoPc(pc: Pc) {
    || pc.IntentLease? || pc.WriteIntent? || pc.DeleteLease? || pc.SendDelete? || pc.AwaitDelete? || pc.MarkDeleted?
  }

  predicate CidPc(pc: Pc) {
    || pc.CidLease? || pc.WriteCid? || pc.ImageLease? || pc.SaveImage? || pc.EditLease? || pc.SendEdit?
    || pc.AwaitEdit? || pc.WriteSaved?
    || pc.IntentLease? || pc.WriteIntent? || pc.DeleteLease? || pc.SendDelete? || pc.AwaitDelete?
  }

  /** The row loop runs on its listing. */
  predicate OnListing(pc: Pc) {
    !(pc.Load? || pc.ListChannels? || pc.BodyDone?)
  }

  /** Its listing matters to the worker or to its command on the way. */
  predicate UsesListing(w: Worker) {
    OnListing(w.pc) || w.flight.Sent?
  }

  predicate ShapeInv(job: Job, w: Worker) {
    && |w.rows| == |job.depths| == |job.names| == |job.images|
    && (match w.kind case Resume => 0 <= w.idx <= |job.depths| case Undo => -1 <= w.idx < |job.depths|)
    && (w.pc.Load? || w.pc.ListChannels? ==> w.idx == if w.kind == Resume then 0 else |job.depths| - 1)
    && (RowPc(w.pc) ==> 0 <= w.idx < |job.depths|)
    && (ResumePc(w.pc) ==> w.kind == Resume)
    && (UndoPc(w.pc) ==> w.kind == Undo)
    && (CidPc(w.pc) ==> w.rows[w.idx].cid.Some?)
    && (w.kind == Undo && (w.pc.Identify? || w.pc.IntentLease? || w.pc.WriteIntent?) ==> w.rows[w.idx].status != Deleted)
    && (w.pc == BodyDone(true) ==> w.idx == if w.kind == Resume then |job.depths| else -1)
    && (w.outer == Closing(true) ==> w.pc == BodyDone(true) && !w.failed)
    && (w.pc == Load ==> w.outer == Inside)
    && (w.pc.Load? || w.pc.ListChannels? ==> w.flight == NoFlight)
    && (w.flight.Sent? && w.flight.cmd.DeleteCmd? ==> w.kind == Undo)
    && (w.flight.Sent? && w.flight.cmd.CreateCmd? ==>
          w.kind == Resume && (w.pc.AwaitCreate? || w.pc.RowCatch? || w.pc.BodyDone?))
    && (w.flight == NoFlight || w.stopped || w.pc.AwaitCreate? || w.pc.AwaitEdit? || w.pc.AwaitDelete?)
  }

  /** What is loaded of row `q` is true for good. */
  predicate LocalInv(job: Job, g: Shared, w: Worker, q: int) {
    0 <= q < |w.rows| == |job.images| ==>
      && (w.rows[q].cid.Some? ==>
            && BornCid(g, q, w.rows[q].cid.value)
            && (OnListing(w.pc) && w.rows[q].cid.value !in w.snap ==> Dead(g, w.rows[q].cid.value)))
      && (w.rows[q].image.Some? ==> w.rows[q].image.value == job.images[q])
  }

  function LocalCids(w: Worker): map<nat, Cid> {
    map q: nat | q < w.idx && q < |w.rows| && w.rows[q].cid.Some? :: w.rows[q].cid.value
  }

  /** The two maps describe the rows done so far. */
  ghost predicate TreeInv(job: Job, w: Worker) {
    w.kind == Resume && 0 <= w.idx <= |w.rows| == |job.depths| ==>
      && Known(LocalCids(w), w.idx)
      && MapsAt(job.depths, LocalCids(w), job.root, w.idx, w.parents, w.siblings)
      && (ResumePc(w.pc) || w.pc.Identify? ==>
            && w.idx < |w.rows|
            && job.depths[w.idx] in w.parents
            && w.rows[w.idx].parentCid == w.parents[job.depths[w.idx]])
  }

  ghost predicate QuietInv(g: Shared, w: Worker) {
    && w.listedAt <= g.moves
    && (UsesListing(w) && w.listedAt == g.moves ==> forall c :: SeenIn(g, w.snap, c))
  }

  predicate SeenIn(g: Shared, snap: map<Cid, Listed>, c: Cid) {
    c in g.server ==> c in snap && snap[c].pid == g.server[c].look.pid
  }

  /** Undo only gets near channels it found unchanged and childless in its listing. */
  predicate VettedAt(job: Job, w: Worker, p: int, c: Cid) {
    && 0 <= p < |w.rows| && p < |job.names|
    && UnchangedAt(job, w, p, c) && !HasChild(w.snap, c)
  }

  predicate Vetted(job: Job, w: Worker, c: Cid) {
    VettedAt(job, w, w.idx, c)
  }

  /** The row's parent is in the worker's listing. */
  predicate ParentListed(w: Worker)
    requires 0 <= w.idx < |w.rows|
  {
    w.rows[w.idx].parentCid.Some? ==> w.rows[w.idx].parentCid.value in w.snap
  }

  /** And no channel there has the row's name. */
  predicate FreePlace(job: Job, w: Worker)
    requires 0 <= w.idx < |w.rows| && w.idx < |job.names|
  {
    ParentListed(w) && !NameTaken(w.snap, w.rows[w.idx].parentCid, job.names[w.idx])
  }

  ghost predicate PcInv(job: Job, g: Shared, t: Token, w: Worker)
    requires ShapeInv(job, w)
  {
    match w.pc
    case WriteParent => ParentListed(w)
    case Identify(todo, owned) =>
      && (w.kind == Resume ==> ParentListed(w))
      && (forall o :: o in owned ==> BornCid(g, w.idx, o))
      && (forall o :: o in owned ==> o !in todo)
      && (|owned| > 0 ==> w.rows[w.idx].cid.None? || w.rows[w.idx].cid == Some(owned[0]))
      && (|owned| > 0 ==> Unchanged(job, w, owned[0]))
      && (|owned| == 0 && w.rows[w.idx].cid.Some? && w.rows[w.idx].cid.value in w.snap ==>
            todo == {w.rows[w.idx].cid.value})
    case Latch => w.rows[w.idx].cid.None? && !OutcomeUnknown(w.rows[w.idx].status) && FreePlace(job, w)
    case CreateLease => Ticket(g, t, w.idx) && w.rows[w.idx].cid.None?
    case SendCreate => Ticket(g, t, w.idx) && w.rows[w.idx].cid.None?
    case AwaitCreate => w.flight != NoFlight && w.flight.cmd == CreateFor(w) && w.rows[w.idx].cid.None?
    case AwaitEdit => w.flight != NoFlight && w.flight.cmd == EditCmd(w.idx, w.rows[w.idx].cid.value)
    case WriteSaved => EditDone(g, w.rows[w.idx].cid.value)
    case IntentLease => Vetted(job, w, w.rows[w.idx].cid.value)
    case WriteIntent => Vetted(job, w, w.rows[w.idx].cid.value)
    case DeleteLease => Vetted(job, w, w.rows[w.idx].cid.value) && Intent(g, w.idx, w.rows[w.idx].cid.value)
    case SendDelete => Vetted(job, w, w.rows[w.idx].cid.value) && Intent(g, w.idx, w.rows[w.idx].cid.value)
    case AwaitDelete =>
      && Vetted(job, w, w.rows[w.idx].cid.value)
      && w.flight != NoFlight && w.flight.cmd == DeleteCmd(w.idx, w.rows[w.idx].cid.value)
    case MarkDeleted =>
      if w.rows[w.idx].cid.Some? then Dead(g, w.rows[w.idx].cid.value) else !OutcomeUnknown(w.rows[w.idx].status)
    case _ => true
  }

  ghost predicate FlightInv(job: Job, g: Shared, t: Token, w: Worker) {
    match w.flight
    case NoFlight => true
    case Refused(_) => true
    case Sent(cmd) => (
      match cmd
      case CreateCmd(p, link) => Ticket(g, t, p) && LinkOk(job, g.born, p, link)
      case EditCmd(p, c) => BornCid(g, p, c)
      case DeleteCmd(p, c) => BornCid(g, p, c) && Intent(g, p, c) && VettedAt(job, w, p, c)
    )
    case Applied(cmd, c) => (
      match cmd
      case CreateCmd(p, link) => BornCid(g, p, c) && w.listedAt < g.moves
      case EditCmd(p, d) => c == d && c in g.used && EditDone(g, c)
      case DeleteCmd(p, d) => c == d && Dead(g, c)
    )
  }

  ghost predicate WorkerInv(job: Job, g: Shared, t: Token, w: Worker) {
    && ShapeInv(job, w)
    && (forall q :: LocalInv(job, g, w, q))
    && TreeInv(job, w)
    && QuietInv(g, w)
    && PcInv(job, g, t, w)
    && FlightInv(job, g, t, w)
  }

  // ------------------------------------------------------------ the lease holder

  predicate PhaseOk(status: RunStatus, w: Worker) {
    match w.kind
    case Resume =>
      && (status == Running || status == PartialFailure || status == Completed)
      && (w.outer == Inside || w.outer.Closing? ==> status == Running)
      && (status == Completed ==> w.pc == BodyDone(true))
    case Undo =>
      && UndoSide(status)
      && (w.outer == Inside || w.outer.Closing? ==> status == Undoing)
      && (status == Undone ==> w.pc == BodyDone(true))
  }

  /** Rows the holder has not worked on since it loaded them. */
  predicate Ahead(w: Worker, q: int) {
    && !w.pc.Load? && !w.pc.BodyDone?
    && (|| (match w.kind case Resume => w.idx < q case Undo => q < w.idx)
        || (q == w.idx &&
            (w.pc.ListChannels? || w.pc.RowStart? || w.pc.WriteParent? || w.pc.Identify? || w.pc.Latch?
             || (w.pc.MarkDeleted? && 0 <= q < |w.rows| && w.rows[q].cid.None?))))
  }

  predicate SameAhead(g: Shared, w: Worker, q: int) {
    0 <= q < |w.rows| == |g.rows| && Ahead(w, q) ==>
      && g.rows[q].status == w.rows[q].status
      && g.rows[q].cid == w.rows[q].cid
      && g.rows[q].image == w.rows[q].image
  }

  /** Rows the holder has finished. */
  predicate Finished(g: Shared, w: Worker, q: int) {
    0 <= q < |g.rows| ==>
      match w.kind
      case Resume => q < w.idx ==> g.rows[q].status == Saved
      case Undo => q > w.idx ==> w.failed || g.rows[q].status == Deleted
  }

  predicate ImagePc(pc: Pc) {
    pc.EditLease? || pc.SendEdit? || pc.AwaitEdit? || pc.WriteSaved?
  }

  predicate StoredPc(pc: Pc) {
    pc.ImageLease? || pc.SaveImage? || ImagePc(pc)
  }

  predicate HolderPcInv(job: Job, g: Shared, w: Worker) {
    0 <= w.idx < |w.rows| == |g.rows| == |job.images| ==>
      && (w.pc.IntentLease? || w.pc.WriteIntent? ==> g.rows[w.idx].status == w.rows[w.idx].status)
      && (StoredPc(w.pc) ==> g.rows[w.idx].cid.Some?)
      && (ImagePc(w.pc) && w.rows[w.idx].cid.Some? ==> ImageKept(job, g, w.idx, w.rows[w.idx].cid.value))
  }

  ghost predicate HolderInv(job: Job, g: Shared, w: Worker) {
    && PhaseOk(g.run.status, w)
    && (forall q :: SameAhead(g, w, q))
    && (forall q :: Finished(g, w, q))
    && HolderPcInv(job, g, w)
  }

  ghost predicate LeaseInv(s: State) {
    s.g.run.leaseToken.Some? ==>
      && s.g.run.leaseToken.value == |s.workers| - 1
      && HolderInv(s.job, s.g, s.workers[|s.workers| - 1])
  }

  ghost predicate Inv(s: State) {
    Whole(
      && SharedInv(s.job, s.g)
      && (forall t :: 0 <= t < |s.workers| ==> WorkerInv(s.job, s.g, t, s.workers[t]))
      && LeaseInv(s)
    )
  }

  // ------------------------------------------------------------ stability

  predicate RowGrows(g: Shared, g': Shared, p: int) {
    0 <= p < |g.rows| == |g'.rows| ==>
      && (g.rows[p].status == Deleting || g.rows[p].status == Deleted ==>
            && (g'.rows[p].status == Deleting || g'.rows[p].status == Deleted)
            && (g.rows[p].cid.Some? ==> g'.rows[p].cid == g.rows[p].cid))
      && (g.rows[p].status == Deleted ==> g'.rows[p].status == Deleted)
      && (Open(g.rows[p]) && p !in g'.born ==> Open(g'.rows[p]))
  }

  predicate ChannelGrows(g: Shared, g': Shared, c: Cid) {
    && (Dead(g, c) ==> Dead(g', c))
    && (c in g.used && EditDone(g, c) ==> EditDone(g', c))
  }

  /** What no step ever takes back. */
  ghost predicate Grows(g: Shared, g': Shared) {
    && |g'.rows| == |g.rows|
    && (forall p :: p in g.born ==> p in g'.born && g'.born[p] == g.born[p])
    && g.used <= g'.used
    && (forall p :: p in g.latchedBy ==> p in g'.latchedBy && g'.latchedBy[p] == g.latchedBy[p])
    && (forall p :: RowGrows(g, g', p))
    && (forall c :: ChannelGrows(g, g', c))
    && g.moves <= g'.moves
    && (g.moves == g'.moves ==> forall c :: Stays(g, g', c))
  }

  predicate Stays(g: Shared, g': Shared, c: Cid) {
    c in g'.server ==> c in g.server && g'.server[c].look.pid == g.server[c].look.pid
  }

  /** No creation announced by worker `t` was applied. */
  predicate Unspent(g: Shared, g': Shared, t: Token) {
    forall p :: p in g'.born && p !in g.born && p in g.latchedBy ==> g.latchedBy[p] != t
  }

  lemma LinkStable(job: Job, born: map<nat, Creation>, born': map<nat, Creation>, p: int, link: Link)
    requires LinkOk(job, born, p, link)
    requires forall q :: q in born ==> q in born' && born'[q] == born[q]
    ensures LinkOk(job, born', p, link)
  {
    var cids, cids' := BornCids(born), BornCids(born');
    forall q | 0 <= q < p ensures q in cids' && cids'[q] == cids[q] {
      assert q in cids;
    }
  }

  /** A worker's facts survive every step of others. */
  lemma WorkerStable(job: Job, g: Shared, g': Shared, t: Token, w: Worker)
    requires WorkerInv(job, g, t, w) && Grows(g, g') && Unspent(g, g', t)
    requires forall p :: BornInv(job, g, p)
    ensures WorkerInv(job, g', t, w)
  {
    forall q ensures LocalInv(job, g', w, q) {
      LocalStable(job, g, g', w, q);
    }
    QuietStable(g, g', w);
    PcStable(job, g, g', t, w);
    FlightStable(job, g, g', t, w);
  }

  lemma LocalStable(job: Job, g: Shared, g': Shared, w: Worker, q: int)
    requires LocalInv(job, g, w, q) && Grows(g, g')
    ensures LocalInv(job, g', w, q)
  {
    if 0 <= q < |w.rows| && w.rows[q].cid.Some? {
      assert ChannelGrows(g, g', w.rows[q].cid.value);
    }
  }

  lemma QuietStable(g: Shared, g': Shared, w: Worker)
    requires QuietInv(g, w) && Grows(g, g')
    ensures QuietInv(g', w)
  {
    if UsesListing(w) && w.listedAt == g'.moves {
      forall c ensures SeenIn(g', w.snap, c) {
        assert SeenIn(g, w.snap, c) && Stays(g, g', c);
      }
    }
  }

  lemma TicketStable(g: Shared, g': Shared, t: Token, p: int)
    requires Ticket(g, t, p) && Grows(g, g') && Unspent(g, g', t)
    ensures Ticket(g', t, p)
  {
    assert RowGrows(g, g', p);
  }

  lemma IntentStable(g: Shared, g': Shared, p: int, c: Cid)
    requires Intent(g, p, c) && Grows(g, g')
    ensures Intent(g', p, c)
  {
    assert RowGrows(g, g', p);
  }

  lemma PcStable(job: Job, g: Shared, g': Shared, t: Token, w: Worker)
    requires ShapeInv(job, w) && PcInv(job, g, t, w)
    requires Grows(g, g') && Unspent(g, g', t)
    requires forall q :: LocalInv(job, g, w, q)
    requires forall p :: BornInv(job, g, p)
    ensures PcInv(job, g', t, w)
  {
    if w.pc.CreateLease? || w.pc.SendCreate? {
      TicketStable(g, g', t, w.idx);
    } else if w.pc.WriteSaved? || w.pc.MarkDeleted? {
      if w.rows[w.idx].cid.Some? {
        assert LocalInv(job, g, w, w.idx) && BornInv(job, g, w.idx);
        assert ChannelGrows(g, g', w.rows[w.idx].cid.value);
      }
    } else if w.pc.DeleteLease? || w.pc.SendDelete? {
      IntentStable(g, g', w.idx, w.rows[w.idx].cid.value);
    }
  }

  lemma FlightStable(job: Job, g: Shared, g': Shared, t: Token, w: Worker)
    requires FlightInv(job, g, t, w)
    requires Grows(g, g') && Unspent(g, g', t)
    ensures FlightInv(job, g', t, w)
  {
    match w.flight {
      case NoFlight =>
      case Refused(_) =>
      case Sent(cmd) =>
        if cmd.CreateCmd? {
          TicketStable(g, g', t, cmd.row);
          LinkStable(job, g.born, g'.born, cmd.row, cmd.link);
        } else if cmd.DeleteCmd? {
          IntentStable(g, g', cmd.row, cmd.cid);
        }
      case Applied(cmd, c) =>
        assert ChannelGrows(g, g', c);
    }
  }
}
