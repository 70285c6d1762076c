/** What the server and outsiders do keeps the invariant. */
module RunServer {
  import opened Wrappers
  import opened TreeBuilders
  import opened RunMachine
  import opened RunInvariant
  import opened RunFrames

  /** Nobody's row or lease is involved. */
  lemma WorldStep(s: State, g': Shared)
    requires Inv(s) && SharedInv(s.job, g') && Grows(s.g, g')
    requires forall t :: Unspent(s.g, g', t)
    requires g'.rows == s.g.rows && g'.run == s.g.run
    requires forall p :: KeptGrows(s.job, s.g, g', p)
    ensures Inv(s.(g := g'))
  {
    var s' := s.(g := g');
    forall u | 0 <= u < |s.workers| ensures WorkerInv(s.job, g', u, s.workers[u]) {
      WorkerStable(s.job, s.g, g', u, s.workers[u]);
    }
    if s.g.run.leaseToken.Some? {
      HolderStable(s.job, s.g, g', s.workers[|s.workers| - 1]);
    }
  }

  /** A command's result is in: only the worker's flight changes with the shared state. */
  lemma FlightStep(s: State, t: Token, g': Shared, flight: Flight)
    requires Inv(s) && t < |s.workers| && SharedInv(s.job, g') && Grows(s.g, g')
    requires forall u :: u != t ==> Unspent(s.g, g', u)
    requires g'.rows == s.g.rows && g'.run == s.g.run
    requires forall p :: KeptGrows(s.job, s.g, g', p)
    requires WorkerInv(s.job, g', t, s.workers[t].(flight := flight))
    ensures Inv(s.With(g', t, s.workers[t].(flight := flight)))
  {
    var w := s.workers[t];
    var w' := w.(flight := flight);
    if Held(s.g, t) {
      HolderStable(s.job, s.g, g', w);
      HolderFlight(s.job, g', w, w');
    } else {
      LeaseStable(s, t, g', w');
    }
    Compose(s, t, g', w');
  }

  lemma HolderFlight(job: Job, g: Shared, w: Worker, w': Worker)
    requires HolderInv(job, g, w) && w' == w.(flight := w'.flight)
    ensures HolderInv(job, g, w')
  {
    forall q ensures SameAhead(g, w', q) {
      assert SameAhead(g, w, q);
    }
    forall q ensures Finished(g, w', q) {
      assert Finished(g, w, q);
    }
  }

  // ------------------------------------------------------------ channelCreate

  /** The one creation of row `p`: the worker's announcement is spent. */
  lemma CreateShared(job: Job, g: Shared, t: Token, p: nat, link: Link, c: Cid)
    requires SharedInv(job, g) && Ticket(g, t, p) && LinkOk(job, g.born, p, link) && c !in g.used
    ensures SharedInv(job, ApplyCreate(job, g, p, link, c))
  {
    var g' := ApplyCreate(job, g, p, link, c);
    LinkStable(job, g.born, g'.born, p, link);
    forall q ensures RowInv(job, g', q) {
      assert RowInv(job, g, q) && BornInv(job, g, q);
    }
    forall q ensures BornInv(job, g', q) {
      CreateBorn(job, g, t, p, link, c, q);
    }
    forall d ensures ChannelInv(g', d) {
      assert ChannelInv(g, d);
    }
    CreateFresh(job, g, p, link, c);
  }

  lemma CreateBorn(job: Job, g: Shared, t: Token, p: nat, link: Link, c: Cid, q: int)
    requires SharedInv(job, g) && Ticket(g, t, p) && LinkOk(job, g.born, p, link) && c !in g.used
    ensures BornInv(job, ApplyCreate(job, g, p, link, c), q)
  {
    var g' := ApplyCreate(job, g, p, link, c);
    assert BornInv(job, g, q);
    if q in g.born {
      LinkStable(job, g.born, g'.born, q, g.born[q].link);
    } else if q == p {
      LinkStable(job, g.born, g'.born, p, link);
    }
  }

  lemma CreateFresh(job: Job, g: Shared, p: nat, link: Link, c: Cid)
    requires SharedInv(job, g) && p !in g.born && p < |g.applied| && c !in g.used
    ensures Fresh(BornCids(ApplyCreate(job, g, p, link, c).born), job.root)
  {
    var cids := BornCids(ApplyCreate(job, g, p, link, c).born);
    forall q | q in cids && q != p ensures q in BornCids(g.born) && cids[q] != c {
      assert BornInv(job, g, q);
    }
  }

  lemma CreateGrows(job: Job, g: Shared, t: Token, p: nat, link: Link, c: Cid)
    requires SharedInv(job, g) && Ticket(g, t, p) && c !in g.used
    ensures Grows(g, ApplyCreate(job, g, p, link, c))
    ensures forall u :: u != t ==> Unspent(g, ApplyCreate(job, g, p, link, c), u)
    ensures forall q :: KeptGrows(job, g, ApplyCreate(job, g, p, link, c), q)
  {
  }

  lemma CreatorWorker(job: Job, g: Shared, t: Token, w: Worker, c: Cid)
    requires SharedInv(job, g) && WorkerInv(job, g, t, w) && c !in g.used
    requires w.flight.Sent? && w.flight.cmd.CreateCmd?
    ensures var CreateCmd(p, link) := w.flight.cmd;
      WorkerInv(job, ApplyCreate(job, g, p, link, c), t, w.(flight := Applied(w.flight.cmd, c)))
  {
    var CreateCmd(p, link) := w.flight.cmd;
    var g' := ApplyCreate(job, g, p, link, c);
    var w' := w.(flight := Applied(w.flight.cmd, c));
    CreateGrows(job, g, t, p, link, c);
    forall q ensures LocalInv(job, g', w', q) {
      LocalStable(job, g, g', w, q);
    }
    assert LocalCids(w') == LocalCids(w);
    QuietStable(g, g', w);
    FlightQuiet(g', w, w');
  }

  lemma FlightQuiet(g: Shared, w: Worker, w': Worker)
    requires QuietInv(g, w) && w' == w.(flight := w'.flight) && (w'.flight.Sent? ==> w.flight.Sent?)
    ensures QuietInv(g, w')
  {
    if UsesListing(w') && w.listedAt == g.moves {
      forall c ensures SeenIn(g, w'.snap, c) {
        assert SeenIn(g, w.snap, c);
      }
    }
  }

  lemma DeliverCreate(s: State, t: Token, c: Cid)
    requires Inv(s) && t < |s.workers| && c !in s.g.used
    requires var w := s.workers[t]; w.flight.Sent? && w.flight.cmd.CreateCmd?
    ensures Inv(Deliver(s, t, c))
  {
    var w := s.workers[t];
    var CreateCmd(p, link) := w.flight.cmd;
    CreateShared(s.job, s.g, t, p, link, c);
    CreateGrows(s.job, s.g, t, p, link, c);
    CreatorWorker(s.job, s.g, t, w, c);
    FlightStep(s, t, ApplyCreate(s.job, s.g, p, link, c), Applied(w.flight.cmd, c));
  }

  // ------------------------------------------------------------ channelEdit, channelDelete

  function ApplyEdit(g: Shared, d: Cid): Shared
    requires d in g.server
  {
    g.(server := g.server[d := g.server[d].(look := g.server[d].look.(banner := IdUrl(d)))])
  }

  lemma EditShared(job: Job, g: Shared, d: Cid)
    requires SharedInv(job, g) && d in g.server
    ensures SharedInv(job, ApplyEdit(g, d)) && Grows(g, ApplyEdit(g, d))
    ensures forall t :: Unspent(g, ApplyEdit(g, d), t)
    ensures forall p :: KeptGrows(job, g, ApplyEdit(g, d), p)
  {
    var g' := ApplyEdit(g, d);
    forall q ensures RowInv(job, g', q) {
      assert RowInv(job, g, q);
    }
    forall q ensures BornInv(job, g', q) {
      assert BornInv(job, g, q);
    }
    forall e ensures ChannelInv(g', e) {
      assert ChannelInv(g, e);
    }
  }

  lemma RemoveShared(job: Job, g: Shared, d: Cid)
    requires SharedInv(job, g)
    ensures SharedInv(job, g.(server := g.server - {d})) && Grows(g, g.(server := g.server - {d}))
    ensures forall t :: Unspent(g, g.(server := g.server - {d}), t)
    ensures forall p :: KeptGrows(job, g, g.(server := g.server - {d}), p)
  {
    var g' := g.(server := g.server - {d});
    forall q ensures RowInv(job, g', q) {
      assert RowInv(job, g, q);
    }
    forall q ensures BornInv(job, g', q) {
      assert BornInv(job, g, q);
    }
    forall e ensures ChannelInv(g', e) {
      assert ChannelInv(g, e);
    }
  }

  /** A result other than a creation's. */
  lemma ResultWorker(job: Job, g: Shared, t: Token, w: Worker, flight: Flight)
    requires WorkerInv(job, g, t, w) && w.flight.Sent?
    requires flight.Refused? || (flight.Applied? && !flight.cmd.CreateCmd?)
    requires flight.cmd == w.flight.cmd
    requires FlightInv(job, g, t, w.(flight := flight))
    ensures WorkerInv(job, g, t, w.(flight := flight))
  {
    var w' := w.(flight := flight);
    forall q ensures LocalInv(job, g, w', q) {
      assert LocalInv(job, g, w, q);
    }
    assert LocalCids(w') == LocalCids(w);
    FlightQuiet(g, w, w');
  }

  lemma DeliverEdit(s: State, t: Token, c: Cid)
    requires Inv(s) && t < |s.workers|
    requires var w := s.workers[t];
      w.flight.Sent? && w.flight.cmd.EditCmd? && w.flight.cmd.cid in s.g.server
    ensures Inv(Deliver(s, t, c))
  {
    var w := s.workers[t];
    var d := w.flight.cmd.cid;
    var g' := ApplyEdit(s.g, d);
    assert ChannelInv(s.g, d);
    EditShared(s.job, s.g, d);
    WorkerStable(s.job, s.g, g', t, w);
    ResultWorker(s.job, g', t, w, Applied(w.flight.cmd, d));
    FlightStep(s, t, g', Applied(w.flight.cmd, d));
  }

  lemma DeliverDelete(s: State, t: Token, c: Cid)
    requires Inv(s) && t < |s.workers|
    requires var w := s.workers[t];
      w.flight.Sent? && w.flight.cmd.DeleteCmd? && w.flight.cmd.cid in s.g.server
    ensures Inv(Deliver(s, t, c))
  {
    var w := s.workers[t];
    var d := w.flight.cmd.cid;
    var g' := s.g.(server := s.g.server - {d});
    assert ChannelInv(s.g, d);
    RemoveShared(s.job, s.g, d);
    WorkerStable(s.job, s.g, g', t, w);
    ResultWorker(s.job, g', t, w, Applied(w.flight.cmd, d));
    FlightStep(s, t, g', Applied(w.flight.cmd, d));
  }

  lemma DeliverInv(s: State, t: Token, c: Cid)
    requires Inv(s) && t < |s.workers|
    ensures Inv(Deliver(s, t, c))
  {
    var w := s.workers[t];
    if w.flight.Sent? {
      match w.flight.cmd {
        case CreateCmd(p, link) =>
          if c !in s.g.used {
            DeliverCreate(s, t, c);
          }
        case EditCmd(_, d) =>
          if d in s.g.server {
            DeliverEdit(s, t, c);
          }
        case DeleteCmd(_, d) =>
          if d in s.g.server {
            DeliverDelete(s, t, c);
          }
      }
    }
  }

  lemma RefuseInv(s: State, t: Token)
    requires Inv(s) && t < |s.workers|
    ensures Inv(Refuse(s, t))
  {
    var w := s.workers[t];
    if w.flight.Sent? {
      ResultWorker(s.job, s.g, t, w, Refused(w.flight.cmd));
      if Held(s.g, t) {
        HolderFlight(s.job, s.g, w, w.(flight := Refused(w.flight.cmd)));
      }
      LocalStep(s, t, w.(flight := Refused(w.flight.cmd)));
    }
  }

  // ------------------------------------------------------------ outsiders

  lemma OutsiderInv(s: State, o: Outside)
    requires Inv(s)
    ensures Inv(s.(g := Outsider(s.g, o)))
  {
    match o {
      case AddChannel(c, channel) => AddShared(s.job, s.g, c, channel);
      case EditChannel(c, channel) => OutsideEdit(s.job, s.g, c, channel);
      case RemoveChannel(c) => RemoveShared(s.job, s.g, c);
      case SetImage(c, image) => OutsideImage(s.job, s.g, c, image);
    }
    WorldStep(s, Outsider(s.g, o));
  }

  lemma AddShared(job: Job, g: Shared, c: Cid, channel: Channel)
    requires SharedInv(job, g)
    ensures var g' := Outsider(g, AddChannel(c, channel));
      && SharedInv(job, g') && Grows(g, g')
      && (forall t :: Unspent(g, g', t))
      && (forall p :: KeptGrows(job, g, g', p))
  {
    var g' := Outsider(g, AddChannel(c, channel));
    forall q ensures RowInv(job, g', q) {
      assert RowInv(job, g, q) && BornInv(job, g, q);
    }
    forall q ensures BornInv(job, g', q) {
      assert BornInv(job, g, q);
    }
    forall e ensures ChannelInv(g', e) {
      assert ChannelInv(g, e);
    }
  }

  lemma OutsideEdit(job: Job, g: Shared, c: Cid, channel: Channel)
    requires SharedInv(job, g)
    ensures var g' := Outsider(g, EditChannel(c, channel));
      && SharedInv(job, g') && Grows(g, g')
      && (forall t :: Unspent(g, g', t))
      && (forall p :: KeptGrows(job, g, g', p))
  {
    var g' := Outsider(g, EditChannel(c, channel));
    forall q ensures RowInv(job, g', q) {
      assert RowInv(job, g, q);
    }
    forall q ensures BornInv(job, g', q) {
      assert BornInv(job, g, q);
    }
    forall e ensures ChannelInv(g', e) {
      assert ChannelInv(g, e);
    }
  }

  lemma OutsideImage(job: Job, g: Shared, c: Cid, image: Option<Bytes>)
    requires SharedInv(job, g)
    ensures var g' := Outsider(g, SetImage(c, image));
      && SharedInv(job, g') && Grows(g, g')
      && (forall t :: Unspent(g, g', t))
      && (forall p :: KeptGrows(job, g, g', p))
  {
    var g' := Outsider(g, SetImage(c, image));
    forall q ensures RowInv(job, g', q) {
      assert RowInv(job, g, q);
    }
    forall q ensures BornInv(job, g', q) {
      assert BornInv(job, g, q);
    }
    forall e ensures ChannelInv(g', e) {
      assert ChannelInv(g, e);
    }
    GrowsRefl(g, g');
  }

  lemma TickInv(s: State, ms: nat)
    requires Inv(s)
    ensures Inv(s.(g := s.g.(now := s.g.now + ms)))
  {
    var g, g' := s.g, s.g.(now := s.g.now + ms);
    forall q ensures RowInv(s.job, g', q) {
      assert RowInv(s.job, g, q);
    }
    forall q ensures BornInv(s.job, g', q) {
      assert BornInv(s.job, g, q);
    }
    forall e ensures ChannelInv(g', e) {
      assert ChannelInv(g, e);
    }
    GrowsRefl(g, g');
    WorldStep(s, g');
  }
}
