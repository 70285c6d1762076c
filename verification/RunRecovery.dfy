/** What a resume needs to find from row to row, and why it finds it. */
module RunRecovery {
  import opened Wrappers
  import opened TreeBuilders
  import opened ForestPlan
  import opened RunMachine
  import opened RunInvariant
  import opened RunCalm
  import opened RunForward

  // ------------------------------------------------------------ what a resume needs

  /** The channel made for row `p` is there and unchanged. */
  predicate Intact(job: Job, g: Shared, p: int) {
    && p in g.born && 0 <= p < |job.names|
    && var c := g.born[p].cid;
      && c in g.server && g.server[c].marker == Some(p)
      && g.server[c].look.name == job.names[p] && g.server[c].look.pid == g.born[p].link.parent
      && (g.server[c].look.banner == RowUrl(p) || g.server[c].look.banner == IdUrl(c))
  }

  /** `pid` is where row `p` belongs, as far as that channel exists yet. */
  predicate ParentIs(job: Job, g: Shared, p: int, pid: Option<Cid>)
    requires 0 <= p < |job.depths|
  {
    match ParentOf(job.depths, p)
    case Root => pid == job.root
    case Under(q) => q in g.born && pid == Some(g.born[q].cid)
    case Missing => false
  }

  /** Channel `d` does not occupy the place of row `p`. */
  predicate NoClash(job: Job, g: Shared, p: int, d: Cid)
    requires 0 <= p < |job.depths| == |job.names|
  {
    d in g.server && ParentIs(job, g, p, g.server[d].look.pid) ==> g.server[d].look.name != job.names[p]
  }

  /** Row `p` can be worked off: its channel is found again, or was never asked for and its
      place is free. */
  ghost predicate RowReady(job: Job, g: Shared, p: int)
    requires 0 <= p < |g.rows| == |job.depths| == |job.names|
  {
    var row := g.rows[p];
    if row.cid.Some? then Intact(job, g, p) && (row.image.Some? || row.cid.value in g.images)
    else if OutcomeUnknown(row.status) then Intact(job, g, p) && g.server[g.born[p].cid].look.banner == RowUrl(p)
    else forall d :: NoClash(job, g, p, d)
  }

  predicate DistinctNames(names: seq<string>) {
    forall p, q :: 0 <= p < q < |names| ==> names[p] != names[q]
  }

  predicate RootLive(job: Job, g: Shared) {
    job.root.Some? ==> job.root.value in g.server
  }

  ghost predicate Ready(job: Job, g: Shared) {
    && |g.rows| == |job.depths| == |job.names|
    && Stepwise(job.depths) && DistinctNames(job.names) && RootLive(job, g)
    && forall p :: 0 <= p < |g.rows| ==> RowReady(job, g, p)
  }

  // ------------------------------------------------------------ between two rows

  /** The listing still shows channel `d`, but for banners this worker has set since. */
  predicate Shown(g: Shared, w: Worker, p: int, d: Cid) {
    && (d in w.snap <==> d in g.server)
    && (d in g.server ==>
          && w.snap[d].name == g.server[d].look.name
          && w.snap[d].pid == g.server[d].look.pid
          && (w.snap[d].banner == g.server[d].look.banner
              || (w.snap[d].banner.RowUrl? && w.snap[d].banner.row < p && w.snap[d].banner.row < |w.rows|
                  && w.rows[w.snap[d].banner.row].cid == Some(d))))
  }

  /** Row `q` is finished. */
  predicate Built(job: Job, g: Shared, w: Worker, q: int)
    requires 0 <= q < |w.rows|
  {
    && Intact(job, g, q) && w.rows[q].cid == Some(g.born[q].cid)
    && g.server[g.born[q].cid].look.banner == IdUrl(g.born[q].cid)
    && q < |g.rows| && g.rows[q].parentCid == g.born[q].link.parent
  }

  ghost predicate Between(job: Job, g: Shared, t: Token, w: Worker, p: int) {
    && Held(g, t) && |w.rows| == |g.rows| == |job.depths| == |job.names| == |job.images|
    && w.kind == Resume && w.outer == Inside && w.pc == RowStart && w.idx == p && 0 <= p <= |w.rows|
    && !w.failed && !w.stopped && w.flight == NoFlight
    && Stepwise(job.depths) && DistinctNames(job.names) && RootLive(job, g)
    && (forall d :: Shown(g, w, p, d))
    && (forall q :: 0 <= q < p ==> Built(job, g, w, q))
    && (forall q :: p <= q < |g.rows| ==> RowReady(job, g, q))
  }

  /** What the invariant says about the holder between two rows. */
  ghost predicate Sound(job: Job, g: Shared, t: Token, w: Worker) {
    && SharedInv(job, g) && WorkerInv(job, g, t, w) && HolderInv(job, g, w)
  }

  /** Row `p`'s parent is known and there, and is where the row's channel, if any, was created. */
  lemma ParentHere(job: Job, g: Shared, t: Token, w: Worker, p: nat)
    requires Sound(job, g, t, w) && Between(job, g, t, w, p) && p < |w.rows|
    ensures job.depths[p] in w.parents
    ensures var parentCid := w.parents[job.depths[p]];
      && (parentCid.Some? ==> parentCid.value in w.snap)
      && ParentIs(job, g, p, parentCid)
      && (p in g.born ==> g.born[p].link.parent == parentCid)
  {
    StepwiseRow(job.depths, p);
    var cids := LocalCids(w);
    LookUp(job.depths, cids, job.root, p, w.parents, w.siblings);
    var parent := ParentOf(job.depths, p);
    if parent.Under? {
      assert Built(job, g, w, parent.row) && cids[parent.row] == g.born[parent.row].cid;
      assert Shown(g, w, p, g.born[parent.row].cid);
    } else if job.root.Some? {
      assert Shown(g, w, p, job.root.value);
    }
    assert BornInv(job, g, p);
  }

  /** A row whose channel exists or may exist. */
  predicate Begun(g: Shared, p: nat)
    requires p < |g.rows|
  {
    Latched(g.rows[p])
  }

  /** The channel of a row that was begun. */
  function OwnOf(g: Shared, p: nat): Option<Cid>
    requires p < |g.rows|
  {
    if Begun(g, p) && p in g.born then Some(g.born[p].cid) else None
  }

  /** A channel recorded or announced is found again, and nothing is mistaken for it. */
  lemma FoundAgain(job: Job, g: Shared, t: Token, w: Worker, p: nat)
    requires Sound(job, g, t, w) && Between(job, g, t, w, p) && p < |w.rows| && Begun(g, p)
    ensures job.depths[p] in w.parents && p in g.born
    ensures var c := g.born[p].cid;
      && c in g.server && c in Candidates(Here(job, w))
      && (forall d :: d in Candidates(Here(job, w)) ==> Inspect(job, g, Here(job, w), d, Some(c)))
      && (w.rows[p].image.Some? || c in g.images)
  {
    ParentHere(job, g, t, w, p);
    assert RowReady(job, g, p) && SameAhead(g, w, p) && RowInv(job, g, p);
    var c, w1 := g.born[p].cid, Here(job, w);
    assert Shown(g, w, p, c);
    OwnBanner(job, g, t, w, p);
    forall d | d in Candidates(w1) ensures Inspect(job, g, w1, d, Some(c)) {
      assert Shown(g, w, p, d) && ChannelInv(g, d);
    }
  }

  /** The listing shows the row's own channel with the banner it has. */
  lemma OwnBanner(job: Job, g: Shared, t: Token, w: Worker, p: nat)
    requires Sound(job, g, t, w) && Between(job, g, t, w, p) && p < |w.rows| && Intact(job, g, p)
    ensures g.born[p].cid in w.snap && w.snap[g.born[p].cid].banner == g.server[g.born[p].cid].look.banner
  {
    var c := g.born[p].cid;
    assert Shown(g, w, p, c);
    var banner := w.snap[c].banner;
    if banner.RowUrl? && banner.row < p {
      assert Built(job, g, w, banner.row);
      assert banner.row in BornCids(g.born) && p in BornCids(g.born);
    }
  }

  /** A row never begun has no channel, and its place is free. */
  lemma PlaceFree(job: Job, g: Shared, t: Token, w: Worker, p: nat)
    requires Sound(job, g, t, w) && Between(job, g, t, w, p) && p < |w.rows| && !Begun(g, p)
    ensures job.depths[p] in w.parents && p !in g.born && w.rows[p].image.Some?
    ensures Unbegun(job, Here(job, w))
    ensures forall d :: d in Candidates(Here(job, w)) ==> Inspect(job, g, Here(job, w), d, None)
  {
    ParentHere(job, g, t, w, p);
    assert RowReady(job, g, p) && SameAhead(g, w, p) && RowInv(job, g, p);
    var w1 := Here(job, w);
    forall d | d in Candidates(w1) ensures Inspect(job, g, w1, d, None) {
      assert Shown(g, w, p, d) && ChannelInv(g, d);
    }
    forall d | d in w1.snap ensures !(w1.snap[d].pid == w1.rows[p].parentCid && w1.snap[d].name == job.names[p]) {
      assert Shown(g, w, p, d) && NoClash(job, g, p, d);
    }
  }

  /** So the row can be worked off. */
  lemma RowCanSeek(job: Job, g: Shared, t: Token, w: Worker, p: nat)
    requires Sound(job, g, t, w) && Between(job, g, t, w, p) && p < |w.rows|
    ensures CanSeek(job, g, t, w, OwnOf(g, p))
  {
    ParentHere(job, g, t, w, p);
    if Begun(g, p) {
      FoundAgain(job, g, t, w, p);
    } else {
      PlaceFree(job, g, t, w, p);
    }
  }

  lemma FoundCanKeep(job: Job, g: Shared, t: Token, w: Worker, p: nat)
    requires Sound(job, g, t, w) && Between(job, g, t, w, p) && p < |w.rows| && Begun(g, p)
    ensures job.depths[p] in w.parents && p in g.born && g.born[p].cid in g.server
    ensures var c := g.born[p].cid;
      CanKeep(job, ParentStored(job, g, w), t, FoundWorker(job, w, c).Go(CidLease), c)
  {
    FoundAgain(job, g, t, w, p);
  }

  lemma NewCanKeep(job: Job, g: Shared, t: Token, w: Worker, p: nat, c: Cid)
    requires Sound(job, g, t, w) && Between(job, g, t, w, p) && p < |w.rows| && !Begun(g, p)
    ensures job.depths[p] in w.parents && |g.applied| == |g.rows|
    ensures CanKeep(job, CreatedShared(job, g, t, w, c), t, CreatingWorker(job, w, c), c)
  {
    PlaceFree(job, g, t, w, p);
  }

  // ------------------------------------------------------------ ids

  /** Channels, and the parents they name, have ids the server has given. */
  predicate KnownIds(g: Shared) {
    && g.server.Keys <= g.used
    && forall d :: d in g.server && g.server[d].look.pid.Some? ==> g.server[d].look.pid.value in g.used
  }

  // ------------------------------------------------------------ from row to row

  /** What working off row `p` under channel `c` did to the shared state, */
  ghost predicate Gained(job: Job, g: Shared, p: nat, c: Cid, g': Shared)
    requires p < |g.rows| == |job.names|
  {
    && g'.run.leaseToken == g.run.leaseToken && g'.used == g.used + {c}
    && |g'.rows| == |g.rows| && (forall q :: 0 <= q < |g.rows| && q != p ==> g'.rows[q] == g.rows[q])
    && (forall k :: k in g.images ==> k in g'.images)
    && (forall d :: d != c ==> (d in g'.images <==> d in g.images) && (d in g.images ==> g'.images[d] == g.images[d]))
    && (forall q :: q != p ==> (q in g'.born <==> q in g.born) && (q in g.born ==> g'.born[q] == g.born[q]))
    && p in g'.born && g'.born[p].cid == c && g'.rows[p].parentCid == g'.born[p].link.parent
    && c in g'.server
    && g'.server[c] == Channel(Listed(job.names[p], g'.born[p].link.parent, IdUrl(c)), Some(p))
    && (forall d :: d != c ==> (d in g'.server <==> d in g.server) && (d in g.server ==> g'.server[d] == g.server[d]))
    && (if p in g.born then g'.born[p] == g.born[p]
        else c !in g.used && c !in g.server && forall d :: d in g.server ==> g.server[d].look.pid != Some(c))
  }

  /** and to the worker. */
  ghost predicate Learned(job: Job, w: Worker, p: nat, c: Cid, parentCid: Option<Cid>, w': Worker)
    requires p < |w.rows| == |job.names|
  {
    && w' == w.(rows := w'.rows, snap := w'.snap, parents := w'.parents, siblings := w'.siblings, idx := p + 1)
    && |w'.rows| == |w.rows| && (forall q :: 0 <= q < |w.rows| && q != p ==> w'.rows[q] == w.rows[q])
    && w'.rows[p].cid == Some(c)
    && (forall d :: d != c ==> (d in w'.snap <==> d in w.snap) && (d in w.snap ==> w'.snap[d] == w.snap[d]))
    && c in w'.snap && w'.snap[c].name == job.names[p] && w'.snap[c].pid == parentCid
    && (w'.snap[c].banner == RowUrl(p) || w'.snap[c].banner == IdUrl(c))
  }

  ghost predicate Advanced(job: Job, g: Shared, w: Worker, p: nat, c: Cid, g': Shared, w': Worker)
    requires p < |g.rows| == |w.rows| == |job.names|
  {
    Gained(job, g, p, c, g') && Learned(job, w, p, c, g'.born[p].link.parent, w')
  }

  lemma FoundAdvanced(job: Job, g: Shared, t: Token, w: Worker, p: nat, g': Shared)
    requires Sound(job, g, t, w) && Between(job, g, t, w, p) && p < |w.rows| && Begun(g, p)
    requires job.depths[p] in w.parents && p in g.born && g.born[p].cid in g.server
    requires Like(g', SavedShared(ParentStored(job, g, w), p, g.born[p].cid, w.rows[p].image))
    ensures var c := g.born[p].cid;
      Advanced(job, g, w, p, c, g', SavedWorker(job, FoundWorker(job, w, c).Go(CidLease)))
  {
    ParentHere(job, g, t, w, p);
    assert RowReady(job, g, p) && RowInv(job, g, p) && BornInv(job, g, p);
    OwnBanner(job, g, t, w, p);
    assert Shown(g, w, p, g.born[p].cid);
  }

  lemma NewAdvanced(job: Job, g: Shared, t: Token, w: Worker, p: nat, c: Cid, g': Shared)
    requires Sound(job, g, t, w) && Between(job, g, t, w, p) && p < |w.rows| && p !in g.born
    requires job.depths[p] in w.parents && |g.applied| == |g.rows|
    requires c !in g.used && KnownIds(g)
    requires Like(g', SavedShared(CreatedShared(job, g, t, w, c), p, c, w.rows[p].image))
    ensures Advanced(job, g, w, p, c, g', SavedWorker(job, CreatingWorker(job, w, c)))
  {
    assert ChannelInv(g, c);
    NewGained(job, g, t, w, p, c, g');
    NewLearned(job, w, p, c);
  }

  lemma NewGained(job: Job, g: Shared, t: Token, w: Worker, p: nat, c: Cid, g': Shared)
    requires w.idx == p < |w.rows| == |g.rows| == |g.applied| == |job.depths| == |job.names| == |job.images|
    requires job.depths[p] in w.parents && p !in g.born
    requires c !in g.used && c !in g.server && forall d :: d in g.server ==> g.server[d].look.pid != Some(c)
    requires Like(g', SavedShared(CreatedShared(job, g, t, w, c), p, c, w.rows[p].image))
    ensures Gained(job, g, p, c, g') && g'.born[p].link.parent == w.parents[job.depths[p]]
  {
  }

  lemma NewLearned(job: Job, w: Worker, p: nat, c: Cid)
    requires w.idx == p < |w.rows| == |job.depths| == |job.names| == |job.images| && job.depths[p] in w.parents
    requires w.pc == RowStart && w.flight == NoFlight
    ensures Learned(job, w, p, c, w.parents[job.depths[p]], SavedWorker(job, CreatingWorker(job, w, c)))
  {
  }

  lemma RowStaysReady(job: Job, g: Shared, w: Worker, p: nat, c: Cid, g': Shared, w': Worker, q: nat)
    requires p < q < |g.rows| == |w.rows| == |job.names| == |job.depths|
    requires Advanced(job, g, w, p, c, g', w') && RowReady(job, g, q) && DistinctNames(job.names)
    requires Fresh(BornCids(g'.born), job.root)
    ensures RowReady(job, g', q)
  {
    assert q in g.born ==> q in BornCids(g'.born) && p in BornCids(g'.born);
    if !Latched(g.rows[q]) {
      forall d ensures NoClash(job, g', q, d) {
        assert NoClash(job, g, q, d);
      }
    }
  }

  lemma BuiltStays(job: Job, g: Shared, w: Worker, p: nat, c: Cid, g': Shared, w': Worker, q: nat)
    requires q < p < |g.rows| == |w.rows| == |job.names|
    requires Advanced(job, g, w, p, c, g', w') && Built(job, g, w, q)
    requires Fresh(BornCids(g'.born), job.root)
    ensures Built(job, g', w', q)
  {
    assert q in BornCids(g'.born) && p in BornCids(g'.born);
  }

  lemma ShownStays(g: Shared, job: Job, w: Worker, p: nat, c: Cid, g': Shared, w': Worker, d: Cid)
    requires p < |g.rows| == |w.rows| == |job.names| && Advanced(job, g, w, p, c, g', w') && Shown(g, w, p, d)
    ensures Shown(g', w', p + 1, d)
  {
  }

  lemma NextBetween(job: Job, g: Shared, t: Token, w: Worker, p: nat, c: Cid, g': Shared, w': Worker)
    requires Between(job, g, t, w, p) && p < |w.rows|
    requires Advanced(job, g, w, p, c, g', w') && Fresh(BornCids(g'.born), job.root)
    ensures Between(job, g', t, w', p + 1)
  {
    var n := p + 1;
    forall d ensures Shown(g', w', n, d) {
      ShownStays(g, job, w, p, c, g', w', d);
    }
    forall q | 0 <= q < p + 1 ensures Built(job, g', w', q) {
      if q < p {
        BuiltStays(job, g, w, p, c, g', w', q);
      }
    }
    forall q | p + 1 <= q < |g'.rows| ensures RowReady(job, g', q) {
      RowStaysReady(job, g, w, p, c, g', w', q);
    }
    assert p in BornCids(g'.born);
  }
}
