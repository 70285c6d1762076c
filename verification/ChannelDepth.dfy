/** Depth of a channel in the live tree, and the depth a wallpaper row ends up at. */
module ChannelDepth {
  import opened Wrappers
  import opened ForestPlan
  import opened TreeBuilders

  datatype Channel = Channel(cid: Cid, pid: Option<Cid>)

  /** Indexes a listing by id; a later entry replaces an earlier one with the same id. */
  function ById(channels: seq<Channel>): map<Cid, Channel> {
    if channels == [] then map[]
    else ById(channels[..|channels| - 1])[channels[|channels| - 1].cid := channels[|channels| - 1]]
  }

  /** The `k`-th channel id on the way up from `cid`; the last one may be unlisted. */
  function Walk(byId: map<Cid, Channel>, cid: Cid, k: nat): Option<Cid> {
    if k == 0 then Some(cid)
    else match Walk(byId, cid, k - 1)
      case None => None
      case Some(c) => if c in byId then byId[c].pid else None
  }

  /** The way up takes exactly `depth` hops. */
  predicate HasDepth(byId: map<Cid, Channel>, cid: Cid, depth: nat) {
    Walk(byId, cid, depth).Some? && Walk(byId, cid, depth + 1).None?
  }

  /** The way up never ends, which in a finite listing means that it is cyclic. */
  ghost predicate Cyclic(byId: map<Cid, Channel>, cid: Cid) {
    forall k: nat :: Walk(byId, cid, k).Some?
  }

  lemma {:induction false} WalkEnds(byId: map<Cid, Channel>, cid: Cid, i: nat, j: nat)
    requires i <= j && Walk(byId, cid, i).None?
    ensures Walk(byId, cid, j).None?
    decreases j
  {
    if i < j {
      WalkEnds(byId, cid, i, j - 1);
    }
  }

  /** At most one depth. */
  lemma DepthUnique(byId: map<Cid, Channel>, cid: Cid, a: nat, b: nat)
    requires HasDepth(byId, cid, a) && HasDepth(byId, cid, b)
    ensures a == b
  {
    if a < b {
      WalkEnds(byId, cid, a + 1, b);
    } else if b < a {
      WalkEnds(byId, cid, b + 1, a);
    }
  }

  /** A revisited channel makes the way up endless. */
  lemma {:induction false} RevisitIsCyclic(byId: map<Cid, Channel>, cid: Cid, i: nat, j: nat, k: nat)
    requires i < j && Walk(byId, cid, j).Some? && Walk(byId, cid, i) == Walk(byId, cid, j)
    ensures Walk(byId, cid, k).Some?
    decreases k
  {
    if k > j {
      RevisitIsCyclic(byId, cid, i, j, i + (k - j));
      WalkShift(byId, cid, i, j, k - j);
    } else if Walk(byId, cid, k).None? {
      WalkEnds(byId, cid, k, j);
    }
  }

  lemma {:induction false} WalkShift(byId: map<Cid, Channel>, cid: Cid, i: nat, j: nat, n: nat)
    requires Walk(byId, cid, i) == Walk(byId, cid, j)
    ensures Walk(byId, cid, i + n) == Walk(byId, cid, j + n)
  {
    if n > 0 {
      WalkShift(byId, cid, i, j, n - 1);
    }
  }

  /** A listed root gives -1 for the level above it, a listed channel its number of hops, and
      the error exactly for a cyclic way up. It ends on every listing. */
  method ComputeChannelDepth(cid: Option<Cid>, channels: seq<Channel>) returns (r: Result<int, ()>)
    ensures cid.None? || cid.value !in ById(channels) ==> r == Ok(-1)
    ensures cid.Some? && cid.value in ById(channels) ==>
              && (r.Err? <==> Cyclic(ById(channels), cid.value))
              && (r.Ok? ==> r.value >= 0 && HasDepth(ById(channels), cid.value, r.value))
  {
    if cid == None {
      return Ok(-1);
    }
    var byId := ById(channels);
    if cid.value !in byId {
      return Ok(-1);
    }
    var current := byId[cid.value];
    ById_Keys(channels, cid.value);
    var depth := 0;
    var visited := {current.cid};
    while current.pid != None
      invariant depth >= 0
      invariant current.cid in byId && byId[current.cid] == current
      invariant Walk(byId, cid.value, depth) == Some(current.cid)
      invariant forall c :: c in visited ==> exists i :: 0 <= i <= depth && Walk(byId, cid.value, i) == Some(c)
      decreases byId.Keys - visited
    {
      var pid := current.pid.value;
      assert Walk(byId, cid.value, depth + 1) == Some(pid);
      if pid in visited {
        ghost var i :| 0 <= i <= depth && Walk(byId, cid.value, i) == Some(pid);
        forall k: nat ensures Walk(byId, cid.value, k).Some? {
          RevisitIsCyclic(byId, cid.value, i, depth + 1, k);
        }
        return Err(());
      }
      ghost var before := visited;
      visited := visited + {pid};
      depth := depth + 1;
      if pid !in byId {
        assert Walk(byId, cid.value, depth + 1).None?;
        return Ok(depth);
      }
      current := byId[pid];
      ById_Keys(channels, pid);
      assert pid in byId.Keys - before;
    }
    assert Walk(byId, cid.value, depth + 1).None?;
    return Ok(depth);
  }

  lemma {:induction false} ById_Keys(channels: seq<Channel>, cid: Cid)
    requires cid in ById(channels)
    ensures ById(channels)[cid].cid == cid
  {
    if channels[|channels| - 1].cid != cid {
      ById_Keys(channels[..|channels| - 1], cid);
    }
  }

  // ---------------------------------------------------------------- rows

  /** `live` extends `before` by one channel per row, hung where the plan puts it. */
  ghost predicate Built(before: map<Cid, Channel>, live: map<Cid, Channel>, depths: seq<nat>,
                        cids: map<nat, Cid>, root: Option<Cid>)
    requires Known(cids, |depths|)
  {
    && (forall c :: c in before ==> c in live && live[c] == before[c])
    && forall p :: 0 <= p < |depths| ==> BuiltRow(live, depths, cids, root, p)
  }

  predicate BuiltRow(live: map<Cid, Channel>, depths: seq<nat>, cids: map<nat, Cid>, root: Option<Cid>, p: nat)
    requires p < |depths| && Known(cids, |depths|)
  {
    && ParentOf(depths, p) != Missing
    && cids[p] in live
    && live[cids[p]].pid == CidOf(ParentOf(depths, p), root, cids)
  }

  /** No channel pointed at one that was absent and has since appeared. */
  predicate Settled(before: map<Cid, Channel>, live: map<Cid, Channel>) {
    forall c :: c in before && before[c].pid.Some? ==> before[c].pid.value in before || before[c].pid.value !in live
  }

  /** Depth of the level above the rows: -1 for the top of the tree. */
  predicate RootDepth(before: map<Cid, Channel>, root: Option<Cid>, depth: int) {
    match root
    case None => depth == -1
    case Some(c) => c in before && depth >= 0 && HasDepth(before, c, depth)
  }

  lemma {:induction false} HopUp(byId: map<Cid, Channel>, cid: Cid, parent: Cid, k: nat)
    requires cid in byId && byId[cid].pid == Some(parent)
    ensures Walk(byId, cid, k + 1) == Walk(byId, parent, k)
  {
    if k > 0 {
      HopUp(byId, cid, parent, k - 1);
    }
  }

  lemma DepthBelow(byId: map<Cid, Channel>, cid: Cid, parent: Cid, depth: nat)
    requires cid in byId && byId[cid].pid == Some(parent) && HasDepth(byId, parent, depth)
    ensures HasDepth(byId, cid, depth + 1)
  {
    HopUp(byId, cid, parent, depth);
    HopUp(byId, cid, parent, depth + 1);
  }

  /** Channels added below do not move a channel whose way up was listed before. */
  lemma {:induction false} WalkStable(before: map<Cid, Channel>, live: map<Cid, Channel>, cid: Cid, k: nat)
    requires forall c :: c in before ==> c in live && live[c] == before[c]
    requires Settled(before, live)
    requires cid in before
    ensures Walk(live, cid, k) == Walk(before, cid, k)
    ensures Walk(live, cid, k).Some? ==> Walk(live, cid, k).value in before || Walk(live, cid, k).value !in live
  {
    if k > 0 {
      WalkStable(before, live, cid, k - 1);
    }
  }

  /** The absolute depth used for slicing is the depth the created channel really has. */
  lemma {:induction false} RowDepth(before: map<Cid, Channel>, live: map<Cid, Channel>, depths: seq<nat>,
                                    cids: map<nat, Cid>, root: Option<Cid>, parentDepth: int, p: nat)
    requires Known(cids, |depths|) && p < |depths|
    requires Built(before, live, depths, cids, root) && RootDepth(before, root, parentDepth)
    requires Settled(before, live)
    ensures parentDepth >= -1 && HasDepth(live, cids[p], parentDepth + 1 + depths[p])
    decreases p
  {
    assert BuiltRow(live, depths, cids, root, p);
    match ParentOf(depths, p) {
      case Root =>
        if root.Some? {
          WalkStable(before, live, root.value, parentDepth);
          WalkStable(before, live, root.value, parentDepth + 1);
          DepthBelow(live, cids[p], root.value, parentDepth);
        } else {
          assert Walk(live, cids[p], 0) == Some(cids[p]);
        }
      case Under(q) =>
        RowDepth(before, live, depths, cids, root, parentDepth, q);
        DepthBelow(live, cids[p], cids[q], parentDepth + 1 + depths[q]);
    }
  }
}
