/** The two tree builders: the depth-keyed parents and parent-keyed siblings of the durable
    run, and the two depth-keyed, pruned maps of the low-level helper. */
module TreeBuilders {
  import opened Wrappers
  import opened ForestPlan

  /** TeamSpeak channel ids are opaque; only equality matters. */
  type Cid = nat

  /** What one channelCreate command says about a row's place. */
  datatype Link = Link(parent: Option<Cid>, after: Option<Cid>)

  function CidOf(parent: Parent, root: Option<Cid>, cids: map<nat, Cid>): Option<Cid>
    requires !parent.Missing?
    requires parent.Under? ==> parent.row in cids
  {
    match parent
    case Root => root
    case Under(q) => Some(cids[q])
  }

  predicate Known(cids: map<nat, Cid>, p: nat) {
    forall q :: 0 <= q < p ==> q in cids
  }

  /** Channel ids are not reused, and the run's root existed before its channels. */
  predicate Fresh(cids: map<nat, Cid>, root: Option<Cid>) {
    && (forall q, r :: q in cids && r in cids && cids[q] == cids[r] ==> q == r)
    && forall q :: q in cids ==> root != Some(cids[q])
  }

  /** The place the plan's forest gives row `p`, in channel ids. */
  function PlannedLink(depths: seq<nat>, cids: map<nat, Cid>, root: Option<Cid>, p: nat): Link
    requires p < |depths| && Known(cids, p) && ParentOf(depths, p) != Missing
  {
    Link(CidOf(ParentOf(depths, p), root, cids),
         match SiblingBefore(depths, p)
         case None => None
         case Some(q) => Some(cids[q]))
  }

  /** `parents` holds, for each depth, the channel a row of that depth would hang under. */
  ghost predicate ParentsAt(depths: seq<nat>, cids: map<nat, Cid>, root: Option<Cid>, p: nat,
                            parents: map<nat, Option<Cid>>)
    requires p <= |depths| && Known(cids, p)
  {
    forall d: nat :: ParentSlot(depths, cids, root, p, parents, d)
  }

  predicate ParentSlot(depths: seq<nat>, cids: map<nat, Cid>, root: Option<Cid>, p: nat,
                       parents: map<nat, Option<Cid>>, d: nat)
    requires p <= |depths| && Known(cids, p)
  {
    && (d in parents <==> ParentAt(depths, p, d) != Missing)
    && (d in parents ==> parents[d] == CidOf(ParentAt(depths, p, d), root, cids))
  }

  predicate Earlier(parent: Parent, p: nat) {
    parent == Root || (parent.Under? && parent.row < p)
  }

  /** `siblings` holds, for each parent channel, the latest row created under it. */
  ghost predicate SiblingsAt(depths: seq<nat>, cids: map<nat, Cid>, root: Option<Cid>, p: nat,
                             siblings: map<Option<Cid>, Cid>)
    requires p <= |depths| && Known(cids, p)
  {
    && (forall k :: k in siblings ==> KeyOf(cids, root, p, k))
    && forall parent :: SiblingSlot(depths, cids, root, p, siblings, parent)
  }

  predicate KeyOf(cids: map<nat, Cid>, root: Option<Cid>, p: nat, k: Option<Cid>)
    requires Known(cids, p)
  {
    k == root || exists q :: 0 <= q < p && k == Some(cids[q])
  }

  predicate SiblingSlot(depths: seq<nat>, cids: map<nat, Cid>, root: Option<Cid>, p: nat,
                        siblings: map<Option<Cid>, Cid>, parent: Parent)
    requires p <= |depths| && Known(cids, p)
  {
    Earlier(parent, p) ==>
      var k, last := CidOf(parent, root, cids), LastUnder(depths, p, parent);
      && (k in siblings <==> last.Some?)
      && (last.Some? ==> siblings[k] == cids[last.value])
  }

  /** Forgets every depth below `limit`. */
  function Prune<V>(m: map<nat, V>, limit: nat): map<nat, V> {
    map d | d in m && d <= limit :: m[d]
  }

  lemma ParentsStep(depths: seq<nat>, cids: map<nat, Cid>, root: Option<Cid>, p: nat,
                    parents: map<nat, Option<Cid>>)
    requires p < |depths| && Known(cids, p + 1)
    requires ParentsAt(depths, cids, root, p, parents)
    ensures ParentsAt(depths, cids, root, p + 1,
                      Prune(parents[depths[p] + 1 := Some(cids[p])], depths[p] + 1))
  {
    var after := Prune(parents[depths[p] + 1 := Some(cids[p])], depths[p] + 1);
    forall d: nat {:trigger ParentSlot(depths, cids, root, p + 1, after, d)}
      ensures ParentSlot(depths, cids, root, p + 1, after, d)
    {
      assert ParentSlot(depths, cids, root, p, parents, d);
      if d <= depths[p] {
        AboveStable(depths, p, p + 1, d);
      }
    }
  }

  lemma SiblingsStep(depths: seq<nat>, cids: map<nat, Cid>, root: Option<Cid>, p: nat,
                     siblings: map<Option<Cid>, Cid>)
    requires p < |depths| && Known(cids, p + 1) && Fresh(cids, root)
    requires ParentOf(depths, p) != Missing
    requires SiblingsAt(depths, cids, root, p, siblings)
    ensures SiblingsAt(depths, cids, root, p + 1,
                       siblings[CidOf(ParentOf(depths, p), root, cids) := cids[p]])
  {
    var own := ParentOf(depths, p);
    var after := siblings[CidOf(own, root, cids) := cids[p]];
    forall parent {:trigger SiblingSlot(depths, cids, root, p + 1, after, parent)}
      ensures SiblingSlot(depths, cids, root, p + 1, after, parent)
    {
      if parent == Under(p) {
        LastUnderStable(depths, 0, p, parent);
        assert KeyOf(cids, root, p, Some(cids[p])) ==> false;
      } else if Earlier(parent, p) {
        assert SiblingSlot(depths, cids, root, p, siblings, parent);
        assert parent != own ==> CidOf(parent, root, cids) != CidOf(own, root, cids);
      }
    }
    forall k | k in after ensures KeyOf(cids, root, p + 1, k) {
      assert k in siblings ==> KeyOf(cids, root, p, k);
    }
  }

  lemma AllPlanned(depths: seq<nat>, cids: map<nat, Cid>, root: Option<Cid>, links: seq<Link>)
    requires LinksPlanned(depths, cids, root, links) && |links| == |depths|
    ensures Stepwise(depths)
  {
    forall q | 0 <= q < |depths| ensures ParentOf(depths, q) != Missing {
      assert Planned(depths, cids, root, q, links[q]);
    }
    StepwiseIffRooted(depths);
  }

  /** What the two maps yield for row `p` is the place the plan gives it. */
  lemma LookUp(depths: seq<nat>, cids: map<nat, Cid>, root: Option<Cid>, p: nat,
               parents: map<nat, Option<Cid>>, siblings: map<Option<Cid>, Cid>)
    requires p < |depths| && Known(cids, p)
    requires ParentsAt(depths, cids, root, p, parents)
    requires SiblingsAt(depths, cids, root, p, siblings)
    ensures depths[p] in parents <==> ParentOf(depths, p) != Missing
    ensures depths[p] in parents ==>
              LinkFrom(parents[depths[p]], siblings) == PlannedLink(depths, cids, root, p)
  {
    assert ParentSlot(depths, cids, root, p, parents, depths[p]);
    assert SiblingSlot(depths, cids, root, p, siblings, ParentOf(depths, p));
  }

  /** A new row's place: under `parentCid`, after the latest row created there. */
  function LinkFrom(parentCid: Option<Cid>, siblings: map<Option<Cid>, Cid>): Link {
    Link(parentCid, if parentCid in siblings then Some(siblings[parentCid]) else None)
  }

  ghost predicate LinksPlanned(depths: seq<nat>, cids: map<nat, Cid>, root: Option<Cid>, links: seq<Link>) {
    && |links| <= |depths|
    && Known(cids, |links|)
    && forall q :: 0 <= q < |links| ==> Planned(depths, cids, root, q, links[q])
  }

  predicate Planned(depths: seq<nat>, cids: map<nat, Cid>, root: Option<Cid>, p: nat, link: Link)
    requires p < |depths| && Known(cids, p)
  {
    ParentOf(depths, p) != Missing && link == PlannedLink(depths, cids, root, p)
  }

  lemma LinksStep(depths: seq<nat>, cids: map<nat, Cid>, root: Option<Cid>, links: seq<Link>, link: Link)
    requires LinksPlanned(depths, cids, root, links)
    requires |links| < |depths| && |links| in cids && Planned(depths, cids, root, |links|, link)
    ensures LinksPlanned(depths, cids, root, links + [link])
  {
  }

  ghost predicate MapsAt(depths: seq<nat>, cids: map<nat, Cid>, root: Option<Cid>, p: nat,
                         parents: map<nat, Option<Cid>>, siblings: map<Option<Cid>, Cid>)
    requires p <= |depths| && Known(cids, p)
  {
    ParentsAt(depths, cids, root, p, parents) && SiblingsAt(depths, cids, root, p, siblings)
  }

  /** The maps of the first `p` rows do not depend on the channel row `p` gets. */
  lemma MapsExtend(depths: seq<nat>, cids: map<nat, Cid>, root: Option<Cid>, p: nat,
                   parents: map<nat, Option<Cid>>, siblings: map<Option<Cid>, Cid>, cid: Cid)
    requires p <= |depths| && Known(cids, p) && p !in cids
    requires MapsAt(depths, cids, root, p, parents, siblings)
    ensures MapsAt(depths, cids[p := cid], root, p, parents, siblings)
  {
    var more := cids[p := cid];
    forall d: nat {:trigger ParentSlot(depths, more, root, p, parents, d)}
      ensures ParentSlot(depths, more, root, p, parents, d)
    {
      assert ParentSlot(depths, cids, root, p, parents, d);
    }
    forall parent {:trigger SiblingSlot(depths, more, root, p, siblings, parent)}
      ensures SiblingSlot(depths, more, root, p, siblings, parent)
    {
      assert SiblingSlot(depths, cids, root, p, siblings, parent);
    }
    forall k | k in siblings ensures KeyOf(more, root, p, k) {
      assert KeyOf(cids, root, p, k);
      if k != root {
        var q :| 0 <= q < p && k == Some(cids[q]);
        assert k == Some(more[q]);
      }
    }
  }

  /** Taking row `p` in keeps both maps in step with the plan. */
  lemma MapsNext(depths: seq<nat>, cids: map<nat, Cid>, root: Option<Cid>, p: nat,
                 parents: map<nat, Option<Cid>>, siblings: map<Option<Cid>, Cid>)
    requires p < |depths| && Known(cids, p + 1) && Fresh(cids, root)
    requires MapsAt(depths, cids, root, p, parents, siblings) && depths[p] in parents
    ensures MapsAt(depths, cids, root, p + 1,
                   Prune(parents[depths[p] + 1 := Some(cids[p])], depths[p] + 1),
                   siblings[parents[depths[p]] := cids[p]])
  {
    assert ParentSlot(depths, cids, root, p, parents, depths[p]);
    ParentsStep(depths, cids, root, p, parents);
    SiblingsStep(depths, cids, root, p, siblings);
  }

  lemma ResumeStep(depths: seq<nat>, cids: map<nat, Cid>, root: Option<Cid>, links: seq<Link>,
                   parents: map<nat, Option<Cid>>, siblings: map<Option<Cid>, Cid>)
    requires Fresh(cids, root) && LinksPlanned(depths, cids, root, links)
    requires |links| < |depths| && |links| in cids && depths[|links|] in parents
    requires MapsAt(depths, cids, root, |links|, parents, siblings)
    ensures var p, parentCid := |links|, parents[depths[|links|]];
      && LinksPlanned(depths, cids, root, links + [LinkFrom(parentCid, siblings)])
      && MapsAt(depths, cids, root, p + 1,
                Prune(parents[depths[p] + 1 := Some(cids[p])], depths[p] + 1),
                siblings[parentCid := cids[p]])
  {
    var p := |links|;
    LookUp(depths, cids, root, p, parents, siblings);
    LinksStep(depths, cids, root, links, LinkFrom(parents[depths[p]], siblings));
    ParentsStep(depths, cids, root, p, parents);
    SiblingsStep(depths, cids, root, p, siblings);
  }

  /** The links that `resume` asks for, row by row, when row `q` gets channel `cids[q]`.
      It stops at the first row whose level was skipped, as the source throws there. */
  method ResumeLinks(depths: seq<nat>, cids: map<nat, Cid>, root: Option<Cid>)
    returns (links: seq<Link>)
    requires Known(cids, |depths|) && Fresh(cids, root)
    ensures |links| == |depths| <==> Stepwise(depths)
    ensures |links| <= |depths| && (|links| < |depths| ==> ParentOf(depths, |links|) == Missing)
    ensures LinksPlanned(depths, cids, root, links)
  {
    links := [];
    var parents: map<nat, Option<Cid>> := map[0 := root];
    var siblings: map<Option<Cid>, Cid> := map[];
    for p := 0 to |depths|
      invariant |links| == p && LinksPlanned(depths, cids, root, links)
      invariant MapsAt(depths, cids, root, p, parents, siblings)
    {
      LookUp(depths, cids, root, p, parents, siblings);
      if depths[p] !in parents {
        StepwiseIffRooted(depths);
        return;
      }
      ResumeStep(depths, cids, root, links, parents, siblings);
      var parentCid := parents[depths[p]];
      links := links + [LinkFrom(parentCid, siblings)];
      parents := Prune(parents[depths[p] + 1 := Some(cids[p])], depths[p] + 1);
      siblings := siblings[parentCid := cids[p]];
    }
    AllPlanned(depths, cids, root, links);
  }

  /** The latest row created at each depth, while nothing above that depth came after it. */
  ghost predicate LastAtDepth(depths: seq<nat>, cids: map<nat, Cid>, p: nat, lastSibling: map<nat, Cid>)
    requires p <= |depths| && Known(cids, p)
  {
    forall d: nat :: AtDepth(depths, cids, p, lastSibling, d)
  }

  predicate AtDepth(depths: seq<nat>, cids: map<nat, Cid>, p: nat, lastSibling: map<nat, Cid>, d: nat)
    requires p <= |depths| && Known(cids, p)
  {
    var q := Above(depths, p, d + 1);
    && (d in lastSibling <==> q.Some? && depths[q.value] == d)
    && (d in lastSibling ==> lastSibling[d] == cids[q.value])
  }

  lemma LastAtDepthStep(depths: seq<nat>, cids: map<nat, Cid>, p: nat, lastSibling: map<nat, Cid>)
    requires p < |depths| && Known(cids, p + 1)
    requires LastAtDepth(depths, cids, p, lastSibling)
    ensures LastAtDepth(depths, cids, p + 1, Prune(lastSibling[depths[p] := cids[p]], depths[p]))
  {
    var after := Prune(lastSibling[depths[p] := cids[p]], depths[p]);
    forall d: nat {:trigger AtDepth(depths, cids, p + 1, after, d)} ensures AtDepth(depths, cids, p + 1, after, d) {
      if d < depths[p] {
        AboveStable(depths, p, p + 1, d + 1);
      }
      assert AtDepth(depths, cids, p, lastSibling, d);
    }
  }

  /** Links of the low-level helper: planned where the plan has a place, else under the root; always
      after the nearest row not deeper, if it is of the same depth. */
  ghost predicate LinksOrRoot(depths: seq<nat>, cids: map<nat, Cid>, root: Option<Cid>, links: seq<Link>) {
    && |links| <= |depths|
    && (|links| > 0 ==> Known(cids, |links| - 1))
    && forall q :: 0 <= q < |links| ==> PlannedOrRoot(depths, cids, root, q, links[q])
  }

  predicate PlannedOrRoot(depths: seq<nat>, cids: map<nat, Cid>, root: Option<Cid>, p: nat, link: Link)
    requires p < |depths| && Known(cids, p)
  {
    && (if ParentOf(depths, p) == Missing then link.parent == root else link == PlannedLink(depths, cids, root, p))
    && link.after == match Above(depths, p, depths[p] + 1)
                     case None => None
                     case Some(q) => if depths[q] == depths[p] then Some(cids[q]) else None
  }

  lemma LinksOrRootStep(depths: seq<nat>, cids: map<nat, Cid>, root: Option<Cid>, links: seq<Link>,
                        parentCidByDepth: map<nat, Option<Cid>>, lastSiblingCidByDepth: map<nat, Cid>)
    requires LinksOrRoot(depths, cids, root, links) && |links| < |depths| && Known(cids, |links|)
    requires ParentsAt(depths, cids, root, |links|, parentCidByDepth)
    requires LastAtDepth(depths, cids, |links|, lastSiblingCidByDepth)
    ensures LinksOrRoot(depths, cids, root,
                        links + [LinkAtDepth(depths[|links|], root, parentCidByDepth, lastSiblingCidByDepth)])
  {
    PlaceByDepth(depths, cids, root, |links|, parentCidByDepth, lastSiblingCidByDepth);
  }

  lemma PlaceByDepth(depths: seq<nat>, cids: map<nat, Cid>, root: Option<Cid>, p: nat,
                     parentCidByDepth: map<nat, Option<Cid>>, lastSiblingCidByDepth: map<nat, Cid>)
    requires p < |depths| && Known(cids, p)
    requires ParentsAt(depths, cids, root, p, parentCidByDepth)
    requires LastAtDepth(depths, cids, p, lastSiblingCidByDepth)
    ensures PlannedOrRoot(depths, cids, root, p,
                          LinkAtDepth(depths[p], root, parentCidByDepth, lastSiblingCidByDepth))
  {
    assert ParentSlot(depths, cids, root, p, parentCidByDepth, depths[p]);
    assert AtDepth(depths, cids, p, lastSiblingCidByDepth, depths[p]);
    if ParentOf(depths, p) != Missing {
      SiblingByDepth(depths, p, depths[p]);
    }
  }

  /** A new row's place by depth, with the batch root as the fallback parent. */
  function LinkAtDepth(depth: nat, root: Option<Cid>, parentCidByDepth: map<nat, Option<Cid>>,
                       lastSiblingCidByDepth: map<nat, Cid>): Link {
    Link(if depth in parentCidByDepth && parentCidByDepth[depth] != None then parentCidByDepth[depth] else root,
         if depth in lastSiblingCidByDepth then Some(lastSiblingCidByDepth[depth]) else None)
  }

  /** Links already asked for do not depend on channels created later. */
  lemma LinksOrRootStable(depths: seq<nat>, cids: map<nat, Cid>, root: Option<Cid>, links: seq<Link>, cid: Cid)
    requires LinksOrRoot(depths, cids, root, links) && |links| > 0 && |links| - 1 !in cids
    ensures LinksOrRoot(depths, cids[|links| - 1 := cid], root, links)
  {
  }

  lemma MapsStable(depths: seq<nat>, cids: map<nat, Cid>, root: Option<Cid>, p: nat,
                   parents: map<nat, Option<Cid>>, lastSibling: map<nat, Cid>, cid: Cid)
    requires p <= |depths| && Known(cids, p) && p !in cids
    requires ParentsAt(depths, cids, root, p, parents) && LastAtDepth(depths, cids, p, lastSibling)
    ensures ParentsAt(depths, cids[p := cid], root, p, parents)
    ensures LastAtDepth(depths, cids[p := cid], p, lastSibling)
  {
    var more := cids[p := cid];
    forall d: nat {:trigger AtDepth(depths, more, p, lastSibling, d)}
      ensures AtDepth(depths, more, p, lastSibling, d)
    {
      assert AtDepth(depths, cids, p, lastSibling, d);
    }
    forall d: nat {:trigger ParentSlot(depths, more, root, p, parents, d)}
      ensures ParentSlot(depths, more, root, p, parents, d)
    {
      assert ParentSlot(depths, cids, root, p, parents, d);
    }
  }

  /** Creating row `|created|` as `cid` keeps the two depth-keyed maps in step with the plan. */
  lemma LowStep(depths: seq<nat>, created: seq<Cid>, root: Option<Cid>, links: seq<Link>,
                parents: map<nat, Option<Cid>>, lastSibling: map<nat, Cid>, cid: Cid)
    requires |links| == |created| + 1 && LinksOrRoot(depths, Numbered(created), root, links)
    requires ParentsAt(depths, Numbered(created), root, |created|, parents)
    requires LastAtDepth(depths, Numbered(created), |created|, lastSibling)
    ensures LinksOrRoot(depths, Numbered(created + [cid]), root, links)
    ensures var depth, cids := depths[|created|], Numbered(created + [cid]);
      && ParentsAt(depths, cids, root, |links|, Prune(parents[depth + 1 := Some(cid)], depth + 1))
      && LastAtDepth(depths, cids, |links|, Prune(lastSibling[depth := cid], depth))
  {
    var p := |created|;
    var cids := Numbered(created + [cid]);
    assert cids == Numbered(created)[p := cid];
    LinksOrRootStable(depths, Numbered(created), root, links, cid);
    MapsStable(depths, Numbered(created), root, p, parents, lastSibling, cid);
    ParentsStep(depths, cids, root, p, parents);
    LastAtDepthStep(depths, cids, p, lastSibling);
  }

  /** The low-level helper: the links it asks for and the channels it reports. `replies[p]` is
      the server's answer to row `p`; the first refusal ends the batch. A row whose level was
      skipped falls back to the batch root. */
  method CreateChannelWallpaper(root: Option<Cid>, depths: seq<nat>, replies: seq<Option<Cid>>)
    returns (links: seq<Link>, created: seq<Cid>)
    requires |replies| == |depths|
    requires forall q, r :: 0 <= q < r < |replies| && replies[q].Some? ==> replies[q] != replies[r]
    requires root.Some? ==> root !in replies
    ensures |created| <= |depths|
    ensures forall q :: 0 <= q < |created| ==> replies[q] == Some(created[q])
    ensures |created| < |depths| ==> replies[|created|] == None && |links| == |created| + 1
    ensures |created| == |depths| ==> |links| == |created|
    ensures LinksOrRoot(depths, Numbered(created), root, links)
  {
    links, created := [], [];
    var parentCidByDepth: map<nat, Option<Cid>> := map[0 := root];
    var lastSiblingCidByDepth: map<nat, Cid> := map[];
    for p := 0 to |depths|
      invariant |links| == |created| == p
      invariant forall q :: 0 <= q < p ==> replies[q] == Some(created[q])
      invariant LinksOrRoot(depths, Numbered(created), root, links)
      invariant ParentsAt(depths, Numbered(created), root, p, parentCidByDepth)
      invariant LastAtDepth(depths, Numbered(created), p, lastSiblingCidByDepth)
    {
      var depth := depths[p];
      LinksOrRootStep(depths, Numbered(created), root, links, parentCidByDepth, lastSiblingCidByDepth);
      links := links + [LinkAtDepth(depth, root, parentCidByDepth, lastSiblingCidByDepth)];
      if replies[p] == None {
        return;
      }
      var cid := replies[p].value;
      LowStep(depths, created, root, links, parentCidByDepth, lastSiblingCidByDepth, cid);
      created := created + [cid];
      lastSiblingCidByDepth := Prune(lastSiblingCidByDepth[depth := cid], depth);
      parentCidByDepth := Prune(parentCidByDepth[depth + 1 := Some(cid)], depth + 1);
    }
  }

  /** Row numbers to the channels reported for them. */
  function Numbered(created: seq<Cid>): map<nat, Cid> {
    map q: nat | q < |created| :: created[q]
  }

  /** On exactly the stepwise plans both builders run to the end with the same links. */
  method SameForest(root: Option<Cid>, depths: seq<nat>, cids: map<nat, Cid>)
    returns (durable: seq<Link>, low: seq<Link>)
    requires (forall q :: q in cids <==> 0 <= q < |depths|) && Fresh(cids, root)
    ensures durable == low <==> Stepwise(depths)
  {
    durable := ResumeLinks(depths, cids, root);
    var replies := seq(|depths|, q requires 0 <= q < |depths| => Some(cids[q]));
    var created;
    low, created := CreateChannelWallpaper(root, depths, replies);
    assert (map q | 0 <= q < |created| :: created[q]) == cids;
    StepwiseIffRooted(depths);
  }
}
