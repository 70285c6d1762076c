/** The forest a list of row depths denotes, read as a preorder listing.

    Independent of both algorithms that build it: a row's parent is found by looking
    back for the nearest earlier row above it, and the row to sort after is the latest
    earlier row with the same parent. */
module ForestPlan {
  import opened Wrappers

  /** Where a row hangs. `Missing`: the plan skips the level the row needs. */
  datatype Parent = Root | Under(row: nat) | Missing

  /** The nearest row before `p` whose depth is less than `d`. */
  function Above(depths: seq<nat>, p: nat, d: nat): (r: Option<nat>)
    requires p <= |depths|
    ensures r.Some? ==> r.value < p && depths[r.value] < d
                        && forall k :: r.value < k < p ==> d <= depths[k]
    ensures r.None? ==> forall k :: 0 <= k < p ==> d <= depths[k]
  {
    if p == 0 then None
    else if depths[p - 1] < d then Some(p - 1)
    else Above(depths, p - 1, d)
  }

  /** The parent of a row of depth `d` put at position `p`. */
  function ParentAt(depths: seq<nat>, p: nat, d: nat): Parent
    requires p <= |depths|
  {
    if d == 0 then Root
    else match Above(depths, p, d)
      case None => Missing
      case Some(q) => if depths[q] + 1 == d then Under(q) else Missing
  }

  function ParentOf(depths: seq<nat>, p: nat): Parent
    requires p < |depths|
  {
    ParentAt(depths, p, depths[p])
  }

  /** The latest row before `p` that hangs under `parent`. */
  function LastUnder(depths: seq<nat>, p: nat, parent: Parent): (r: Option<nat>)
    requires p <= |depths|
    ensures r.Some? ==> r.value < p && ParentOf(depths, r.value) == parent
                        && forall k :: r.value < k < p ==> ParentOf(depths, k) != parent
    ensures r.None? ==> forall k :: 0 <= k < p ==> ParentOf(depths, k) != parent
  {
    if p == 0 then None
    else if ParentOf(depths, p - 1) == parent then Some(p - 1)
    else LastUnder(depths, p - 1, parent)
  }

  /** The row that row `p` is sorted directly after. */
  function SiblingBefore(depths: seq<nat>, p: nat): Option<nat>
    requires p < |depths|
  {
    LastUnder(depths, p, ParentOf(depths, p))
  }

  /** A plan starts at depth 0 and never steps down into the tree by more than one level. */
  predicate Stepwise(depths: seq<nat>) {
    && (|depths| > 0 ==> depths[0] == 0)
    && forall p :: 0 < p < |depths| ==> depths[p] <= depths[p - 1] + 1
  }

  /** A plan denotes a forest exactly when it is stepwise. */
  lemma StepwiseIffRooted(depths: seq<nat>)
    ensures Stepwise(depths) <==> forall p :: 0 <= p < |depths| ==> ParentOf(depths, p) != Missing
  {
    if Stepwise(depths) {
      forall p | 0 <= p < |depths| ensures ParentOf(depths, p) != Missing {
        StepwiseRow(depths, p);
      }
    } else if |depths| > 0 && depths[0] != 0 {
      assert ParentOf(depths, 0) == Missing;
    } else {
      var p :| 0 < p < |depths| && depths[p] > depths[p - 1] + 1;
      assert Above(depths, p, depths[p]) == Some(p - 1);
      assert ParentOf(depths, p) == Missing;
    }
  }

  lemma StepwiseRow(depths: seq<nat>, p: nat)
    requires Stepwise(depths) && p < |depths|
    ensures ParentOf(depths, p) != Missing
  {
    var d := depths[p];
    match Above(depths, p, d) {
      case None => assert 0 <= 0 <= p;
      case Some(q) => assert depths[q + 1] <= depths[q] + 1;
    }
  }

  /** Looking up by depth finds the same sibling as looking up by parent: the nearest row at
      depth `d` or above is the latest one under the parent, or is not at depth `d` at all. */
  lemma SiblingByDepth(depths: seq<nat>, p: nat, d: nat)
    requires p <= |depths| && ParentAt(depths, p, d) != Missing
    ensures match Above(depths, p, d + 1)
            case Some(q) => LastUnder(depths, p, ParentAt(depths, p, d)) == if depths[q] == d then Some(q) else None
            case None => LastUnder(depths, p, ParentAt(depths, p, d)) == None
  {
    var parent := ParentAt(depths, p, d);
    match Above(depths, p, d + 1) {
      case None =>
        NoneUnder(depths, 0, p, d);
        LastUnderStable(depths, 0, p, parent);
      case Some(q) =>
        NoneUnder(depths, q + 1, p, d);
        LastUnderStable(depths, q + 1, p, parent);
        AboveStable(depths, q + 1, p, d);
        if depths[q] < d {
          NoneUnderSelf(depths, q);
        }
    }
  }

  /** Rows deeper than `d` do not hang under the parent of depth `d`. */
  lemma NoneUnder(depths: seq<nat>, q: nat, p: nat, d: nat)
    requires q <= p <= |depths| && ParentAt(depths, p, d) != Missing
    requires forall k :: q <= k < p ==> d < depths[k]
    ensures forall k :: q <= k < p ==> ParentOf(depths, k) != ParentAt(depths, p, d)
  {
    match ParentAt(depths, p, d) {
      case Root =>
      case Under(r) => assert depths[r] + 1 == d;
    }
  }

  /** No row up to `q` hangs under `q`. */
  lemma NoneUnderSelf(depths: seq<nat>, q: nat)
    requires q < |depths|
    ensures LastUnder(depths, q + 1, Under(q)) == None
  {
    LastUnderStable(depths, 0, q + 1, Under(q));
  }

  lemma {:induction false} LastUnderStable(depths: seq<nat>, q: nat, p: nat, parent: Parent)
    requires q <= p <= |depths|
    requires forall k :: q <= k < p ==> ParentOf(depths, k) != parent
    ensures LastUnder(depths, p, parent) == LastUnder(depths, q, parent)
    decreases p
  {
    if q < p {
      LastUnderStable(depths, q, p - 1, parent);
    }
  }

  /** Rows at depth `d` or deeper do not change what lies above depth `d`. */
  lemma {:induction false} AboveStable(depths: seq<nat>, q: nat, p: nat, d: nat)
    requires q <= p <= |depths|
    requires forall k :: q <= k < p ==> d <= depths[k]
    ensures Above(depths, p, d) == Above(depths, q, d)
    decreases p
  {
    if q < p {
      AboveStable(depths, q, p - 1, d);
    }
  }

  // ------------------------------------------------------------ by depths alone

  /** Row `q` is the nearest row before `p` that is not as deep, and is one level up. */
  predicate HangsUnder(depths: seq<nat>, p: nat, q: nat)
    requires p < |depths|
  {
    q < p && depths[q] + 1 == depths[p] && forall k :: q < k < p ==> depths[p] <= depths[k]
  }

  /** Row `q` is the nearest row before `p` that is no deeper, and is as deep. */
  predicate ComesAfter(depths: seq<nat>, p: nat, q: nat)
    requires p < |depths|
  {
    q < p && depths[q] == depths[p] && forall k :: q < k < p ==> depths[p] < depths[k]
  }

  /** Which row is the parent, and which the one before, can be read off the depths. */
  lemma PlaceIff(depths: seq<nat>, p: nat, q: nat)
    requires p < |depths| && q < |depths|
    ensures ParentOf(depths, p) == Under(q) <==> HangsUnder(depths, p, q)
    ensures ParentOf(depths, p) == Root <==> depths[p] == 0
    ensures ParentOf(depths, p) != Missing ==> (SiblingBefore(depths, p) == Some(q) <==> ComesAfter(depths, p, q))
    ensures ParentOf(depths, p) != Missing ==>
              (SiblingBefore(depths, p) == None <==> forall k: nat :: k < p ==> !ComesAfter(depths, p, k))
  {
    if ParentOf(depths, p) != Missing {
      SiblingByDepth(depths, p, depths[p]);
      match Above(depths, p, depths[p] + 1) {
        case None =>
        case Some(r) =>
          assert depths[r] == depths[p] ==> ComesAfter(depths, p, r);
      }
    }
  }
}
