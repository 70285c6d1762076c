/** What a backfill plan may be trusted with: each row is planned once, no channel ever gets two
    images, and the older matcher agrees. */
module BackfillPromises {
  import opened Wrappers
  import opened Backfill

  predicate UniqueIds(rows: seq<ImageRow>) {
    forall p, q :: 0 <= p < q < |rows| ==> rows[p].id != rows[q].id
  }

  predicate UniqueCids(channels: seq<Channel>) {
    forall p, q :: 0 <= p < q < |channels| ==> channels[p].cid != channels[q].cid
  }

  /** No channel owns two rows. */
  predicate UniqueOwners(rows: seq<ImageRow>) {
    forall p, q :: 0 <= p < q < |rows| && rows[p].channelId.Some? ==> rows[p].channelId != rows[q].channelId
  }

  function UnownedIds(rows: seq<ImageRow>): seq<Id> {
    if rows == [] then []
    else
      var last := rows[|rows| - 1];
      UnownedIds(rows[..|rows| - 1]) + (if last.channelId.None? then [last.id] else [])
  }

  function UpdateIds(s: seq<Update>): seq<Id> {
    seq(|s|, k requires 0 <= k < |s| => s[k].id)
  }

  function ConflictIds(s: seq<Conflict>): seq<Id> {
    seq(|s|, k requires 0 <= k < |s| => s[k].id)
  }

  function UnmatchedIds(s: seq<Unmatched>): seq<Id> {
    seq(|s|, k requires 0 <= k < |s| => s[k].id)
  }

  function PlannedIds(plan: Plan): multiset<Id> {
    multiset(UpdateIds(plan.updates)) + multiset(ConflictIds(plan.conflicts)) + multiset(UnmatchedIds(plan.unmatched))
  }

  /** Every unowned row is in exactly one of the three lists, once, and nothing else is. */
  lemma {:induction false} EachRowOnce(norm: Norm, rows: seq<ImageRow>, channels: seq<Channel>, n: nat)
    requires n <= |rows|
    ensures PlannedIds(PlanOf(norm, rows, channels, n)) == multiset(UnownedIds(rows[..n]))
  {
    if n > 0 {
      EachRowOnce(norm, rows, channels, n - 1);
      assert rows[..n][..n - 1] == rows[..n - 1];
      if rows[n - 1].channelId.None? {
        OneMore(norm, rows, channels, n);
      }
    }
  }

  lemma OneMore(norm: Norm, rows: seq<ImageRow>, channels: seq<Channel>, n: nat)
    requires 0 < n <= |rows| && rows[n - 1].channelId.None?
    ensures PlannedIds(PlanOf(norm, rows, channels, n))
         == PlannedIds(PlanOf(norm, rows, channels, n - 1)) + multiset{rows[n - 1].id}
  {
    var before, plan, row := PlanOf(norm, rows, channels, n - 1), PlanOf(norm, rows, channels, n), rows[n - 1];
    match Judge(norm, rows, channels, row) {
      case Unknown => OneUnmatched(before, Unmatched(row.id, row.channelName));
      case Dispute(_) => OneConflict(before, plan.conflicts[|before.conflicts|]);
      case Assign(cid) => OneUpdate(before, Update(row.id, row.channelName, cid));
    }
  }

  lemma OneUpdate(plan: Plan, u: Update)
    ensures PlannedIds(plan.(updates := plan.updates + [u])) == PlannedIds(plan) + multiset{u.id}
  {
    assert UpdateIds(plan.updates + [u]) == UpdateIds(plan.updates) + [u.id];
  }

  lemma OneConflict(plan: Plan, c: Conflict)
    ensures PlannedIds(plan.(conflicts := plan.conflicts + [c])) == PlannedIds(plan) + multiset{c.id}
  {
    assert ConflictIds(plan.conflicts + [c]) == ConflictIds(plan.conflicts) + [c.id];
  }

  lemma OneUnmatched(plan: Plan, u: Unmatched)
    ensures PlannedIds(plan.(unmatched := plan.unmatched + [u])) == PlannedIds(plan) + multiset{u.id}
  {
    assert UnmatchedIds(plan.unmatched + [u]) == UnmatchedIds(plan.unmatched) + [u.id];
  }

  /** Two rows never get the same channel, and none gets a channel that owns an image. */
  lemma TwoRows(norm: Norm, rows: seq<ImageRow>, channels: seq<Channel>, p: nat, u: Update, q: nat, v: Update)
    requires UniqueIds(rows) && UniqueCids(channels) && p != q
    requires UpdateOf(norm, rows, channels, p, u) && UpdateOf(norm, rows, channels, q, v)
    ensures u.channelId != v.channelId && !Taken(rows, u.channelId)
  {
    if u.channelId == v.channelId {
      var k :| 0 <= k < |channels| && channels[k].cid == u.channelId
        && SoleChannel(norm, channels, rows[p].channelName, k);
      var m :| 0 <= m < |channels| && channels[m].cid == v.channelId
        && SoleChannel(norm, channels, rows[q].channelName, m);
      assert k == m;
      assert Rival(norm, rows, p, q);
      assert false;
    }
  }

  predicate DistinctChannels(updates: seq<Update>) {
    forall a, b :: 0 <= a < b < |updates| ==> updates[a].channelId != updates[b].channelId
  }

  lemma UpdatesAreDistinct(norm: Norm, rows: seq<ImageRow>, channels: seq<Channel>)
    requires UniqueIds(rows) && UniqueCids(channels)
    ensures DistinctChannels(PlanOf(norm, rows, channels, |rows|).updates)
    ensures forall u :: u in PlanOf(norm, rows, channels, |rows|).updates ==> !Taken(rows, u.channelId)
  {
    var updates := PlanOf(norm, rows, channels, |rows|).updates;
    var us, cs, ns := PlanIs(norm, rows, channels, |rows|);
    forall a, b | 0 <= a < b < |updates| ensures updates[a].channelId != updates[b].channelId {
      TwoRows(norm, rows, channels, us[a], updates[a], us[b], updates[b]);
    }
  }

  lemma UpdatedRow(norm: Norm, rows: seq<ImageRow>, channels: seq<Channel>, u: Update) returns (p: nat)
    requires u in PlanOf(norm, rows, channels, |rows|).updates
    ensures p < |rows| && UpdateOf(norm, rows, channels, p, u)
  {
    PlanIff(norm, rows, channels);
    p :| 0 <= p < |rows| && UpdateOf(norm, rows, channels, p, u);
  }

  // ------------------------------------------------------------ applying a plan

  function Apply(rows: seq<ImageRow>, u: Update): seq<ImageRow> {
    seq(|rows|, p requires 0 <= p < |rows| =>
      if rows[p].id == u.id then rows[p].(channelId := Some(u.channelId)) else rows[p])
  }

  function ApplyAll(rows: seq<ImageRow>, us: seq<Update>): seq<ImageRow> {
    if us == [] then rows else Apply(ApplyAll(rows, us[..|us| - 1]), us[|us| - 1])
  }

  /** A row's owner is its old one or the planned one. */
  predicate OldOrPlanned(norm: Norm, rows: seq<ImageRow>, channels: seq<Channel>, p: int, row: ImageRow) {
    && 0 <= p < |rows| && row.id == rows[p].id
    && (row.channelId == rows[p].channelId
        || (row.channelId.Some?
            && UpdateOf(norm, rows, channels, p, Update(row.id, rows[p].channelName, row.channelId.value))))
  }

  lemma {:induction false} AppliedRows(norm: Norm, rows: seq<ImageRow>, channels: seq<Channel>, us: seq<Update>)
    requires UniqueIds(rows) && forall u :: u in us ==> u in PlanOf(norm, rows, channels, |rows|).updates
    ensures |ApplyAll(rows, us)| == |rows|
    ensures forall p :: 0 <= p < |rows| ==> OldOrPlanned(norm, rows, channels, p, ApplyAll(rows, us)[p])
  {
    if us != [] {
      var before, u := us[..|us| - 1], us[|us| - 1];
      AppliedRows(norm, rows, channels, before);
      assert u in us;
      var q := UpdatedRow(norm, rows, channels, u);
      forall p | 0 <= p < |rows| ensures OldOrPlanned(norm, rows, channels, p, ApplyAll(rows, us)[p]) {
        assert OldOrPlanned(norm, rows, channels, p, ApplyAll(rows, before)[p]);
      }
    }
  }

  /** Applying any of the planned updates, in any order, never gives a channel two images. */
  lemma ApplyKeepsOwnersUnique(norm: Norm, rows: seq<ImageRow>, channels: seq<Channel>, us: seq<Update>)
    requires UniqueIds(rows) && UniqueCids(channels) && UniqueOwners(rows)
    requires forall u :: u in us ==> u in PlanOf(norm, rows, channels, |rows|).updates
    ensures UniqueOwners(ApplyAll(rows, us))
  {
    AppliedRows(norm, rows, channels, us);
    var after := ApplyAll(rows, us);
    forall p, q | 0 <= p < q < |after| && after[p].channelId.Some? ensures after[p].channelId != after[q].channelId {
      assert OldOrPlanned(norm, rows, channels, p, after[p]) && OldOrPlanned(norm, rows, channels, q, after[q]);
      DistinctAfter(norm, rows, channels, p, after[p], q, after[q]);
    }
  }

  lemma DistinctAfter(norm: Norm, rows: seq<ImageRow>, channels: seq<Channel>, p: nat, a: ImageRow, q: nat, b: ImageRow)
    requires UniqueIds(rows) && UniqueCids(channels) && UniqueOwners(rows) && p < q
    requires OldOrPlanned(norm, rows, channels, p, a) && OldOrPlanned(norm, rows, channels, q, b) && a.channelId.Some?
    ensures a.channelId != b.channelId
  {
    if b.channelId.Some? {
      var u := Update(a.id, rows[p].channelName, a.channelId.value);
      var v := Update(b.id, rows[q].channelName, b.channelId.value);
      if a.channelId != rows[p].channelId && b.channelId != rows[q].channelId {
        TwoRows(norm, rows, channels, p, u, q, v);
      } else if a.channelId != rows[p].channelId {
        assert !Taken(rows, u.channelId);
      } else if b.channelId != rows[q].channelId {
        assert !Taken(rows, v.channelId);
      }
    }
  }

  // ------------------------------------------------------------ agreement with the matcher

  /** Every planned update is a pair the matcher finds too, given the same normaliser. */
  lemma {:induction false} UpdatesAreMatches(norm: Norm, rows: seq<ImageRow>, channels: seq<Channel>,
                                             names: seq<Name>, u: Update)
    requires forall p :: 0 <= p < |rows| ==> rows[p].channelName in names
    requires u in PlanOf(norm, rows, channels, |rows|).updates
    ensures Match(u.channelName, u.channelId) in MatchingOf(norm, names, channels).matched
  {
    var p := UpdatedRow(norm, rows, channels, u);
    assert rows[p].channelName in names;
    CandidateCount(norm, channels, u.channelName);
    MatchedIff(norm, names, channels, Match(u.channelName, u.channelId));
  }
}
