/** Giving legacy image rows their channel ids: the planner of the maintenance script and the
    older matcher it must agree with. `norm` is the name normaliser, whatever it is. */
module Backfill {
  import opened Wrappers

  type Id = string
  type Cid = string
  type Name = string
  type Norm = string -> string

  datatype ImageRow = ImageRow(id: Id, channelName: Name, channelId: Option<Cid>, aliases: seq<Name>)
  datatype Channel = Channel(cid: Cid, name: Name)

  datatype Update = Update(id: Id, channelName: Name, channelId: Cid)
  datatype Reason = SeveralChannels | SeveralImages | ChannelTaken
  datatype Conflict = Conflict(id: Id, channelName: Name, reason: Reason, candidates: seq<Cid>)
  datatype Unmatched = Unmatched(id: Id, channelName: Name)
  datatype Plan = Plan(updates: seq<Update>, conflicts: seq<Conflict>, unmatched: seq<Unmatched>)

  // ------------------------------------------------------------ the simple form

  /** The channels whose name normalises to `key`, in listing order. */
  function Candidates(norm: Norm, channels: seq<Channel>, key: Name): (r: seq<Channel>)
    ensures forall c :: c in r <==> c in channels && norm(c.name) == key
  {
    if channels == [] then []
    else
      var rest := Candidates(norm, channels[..|channels| - 1], key);
      var last := channels[|channels| - 1];
      if norm(last.name) == key then rest + [last] else rest
  }

  predicate Answers(norm: Norm, row: ImageRow, key: Name) {
    norm(row.channelName) == key || exists k :: 0 <= k < |row.aliases| && norm(row.aliases[k]) == key
  }

  /** The images that answer to `key` by name or alias. */
  function Owners(norm: Norm, rows: seq<ImageRow>, key: Name): set<Id> {
    set r | r in rows && Answers(norm, r, key) :: r.id
  }

  predicate Taken(rows: seq<ImageRow>, cid: Cid) {
    exists p :: 0 <= p < |rows| && rows[p].channelId == Some(cid)
  }

  function Cids(channels: seq<Channel>): seq<Cid> {
    seq(|channels|, k requires 0 <= k < |channels| => channels[k].cid)
  }

  datatype Verdict = Assign(cid: Cid) | Dispute(reason: Reason) | Unknown

  /** What is to be done with an unowned row. */
  function Judge(norm: Norm, rows: seq<ImageRow>, channels: seq<Channel>, row: ImageRow): Verdict {
    var key := norm(row.channelName);
    var candidates := Candidates(norm, channels, key);
    if |candidates| == 0 then Unknown
    else if |candidates| > 1 then Dispute(SeveralChannels)
    else if |Owners(norm, rows, key)| > 1 then Dispute(SeveralImages)
    else if Taken(rows, candidates[0].cid) then Dispute(ChannelTaken)
    else Assign(candidates[0].cid)
  }

  /** The plan for the first `n` rows. */
  function PlanOf(norm: Norm, rows: seq<ImageRow>, channels: seq<Channel>, n: nat): Plan
    requires n <= |rows|
  {
    if n == 0 then Plan([], [], [])
    else
      var plan := PlanOf(norm, rows, channels, n - 1);
      var row := rows[n - 1];
      if row.channelId.Some? then plan
      else match Judge(norm, rows, channels, row)
        case Unknown => plan.(unmatched := plan.unmatched + [Unmatched(row.id, row.channelName)])
        case Dispute(reason) =>
          plan.(conflicts := plan.conflicts + [Conflict(row.id, row.channelName, reason,
                                                        Cids(Candidates(norm, channels, norm(row.channelName))))])
        case Assign(cid) => plan.(updates := plan.updates + [Update(row.id, row.channelName, cid)])
  }

  // ------------------------------------------------------------ in terms of names alone

  /** The channels called like `name`, by their places in the listing. */
  predicate Places(norm: Norm, channels: seq<Channel>, name: Name, ks: seq<nat>) {
    && Rising(ks, |channels|)
    && forall m :: 0 <= m < |channels| ==> (m in ks <==> norm(channels[m].name) == norm(name))
  }

  predicate Rising(ks: seq<nat>, n: nat) {
    (forall j :: 0 <= j < |ks| ==> ks[j] < n) && forall i, j :: 0 <= i < j < |ks| ==> ks[i] < ks[j]
  }

  /** These are the ids of all channels called like `name`, in listing order. */
  ghost predicate AllLike(norm: Norm, channels: seq<Channel>, name: Name, cids: seq<Cid>) {
    exists ks :: Places(norm, channels, name, ks) && IdsAt(channels, ks, cids)
  }

  predicate IdsAt(channels: seq<Channel>, ks: seq<nat>, cids: seq<Cid>) {
    |ks| == |cids| && forall j :: 0 <= j < |ks| ==> ks[j] < |channels| && channels[ks[j]].cid == cids[j]
  }

  /** Entry `k` of the listing alone is called like `name`. */
  predicate SoleChannel(norm: Norm, channels: seq<Channel>, name: Name, k: int) {
    && 0 <= k < |channels| && norm(channels[k].name) == norm(name)
    && forall m :: 0 <= m < |channels| && norm(channels[m].name) == norm(name) ==> m == k
  }

  /** Row `q` belongs to an image other than row `p`'s and is or was called like it. */
  predicate Rival(norm: Norm, rows: seq<ImageRow>, p: int, q: int) {
    && 0 <= p < |rows| && 0 <= q < |rows| && rows[q].id != rows[p].id
    && (|| norm(rows[q].channelName) == norm(rows[p].channelName)
        || exists k :: 0 <= k < |rows[q].aliases| && norm(rows[q].aliases[k]) == norm(rows[p].channelName))
  }

  predicate HasRival(norm: Norm, rows: seq<ImageRow>, p: int) {
    exists q :: 0 <= q < |rows| && Rival(norm, rows, p, q)
  }

  /** Row `p` is to get channel `cid`: it has none, the channel alone is called like it, no other
      image is or was called so, and the channel has no image. */
  predicate Assigned(norm: Norm, rows: seq<ImageRow>, channels: seq<Channel>, p: int, cid: Cid) {
    && 0 <= p < |rows| && rows[p].channelId.None?
    && (exists k :: 0 <= k < |channels| && channels[k].cid == cid
                    && SoleChannel(norm, channels, rows[p].channelName, k))
    && !HasRival(norm, rows, p)
    && (forall q :: 0 <= q < |rows| ==> rows[q].channelId != Some(cid))
  }

  /** Row `p` is undecided for the first of the three reasons that applies. */
  predicate Disputed(norm: Norm, rows: seq<ImageRow>, channels: seq<Channel>, p: int, reason: Reason) {
    && 0 <= p < |rows| && rows[p].channelId.None?
    && match reason
       case SeveralChannels =>
         exists k, m :: 0 <= k < m < |channels|
                        && norm(channels[k].name) == norm(channels[m].name) == norm(rows[p].channelName)
       case SeveralImages =>
         && (exists k :: 0 <= k < |channels| && SoleChannel(norm, channels, rows[p].channelName, k))
         && HasRival(norm, rows, p)
       case ChannelTaken =>
         exists k, q :: 0 <= k < |channels| && 0 <= q < |rows| && SoleChannel(norm, channels, rows[p].channelName, k)
                        && !HasRival(norm, rows, p) && rows[q].channelId == Some(channels[k].cid)
  }

  /** No channel is called like row `p`, which has none. */
  predicate Nameless(norm: Norm, rows: seq<ImageRow>, channels: seq<Channel>, p: int) {
    && 0 <= p < |rows| && rows[p].channelId.None?
    && forall m :: 0 <= m < |channels| ==> norm(channels[m].name) != norm(rows[p].channelName)
  }

  lemma {:induction false} CandidatesAre(norm: Norm, channels: seq<Channel>, name: Name) returns (ks: seq<nat>)
    ensures Places(norm, channels, name, ks)
    ensures var r := Candidates(norm, channels, norm(name));
      |r| == |ks| && forall j :: 0 <= j < |ks| ==> r[j] == channels[ks[j]]
  {
    if channels == [] {
      ks := [];
    } else {
      var n := |channels| - 1;
      var before := CandidatesAre(norm, channels[..n], name);
      ks := PlacesNext(norm, channels, name, before, n);
    }
  }

  lemma PlacesNext(norm: Norm, channels: seq<Channel>, name: Name, before: seq<nat>, n: nat) returns (ks: seq<nat>)
    requires |channels| == n + 1 && Places(norm, channels[..n], name, before)
    ensures ks == (if norm(channels[n].name) == norm(name) then before + [n] else before)
    ensures Places(norm, channels, name, ks)
  {
    ks := if norm(channels[n].name) == norm(name) then before + [n] else before;
    forall m | 0 <= m < |channels| ensures m in ks <==> norm(channels[m].name) == norm(name) {
      if m < n {
        assert channels[..n][m] == channels[m];
        assert m in ks <==> m in before;
      } else {
        assert n !in before;
      }
    }
  }

  lemma CidsAre(norm: Norm, channels: seq<Channel>, name: Name)
    ensures AllLike(norm, channels, name, Cids(Candidates(norm, channels, norm(name))))
  {
    var ks := CandidatesAre(norm, channels, name);
    assert Places(norm, channels, name, ks) && IdsAt(channels, ks, Cids(Candidates(norm, channels, norm(name))));
  }

  /** How many candidates there are. */
  lemma CandidateCount(norm: Norm, channels: seq<Channel>, name: Name)
    ensures var r := Candidates(norm, channels, norm(name));
      && (|r| == 0 <==> forall m :: 0 <= m < |channels| ==> norm(channels[m].name) != norm(name))
      && (|r| > 1 <==> exists k, m :: 0 <= k < m < |channels|
                                      && norm(channels[k].name) == norm(channels[m].name) == norm(name))
      && (forall k :: SoleChannel(norm, channels, name, k) ==> |r| == 1 && r[0] == channels[k])
      && (|r| == 1 ==> exists k :: 0 <= k < |channels| && channels[k] == r[0] && SoleChannel(norm, channels, name, k))
  {
    var r := Candidates(norm, channels, norm(name));
    var ks := CandidatesAre(norm, channels, name);
    assert forall j :: 0 <= j < |ks| ==> ks[j] in ks;
    if |ks| > 1 {
      assert ks[0] < ks[1];
    } else if |ks| == 1 {
      assert SoleChannel(norm, channels, name, ks[0]);
    }
    forall k | SoleChannel(norm, channels, name, k) ensures |ks| == 1 && ks[0] == k {
      assert k in ks;
      assert forall j :: 0 <= j < |ks| ==> ks[j] == k;
    }
    if k, m :| 0 <= k < m < |channels| && norm(channels[k].name) == norm(channels[m].name) == norm(name) {
      assert k in ks && m in ks;
    }
  }

  lemma TwoElements(s: set<Id>, a: Id, b: Id)
    requires a in s && b in s && a != b
    ensures |s| > 1
  {
    assert |s - {a}| == |s| - 1 && b in s - {a};
  }

  lemma RivalIff(norm: Norm, rows: seq<ImageRow>, p: nat)
    requires p < |rows|
    ensures |Owners(norm, rows, norm(rows[p].channelName))| > 1 <==> HasRival(norm, rows, p)
  {
    var key := norm(rows[p].channelName);
    var owners := Owners(norm, rows, key);
    assert Answers(norm, rows[p], key) && rows[p] in rows && rows[p].id in owners;
    if |owners| > 1 {
      assert |owners - {rows[p].id}| > 0;
      var id :| id in owners - {rows[p].id};
      var r :| r in rows && Answers(norm, r, key) && r.id == id;
      var q :| 0 <= q < |rows| && rows[q] == r;
      assert Rival(norm, rows, p, q);
    }
    if q :| 0 <= q < |rows| && Rival(norm, rows, p, q) {
      assert rows[q] in rows && Answers(norm, rows[q], key) && rows[q].id in owners;
      TwoElements(owners, rows[p].id, rows[q].id);
    }
  }

  lemma JudgeIs(norm: Norm, rows: seq<ImageRow>, channels: seq<Channel>, p: nat)
    requires p < |rows| && rows[p].channelId.None?
    ensures forall c :: Judge(norm, rows, channels, rows[p]) == Assign(c) <==> Assigned(norm, rows, channels, p, c)
    ensures forall r :: Judge(norm, rows, channels, rows[p]) == Dispute(r) <==> Disputed(norm, rows, channels, p, r)
    ensures Judge(norm, rows, channels, rows[p]).Unknown? <==> Nameless(norm, rows, channels, p)
  {
    CandidateCount(norm, channels, rows[p].channelName);
    RivalIff(norm, rows, p);
    forall c ensures Judge(norm, rows, channels, rows[p]) == Assign(c) <==> Assigned(norm, rows, channels, p, c) {
      AssignIff(norm, rows, channels, p, c);
    }
    forall r ensures Judge(norm, rows, channels, rows[p]) == Dispute(r) <==> Disputed(norm, rows, channels, p, r) {
      DisputeIff(norm, rows, channels, p, r);
    }
  }

  lemma AssignIff(norm: Norm, rows: seq<ImageRow>, channels: seq<Channel>, p: nat, c: Cid)
    requires p < |rows| && rows[p].channelId.None?
    ensures Judge(norm, rows, channels, rows[p]) == Assign(c) <==> Assigned(norm, rows, channels, p, c)
  {
    CandidateCount(norm, channels, rows[p].channelName);
    RivalIff(norm, rows, p);
  }

  lemma DisputeIff(norm: Norm, rows: seq<ImageRow>, channels: seq<Channel>, p: nat, r: Reason)
    requires p < |rows| && rows[p].channelId.None?
    ensures Judge(norm, rows, channels, rows[p]) == Dispute(r) <==> Disputed(norm, rows, channels, p, r)
  {
    CandidateCount(norm, channels, rows[p].channelName);
    RivalIff(norm, rows, p);
  }

  /** Which rows are planned for what, by their places in the table. */
  ghost predicate PlannedFrom(norm: Norm, rows: seq<ImageRow>, channels: seq<Channel>, n: nat, plan: Plan,
                              us: seq<nat>, cs: seq<nat>, ns: seq<nat>)
    requires n <= |rows|
  {
    && Rising(us, n) && Rising(cs, n) && Rising(ns, n)
    && |us| == |plan.updates| && |cs| == |plan.conflicts| && |ns| == |plan.unmatched|
    && (forall j :: 0 <= j < |us| ==> UpdateOf(norm, rows, channels, us[j], plan.updates[j]))
    && (forall j :: 0 <= j < |cs| ==> ConflictOf(norm, rows, channels, cs[j], plan.conflicts[j]))
    && (forall j :: 0 <= j < |ns| ==> UnmatchedOf(norm, rows, channels, ns[j], plan.unmatched[j]))
    && (forall p: nat :: p < n && rows[p].channelId.None? ==> OnList(p, us, cs, ns))
  }

  predicate OnList(p: nat, us: seq<nat>, cs: seq<nat>, ns: seq<nat>) {
    p in us || p in cs || p in ns
  }

  predicate UpdateOf(norm: Norm, rows: seq<ImageRow>, channels: seq<Channel>, p: int, u: Update) {
    && 0 <= p < |rows| && u.id == rows[p].id && u.channelName == rows[p].channelName
    && Assigned(norm, rows, channels, p, u.channelId)
  }

  predicate ConflictOf(norm: Norm, rows: seq<ImageRow>, channels: seq<Channel>, p: int, c: Conflict) {
    && 0 <= p < |rows| && c.id == rows[p].id && c.channelName == rows[p].channelName
    && Disputed(norm, rows, channels, p, c.reason)
  }

  predicate UnmatchedOf(norm: Norm, rows: seq<ImageRow>, channels: seq<Channel>, p: int, u: Unmatched) {
    && 0 <= p < |rows| && u.id == rows[p].id && u.channelName == rows[p].channelName
    && Nameless(norm, rows, channels, p)
  }

  /** The plan, entry by entry and in table order: each row without a channel is in the one list
      its name calls for. */
  lemma {:induction false} PlanIs(norm: Norm, rows: seq<ImageRow>, channels: seq<Channel>, n: nat)
    returns (us: seq<nat>, cs: seq<nat>, ns: seq<nat>)
    requires n <= |rows|
    ensures PlannedFrom(norm, rows, channels, n, PlanOf(norm, rows, channels, n), us, cs, ns)
  {
    if n == 0 {
      us, cs, ns := [], [], [];
    } else {
      us, cs, ns := PlanIs(norm, rows, channels, n - 1);
      if rows[n - 1].channelId.None? {
        us, cs, ns := OneMoreRow(norm, rows, channels, n, us, cs, ns);
      }
    }
  }

  lemma OneMoreRow(norm: Norm, rows: seq<ImageRow>, channels: seq<Channel>, n: nat,
                   us: seq<nat>, cs: seq<nat>, ns: seq<nat>)
    returns (us': seq<nat>, cs': seq<nat>, ns': seq<nat>)
    requires 0 < n <= |rows| && rows[n - 1].channelId.None?
    requires PlannedFrom(norm, rows, channels, n - 1, PlanOf(norm, rows, channels, n - 1), us, cs, ns)
    ensures PlannedFrom(norm, rows, channels, n, PlanOf(norm, rows, channels, n), us', cs', ns')
  {
    us', cs', ns' := us, cs, ns;
    var plan, row := PlanOf(norm, rows, channels, n - 1), rows[n - 1];
    match Judge(norm, rows, channels, row) {
      case Unknown =>
        ns' := ns + [n - 1];
        EntryOf(norm, rows, channels, n - 1);
        MoreUnmatched(norm, rows, channels, n, plan, us, cs, ns, Unmatched(row.id, row.channelName));
      case Dispute(reason) =>
        cs' := cs + [n - 1];
        var c := ConflictEntry(norm, rows, channels, n - 1, reason);
        MoreConflicts(norm, rows, channels, n, plan, us, cs, ns, c);
      case Assign(cid) =>
        us' := us + [n - 1];
        EntryOf(norm, rows, channels, n - 1);
        MoreUpdates(norm, rows, channels, n, plan, us, cs, ns, Update(row.id, row.channelName, cid));
    }
  }

  lemma EntryOf(norm: Norm, rows: seq<ImageRow>, channels: seq<Channel>, p: nat)
    requires p < |rows| && rows[p].channelId.None?
    ensures var row, verdict := rows[p], Judge(norm, rows, channels, rows[p]);
      && (verdict.Assign? ==> UpdateOf(norm, rows, channels, p, Update(row.id, row.channelName, verdict.cid)))
      && (verdict.Unknown? ==> UnmatchedOf(norm, rows, channels, p, Unmatched(row.id, row.channelName)))
  {
    JudgeIs(norm, rows, channels, p);
  }

  lemma ConflictEntry(norm: Norm, rows: seq<ImageRow>, channels: seq<Channel>, p: nat, reason: Reason)
    returns (c: Conflict)
    requires p < |rows| && rows[p].channelId.None? && Judge(norm, rows, channels, rows[p]) == Dispute(reason)
    ensures c == Conflict(rows[p].id, rows[p].channelName, reason,
                          Cids(Candidates(norm, channels, norm(rows[p].channelName))))
    ensures ConflictOf(norm, rows, channels, p, c)
  {
    DisputeIff(norm, rows, channels, p, reason);
    c := Conflict(rows[p].id, rows[p].channelName, reason, Cids(Candidates(norm, channels, norm(rows[p].channelName))));
  }

  lemma MoreUpdates(norm: Norm, rows: seq<ImageRow>, channels: seq<Channel>, n: nat, plan: Plan,
                    us: seq<nat>, cs: seq<nat>, ns: seq<nat>, u: Update)
    requires 0 < n <= |rows| && PlannedFrom(norm, rows, channels, n - 1, plan, us, cs, ns)
    requires UpdateOf(norm, rows, channels, n - 1, u)
    ensures PlannedFrom(norm, rows, channels, n, plan.(updates := plan.updates + [u]), us + [n - 1], cs, ns)
  {
    forall p: nat | p < n && rows[p].channelId.None? ensures OnList(p, us + [n - 1], cs, ns) {
      assert p < n - 1 ==> OnList(p, us, cs, ns);
    }
  }

  lemma MoreConflicts(norm: Norm, rows: seq<ImageRow>, channels: seq<Channel>, n: nat, plan: Plan,
                      us: seq<nat>, cs: seq<nat>, ns: seq<nat>, c: Conflict)
    requires 0 < n <= |rows| && PlannedFrom(norm, rows, channels, n - 1, plan, us, cs, ns)
    requires ConflictOf(norm, rows, channels, n - 1, c)
    ensures PlannedFrom(norm, rows, channels, n, plan.(conflicts := plan.conflicts + [c]), us, cs + [n - 1], ns)
  {
    forall p: nat | p < n && rows[p].channelId.None? ensures OnList(p, us, cs + [n - 1], ns) {
      assert p < n - 1 ==> OnList(p, us, cs, ns);
    }
  }

  lemma MoreUnmatched(norm: Norm, rows: seq<ImageRow>, channels: seq<Channel>, n: nat, plan: Plan,
                      us: seq<nat>, cs: seq<nat>, ns: seq<nat>, u: Unmatched)
    requires 0 < n <= |rows| && PlannedFrom(norm, rows, channels, n - 1, plan, us, cs, ns)
    requires UnmatchedOf(norm, rows, channels, n - 1, u)
    ensures PlannedFrom(norm, rows, channels, n, plan.(unmatched := plan.unmatched + [u]), us, cs, ns + [n - 1])
  {
    forall p: nat | p < n && rows[p].channelId.None? ensures OnList(p, us, cs, ns + [n - 1]) {
      assert p < n - 1 ==> OnList(p, us, cs, ns);
    }
  }

  /** So an entry is planned if and only if some row calls for it. */
  ghost predicate PlannedIff(norm: Norm, rows: seq<ImageRow>, channels: seq<Channel>, plan: Plan) {
    && (forall u :: u in plan.updates <==> exists p :: 0 <= p < |rows| && UpdateOf(norm, rows, channels, p, u))
    && (forall c :: c in plan.conflicts ==> exists p :: 0 <= p < |rows| && ConflictOf(norm, rows, channels, p, c))
    && (forall p, r :: 0 <= p < |rows| && Disputed(norm, rows, channels, p, r) ==>
          exists c :: c in plan.conflicts && ConflictOf(norm, rows, channels, p, c) && c.reason == r)
    && (forall u :: u in plan.unmatched <==> exists p :: 0 <= p < |rows| && UnmatchedOf(norm, rows, channels, p, u))
  }

  lemma PlanIff(norm: Norm, rows: seq<ImageRow>, channels: seq<Channel>)
    ensures PlannedIff(norm, rows, channels, PlanOf(norm, rows, channels, |rows|))
  {
    var plan := PlanOf(norm, rows, channels, |rows|);
    var us, cs, ns := PlanIs(norm, rows, channels, |rows|);
    forall p, u | 0 <= p < |rows| && UpdateOf(norm, rows, channels, p, u) ensures u in plan.updates {
      InOneList(norm, rows, channels, plan, us, cs, ns, p);
    }
    forall p, r | 0 <= p < |rows| && Disputed(norm, rows, channels, p, r)
      ensures exists c :: c in plan.conflicts && ConflictOf(norm, rows, channels, p, c) && c.reason == r
    {
      InOneList(norm, rows, channels, plan, us, cs, ns, p);
    }
    forall p, u | 0 <= p < |rows| && UnmatchedOf(norm, rows, channels, p, u) ensures u in plan.unmatched {
      InOneList(norm, rows, channels, plan, us, cs, ns, p);
    }
  }

  /** A row's own entry is in the list for it. */
  lemma InOneList(norm: Norm, rows: seq<ImageRow>, channels: seq<Channel>, plan: Plan,
                  us: seq<nat>, cs: seq<nat>, ns: seq<nat>, p: nat)
    requires PlannedFrom(norm, rows, channels, |rows|, plan, us, cs, ns) && p < |rows| && rows[p].channelId.None?
    ensures forall u :: UpdateOf(norm, rows, channels, p, u) ==> u in plan.updates
    ensures forall r :: Disputed(norm, rows, channels, p, r) ==>
              exists c :: c in plan.conflicts && ConflictOf(norm, rows, channels, p, c) && c.reason == r
    ensures forall u :: UnmatchedOf(norm, rows, channels, p, u) ==> u in plan.unmatched
  {
    JudgeIs(norm, rows, channels, p);
    assert OnList(p, us, cs, ns);
    if p in us {
      var j :| 0 <= j < |us| && us[j] == p;
      assert plan.updates[j] in plan.updates && UpdateOf(norm, rows, channels, p, plan.updates[j]);
    } else if p in cs {
      var j :| 0 <= j < |cs| && cs[j] == p;
      assert plan.conflicts[j] in plan.conflicts && ConflictOf(norm, rows, channels, p, plan.conflicts[j]);
    } else {
      var j :| 0 <= j < |ns| && ns[j] == p;
      assert plan.unmatched[j] in plan.unmatched && UnmatchedOf(norm, rows, channels, p, plan.unmatched[j]);
    }
  }

  lemma {:induction false} ConflictLists(norm: Norm, rows: seq<ImageRow>, channels: seq<Channel>, n: nat)
    requires n <= |rows|
    ensures forall c :: c in PlanOf(norm, rows, channels, n).conflicts ==>
              c.candidates == Cids(Candidates(norm, channels, norm(c.channelName)))
  {
    if n > 0 {
      ConflictLists(norm, rows, channels, n - 1);
    }
  }

  /** Every conflict names all candidates. */
  lemma ConflictsNameAll(norm: Norm, rows: seq<ImageRow>, channels: seq<Channel>, n: nat)
    requires n <= |rows|
    ensures forall c :: c in PlanOf(norm, rows, channels, n).conflicts ==>
              AllLike(norm, channels, c.channelName, c.candidates)
  {
    ConflictLists(norm, rows, channels, n);
    forall c | c in PlanOf(norm, rows, channels, n).conflicts
      ensures AllLike(norm, channels, c.channelName, c.candidates)
    {
      CidsAre(norm, channels, c.channelName);
    }
  }

  // ------------------------------------------------------------ the code

  method PlanBackfill(norm: Norm, rows: seq<ImageRow>, channels: seq<Channel>) returns (plan: Plan)
    ensures plan == PlanOf(norm, rows, channels, |rows|)
    ensures PlannedIff(norm, rows, channels, plan)
    ensures forall c :: c in plan.conflicts ==> AllLike(norm, channels, c.channelName, c.candidates)
  {
    var aliasOwners := GroupOwners(norm, rows);
    var updates: seq<Update>, conflicts: seq<Conflict>, unmatched: seq<Unmatched> := [], [], [];
    for n := 0 to |rows|
      invariant Plan(updates, conflicts, unmatched) == PlanOf(norm, rows, channels, n)
    {
      var row := rows[n];
      if row.channelId.None? {
        var key := norm(row.channelName);
        var candidates := FilterByName(norm, channels, key);
        assert row.id in Owners(norm, rows, key) by { assert Answers(norm, row, key); }
        if |candidates| == 0 {
          unmatched := unmatched + [Unmatched(row.id, row.channelName)];
        } else {
          var candidate := candidates[0];
          var reason :=
            if |candidates| > 1 then Some(SeveralChannels)
            else if key in aliasOwners && |aliasOwners[key]| > 1 then Some(SeveralImages)
            else if exists p :: 0 <= p < |rows| && rows[p].channelId == Some(candidate.cid) then Some(ChannelTaken)
            else None;
          if reason.Some? {
            conflicts := conflicts + [Conflict(row.id, row.channelName, reason.value, Cids(candidates))];
          } else {
            updates := updates + [Update(row.id, row.channelName, candidate.cid)];
          }
        }
      }
    }
    plan := Plan(updates, conflicts, unmatched);
    PlanIff(norm, rows, channels);
    ConflictsNameAll(norm, rows, channels, |rows|);
  }

  method FilterByName(norm: Norm, channels: seq<Channel>, key: Name) returns (r: seq<Channel>)
    ensures r == Candidates(norm, channels, key)
  {
    r := [];
    for n := 0 to |channels|
      invariant r == Candidates(norm, channels[..n], key)
    {
      assert channels[..n + 1][..n] == channels[..n];
      if norm(channels[n].name) == key {
        r := r + [channels[n]];
      }
    }
    assert channels[..|channels|] == channels;
  }

  /** The map from each normalised name or alias to the images that have it. */
  method GroupOwners(norm: Norm, rows: seq<ImageRow>) returns (owners: map<Name, set<Id>>)
    ensures forall key :: OwnersAt(owners, key) == Owners(norm, rows, key)
  {
    owners := map[];
    for n := 0 to |rows|
      invariant forall key :: OwnersAt(owners, key) == Owners(norm, rows[..n], key)
    {
      var row := rows[n];
      var before := owners;
      owners := AddOwner(owners, norm(row.channelName), row.id);
      for k := 0 to |row.aliases|
        invariant forall key :: OwnersAt(owners, key) == OwnersAt(before, key)
                    + (if norm(row.channelName) == key || (exists m :: 0 <= m < k && norm(row.aliases[m]) == key)
                       then {row.id} else {})
      {
        owners := AddOwner(owners, norm(row.aliases[k]), row.id);
      }
      forall key ensures OwnersAt(owners, key) == Owners(norm, rows[..n + 1], key) {
        OwnersNext(norm, rows, n, key);
      }
    }
    assert rows[..|rows|] == rows;
  }

  function OwnersAt(owners: map<Name, set<Id>>, key: Name): set<Id> {
    if key in owners then owners[key] else {}
  }

  function AddOwner(owners: map<Name, set<Id>>, key: Name, id: Id): map<Name, set<Id>> {
    owners[key := OwnersAt(owners, key) + {id}]
  }

  lemma OwnersNext(norm: Norm, rows: seq<ImageRow>, n: nat, key: Name)
    requires n < |rows|
    ensures Owners(norm, rows[..n + 1], key)
         == Owners(norm, rows[..n], key) + (if Answers(norm, rows[n], key) then {rows[n].id} else {})
  {
    assert rows[..n + 1] == rows[..n] + [rows[n]];
  }

  // ------------------------------------------------------------ the older matcher

  datatype Match = Match(channelName: Name, channelId: Cid)
  datatype Clash = Clash(channelName: Name, channelIds: seq<Cid>)
  datatype Matching = Matching(matched: seq<Match>, unmatched: seq<Name>, conflicts: seq<Clash>)

  function MatchingOf(norm: Norm, names: seq<Name>, channels: seq<Channel>): Matching {
    if names == [] then Matching([], [], [])
    else
      var m := MatchingOf(norm, names[..|names| - 1], channels);
      var name := names[|names| - 1];
      var candidates := Candidates(norm, channels, norm(name));
      if |candidates| > 1 then m.(conflicts := m.conflicts + [Clash(name, Cids(candidates))])
      else if |candidates| == 1 then m.(matched := m.matched + [Match(name, candidates[0].cid)])
      else m.(unmatched := m.unmatched + [name])
  }

  /** Two entries of the listing are called like `name`. */
  predicate Shared(norm: Norm, channels: seq<Channel>, name: Name) {
    exists k, m :: 0 <= k < m < |channels| && norm(channels[k].name) == norm(channels[m].name) == norm(name)
  }

  predicate Absent(norm: Norm, channels: seq<Channel>, name: Name) {
    forall m :: 0 <= m < |channels| ==> norm(channels[m].name) != norm(name)
  }

  predicate MatchOf(norm: Norm, names: seq<Name>, channels: seq<Channel>, x: Match) {
    && x.channelName in names
    && exists k :: 0 <= k < |channels| && SoleChannel(norm, channels, x.channelName, k)
                   && channels[k].cid == x.channelId
  }

  ghost predicate ClashOf(norm: Norm, names: seq<Name>, channels: seq<Channel>, c: Clash) {
    && c.channelName in names && Shared(norm, channels, c.channelName)
    && AllLike(norm, channels, c.channelName, c.channelIds)
  }

  /** A row is matched to the channel that alone is called like it, unmatched if none is, and in
      conflict, with all of them, if several are; each row once. */
  ghost predicate MatchedAs(norm: Norm, names: seq<Name>, channels: seq<Channel>, m: Matching) {
    && (forall x :: x in m.matched <==> MatchOf(norm, names, channels, x))
    && (forall n :: n in m.unmatched <==> n in names && Absent(norm, channels, n))
    && (forall c :: c in m.conflicts <==> ClashOf(norm, names, channels, c))
    && |m.matched| + |m.unmatched| + |m.conflicts| == |names|
  }

  /** There is one listing of all channels of a name. */
  lemma AllLikeIs(norm: Norm, channels: seq<Channel>, name: Name, cids: seq<Cid>)
    ensures AllLike(norm, channels, name, cids) <==> cids == Cids(Candidates(norm, channels, norm(name)))
  {
    CidsAre(norm, channels, name);
    if AllLike(norm, channels, name, cids) {
      OneListing(norm, channels, name, cids, Cids(Candidates(norm, channels, norm(name))));
    }
  }

  lemma OneListing(norm: Norm, channels: seq<Channel>, name: Name, a: seq<Cid>, b: seq<Cid>)
    requires AllLike(norm, channels, name, a) && AllLike(norm, channels, name, b)
    ensures a == b
  {
    var ks :| Places(norm, channels, name, ks) && IdsAt(channels, ks, a);
    var ls :| Places(norm, channels, name, ls) && IdsAt(channels, ls, b);
    SamePlaces(norm, channels, name, ks, ls);
  }

  lemma SamePlaces(norm: Norm, channels: seq<Channel>, name: Name, ks: seq<nat>, ls: seq<nat>)
    requires Places(norm, channels, name, ks) && Places(norm, channels, name, ls)
    ensures ks == ls
  {
    RisingSame(ks, ls, |channels|);
  }

  /** Rising sequences of the same numbers are the same. */
  lemma {:induction false} RisingSame(ks: seq<nat>, ls: seq<nat>, n: nat)
    requires Rising(ks, n) && Rising(ls, n) && forall m: nat :: m < n ==> (m in ks <==> m in ls)
    ensures ks == ls
  {
    assert (ks != [] ==> ks[0] in ks) && (ls != [] ==> ls[0] in ls);
    if ks != [] {
      var k, l := ks[|ks| - 1], ls[|ls| - 1];
      assert k in ks && l in ls;
      assert k == l by {
        assert k in ls && l in ks;
      }
      var kk, ll := ks[..|ks| - 1], ls[..|ls| - 1];
      forall m: nat | m < k ensures m in kk <==> m in ll {
        assert m in ks <==> m in ls;
      }
      RisingSame(kk, ll, k);
    }
  }

  lemma {:induction false} MatchingLists(norm: Norm, names: seq<Name>, channels: seq<Channel>)
    ensures var m := MatchingOf(norm, names, channels);
      && (forall n :: n in m.unmatched <==> n in names && |Candidates(norm, channels, norm(n))| == 0)
      && (forall c :: c in m.conflicts <==>
            && c.channelName in names && |Candidates(norm, channels, norm(c.channelName))| > 1
            && c.channelIds == Cids(Candidates(norm, channels, norm(c.channelName))))
      && |m.matched| + |m.unmatched| + |m.conflicts| == |names|
  {
    if names != [] {
      var before, last := names[..|names| - 1], names[|names| - 1];
      MatchingLists(norm, before, channels);
      assert names == before + [last];
    }
  }

  lemma ClashIff(norm: Norm, names: seq<Name>, channels: seq<Channel>, c: Clash)
    ensures ClashOf(norm, names, channels, c) <==>
              && c.channelName in names && |Candidates(norm, channels, norm(c.channelName))| > 1
              && c.channelIds == Cids(Candidates(norm, channels, norm(c.channelName)))
  {
    SharedIff(norm, channels, c.channelName);
    AllLikeIs(norm, channels, c.channelName, c.channelIds);
  }

  lemma SharedIff(norm: Norm, channels: seq<Channel>, name: Name)
    ensures Shared(norm, channels, name) <==> |Candidates(norm, channels, norm(name))| > 1
  {
    CandidateCount(norm, channels, name);
  }

  lemma MatchingIs(norm: Norm, names: seq<Name>, channels: seq<Channel>)
    ensures MatchedAs(norm, names, channels, MatchingOf(norm, names, channels))
  {
    MatchingLists(norm, names, channels);
    var m := MatchingOf(norm, names, channels);
    forall n ensures n in m.unmatched <==> n in names && Absent(norm, channels, n) {
      CandidateCount(norm, channels, n);
    }
    forall c ensures c in m.conflicts <==> ClashOf(norm, names, channels, c) {
      ClashIff(norm, names, channels, c);
    }
    forall x ensures x in m.matched <==> MatchOf(norm, names, channels, x) {
      MatchedIff(norm, names, channels, x);
      CandidateCount(norm, channels, x.channelName);
    }
  }

  lemma {:induction false} MatchedIff(norm: Norm, names: seq<Name>, channels: seq<Channel>, m: Match)
    ensures m in MatchingOf(norm, names, channels).matched <==>
              && m.channelName in names
              && |Candidates(norm, channels, norm(m.channelName))| == 1
              && Candidates(norm, channels, norm(m.channelName))[0].cid == m.channelId
  {
    if names != [] {
      var before, last := names[..|names| - 1], names[|names| - 1];
      MatchedIff(norm, before, channels, m);
      assert names == before + [last];
    }
  }

  /** Groups the channels once by normalised name; each row then is one lookup. */
  method MatchChannelIdsToRows(norm: Norm, names: seq<Name>, channels: seq<Channel>) returns (m: Matching)
    ensures m == MatchingOf(norm, names, channels)
    ensures MatchedAs(norm, names, channels, m)
  {
    var byName: map<Name, seq<Channel>> := map[];
    for n := 0 to |channels|
      invariant forall key :: GroupAt(byName, key) == Candidates(norm, channels[..n], key)
    {
      assert channels[..n + 1][..n] == channels[..n];
      var name := norm(channels[n].name);
      byName := byName[name := GroupAt(byName, name) + [channels[n]]];
    }
    assert channels[..|channels|] == channels;
    var matched: seq<Match>, unmatched: seq<Name>, conflicts: seq<Clash> := [], [], [];
    for n := 0 to |names|
      invariant Matching(matched, unmatched, conflicts) == MatchingOf(norm, names[..n], channels)
    {
      assert names[..n + 1][..n] == names[..n];
      var candidates := GroupAt(byName, norm(names[n]));
      if |candidates| > 1 {
        conflicts := conflicts + [Clash(names[n], Cids(candidates))];
      } else if |candidates| == 1 {
        matched := matched + [Match(names[n], candidates[0].cid)];
      } else {
        unmatched := unmatched + [names[n]];
      }
    }
    assert names[..|names|] == names;
    m := Matching(matched, unmatched, conflicts);
    MatchingIs(norm, names, channels);
  }

  function GroupAt(byName: map<Name, seq<Channel>>, key: Name): seq<Channel> {
    if key in byName then byName[key] else []
  }
}
