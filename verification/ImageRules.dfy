/** What reading, saving and deleting an image comes down to, said with nothing but channel names,
    image names and aliases. */
module ImageRules {
  import opened Wrappers
  import opened ImageStore

  // ------------------------------------------------------------ which images answer to a name

  /** Two names match: the spacer's reserved one only itself, all others by their normal form. */
  predicate Like(norm: Norm, n: Name, name: Name) {
    if name == "__spacer_base_image__" then n == "__spacer_base_image__"
    else n != "__spacer_base_image__" && norm(n) == norm(name)
  }

  /** Image `i` has a name or alias that matches. */
  ghost predicate Answers(norm: Norm, st: Store, i: Id, name: Name) {
    || (i in st.images && Like(norm, st.images[i].channelName, name))
    || (exists n :: (n, i) in st.aliases && Like(norm, n, name))
  }

  ghost predicate OnlyAnswer(norm: Norm, st: Store, i: Id, name: Name) {
    Answers(norm, st, i, name) && forall j :: Answers(norm, st, j, name) ==> j == i
  }

  lemma AnswersIff(norm: Norm, st: Store, i: Id, name: Name)
    ensures i in LegacyIds(norm, st, name) <==> Answers(norm, st, i, name)
  {
    LegacyIdsIff(norm, st, name, i);
    if n :| HasName(st, i, n) && AliasMatches(norm, n, name) {
      assert Like(norm, n, name);
    }
    if n :| (n, i) in st.aliases && Like(norm, n, name) {
      assert HasName(st, i, n) && AliasMatches(norm, n, name);
    }
    if i in st.images && Like(norm, st.images[i].channelName, name) {
      assert HasName(st, i, st.images[i].channelName);
    }
  }

  /** The ids found are one exactly if one image alone answers. */
  lemma OneIff(norm: Norm, st: Store, name: Name)
    ensures forall i: Id :: LegacyIds(norm, st, name) == {i} <==> OnlyAnswer(norm, st, i, name)
    ensures LegacyIds(norm, st, name) == {} <==> forall i :: !Answers(norm, st, i, name)
  {
    var ids := LegacyIds(norm, st, name);
    forall i: Id ensures i in ids <==> Answers(norm, st, i, name) {
      AnswersIff(norm, st, i, name);
    }
    forall i: Id ensures ids == {i} <==> OnlyAnswer(norm, st, i, name) {
      if OnlyAnswer(norm, st, i, name) {
        assert forall j :: j in ids <==> j == i;
      }
    }
  }

  lemma Sizes(ids: set<Id>)
    ensures |ids| == 1 <==> exists i :: ids == {i}
    ensures |ids| > 1 <==> exists i, j :: i in ids && j in ids && i != j
    ensures |ids| == 1 ==> ids == {Only(ids)}
  {
    if |ids| == 1 {
      OnlyIsUnique(ids);
    } else if |ids| > 1 {
      var i :| i in ids;
      assert |ids - {i}| > 0;
      var j :| j in ids - {i};
      assert j in ids && i != j;
    }
    if i, j :| i in ids && j in ids && i != j {
      assert {i, j} <= ids;
      SubsetSize({i, j}, ids);
    }
  }

  lemma {:induction false} SubsetSize(a: set<Id>, b: set<Id>)
    requires a <= b
    ensures |a| <= |b|
  {
    if a != {} {
      var x :| x in a;
      SubsetSize(a - {x}, b - {x});
    }
  }

  /** Reading by name: two images answering are ambiguous, one alone is served, none is not found. */
  lemma GetImageIff(norm: Norm, st: Store, name: Name)
    requires KeysInv(st)
    ensures GetImage(norm, st, name) == Ambiguous <==>
            exists i, j :: i != j && Answers(norm, st, i, name) && Answers(norm, st, j, name)
    ensures forall i :: OnlyAnswer(norm, st, i, name) ==>
              i in st.images && GetImage(norm, st, name) == Found(st.images[i].content)
    ensures GetImage(norm, st, name) == NotFound <==> forall i :: !Answers(norm, st, i, name)
  {
    var ids := LegacyIds(norm, st, name);
    OneIff(norm, st, name);
    Sizes(ids);
    forall i: Id ensures (i in ids <==> Answers(norm, st, i, name)) && (i in ids ==> i in st.images) {
      AnswersIff(norm, st, i, name);
      if n :| (n, i) in st.aliases && Like(norm, n, name) {
        assert (n, i).1 in st.images;
      }
    }
    if |ids| == 1 {
      assert Only(ids) in ids;
    }
  }

  // ------------------------------------------------------------ the public image of a channel

  predicate HasOwn(st: Store, cid: Cid) {
    exists i :: i in st.images && st.images[i].channelId == Some(cid)
  }

  /** Channel `cid` alone is listed under a name like `name`. */
  predicate OnlyChannel(norm: Norm, st: Store, cid: Cid, name: Name) {
    && cid in st.references && norm(st.references[cid].name) == norm(name)
    && forall c :: c in st.references && norm(st.references[c].name) == norm(name) ==> c == cid
  }

  /** The image a channel of this name may use: the name is not reserved and no two listed channels
      share it, and the image alone answers to it and belongs to nobody. */
  ghost predicate LegacyFor(norm: Norm, st: Store, name: Name, i: Id) {
    && name != "__spacer_base_image__"
    && (exists c :: OnlyChannel(norm, st, c, name))
    && OnlyAnswer(norm, st, i, name) && i in st.images && st.images[i].channelId == None
  }

  lemma LegacyIff(norm: Norm, st: Store, name: Name, i: Id)
    ensures LegacyImageForChannel(norm, st, name) == Some(i) <==> LegacyFor(norm, st, name, i)
  {
    OneIff(norm, st, name);
    Sizes(LegacyIds(norm, st, name));
    SameNameOne(norm, st, name);
  }

  lemma SameNameOne(norm: Norm, st: Store, name: Name)
    ensures |SameName(norm, st, name)| == 1 <==> exists c :: OnlyChannel(norm, st, c, name)
    ensures forall c :: SameName(norm, st, name) == {c} <==> OnlyChannel(norm, st, c, name)
  {
    var same := SameName(norm, st, name);
    if |same| == 1 {
      var c :| c in same;
      assert |same - {c}| == 0;
      forall d | d in st.references && norm(st.references[d].name) == norm(name) ensures d == c {
        assert d in same;
      }
      assert OnlyChannel(norm, st, c, name);
    }
    forall c ensures same == {c} <==> OnlyChannel(norm, st, c, name) {
      if same == {c} {
        assert c in same;
        assert forall d :: d in st.references && norm(st.references[d].name) == norm(name) ==> d in same;
      }
      if OnlyChannel(norm, st, c, name) {
        assert forall d :: d in same <==> d == c;
      }
    }
  }

  /** The channel has no image of its own, and this one stands in. */
  ghost predicate ShownFor(norm: Norm, st: Store, cid: Cid, i: Id) {
    && !HasOwn(st, cid) && cid in st.references
    && st.references[cid].name != "__spacer_base_image__"
    && (forall c :: c in st.references && norm(st.references[c].name) == norm(st.references[cid].name) ==> c == cid)
    && OnlyAnswer(norm, st, i, st.references[cid].name) && i in st.images && st.images[i].channelId == None
  }

  lemma ShownForIs(norm: Norm, st: Store, cid: Cid, i: Id)
    ensures ShownFor(norm, st, cid, i) <==>
            !HasOwn(st, cid) && cid in st.references && LegacyFor(norm, st, st.references[cid].name, i)
  {
    if ShownFor(norm, st, cid, i) {
      assert OnlyChannel(norm, st, cid, st.references[cid].name);
    } else if cid in st.references && LegacyFor(norm, st, st.references[cid].name, i) {
      var c :| OnlyChannel(norm, st, c, st.references[cid].name);
      assert c == cid;
    }
  }

  lemma OwnsIff(st: Store, cid: Cid)
    requires StoreInv(st)
    ensures Owned(st, cid) <==> HasOwn(st, cid)
    ensures forall i :: i in st.images && st.images[i].channelId == Some(cid) ==>
              Owned(st, cid) && OwnerOf(st, cid) == i
  {
    forall i | i in st.images && st.images[i].channelId == Some(cid) ensures Owned(st, cid) && OwnerOf(st, cid) == i {
      assert Owns(st, i, cid);
      assert OneOwner(st, i, OwnerOf(st, cid));
    }
  }

  /** What a channel's public URL serves, in all cases: the image it owns; else the unowned image
      that alone answers to its name, if no other listed channel bears it; else, for a listed
      spacer only, what the reserved name yields; else nothing. */
  lemma PublicIff(norm: Norm, st: Store, cid: Cid)
    requires StoreInv(st)
    ensures var shown := GetPublicImageByChannelId(norm, st, cid);
      var none := !HasOwn(st, cid) && !exists i :: ShownFor(norm, st, cid, i);
      && (forall i: Id :: shown == Own(i) <==> i in st.images && st.images[i].channelId == Some(cid))
      && (forall i: Id :: shown == Legacy(i) <==> ShownFor(norm, st, cid, i))
      && (shown.Fallback? <==> none && cid in st.references && st.references[cid].isSpacer)
      && (shown.Fallback? ==> shown.image == GetImage(norm, st, "__spacer_base_image__"))
      && (shown == Nothing <==> none && !(cid in st.references && st.references[cid].isSpacer))
  {
    OwnsIff(st, cid);
    forall i: Id ensures GetPublicImageByChannelId(norm, st, cid) == Legacy(i) <==> ShownFor(norm, st, cid, i) {
      ShownForIs(norm, st, cid, i);
      if cid in st.references {
        LegacyIff(norm, st, st.references[cid].name, i);
      }
    }
  }

  // ------------------------------------------------------------ deleting

  /** Row `i` and its aliases are gone, all else is as it was. */
  ghost predicate RowGone(st: Store, st': Store, i: Id) {
    && st'.images == st.images - {i} && st'.references == st.references && st'.next == st.next
    && forall n, j :: (n, j) in st'.aliases <==> (n, j) in st.aliases && j != i
  }

  /** Delete by channel id in all cases: the owned image goes; else the unowned image that stands
      in for it; else nothing changes, and only then it answers false. */
  ghost predicate DeletedBy(norm: Norm, st: Store, cid: Cid, done: bool, st': Store) {
    && (forall i :: i in st.images && st.images[i].channelId == Some(cid) ==> done && RowGone(st, st', i))
    && (forall i :: ShownFor(norm, st, cid, i) ==> done && RowGone(st, st', i))
    && (!HasOwn(st, cid) && (forall i :: !ShownFor(norm, st, cid, i)) ==> !done && st' == st)
  }

  lemma DeleteIff(norm: Norm, st: Store, cid: Cid)
    requires StoreInv(st)
    ensures var (done, st') := DeleteImageByChannelId(norm, st, cid); DeletedBy(norm, st, cid, done, st')
  {
    OwnsIff(st, cid);
    var (done, st') := DeleteImageByChannelId(norm, st, cid);
    forall i: Id ensures ShownFor(norm, st, cid, i) <==>
                     !HasOwn(st, cid) && cid in st.references
                     && LegacyImageForChannel(norm, st, st.references[cid].name) == Some(i)
    {
      ShownForIs(norm, st, cid, i);
      if cid in st.references {
        LegacyIff(norm, st, st.references[cid].name, i);
      }
    }
    forall i: Id ensures RowGone(st, Remove(st, i), i) {
    }
  }

  // ------------------------------------------------------------ saving

  /** An unowned row of exactly this name. */
  predicate Unclaimed(st: Store, i: Id, name: Name) {
    i in st.images && st.images[i].channelName == name && st.images[i].channelId == None
  }

  /** The row of an earlier save the transaction updates: the channel's own; else the unowned one
      that alone answered when the ids were read, if the channel now alone bears the name. A save
      without a channel takes the one that answered, or an unowned row of exactly its name. */
  ghost predicate Takes(norm: Norm, st: Store, save: Save, ids: set<Id>, i: Id) {
    && i in st.images
    && match save.channelId
       case Some(cid) =>
         || st.images[i].channelId == Some(cid)
         || (!HasOwn(st, cid) && ids == {i} && OnlyChannel(norm, st, cid, save.channelName)
             && st.images[i].channelId == None)
       case None => ids == {i} || (ids == {} && Unclaimed(st, i, save.channelName))
  }

  /** Row `i` is written: it gets name and content, the save's channel if it names one, its new and
      its former name as aliases; the channel is listed under the name; nothing else changes. */
  ghost predicate SavedAs(st: Store, st': Store, save: Save, i: Id, isSpacer: bool) {
    && i in st'.images && st'.images[i].channelName == save.channelName && st'.images[i].content == save.content
    && st'.images[i].channelId ==
       (if save.channelId.Some? then save.channelId else if i in st.images then st.images[i].channelId else None)
    && (forall j :: j != i ==> (j in st'.images <==> j in st.images))
    && (forall j :: j != i && j in st.images && j in st'.images ==> st'.images[j] == st.images[j])
    && (forall n, j :: (n, j) in st'.aliases <==>
          || (n, j) in st.aliases
          || (j == i && n != "" && (n == save.channelName || (i in st.images && n == st.images[i].channelName))))
    && (forall c :: c in st'.references <==> c in st.references || save.channelId == Some(c))
    && (forall c :: c in st'.references ==>
          st'.references[c] == (if save.channelId == Some(c) then Reference(save.channelName, isSpacer)
                                else st.references[c]))
  }

  /** What a committed save did: it updated a row it may take, or, only when there is none, added a
      new one. */
  ghost predicate CommittedAs(norm: Norm, st: Store, save: Save, ids: set<Id>, isSpacer: bool, i: Id, st': Store) {
    && SavedAs(st, st', save, i, isSpacer)
    && (|| Takes(norm, st, save, ids, i)
        || (i == st.next && i !in st.images && forall j :: !Takes(norm, st, save, ids, j)))
  }

  /** The row the specification writes is one of those. */
  lemma OldRowTakes(norm: Norm, st: Store, save: Save, ids: set<Id>, pick: Id)
    requires StoreInv(st) && PickOk(st, save, ids, pick) && !Refused(save, ids)
    ensures var prior := OldRow(norm, st, save, ids, pick);
      && (prior.Some? ==> Takes(norm, st, save, ids, prior.value))
      && (prior.None? ==> forall j :: !Takes(norm, st, save, ids, j))
  {
    Sizes(ids);
    SameNameOne(norm, st, save.channelName);
    if save.channelId.Some? {
      OwnsIff(st, save.channelId.value);
    } else if |ids| != 1 {
      assert ids == {};
      forall j ensures Unclaimed(st, j, save.channelName) <==> SameUnowned(st, j, save.channelName) {
      }
    }
  }

  lemma WriteIs(st: Store, save: Save, prior: Option<Id>, isSpacer: bool)
    requires KeysInv(st) && (prior.Some? ==> prior.value in st.images)
    ensures SavedAs(st, Write(st, save, prior, isSpacer), save, if prior.Some? then prior.value else st.next, isSpacer)
  {
  }

  /** Every save that commits does exactly this, whatever happened since it read its ids. */
  lemma SaveIs(norm: Norm, s: System, k: nat, pick: Id, isSpacer: bool) returns (i: Id)
    requires Inv(s) && k < |s.waiting| && s.waiting[k].open && PickOk(s.st, s.waiting[k].save, s.waiting[k].ids, pick)
    ensures CommittedAs(norm, s.st, s.waiting[k].save, s.waiting[k].ids, isSpacer, i,
                        Step(norm, s, Commits(k, pick, isSpacer)).st)
  {
    var w := s.waiting[k];
    assert WaitingInv(s.st, w);
    i := CommitIs(norm, s.st, w.save, w.ids, pick, isSpacer);
  }

  lemma CommitIs(norm: Norm, st: Store, save: Save, ids: set<Id>, pick: Id, isSpacer: bool) returns (i: Id)
    requires StoreInv(st) && PickOk(st, save, ids, pick) && !Refused(save, ids)
    ensures var prior := OldRow(norm, st, save, ids, pick);
      && (prior.Some? ==> prior.value in st.images)
      && CommittedAs(norm, st, save, ids, isSpacer, i, Write(st, save, prior, isSpacer))
  {
    var prior := OldRow(norm, st, save, ids, pick);
    OldRowTakes(norm, st, save, ids, pick);
    WriteIs(st, save, prior, isSpacer);
    i := if prior.Some? then prior.value else st.next;
  }

  /** And there is no choice, but among unowned rows of exactly the save's name. */
  lemma TakesOne(norm: Norm, st: Store, save: Save, ids: set<Id>, i: Id, j: Id)
    requires StoreInv(st) && Takes(norm, st, save, ids, i) && Takes(norm, st, save, ids, j)
    ensures i == j
            || (save.channelId == None && Unclaimed(st, i, save.channelName) && Unclaimed(st, j, save.channelName))
  {
    assert OneOwner(st, i, j);
    if ids == {i} && ids == {j} {
      assert i in {j};
    }
  }

  /** A save is turned away exactly when it names no channel and two images answer to its name. */
  lemma RefusedIff(norm: Norm, s: System, save: Save)
    ensures var s' := Step(norm, s, Reads(save));
      && s'.st == s.st
      && (s'.waiting == s.waiting <==>
            save.channelId == None
            && exists i, j :: i != j && Answers(norm, s.st, i, save.channelName)
                              && Answers(norm, s.st, j, save.channelName))
      && (s'.waiting != s.waiting ==> exists ids :: s'.waiting == s.waiting + [Waiting(save, ids, true)]
                                       && forall i :: i in ids <==> Answers(norm, s.st, i, save.channelName))
  {
    var ids := LegacyIds(norm, s.st, save.channelName);
    forall i: Id ensures i in ids <==> Answers(norm, s.st, i, save.channelName) {
      AnswersIff(norm, s.st, i, save.channelName);
    }
    Sizes(ids);
  }

  /** An image without owner becomes a channel's by a save exactly if the channel has none, alone
      is listed under a name like the save's, and the image alone answers to that name. */
  lemma AdoptedIff(norm: Norm, s: System, save: Save, pick: Id, isSpacer: bool, i: Id, cid: Cid)
    requires StoreInv(s.st) && i in s.st.images && s.st.images[i].channelId == None && save.channelId == Some(cid)
    ensures var s' := Step(norm, Step(norm, s, Reads(save)), Commits(|s.waiting|, pick, isSpacer));
      i in s'.st.images && s'.st.images[i].channelId == Some(cid) <==>
        && !HasOwn(s.st, cid) && OnlyChannel(norm, s.st, cid, save.channelName)
        && OnlyAnswer(norm, s.st, i, save.channelName)
  {
    var ids := LegacyIds(norm, s.st, save.channelName);
    OneIff(norm, s.st, save.channelName);
    OldRowTakes(norm, s.st, save, ids, pick);
    var row := CommitIs(norm, s.st, save, ids, pick, isSpacer);
    if Takes(norm, s.st, save, ids, i) && Takes(norm, s.st, save, ids, row) {
      TakesOne(norm, s.st, save, ids, i, row);
    }
  }
}
