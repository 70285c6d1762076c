/** `ImagesService` over its tables: the code the specification functions describe. */
module ImageService {
  import opened Wrappers
  import opened ImageStore
  import opened ImageRules

  /** The service over its tables. */
  class ImagesService {
    const norm: Norm
    const isSpacerChannelName: Name -> bool
    var images: map<Id, ImageRow>
    var aliases: set<(Name, Id)>
    var references: map<Cid, Reference>
    var next: Id
    ghost var saved: map<Id, set<Name>>

    ghost function View(): Store
      reads this
    {
      Store(images, aliases, references, next, saved)
    }

    constructor (norm: Norm, isSpacerChannelName: Name -> bool)
      ensures StoreInv(View()) && images == map[] && this.norm == norm
    {
      this.norm := norm;
      this.isSpacerChannelName := isSpacerChannelName;
      images, aliases, references, next, saved := map[], {}, map[], 0, map[];
    }

    /** The first part of a save, before its transaction. */
    method ReadLegacyIds(name: Name) returns (ids: set<Id>)
      ensures ids == LegacyIds(norm, View(), name)
      ensures forall i :: i in ids <==> Answers(norm, View(), i, name)
    {
      ids := set a | a in aliases && AliasMatches(norm, a.0, name) :: a.1;
      var todo := images.Keys;
      while todo != {}
        invariant todo <= images.Keys
        invariant ids == (set a | a in aliases && AliasMatches(norm, a.0, name) :: a.1)
                         + (set i | i in images && i !in todo && AliasMatches(norm, images[i].channelName, name))
      {
        var i :| i in todo;
        if AliasMatches(norm, images[i].channelName, name) {
          ids := ids + {i};
        }
        todo := todo - {i};
      }
      assert ids == LegacyIds(norm, View(), name);
      forall i ensures i in LegacyIds(norm, View(), name) <==> Answers(norm, View(), i, name) {
        AnswersIff(norm, View(), i, name);
      }
    }

    /** Reading by name. */
    method GetImageByName(name: Name) returns (found: Lookup<Content>)
      requires StoreInv(View())
      ensures found == GetImage(norm, View(), name)
      ensures forall i :: OnlyAnswer(norm, View(), i, name) ==> i in images && found == Found(images[i].content)
    {
      GetImageIff(norm, View(), name);
      var ids := ReadLegacyIds(name);
      if |ids| > 1 {
        return Ambiguous;
      }
      if |ids| == 0 {
        return NotFound;
      }
      var i := Only(ids);
      return if i in images then Found(images[i].content) else NotFound;
    }

    /** The public read by channel id. */
    method GetPublicImage(cid: Cid) returns (shown: Public)
      requires StoreInv(View())
      ensures shown == GetPublicImageByChannelId(norm, View(), cid)
      ensures forall i: Id :: shown == Own(i) <==> i in images && images[i].channelId == Some(cid)
      ensures forall i: Id :: shown == Legacy(i) <==> ShownFor(norm, View(), cid, i)
    {
      PublicIff(norm, View(), cid);
      var own := FindByChannelId(cid);
      if own.Some? {
        return Own(own.value);
      }
      if cid !in references {
        return Nothing;
      }
      var legacy := FindLegacy(references[cid].name);
      if legacy.Some? {
        return Legacy(legacy.value);
      }
      if !references[cid].isSpacer {
        return Nothing;
      }
      var fallback := GetImageByName(SPACER_BASE_IMAGE_CHANNEL_NAME);
      return Fallback(fallback);
    }

    /** The transaction of a save: `ids` were read some time before. */
    method CommitSave(save: Save, ids: set<Id>) returns (ghost pick: Id)
      requires StoreInv(View()) && WaitingInv(View(), Waiting(save, ids, true))
      modifies this
      ensures PickOk(old(View()), save, ids, pick)
      ensures View() == Write(old(View()), save, OldRow(norm, old(View()), save, ids, pick),
                              isSpacerChannelName(save.channelName))
      ensures exists i :: CommittedAs(norm, old(View()), save, ids, isSpacerChannelName(save.channelName), i, View())
    {
      var prior;
      prior, pick := FindOldRow(save, ids);
      CommitPrior(norm, View(), Waiting(save, ids, true), pick);
      ghost var i := CommitIs(norm, View(), save, ids, pick, isSpacerChannelName(save.channelName));
      WriteRow(save, prior);
    }

    method WriteRow(save: Save, prior: Option<Id>)
      requires prior.Some? ==> prior.value in images
      modifies this
      ensures View() == Write(old(View()), save, prior, isSpacerChannelName(save.channelName))
    {
      var i := if prior.Some? then prior.value else next;
      var owner := if save.channelId.Some? then save.channelId
                   else if prior.Some? then images[i].channelId else None;
      AddAlias(save.channelName, i);
      if prior.Some? {
        AddAlias(images[i].channelName, i);
      }
      images := images[i := ImageRow(save.channelName, save.content, owner)];
      if save.channelId.Some? {
        var isSpacer := isSpacerChannelName(save.channelName);
        references := references[save.channelId.value := Reference(save.channelName, isSpacer)];
      }
      if prior.None? {
        next := next + 1;
      }
      saved := saved[i := (if i in saved then saved[i] else {}) + {save.channelName}];
    }

    /** Empty names get no alias. */
    method AddAlias(name: Name, i: Id)
      modifies this
      ensures View() == old(View()).(aliases := old(aliases) + Named(name, i))
    {
      if name != "" {
        aliases := aliases + {(name, i)};
      }
    }

    method FindByChannelId(cid: Cid) returns (i: Option<Id>)
      requires StoreInv(View())
      ensures i == if Owned(View(), cid) then Some(OwnerOf(View(), cid)) else None
    {
      i := None;
      if c :| c in images && images[c].channelId == Some(cid) {
        assert Owns(View(), c, cid);
        assert OneOwner(View(), c, OwnerOf(View(), cid));
        i := Some(c);
      }
    }

    method FindOldRow(save: Save, ids: set<Id>) returns (prior: Option<Id>, ghost pick: Id)
      requires StoreInv(View())
      ensures PickOk(View(), save, ids, pick) && prior == OldRow(norm, View(), save, ids, pick)
    {
      pick := 0;
      prior := None;
      if save.channelId.Some? {
        prior := FindByChannelId(save.channelId.value);
        if prior.None? && |ids| == 1 {
          var matches := set c | c in references && norm(references[c].name) == norm(save.channelName);
          if matches == {save.channelId.value} {
            var candidate := Only(ids);
            if candidate in images && images[candidate].channelId == None {
              prior := Some(candidate);
            }
          }
        }
      } else if |ids| == 1 {
        var candidate := Only(ids);
        prior := if candidate in images then Some(candidate) else None;
      } else if i :| i in images && images[i].channelName == save.channelName && images[i].channelId == None {
        pick := i;
        prior := Some(i);
      }
    }

    method Delete(cid: Cid) returns (done: bool)
      requires StoreInv(View())
      modifies this
      ensures (done, View()) == DeleteImageByChannelId(norm, old(View()), cid)
      ensures DeletedBy(norm, old(View()), cid, done, View())
    {
      DeleteIff(norm, View(), cid);
      var own := FindByChannelId(cid);
      if own.Some? {
        RemoveRow(own.value);
        return true;
      }
      if cid !in references {
        return false;
      }
      var legacy := FindLegacy(references[cid].name);
      if legacy.None? {
        return false;
      }
      RemoveRow(legacy.value);
      return true;
    }

    method FindLegacy(name: Name) returns (legacy: Option<Id>)
      ensures legacy == LegacyImageForChannel(norm, View(), name)
      ensures forall i: Id :: legacy == Some(i) <==> LegacyFor(norm, View(), name, i)
    {
      forall i: Id ensures LegacyImageForChannel(norm, View(), name) == Some(i) <==> LegacyFor(norm, View(), name, i) {
        LegacyIff(norm, View(), name, i);
      }
      if name == SPACER_BASE_IMAGE_CHANNEL_NAME {
        return None;
      }
      var sameName := set c | c in references && norm(references[c].name) == norm(name);
      if |sameName| != 1 {
        return None;
      }
      var ids := ReadLegacyIds(name);
      if |ids| != 1 {
        return None;
      }
      var i := Only(ids);
      return if i in images && images[i].channelId == None then Some(i) else None;
    }

    method RemoveRow(i: Id)
      modifies this
      ensures View() == Remove(old(View()), i)
    {
      images := images - {i};
      aliases := set a | a in aliases && a.1 != i;
      saved := saved - {i};
    }
  }
}
