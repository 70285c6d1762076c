/** Banner images by channel id and by legacy name.

    Image rows, aliases and channel references are tables. A save reads the matching legacy ids
    first and commits in a transaction later; other saves, deletions and syncs come in between.
    `norm` stands for the channel name normaliser, whatever it is. */
module ImageStore {
  import opened Wrappers

  type Id = nat
  type Cid = string
  type Name = string
  type Norm = string -> string

  const SPACER_BASE_IMAGE_CHANNEL_NAME := "__spacer_base_image__"

  datatype Content = Content(image: string, mimeType: string)
  datatype ImageRow = ImageRow(channelName: Name, content: Content, channelId: Option<Cid>)
  datatype Reference = Reference(name: Name, isSpacer: bool)
  datatype Save = Save(channelName: Name, content: Content, channelId: Option<Cid>)

  /** The tables; `saved` is the history of names, which nothing reads. */
  datatype Store = Store(
    images: map<Id, ImageRow>,
    aliases: set<(Name, Id)>,
    references: map<Cid, Reference>,
    next: Id,
    saved: map<Id, set<Name>>)

  datatype Lookup<T> = Found(value: T) | NotFound | Ambiguous

  // ------------------------------------------------------------ names

  predicate AliasMatches(norm: Norm, alias: Name, requested: Name) {
    if requested == SPACER_BASE_IMAGE_CHANNEL_NAME then alias == requested
    else alias != SPACER_BASE_IMAGE_CHANNEL_NAME && norm(alias) == norm(requested)
  }

  /** Matching is an equivalence, and the spacer's reserved name matches only itself. */
  lemma AliasMatchesIsEquivalence(norm: Norm, a: Name, b: Name, c: Name)
    ensures AliasMatches(norm, a, a)
    ensures AliasMatches(norm, a, b) ==> AliasMatches(norm, b, a)
    ensures AliasMatches(norm, a, b) && AliasMatches(norm, b, c) ==> AliasMatches(norm, a, c)
    ensures AliasMatches(norm, a, SPACER_BASE_IMAGE_CHANNEL_NAME) <==> a == SPACER_BASE_IMAGE_CHANNEL_NAME
  {
  }

  /** The row is or was called `name`, as far as the tables tell. */
  predicate HasName(st: Store, i: Id, name: Name) {
    (name, i) in st.aliases || (i in st.images && st.images[i].channelName == name)
  }

  function LegacyIds(norm: Norm, st: Store, name: Name): set<Id> {
    (set a | a in st.aliases && AliasMatches(norm, a.0, name) :: a.1)
    + (set i | i in st.images && AliasMatches(norm, st.images[i].channelName, name))
  }

  lemma LegacyIdsIff(norm: Norm, st: Store, name: Name, i: Id)
    ensures i in LegacyIds(norm, st, name) <==> exists n :: HasName(st, i, n) && AliasMatches(norm, n, name)
  {
    if i in LegacyIds(norm, st, name) {
      if i in st.images && AliasMatches(norm, st.images[i].channelName, name) {
        assert HasName(st, i, st.images[i].channelName);
      } else {
        var a :| a in st.aliases && AliasMatches(norm, a.0, name) && a.1 == i;
        assert a == (a.0, i) && HasName(st, i, a.0);
      }
    }
    if n :| HasName(st, i, n) && AliasMatches(norm, n, name) {
      assert (n, i) in st.aliases ==> (n, i).1 in LegacyIds(norm, st, name);
    }
  }

  /** The element of a one-element set. */
  function Only(ids: set<Id>): (i: Id)
    requires |ids| == 1
    ensures ids == {i}
  {
    OnlyIsUnique(ids);
    var i :| i in ids;
    i
  }

  lemma OnlyIsUnique(ids: set<Id>)
    requires |ids| == 1
    ensures exists i :: ids == {i}
    ensures forall i, j :: i in ids && j in ids ==> i == j
  {
    var i :| i in ids;
    assert |ids - {i}| == 0;
    assert ids == {i};
  }

  // ------------------------------------------------------------ reading

  function GetImage(norm: Norm, st: Store, name: Name): Lookup<Content> {
    var ids := LegacyIds(norm, st, name);
    if |ids| > 1 then Ambiguous
    else if |ids| == 1 && Only(ids) in st.images then Found(st.images[Only(ids)].content)
    else NotFound
  }

  predicate Owns(st: Store, i: Id, cid: Cid) {
    i in st.images && st.images[i].channelId == Some(cid)
  }

  predicate Owned(st: Store, cid: Cid) {
    exists i :: i in st.images && Owns(st, i, cid)
  }

  ghost function OwnerOf(st: Store, cid: Cid): (i: Id)
    requires Owned(st, cid)
    ensures Owns(st, i, cid)
  {
    var i :| i in st.images && Owns(st, i, cid);
    i
  }

  function SameName(norm: Norm, st: Store, name: Name): set<Cid> {
    set c | c in st.references && norm(st.references[c].name) == norm(name)
  }

  /** The unowned image a channel of this name may use. */
  function LegacyImageForChannel(norm: Norm, st: Store, name: Name): Option<Id> {
    if name == SPACER_BASE_IMAGE_CHANNEL_NAME then None
    else if |SameName(norm, st, name)| != 1 then None
    else
      var ids := LegacyIds(norm, st, name);
      if |ids| != 1 then None
      else if Only(ids) in st.images && st.images[Only(ids)].channelId == None then Some(Only(ids))
      else None
  }

  /** What the public URL of a channel serves, and from which row. */
  datatype Public = Own(row: Id) | Legacy(row: Id) | Fallback(image: Lookup<Content>) | Nothing

  ghost function GetPublicImageByChannelId(norm: Norm, st: Store, cid: Cid): Public {
    if Owned(st, cid) then Own(OwnerOf(st, cid))
    else if cid !in st.references then Nothing
    else match LegacyImageForChannel(norm, st, st.references[cid].name)
      case Some(i) => Legacy(i)
      case None =>
        if st.references[cid].isSpacer then Fallback(GetImage(norm, st, SPACER_BASE_IMAGE_CHANNEL_NAME)) else Nothing
  }

  // ------------------------------------------------------------ saving

  /** The row an unowned save without matching ids falls back to; `pick` chooses among several. */
  predicate SameUnowned(st: Store, i: Id, name: Name) {
    i in st.images && st.images[i].channelName == name && st.images[i].channelId == None
  }

  /** The row the transaction updates; `ids` were read before it began. */
  ghost function OldRow(norm: Norm, st: Store, save: Save, ids: set<Id>, pick: Id): Option<Id> {
    match save.channelId
    case Some(cid) =>
      if Owned(st, cid) then Some(OwnerOf(st, cid))
      else if |ids| == 1 && SameName(norm, st, save.channelName) == {cid}
              && Only(ids) in st.images && st.images[Only(ids)].channelId == None then Some(Only(ids))
      else None
    case None =>
      if |ids| == 1 then if Only(ids) in st.images then Some(Only(ids)) else None
      else if SameUnowned(st, pick, save.channelName) then Some(pick) else None
  }

  /** An unowned row of exactly the save's name is taken when there is one. */
  predicate PickOk(st: Store, save: Save, ids: set<Id>, pick: Id) {
    save.channelId == None && |ids| != 1 && (exists i :: i in st.images && SameUnowned(st, i, save.channelName)) ==>
      SameUnowned(st, pick, save.channelName)
  }

  function Named(name: Name, i: Id): set<(Name, Id)> {
    if name == "" then {} else {(name, i)}
  }

  /** The transaction once its row is chosen. */
  function Write(st: Store, save: Save, prior: Option<Id>, isSpacer: bool): Store
    requires prior.Some? ==> prior.value in st.images
  {
    var i := if prior.Some? then prior.value else st.next;
    var owner := if save.channelId.Some? then save.channelId
                 else if prior.Some? then st.images[prior.value].channelId else None;
    Store(
      st.images[i := ImageRow(save.channelName, save.content, owner)],
      st.aliases + Named(save.channelName, i) + (if prior.Some? then Named(st.images[i].channelName, i) else {}),
      if save.channelId.Some? then st.references[save.channelId.value := Reference(save.channelName, isSpacer)]
      else st.references,
      if prior.Some? then st.next else st.next + 1,
      st.saved[i := (if i in st.saved then st.saved[i] else {}) + {save.channelName}])
  }

  /** Deleting a row takes its aliases with it. */
  function Remove(st: Store, i: Id): Store {
    st.(images := st.images - {i}, aliases := (set a | a in st.aliases && a.1 != i), saved := st.saved - {i})
  }

  // ------------------------------------------------------------ every interleaving

  /** A save that has read its ids and waits for its transaction. */
  datatype Waiting = Waiting(save: Save, ids: set<Id>, open: bool)
  datatype System = System(st: Store, waiting: seq<Waiting>)

  datatype Event =
    | Reads(save: Save)
    | Commits(k: nat, pick: Id, isSpacer: bool)
    | Deletes(i: Id)
    | Syncs(cid: Cid, reference: Option<Reference>)

  predicate Refused(save: Save, ids: set<Id>) {
    save.channelId == None && |ids| > 1
  }

  ghost function Step(norm: Norm, s: System, e: Event): System {
    match e
    case Reads(save) =>
      var ids := LegacyIds(norm, s.st, save.channelName);
      if Refused(save, ids) then s else s.(waiting := s.waiting + [Waiting(save, ids, true)])
    case Commits(k, pick, isSpacer) =>
      if k >= |s.waiting| || !s.waiting[k].open || !PickOk(s.st, s.waiting[k].save, s.waiting[k].ids, pick) then s
      else
        var w := s.waiting[k];
        System(Write(s.st, w.save, OldRow(norm, s.st, w.save, w.ids, pick), isSpacer),
               s.waiting[k := w.(open := false)])
    case Deletes(i) => s.(st := Remove(s.st, i))
    case Syncs(cid, reference) =>
      s.(st := s.st.(references := if reference.Some? then s.st.references[cid := reference.value]
                                   else s.st.references - {cid}))
  }

  ghost function Run(norm: Norm, s: System, events: seq<Event>): System {
    if events == [] then s else Step(norm, Run(norm, s, events[..|events| - 1]), events[|events| - 1])
  }

  /** Nobody saves a channel's own image under the spacer's reserved name. */
  predicate Sane(e: Event) {
    e.Reads? && e.save.channelId.Some? ==> e.save.channelName != SPACER_BASE_IMAGE_CHANNEL_NAME
  }

  // ------------------------------------------------------------ what every step keeps

  predicate OneOwner(st: Store, i: Id, j: Id) {
    (i in st.images && j in st.images && st.images[i].channelId.Some? && st.images[i].channelId == st.images[j].channelId)
    ==> i == j
  }

  ghost predicate KeysInv(st: Store) {
    && (forall a :: a in st.aliases ==> a.1 in st.images)
    && (forall i :: i in st.images ==> i < st.next)
    && st.saved.Keys == st.images.Keys
  }

  ghost predicate OwnersInv(st: Store) {
    forall i, j :: OneOwner(st, i, j)
  }

  /** Names an image was saved under are kept. */
  predicate NameKept(st: Store, i: Id, name: Name) {
    i in st.saved && name in st.saved[i] && name != "" ==> HasName(st, i, name)
  }

  /** And no others. */
  predicate NameSaved(st: Store, i: Id, name: Name) {
    && (HasName(st, i, name) ==> i in st.saved && name in st.saved[i])
    && ((name, i) in st.aliases ==> name != "")
  }

  ghost predicate NamesInv(st: Store) {
    && (forall i, n :: NameKept(st, i, n))
    && (forall i, n :: NameSaved(st, i, n))
  }

  /** The shared spacer row has no other name and no owner. */
  ghost predicate PureSpacer(st: Store, i: Id) {
    HasName(st, i, SPACER_BASE_IMAGE_CHANNEL_NAME) ==>
      && i in st.images && st.images[i].channelId == None
      && forall n :: HasName(st, i, n) ==> n == SPACER_BASE_IMAGE_CHANNEL_NAME
  }

  ghost predicate SpacerInv(st: Store) {
    forall i :: PureSpacer(st, i)
  }

  ghost predicate StoreInv(st: Store) {
    KeysInv(st) && OwnersInv(st) && NamesInv(st) && SpacerInv(st)
  }

  /** The ids read were and stay on the save's side of the spacer's reserved name. */
  predicate IdSide(st: Store, save: Save, i: Id) {
    && i < st.next
    && (save.channelName == SPACER_BASE_IMAGE_CHANNEL_NAME ==>
          i !in st.images || HasName(st, i, SPACER_BASE_IMAGE_CHANNEL_NAME))
    && (save.channelName != SPACER_BASE_IMAGE_CHANNEL_NAME ==> !HasName(st, i, SPACER_BASE_IMAGE_CHANNEL_NAME))
  }

  ghost predicate WaitingInv(st: Store, w: Waiting) {
    && (w.save.channelId.Some? ==> w.save.channelName != SPACER_BASE_IMAGE_CHANNEL_NAME)
    && !Refused(w.save, w.ids)
    && (forall i :: i in w.ids ==> IdSide(st, w.save, i))
  }

  ghost predicate Inv(s: System) {
    && StoreInv(s.st)
    && (forall k :: 0 <= k < |s.waiting| ==> WaitingInv(s.st, s.waiting[k]))
  }

  lemma OldRowOk(norm: Norm, st: Store, save: Save, ids: set<Id>, pick: Id)
    ensures var prior := OldRow(norm, st, save, ids, pick);
      && (prior.Some? ==> prior.value in st.images)
      && (save.channelId.Some? && prior.Some? ==>
            Owns(st, prior.value, save.channelId.value)
            || (st.images[prior.value].channelId == None && prior.value in ids && !Owned(st, save.channelId.value)))
      && (save.channelId.Some? && prior.None? ==> !Owned(st, save.channelId.value))
      && (save.channelId.None? && prior.Some? ==>
            prior.value in ids || SameUnowned(st, prior.value, save.channelName))
  {
    if |ids| == 1 {
      assert Only(ids) in ids;
    }
  }

  /** What the write does to names: the row gains the new one, all others stay. */
  lemma WriteNames(st: Store, save: Save, prior: Option<Id>, isSpacer: bool, i: Id, n: Name)
    requires KeysInv(st) && (prior.Some? ==> prior.value in st.images)
    ensures var st' := Write(st, save, prior, isSpacer);
      var target := if prior.Some? then prior.value else st.next;
      && (HasName(st', i, n) ==> HasName(st, i, n) || (i == target && n == save.channelName))
      && (HasName(st, i, n) && n != "" ==> HasName(st', i, n))
      && (i == target && n == save.channelName ==> HasName(st', i, n))
  {
    assert forall a :: a in st.aliases ==> a.1 < st.next;
  }

  lemma WriteKeys(st: Store, save: Save, prior: Option<Id>, isSpacer: bool)
    requires StoreInv(st) && (prior.Some? ==> prior.value in st.images)
    ensures KeysInv(Write(st, save, prior, isSpacer)) && NamesInv(Write(st, save, prior, isSpacer))
  {
    var st' := Write(st, save, prior, isSpacer);
    forall i, n ensures NameKept(st', i, n) && NameSaved(st', i, n) {
      WriteNames(st, save, prior, isSpacer, i, n);
      NamesWritten(st, save, prior, isSpacer, i, n);
    }
  }

  lemma NamesWritten(st: Store, save: Save, prior: Option<Id>, isSpacer: bool, i: Id, n: Name)
    requires KeysInv(st) && NamesInv(st) && (prior.Some? ==> prior.value in st.images)
    requires var st' := Write(st, save, prior, isSpacer);
      var target := if prior.Some? then prior.value else st.next;
      && (HasName(st', i, n) ==> HasName(st, i, n) || (i == target && n == save.channelName))
      && (HasName(st, i, n) && n != "" ==> HasName(st', i, n))
      && (i == target && n == save.channelName ==> HasName(st', i, n))
    ensures var st' := Write(st, save, prior, isSpacer); NameKept(st', i, n) && NameSaved(st', i, n)
  {
    assert NameKept(st, i, n) && NameSaved(st, i, n);
  }

  /** The row written belongs to the save's channel, to nobody, or is written by name only. */
  predicate Writable(st: Store, save: Save, prior: Option<Id>) {
    && (prior.Some? ==> prior.value in st.images)
    && (save.channelId.Some? ==>
          if Owned(st, save.channelId.value) then prior.Some? && Owns(st, prior.value, save.channelId.value)
          else prior.Some? ==> st.images[prior.value].channelId == None)
  }

  lemma WriteOwners(st: Store, save: Save, prior: Option<Id>, isSpacer: bool)
    requires KeysInv(st) && OwnersInv(st) && Writable(st, save, prior)
    ensures OwnersInv(Write(st, save, prior, isSpacer))
  {
    var st' := Write(st, save, prior, isSpacer);
    forall i, j ensures OneOwner(st', i, j) {
      assert OneOwner(st, i, j);
      if save.channelId.Some? && i in st.images && j in st.images {
        var cid := save.channelId.value;
        assert Owns(st, i, cid) ==> Owned(st, cid);
        assert Owns(st, j, cid) ==> Owned(st, cid);
        assert prior.Some? ==> OneOwner(st, i, prior.value) && OneOwner(st, prior.value, j);
      }
      if save.channelId.Some? {
        assert i in st.images && Owns(st, i, save.channelId.value) ==> Owned(st, save.channelId.value);
        assert j in st.images && Owns(st, j, save.channelId.value) ==> Owned(st, save.channelId.value);
      }
    }
  }

  /** The chosen row is on the same side of the spacer's reserved name as the save. */
  ghost predicate SameSide(st: Store, save: Save, prior: Option<Id>) {
    && (save.channelId.Some? ==> save.channelName != SPACER_BASE_IMAGE_CHANNEL_NAME)
    && (prior.Some? ==>
          (save.channelName == SPACER_BASE_IMAGE_CHANNEL_NAME <==> HasName(st, prior.value, SPACER_BASE_IMAGE_CHANNEL_NAME)))
  }

  lemma WriteSpacer(st: Store, save: Save, prior: Option<Id>, isSpacer: bool)
    requires StoreInv(st) && (prior.Some? ==> prior.value in st.images) && SameSide(st, save, prior)
    ensures SpacerInv(Write(st, save, prior, isSpacer))
  {
    var st' := Write(st, save, prior, isSpacer);
    forall i ensures PureSpacer(st', i) {
      WriteNames(st, save, prior, isSpacer, i, SPACER_BASE_IMAGE_CHANNEL_NAME);
      assert PureSpacer(st, i);
      forall n | HasName(st', i, n) && HasName(st', i, SPACER_BASE_IMAGE_CHANNEL_NAME)
        ensures n == SPACER_BASE_IMAGE_CHANNEL_NAME
      {
        WriteNames(st, save, prior, isSpacer, i, n);
        assert forall a :: a in st.aliases ==> a.1 < st.next;
      }
    }
  }

  lemma IdSideKept(st: Store, save: Save, prior: Option<Id>, isSpacer: bool, other: Save, i: Id)
    requires StoreInv(st) && (prior.Some? ==> prior.value in st.images) && SameSide(st, save, prior)
    requires IdSide(st, other, i)
    ensures IdSide(Write(st, save, prior, isSpacer), other, i)
  {
    WriteNames(st, save, prior, isSpacer, i, SPACER_BASE_IMAGE_CHANNEL_NAME);
  }

  lemma CommitInv(norm: Norm, s: System, k: nat, pick: Id, isSpacer: bool)
    requires Inv(s) && k < |s.waiting| && s.waiting[k].open && PickOk(s.st, s.waiting[k].save, s.waiting[k].ids, pick)
    ensures Inv(Step(norm, s, Commits(k, pick, isSpacer)))
  {
    var w := s.waiting[k];
    var prior := OldRow(norm, s.st, w.save, w.ids, pick);
    CommitPrior(norm, s.st, w, pick);
    WriteInv(s.st, w.save, prior, isSpacer);
    var s' := Step(norm, s, Commits(k, pick, isSpacer));
    forall m | 0 <= m < |s'.waiting| ensures WaitingInv(s'.st, s'.waiting[m]) {
      WaitingKept(s.st, w.save, prior, isSpacer, s.waiting[m]);
    }
  }

  lemma WriteInv(st: Store, save: Save, prior: Option<Id>, isSpacer: bool)
    requires StoreInv(st) && Writable(st, save, prior) && SameSide(st, save, prior)
    ensures StoreInv(Write(st, save, prior, isSpacer))
  {
    WriteKeys(st, save, prior, isSpacer);
    WriteOwners(st, save, prior, isSpacer);
    WriteSpacer(st, save, prior, isSpacer);
  }

  lemma WaitingKept(st: Store, save: Save, prior: Option<Id>, isSpacer: bool, w: Waiting)
    requires StoreInv(st) && (prior.Some? ==> prior.value in st.images) && SameSide(st, save, prior) && WaitingInv(st, w)
    ensures WaitingInv(Write(st, save, prior, isSpacer), w)
  {
    forall i | i in w.ids ensures IdSide(Write(st, save, prior, isSpacer), w.save, i) {
      IdSideKept(st, save, prior, isSpacer, w.save, i);
    }
  }

  lemma CommitPrior(norm: Norm, st: Store, w: Waiting, pick: Id)
    requires StoreInv(st) && WaitingInv(st, w)
    ensures var prior := OldRow(norm, st, w.save, w.ids, pick);
      Writable(st, w.save, prior) && SameSide(st, w.save, prior)
  {
    var prior := OldRow(norm, st, w.save, w.ids, pick);
    OldRowOk(norm, st, w.save, w.ids, pick);
    if prior.Some? {
      assert PureSpacer(st, prior.value);
      assert prior.value in w.ids ==> IdSide(st, w.save, prior.value);
      assert SameUnowned(st, prior.value, w.save.channelName) ==> HasName(st, prior.value, w.save.channelName);
    }
  }

  lemma RemoveInv(s: System, i: Id)
    requires Inv(s)
    ensures Inv(s.(st := Remove(s.st, i)))
  {
    var st, st' := s.st, Remove(s.st, i);
    assert forall j, n :: HasName(st', j, n) <==> j != i && HasName(st, j, n);
    forall j, n ensures NameKept(st', j, n) && NameSaved(st', j, n) {
      assert NameKept(st, j, n) && NameSaved(st, j, n);
    }
    forall j, k ensures OneOwner(st', j, k) {
      assert OneOwner(st, j, k);
    }
    forall j ensures PureSpacer(st', j) {
      assert PureSpacer(st, j);
    }
    forall m | 0 <= m < |s.waiting| ensures WaitingInv(st', s.waiting[m]) {
      assert WaitingInv(st, s.waiting[m]);
    }
  }

  lemma ReadsInv(norm: Norm, s: System, save: Save)
    requires Inv(s) && Sane(Reads(save))
    ensures Inv(Step(norm, s, Reads(save)))
  {
    var ids := LegacyIds(norm, s.st, save.channelName);
    forall i | i in ids ensures IdSide(s.st, save, i) {
      LegacyIdsIff(norm, s.st, save.channelName, i);
      var n :| HasName(s.st, i, n) && AliasMatches(norm, n, save.channelName);
      assert forall a :: a in s.st.aliases ==> a.1 < s.st.next;
      assert PureSpacer(s.st, i);
    }
  }

  lemma StepInv(norm: Norm, s: System, e: Event)
    requires Inv(s) && Sane(e)
    ensures Inv(Step(norm, s, e))
  {
    match e {
      case Reads(save) => ReadsInv(norm, s, save);
      case Commits(k, pick, isSpacer) =>
        if k < |s.waiting| && s.waiting[k].open && PickOk(s.st, s.waiting[k].save, s.waiting[k].ids, pick) {
          CommitInv(norm, s, k, pick, isSpacer);
        }
      case Deletes(i) => RemoveInv(s, i);
      case Syncs(cid, reference) => SyncInv(s, Step(norm, s, e));
    }
  }

  lemma SyncInv(s: System, s': System)
    requires Inv(s) && s' == s.(st := s.st.(references := s'.st.references))
    ensures Inv(s')
  {
    assert forall i, n :: HasName(s'.st, i, n) <==> HasName(s.st, i, n);
    forall i, n ensures NameKept(s'.st, i, n) && NameSaved(s'.st, i, n) {
      assert NameKept(s.st, i, n) && NameSaved(s.st, i, n);
    }
    forall i, j ensures OneOwner(s'.st, i, j) {
      assert OneOwner(s.st, i, j);
    }
    forall i ensures PureSpacer(s'.st, i) {
      assert PureSpacer(s.st, i);
    }
    forall m | 0 <= m < |s.waiting| ensures WaitingInv(s'.st, s.waiting[m]) {
      assert WaitingInv(s.st, s.waiting[m]);
    }
  }

  /** Every interleaving of saves, deletions and syncs keeps the invariant; in particular no
      channel ever owns two images. */
  lemma {:induction false} RunInv(norm: Norm, s: System, events: seq<Event>)
    requires Inv(s) && forall k :: 0 <= k < |events| ==> Sane(events[k])
    ensures Inv(Run(norm, s, events))
  {
    if events != [] {
      RunInv(norm, s, events[..|events| - 1]);
      StepInv(norm, Run(norm, s, events[..|events| - 1]), events[|events| - 1]);
    }
  }

  // ------------------------------------------------------------ the promises

  /** At most one image per channel, whatever interleaved. */
  lemma OneImagePerChannel(norm: Norm, s: System, events: seq<Event>, i: Id, j: Id, cid: Cid)
    requires Inv(s) && forall k :: 0 <= k < |events| ==> Sane(events[k])
    requires Owns(Run(norm, s, events).st, i, cid) && Owns(Run(norm, s, events).st, j, cid)
    ensures i == j
  {
    RunInv(norm, s, events);
    assert OneOwner(Run(norm, s, events).st, i, j);
  }

  /** A committed save for a channel is what the channel then shows; no other image changed, and
      the row it wrote was the channel's own, nobody's, or new. */
  lemma SaveReadsBack(norm: Norm, s: System, k: nat, pick: Id, isSpacer: bool, cid: Cid)
    requires Inv(s) && k < |s.waiting| && s.waiting[k].open && s.waiting[k].save.channelId == Some(cid)
    ensures var st' := Step(norm, s, Commits(k, pick, isSpacer)).st;
      && Owned(st', cid)
      && st'.images[OwnerOf(st', cid)].content == s.waiting[k].save.content
      && (forall j :: j in s.st.images && j != OwnerOf(st', cid) ==> j in st'.images && st'.images[j] == s.st.images[j])
      && (OwnerOf(st', cid) in s.st.images ==>
            s.st.images[OwnerOf(st', cid)].channelId == None || Owns(s.st, OwnerOf(st', cid), cid))
  {
    var w := s.waiting[k];
    var s' := Step(norm, s, Commits(k, pick, isSpacer));
    CommitInv(norm, s, k, pick, isSpacer);
    CommitPrior(norm, s.st, w, pick);
    var prior := OldRow(norm, s.st, w.save, w.ids, pick);
    var i := if prior.Some? then prior.value else s.st.next;
    assert Owns(s'.st, i, cid);
    assert OneOwner(s'.st, i, OwnerOf(s'.st, cid));
  }

  /** An image without owner is taken over only if it alone matched the name when the save read
      the table, and the channel alone has that name when it commits. */
  lemma AdoptionIsUnambiguous(norm: Norm, s: System, k: nat, pick: Id, isSpacer: bool, cid: Cid, i: Id)
    requires Inv(s) && k < |s.waiting| && s.waiting[k].open && s.waiting[k].save.channelId == Some(cid)
    requires i in s.st.images && s.st.images[i].channelId == None
    requires Owns(Step(norm, s, Commits(k, pick, isSpacer)).st, i, cid)
    ensures s.waiting[k].ids == {i}
    ensures SameName(norm, s.st, s.waiting[k].save.channelName) == {cid} && !Owned(s.st, cid)
  {
    OldRowOk(norm, s.st, s.waiting[k].save, s.waiting[k].ids, pick);
  }

  /** So an image is taken over by at most one channel: an owned one keeps its owner. */
  lemma {:induction false} OwnerIsForever(norm: Norm, s: System, events: seq<Event>, i: Id, cid: Cid)
    requires Inv(s) && (forall k :: 0 <= k < |events| ==> Sane(events[k])) && Owns(s.st, i, cid)
    ensures i in Run(norm, s, events).st.images ==> Owns(Run(norm, s, events).st, i, cid)
    ensures i < Run(norm, s, events).st.next
  {
    if events != [] {
      var before := Run(norm, s, events[..|events| - 1]);
      OwnerIsForever(norm, s, events[..|events| - 1], i, cid);
      RunInv(norm, s, events[..|events| - 1]);
      StepKeepsOwner(norm, before, events[|events| - 1], i, cid);
    }
  }

  lemma StepKeepsOwner(norm: Norm, s: System, e: Event, i: Id, cid: Cid)
    requires Inv(s) && Sane(e) && i < s.st.next && (i in s.st.images ==> Owns(s.st, i, cid))
    ensures var st' := Step(norm, s, e).st; i < st'.next && (i in st'.images ==> Owns(st', i, cid))
  {
    if e.Commits? && e.k < |s.waiting| && s.waiting[e.k].open {
      var w := s.waiting[e.k];
      OldRowOk(norm, s.st, w.save, w.ids, e.pick);
    }
  }

  /** A name leads to image `i`: the image was saved under a name that matches it. The empty name
      gets no alias, so it only counts while it is the current one. */
  ghost predicate LeadsTo(norm: Norm, st: Store, name: Name, i: Id)
    requires i in st.images && i in st.saved
  {
    exists n :: n in st.saved[i] && (n != "" || st.images[i].channelName == "") && AliasMatches(norm, n, name)
  }

  /** History of names, for every image and every name: the image is among those found under the
      name exactly if it was ever saved under a matching one, and then the name yields its
      current content or is reported as ambiguous. */
  lemma HistoryOfNames(norm: Norm, s: System, events: seq<Event>, i: Id, name: Name)
    requires Inv(s) && forall k :: 0 <= k < |events| ==> Sane(events[k])
    requires i in Run(norm, s, events).st.images
    ensures var st := Run(norm, s, events).st;
      && i in st.saved
      && (i in LegacyIds(norm, st, name) <==> LeadsTo(norm, st, name, i))
      && (LeadsTo(norm, st, name, i) ==>
            GetImage(norm, st, name) == Found(st.images[i].content) || GetImage(norm, st, name) == Ambiguous)
  {
    RunInv(norm, s, events);
    var st := Run(norm, s, events).st;
    FoundIff(norm, st, i, name);
    if i in LegacyIds(norm, st, name) {
      assert |LegacyIds(norm, st, name)| != 0;
    }
  }

  lemma FoundIff(norm: Norm, st: Store, i: Id, name: Name)
    requires StoreInv(st) && i in st.images && i in st.saved
    ensures i in LegacyIds(norm, st, name) <==> LeadsTo(norm, st, name, i)
  {
    LegacyIdsIff(norm, st, name, i);
    if n :| HasName(st, i, n) && AliasMatches(norm, n, name) {
      assert NameSaved(st, i, n);
      assert n in st.saved[i] && (n != "" || st.images[i].channelName == "");
    }
    if n :| n in st.saved[i] && (n != "" || st.images[i].channelName == "") && AliasMatches(norm, n, name) {
      assert NameKept(st, i, n);
      assert HasName(st, i, n) && AliasMatches(norm, n, name);
    }
  }

  // ------------------------------------------------------------ deleting

  /** `deleteImageByChannelId`: what it answers, and the row it removes. */
  ghost function DeleteImageByChannelId(norm: Norm, st: Store, cid: Cid): (bool, Store) {
    if Owned(st, cid) then (true, Remove(st, OwnerOf(st, cid)))
    else if cid !in st.references then (false, st)
    else match LegacyImageForChannel(norm, st, st.references[cid].name)
      case Some(i) => (true, Remove(st, i))
      case None => (false, st)
  }

  /** Delete removes exactly what is shown: it succeeds if and only if the public URL serves an
      image that is not the shared fallback, and removes the row that was served and no other;
      neither the spacer's row nor another channel's image ever goes. */
  lemma DeletesWhatIsShown(norm: Norm, st: Store, cid: Cid)
    requires StoreInv(st)
    ensures var shown := GetPublicImageByChannelId(norm, st, cid);
      var (done, st') := DeleteImageByChannelId(norm, st, cid);
      && (done <==> shown.Own? || shown.Legacy?)
      && (!done ==> st' == st)
      && (done ==>
            && shown.row in st.images
            && st'.images == st.images - {shown.row}
            && (st.images[shown.row].channelId == None || Owns(st, shown.row, cid))
            && !HasName(st, shown.row, SPACER_BASE_IMAGE_CHANNEL_NAME))
  {
    var shown := GetPublicImageByChannelId(norm, st, cid);
    if shown.Own? || shown.Legacy? {
      assert PureSpacer(st, shown.row);
      if shown.Legacy? {
        var name := st.references[cid].name;
        LegacyIdsIff(norm, st, name, shown.row);
        assert shown.row in LegacyIds(norm, st, name);
        var n :| HasName(st, shown.row, n) && AliasMatches(norm, n, name);
        assert n != SPACER_BASE_IMAGE_CHANNEL_NAME;
      }
    }
  }

  /** After it, the channel shows nothing of its own any more. */
  lemma DeleteThenGone(norm: Norm, st: Store, cid: Cid)
    requires StoreInv(st) && Owned(st, cid)
    ensures !Owned(DeleteImageByChannelId(norm, st, cid).1, cid)
  {
    var i := OwnerOf(st, cid);
    var st' := Remove(st, i);
    forall j | j in st'.images ensures !Owns(st', j, cid) {
      assert OneOwner(st, i, j);
    }
  }

  // ------------------------------------------------------------ the shared spacer row

  /** A save finds the spacer's row exactly if it is made under the reserved name itself. */
  lemma SpacerFoundIff(norm: Norm, st: Store, i: Id, name: Name)
    requires StoreInv(st) && HasName(st, i, SPACER_BASE_IMAGE_CHANNEL_NAME)
    ensures i in LegacyIds(norm, st, name) <==> name == SPACER_BASE_IMAGE_CHANNEL_NAME
  {
    assert PureSpacer(st, i);
    LegacyIdsIff(norm, st, name, i);
    assert AliasMatches(norm, SPACER_BASE_IMAGE_CHANNEL_NAME, SPACER_BASE_IMAGE_CHANNEL_NAME);
  }

  /** Only row `i` bears the reserved name, and channel `cid` alone is called like it and owns no
      image. */
  ghost predicate SpacerExposed(norm: Norm, st: Store, i: Id, cid: Cid) {
    && LegacyIds(norm, st, SPACER_BASE_IMAGE_CHANNEL_NAME) == {i}
    && SameName(norm, st, SPACER_BASE_IMAGE_CHANNEL_NAME) == {cid} && !Owned(st, cid)
  }

  /** A channel's save takes the shared spacer row over if and only if it is made under the
      reserved name, by the only channel of a name like it, which owns no image yet. */
  lemma SpacerAdoptedIff(norm: Norm, s: System, save: Save, pick: Id, isSpacer: bool, i: Id, cid: Cid)
    requires StoreInv(s.st) && HasName(s.st, i, SPACER_BASE_IMAGE_CHANNEL_NAME) && save.channelId == Some(cid)
    ensures var s' := Step(norm, Step(norm, s, Reads(save)), Commits(|s.waiting|, pick, isSpacer));
      Owns(s'.st, i, cid) <==> save.channelName == SPACER_BASE_IMAGE_CHANNEL_NAME && SpacerExposed(norm, s.st, i, cid)
  {
    var ids := LegacyIds(norm, s.st, save.channelName);
    SpacerFoundIff(norm, s.st, i, save.channelName);
    CommitAdoptsIff(norm, s.st, save, ids, pick, isSpacer, i, cid);
  }

  lemma CommitAdoptsIff(norm: Norm, st: Store, save: Save, ids: set<Id>, pick: Id, isSpacer: bool, i: Id, cid: Cid)
    requires StoreInv(st) && HasName(st, i, SPACER_BASE_IMAGE_CHANNEL_NAME) && save.channelId == Some(cid)
    ensures var prior := OldRow(norm, st, save, ids, pick);
      && (prior.Some? ==> prior.value in st.images)
      && (Owns(Write(st, save, prior, isSpacer), i, cid) <==>
            !Owned(st, cid) && ids == {i} && SameName(norm, st, save.channelName) == {cid})
  {
    assert PureSpacer(st, i);
    OldRowOk(norm, st, save, ids, pick);
    if ids == {i} {
      assert |ids| == 1 && Only(ids) == i;
    }
  }

  const FRESH := System(Store(map[], {}, map[], 0, map[]), [])

  /** How it happens: the spacer's image is stored, and a channel literally called like it is listed; */
  ghost function SpacerAndNamesake(norm: Norm, base: Content, cid: Cid, isSpacer: bool): System {
    var name := SPACER_BASE_IMAGE_CHANNEL_NAME;
    var stored := Step(norm, Step(norm, FRESH, Reads(Save(name, base, None))), Commits(0, 0, isSpacer));
    Step(norm, stored, Syncs(cid, Some(Reference(name, isSpacer))))
  }

  /** the tables then. */
  function Listed(base: Content, cid: Cid, isSpacer: bool): Store {
    var name := SPACER_BASE_IMAGE_CHANNEL_NAME;
    Store(map[0 := ImageRow(name, base, None)], {(name, 0)}, map[cid := Reference(name, isSpacer)], 1, map[0 := {name}])
  }

  lemma ListedFacts(norm: Norm, base: Content, cid: Cid, isSpacer: bool)
    ensures var st := Listed(base, cid, isSpacer);
      && StoreInv(st) && HasName(st, 0, SPACER_BASE_IMAGE_CHANNEL_NAME)
      && SpacerExposed(norm, st, 0, cid)
  {
    var st := Listed(base, cid, isSpacer);
    assert LegacyIds(norm, st, SPACER_BASE_IMAGE_CHANNEL_NAME) == {0};
    assert SameName(norm, st, SPACER_BASE_IMAGE_CHANNEL_NAME) == {cid};
    assert !Owned(st, cid);
  }

  lemma SpacerStored(norm: Norm, base: Content, isSpacer: bool)
    ensures var name := SPACER_BASE_IMAGE_CHANNEL_NAME;
      var s := Step(norm, Step(norm, FRESH, Reads(Save(name, base, None))), Commits(0, 0, isSpacer));
      && s.st == Store(map[0 := ImageRow(name, base, None)], {(name, 0)}, map[], 1, map[0 := {name}]) && |s.waiting| == 1
  {
    var name := SPACER_BASE_IMAGE_CHANNEL_NAME;
    assert LegacyIds(norm, FRESH.st, name) == {};
    var s1 := Step(norm, FRESH, Reads(Save(name, base, None)));
    assert s1.waiting == [Waiting(Save(name, base, None), {}, true)];
    assert OldRow(norm, FRESH.st, s1.waiting[0].save, {}, 0) == None;
    var st := Write(FRESH.st, s1.waiting[0].save, None, isSpacer);
    assert st.images == map[0 := ImageRow(name, base, None)] && st.aliases == {(name, 0)} && st.saved == map[0 := {name}];
  }

  /** When that channel's image is uploaded, the channel owns the shared row. */
  lemma SpacerCanBeAdopted(norm: Norm, base: Content, own: Content, cid: Cid, isSpacer: bool)
    ensures var s := SpacerAndNamesake(norm, base, cid, isSpacer);
      var save := Save(SPACER_BASE_IMAGE_CHANNEL_NAME, own, Some(cid));
      Owns(Step(norm, Step(norm, s, Reads(save)), Commits(1, 0, isSpacer)).st, 0, cid)
  {
    SpacerStored(norm, base, isSpacer);
    ListedFacts(norm, base, cid, isSpacer);
    var s := SpacerAndNamesake(norm, base, cid, isSpacer);
    assert s.st == Listed(base, cid, isSpacer) && |s.waiting| == 1;
    SpacerAdoptedIff(norm, s, Save(SPACER_BASE_IMAGE_CHANNEL_NAME, own, Some(cid)), 0, isSpacer, 0, cid);
  }
}
