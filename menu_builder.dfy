/** What `RepopulateEntities` puts in the menu, as functions of the
    collaborators and the candidates, and the properties of that list. */
module MenuBuilder {
  import opened Wrappers
  import opened EntityStore
  import opened Visibility

  /** One item of the context menu: the reference it targets, its name and
      its icon. */
  datatype MenuEntry = MenuEntry(target: ObjectReference, name: string, icon: Icon)

  /** The parent rule: an entity with a transform must sit directly on a grid;
      an entity with no transform is not held back by this rule. */
  predicate OnMap(info: EntityInfo) {
    info.transform.None? || info.transform.value.parentIsGrid
  }

  /** A sprite is clickable unless its appearance is transparent to the mouse;
      a sprite whose icon has no appearance is clickable. */
  predicate Clickable(sprite: Sprite) {
    sprite.icon.appearance.None? || sprite.icon.appearance.value.mouseOpacity != Transparent
  }

  /** An entity is offered when it passes every eligibility check. */
  predicate EntityEligible(info: EntityInfo, sight: SByte) {
    && OnMap(info)
    && info.sprite.Some?
    && Clickable(info.sprite.value)
    && sight in info.sprite.value.visibleAt
    && info.name != ""
  }

  /** A turf candidate is offered when a turf id was given, the appearance
      system exists and the icon of that turf id has an appearance. */
  predicate TurfOffered(w: World, turfId: Option<TurfId>) {
    && turfId.Some?
    && w.appearanceSystem.Some?
    && w.appearanceSystem.value.turfIcon(turfId.value).appearance.Some?
  }

  /** The items one candidate contributes, following the source's chain of
      early exits in order. */
  function EntryFor(w: World, sight: SByte, r: ObjectReference, turfId: Option<TurfId>): (es: seq<MenuEntry>)
    ensures r.Entity? ==>
      var info := Components(w, r.entity);
      es == if EntityEligible(info, sight) then [MenuEntry(r, info.name, info.sprite.value.icon)] else []
    ensures r.Turf? ==>
      es == if TurfOffered(w, turfId) then
              var icon := w.appearanceSystem.value.turfIcon(turfId.value);
              [MenuEntry(r, icon.appearance.value.name, icon)]
            else []
    ensures r.OtherRef? ==> es == []
  {
    match r
    case Entity(id) =>
      var info := Components(w, id);
      if info.transform.Some? && !info.transform.value.parentIsGrid then []
      else if info.sprite.None? then []
      else if info.sprite.value.icon.appearance.Some? && info.sprite.value.icon.appearance.value.mouseOpacity == Transparent then []
      else if sight !in info.sprite.value.visibleAt then []
      else if info.name == "" then []
      else [MenuEntry(r, info.name, info.sprite.value.icon)]
    case Turf(_) =>
      if turfId.Some? && w.appearanceSystem.Some? then
        var icon := w.appearanceSystem.value.turfIcon(turfId.value);
        if icon.appearance.None? then [] else [MenuEntry(r, icon.appearance.value.name, icon)]
      else []
    case OtherRef => []
  }

  /** The items of all candidates, in candidate order. */
  function Entries(w: World, sight: SByte, refs: seq<ObjectReference>, turfId: Option<TurfId>): (es: seq<MenuEntry>)
    ensures |es| <= |refs|
    decreases |refs|
  {
    if refs == [] then []
    else Entries(w, sight, refs[..|refs| - 1], turfId) + EntryFor(w, sight, refs[|refs| - 1], turfId)
  }

  /** The menu after `RepopulateEntities(refs, turfId)`: rebuilt from nothing,
      and left empty when there is no transform system. */
  function Build(w: World, refs: seq<ObjectReference>, turfId: Option<TurfId>): (es: seq<MenuEntry>)
    ensures !w.hasTransformSystem ==> es == []
    ensures |es| <= |refs|
  {
    if !w.hasTransformSystem then [] else Entries(w, SeeInvisible(w), refs, turfId)
  }

  /** The number of candidates that contribute an item, counted front to back. */
  function Survivors(w: World, sight: SByte, refs: seq<ObjectReference>, turfId: Option<TurfId>): nat
  {
    if refs == [] then 0
    else (if EntryFor(w, sight, refs[0], turfId) == [] then 0 else 1) + Survivors(w, sight, refs[1..], turfId)
  }

  lemma {:induction false} SurvivorsAppend(w: World, sight: SByte, refs: seq<ObjectReference>, r: ObjectReference, turfId: Option<TurfId>)
    ensures Survivors(w, sight, refs + [r], turfId)
         == Survivors(w, sight, refs, turfId) + |EntryFor(w, sight, r, turfId)|
  {
    if refs == [] {
      assert [r][1..] == [];
    } else {
      assert (refs + [r])[1..] == refs[1..] + [r];
      SurvivorsAppend(w, sight, refs[1..], r, turfId);
    }
  }

  /** The menu holds exactly one item per candidate that passes. */
  lemma {:induction false} EntriesCount(w: World, sight: SByte, refs: seq<ObjectReference>, turfId: Option<TurfId>)
    ensures |Entries(w, sight, refs, turfId)| == Survivors(w, sight, refs, turfId)
    decreases |refs|
  {
    if refs != [] {
      var n := |refs| - 1;
      EntriesCount(w, sight, refs[..n], turfId);
      assert refs[..n] + [refs[n]] == refs;
      SurvivorsAppend(w, sight, refs[..n], refs[n], turfId);
    }
  }

  /** `idx` picks the items `es` out of the candidates `refs`: item k is the
      item of candidate idx[k], the positions strictly increase (so there is no
      reordering and at most one item per candidate), and every candidate that
      contributes an item has its position in idx. */
  ghost predicate Picks(w: World, sight: SByte, refs: seq<ObjectReference>, turfId: Option<TurfId>,
                        es: seq<MenuEntry>, idx: seq<nat>)
  {
    && |idx| == |es|
    && (forall k :: 0 <= k < |idx| ==> idx[k] < |refs| && EntryFor(w, sight, refs[idx[k]], turfId) == [es[k]])
    && (forall j, k :: 0 <= j < k < |idx| ==> idx[j] < idx[k])
    && (forall i :: 0 <= i < |refs| && EntryFor(w, sight, refs[i], turfId) != [] ==> i in idx)
  }

  /** A candidate that contributes nothing leaves the picking unchanged. */
  lemma PicksSkip(w: World, sight: SByte, refs: seq<ObjectReference>, turfId: Option<TurfId>,
                  es: seq<MenuEntry>, idx: seq<nat>)
    requires refs != []
    requires Picks(w, sight, refs[..|refs| - 1], turfId, es, idx)
    requires EntryFor(w, sight, refs[|refs| - 1], turfId) == []
    ensures Picks(w, sight, refs, turfId, es, idx)
  {
  }

  /** A candidate that contributes an item adds its position at the end. */
  lemma PicksAppend(w: World, sight: SByte, refs: seq<ObjectReference>, turfId: Option<TurfId>,
                    es: seq<MenuEntry>, idx: seq<nat>, e: MenuEntry)
    requires refs != []
    requires Picks(w, sight, refs[..|refs| - 1], turfId, es, idx)
    requires EntryFor(w, sight, refs[|refs| - 1], turfId) == [e]
    ensures Picks(w, sight, refs, turfId, es + [e], idx + [|refs| - 1])
  {
  }

  /** The items of a rebuild are a subsequence of the candidates, in
      candidate order, one per candidate that passes. */
  lemma {:induction false} EntriesSubsequence(w: World, sight: SByte, refs: seq<ObjectReference>, turfId: Option<TurfId>)
    returns (idx: seq<nat>)
    ensures Picks(w, sight, refs, turfId, Entries(w, sight, refs, turfId), idx)
    decreases |refs|
  {
    if refs == [] {
      idx := [];
    } else {
      var n := |refs| - 1;
      var before := EntriesSubsequence(w, sight, refs[..n], turfId);
      var last := EntryFor(w, sight, refs[n], turfId);
      if last == [] {
        PicksSkip(w, sight, refs, turfId, Entries(w, sight, refs[..n], turfId), before);
        idx := before;
      } else {
        PicksAppend(w, sight, refs, turfId, Entries(w, sight, refs[..n], turfId), before, last[0]);
        idx := before + [n];
      }
    }
  }

  /** The rebuilt menu is a subsequence of the candidates, and is empty when
      there is no transform system. */
  lemma BuildSubsequence(w: World, refs: seq<ObjectReference>, turfId: Option<TurfId>)
    returns (idx: seq<nat>)
    ensures w.hasTransformSystem ==> Picks(w, SeeInvisible(w), refs, turfId, Build(w, refs, turfId), idx)
    ensures !w.hasTransformSystem ==> idx == []
  {
    if w.hasTransformSystem {
      idx := EntriesSubsequence(w, SeeInvisible(w), refs, turfId);
    } else {
      idx := [];
    }
  }

  /** Every item of the rebuilt menu targets a candidate that passed its
      checks, with the name and icon those checks looked at. */
  lemma {:induction false} EntriesSound(w: World, sight: SByte, refs: seq<ObjectReference>, turfId: Option<TurfId>, e: MenuEntry)
    requires e in Entries(w, sight, refs, turfId)
    ensures e.target in refs
    ensures e.target.Entity? ==>
      var info := Components(w, e.target.entity);
      EntityEligible(info, sight) && e.name == info.name && e.icon == info.sprite.value.icon
    ensures e.target.Turf? ==>
      && TurfOffered(w, turfId)
      && e.icon == w.appearanceSystem.value.turfIcon(turfId.value)
      && e.name == e.icon.appearance.value.name
    ensures !e.target.OtherRef?
    decreases |refs|
  {
    var n := |refs| - 1;
    if e in Entries(w, sight, refs[..n], turfId) {
      EntriesSound(w, sight, refs[..n], turfId, e);
      assert refs[..n] <= refs;
    } else {
      assert e in EntryFor(w, sight, refs[n], turfId);
    }
  }

  /** Every candidate that passes its checks appears in the rebuilt menu. */
  lemma {:induction false} EntriesComplete(w: World, sight: SByte, refs: seq<ObjectReference>, turfId: Option<TurfId>, i: nat)
    requires i < |refs|
    requires EntryFor(w, sight, refs[i], turfId) != []
    ensures EntryFor(w, sight, refs[i], turfId)[0] in Entries(w, sight, refs, turfId)
    decreases |refs|
  {
    var n := |refs| - 1;
    if i < n {
      assert refs[..n][i] == refs[i];
      EntriesComplete(w, sight, refs[..n], turfId, i);
    }
  }

  /** An entity nested under a non-grid parent never appears, and neither does
      one that fails any other check: no sprite, transparent to the mouse,
      invisible at the observer's level, or without a name. */
  lemma IneligibleEntityNeverListed(w: World, refs: seq<ObjectReference>, turfId: Option<TurfId>, id: EntityId)
    requires !EntityEligible(Components(w, id), SeeInvisible(w))
    ensures forall e :: e in Build(w, refs, turfId) ==> e.target != Entity(id)
  {
    forall e | e in Build(w, refs, turfId)
      ensures e.target != Entity(id)
    {
      EntriesSound(w, SeeInvisible(w), refs, turfId, e);
    }
  }

  /** An entity with no transform is listed when it passes the other checks:
      the parent rule does not hold it back. */
  lemma UntransformedEntityListed(w: World, refs: seq<ObjectReference>, turfId: Option<TurfId>, i: nat)
    requires w.hasTransformSystem
    requires i < |refs| && refs[i].Entity?
    requires Components(w, refs[i].entity).transform.None?
    requires Components(w, refs[i].entity).sprite.Some?
    requires Clickable(Components(w, refs[i].entity).sprite.value)
    requires SeeInvisible(w) in Components(w, refs[i].entity).sprite.value.visibleAt
    requires Components(w, refs[i].entity).name != ""
    ensures var info := Components(w, refs[i].entity);
      MenuEntry(refs[i], info.name, info.sprite.value.icon) in Build(w, refs, turfId)
  {
    EntriesComplete(w, SeeInvisible(w), refs, turfId, i);
  }

  /** Every turf item of one rebuild has the same name and icon, those of the
      turf id passed in, whatever turf the reference itself names. */
  lemma TurfEntriesShareName(w: World, refs: seq<ObjectReference>, turfId: Option<TurfId>, e1: MenuEntry, e2: MenuEntry)
    requires e1 in Build(w, refs, turfId) && e2 in Build(w, refs, turfId)
    requires e1.target.Turf? && e2.target.Turf?
    ensures e1.name == e2.name && e1.icon == e2.icon
    ensures TurfOffered(w, turfId) && e1.icon == w.appearanceSystem.value.turfIcon(turfId.value)
  {
    EntriesSound(w, SeeInvisible(w), refs, turfId, e1);
    EntriesSound(w, SeeInvisible(w), refs, turfId, e2);
  }

  /** A turf id with no appearance system, or no turf id at all, adds no turf
      item; with both, a turf candidate is labelled with the appearance name of
      the turf id given, here "Floor" for turf id 42 whatever the reference. */
  lemma FloorExample(icon: Icon, turf: TurfId)
    requires icon.appearance == Some(Appearance("Floor", Opaque))
    ensures var w := World(map[], None, true, Some(AppearanceSystem(_ => icon)));
      && Build(w, [Turf(turf)], Some(42)) == [MenuEntry(Turf(turf), "Floor", icon)]
      && Build(w, [Turf(turf)], None) == []
      && Build(w.(appearanceSystem := None), [Turf(turf)], Some(42)) == []
      && Build(w, [], Some(42)) == []
  {
  }
}
