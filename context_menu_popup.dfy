/** The context menu popup: the list of items it shows and the one verb
    submenu it keeps open in the interface's modal root. */
module ContextMenu {
  import opened Wrappers
  import opened EntityStore
  import opened Visibility
  import opened MenuBuilder

  /** The controls `children` without those in `owned`, in order. */
  function Owned<T(==)>(children: seq<T>, owned: set<T>): (r: seq<T>)
    ensures forall i :: 0 <= i < |r| ==> r[i] in children && r[i] in owned
    ensures forall i :: 0 <= i < |children| && children[i] in owned ==> children[i] in r
    ensures |r| <= |children|
  {
    if children == [] then []
    else (if children[0] in owned then [children[0]] else []) + Owned(children[1..], owned)
  }

  /** `RemoveChild`: the controls without `x`. */
  function Without<T(==)>(children: seq<T>, x: T): (r: seq<T>)
    ensures forall i :: 0 <= i < |r| ==> r[i] in children && r[i] != x
    ensures forall i :: 0 <= i < |children| && children[i] != x ==> children[i] in r
    ensures |r| <= |children|
  {
    if children == [] then []
    else (if children[0] == x then [] else [children[0]]) + Without(children[1..], x)
  }

  lemma {:induction false} OwnedAppend<T>(a: seq<T>, b: seq<T>, owned: set<T>)
    ensures Owned(a + b, owned) == Owned(a, owned) + Owned(b, owned)
  {
    if a == [] {
      assert a + b == b;
    } else {
      assert (a + b)[0] == a[0];
      assert (a + b)[1..] == a[1..] + b;
      OwnedAppend(a[1..], b, owned);
    }
  }

  /** A popup that has spawned nothing owns no control. */
  lemma {:induction false} OwnedNothing<T>(children: seq<T>)
    ensures Owned(children, {}) == []
  {
    if children != [] {
      OwnedNothing(children[1..]);
    }
  }

  /** Removing a control and then keeping the owned ones is the same as
      keeping the owned ones and then removing it. */
  lemma {:induction false} OwnedWithout<T>(children: seq<T>, x: T, owned: set<T>)
    ensures Owned(Without(children, x), owned) == Without(Owned(children, owned), x)
  {
    if children != [] {
      var c, rest := children[0], children[1..];
      OwnedWithout(rest, x, owned);
      var kept := if c == x then [] else [c];
      assert Without(children, x) == kept + Without(rest, x);
      OwnedAppend(kept, Without(rest, x), owned);
      var mine := if c in owned then [c] else [];
      assert Owned(children, owned) == mine + Owned(rest, owned);
      WithoutAppend(mine, Owned(rest, owned), x);
    }
  }

  lemma {:induction false} WithoutAppend<T>(a: seq<T>, b: seq<T>, x: T)
    ensures Without(a + b, x) == Without(a, x) + Without(b, x)
  {
    if a == [] {
      assert a + b == b;
    } else {
      assert (a + b)[0] == a[0];
      assert (a + b)[1..] == a[1..] + b;
      WithoutAppend(a[1..], b, x);
    }
  }

  /** Owning one more control changes nothing when it is not a child. */
  lemma {:induction false} OwnedIgnoresAbsent<T>(children: seq<T>, x: T, owned: set<T>)
    requires x !in children
    ensures Owned(children, owned + {x}) == Owned(children, owned)
  {
    if children != [] {
      OwnedIgnoresAbsent(children[1..], x, owned);
    }
  }

  /** The interface manager's modal root: a layer of controls drawn above
      everything else. */
  class ModalRoot {
    var children: seq<object>

    constructor (children: seq<object>)
      ensures this.children == children
    {
      this.children := children;
    }
  }

  /** A verb submenu for one target, spawned at one sight level, anchored beside
      the item it was spawned from. */
  class VerbMenu {
    const target: ObjectReference
    const seeInvisible: SByte
    const anchor: MenuEntry

    constructor (seeInvisible: SByte, anchor: MenuEntry)
      ensures this.target == anchor.target
      ensures this.seeInvisible == seeInvisible && this.anchor == anchor
    {
      this.target := anchor.target;
      this.seeInvisible := seeInvisible;
      this.anchor := anchor;
    }
  }

  class ContextMenuPopup {
    const modalRoot: ModalRoot
    /** The items the menu shows, in order. */
    var menu: seq<MenuEntry>
    var currentVerbMenu: Option<VerbMenu>
    /** Every verb menu this popup has spawned. */
    var spawned: set<object>
    /** The verb menus this popup has closed. */
    var closedMenus: set<object>
    /** The verb menus whose selection event closes this popup. */
    var closesOnSelect: set<object>
    /** Whether this popup has been asked to close. */
    var closeRequested: bool

    /** At most one verb menu of this popup is in the modal root: the current
        one, which is open and wired to close the popup; every earlier one is
        closed. */
    ghost predicate Valid()
      reads this, modalRoot
    {
      && Owned(modalRoot.children, spawned) == (if currentVerbMenu.Some? then [currentVerbMenu.value as object] else [])
      && closedMenus <= spawned
      && (currentVerbMenu.Some? ==>
            && currentVerbMenu.value in spawned
            && currentVerbMenu.value !in closedMenus
            && currentVerbMenu.value in closesOnSelect)
      && (forall m :: m in spawned && m !in closedMenus ==> currentVerbMenu.Some? && currentVerbMenu.value == m)
    }

    constructor (modalRoot: ModalRoot)
      ensures Valid()
      ensures this.modalRoot == modalRoot
      ensures menu == [] && currentVerbMenu == None
      ensures spawned == {} && closedMenus == {} && closesOnSelect == {} && !closeRequested
    {
      this.modalRoot := modalRoot;
      OwnedNothing(modalRoot.children);
      menu := [];
      currentVerbMenu := None;
      spawned := {};
      closedMenus := {};
      closesOnSelect := {};
      closeRequested := false;
    }

    /** The number of items the menu shows. */
    function EntityCount(): nat
      reads this
    {
      |menu|
    }

    /** Clears the menu, then appends, in candidate order, an item for each
        candidate that passes its checks. */
    method RepopulateEntities(w: World, refs: seq<ObjectReference>, turfId: Option<TurfId>)
      modifies this`menu
      ensures menu == Build(w, refs, turfId)
      ensures EntityCount() == if w.hasTransformSystem then Survivors(w, SeeInvisible(w), refs, turfId) else 0
    {
      menu := [];
      if !w.hasTransformSystem {
        return;
      }
      for i := 0 to |refs|
        invariant menu == Entries(w, SeeInvisible(w), refs[..i], turfId)
      {
        var r := refs[i];
        assert refs[..i + 1] == refs[..i] + [r];
        match r
        case Entity(id) =>
          var info := Components(w, id);
          if info.transform.Some? && !info.transform.value.parentIsGrid {
            continue;
          }
          if info.sprite.None? {
            continue;
          }
          var sprite := info.sprite.value;
          if sprite.icon.appearance.Some? && sprite.icon.appearance.value.mouseOpacity == Transparent {
            continue;
          }
          if SeeInvisible(w) !in sprite.visibleAt {
            continue;
          }
          if info.name == "" {
            continue;
          }
          menu := menu + [MenuEntry(r, info.name, sprite.icon)];
        case Turf(_) =>
          if turfId.Some? && w.appearanceSystem.Some? {
            var icon := w.appearanceSystem.value.turfIcon(turfId.value);
            if icon.appearance.None? {
              continue;
            }
            menu := menu + [MenuEntry(r, icon.appearance.value.name, icon)];
          }
        case OtherRef =>
      }
      assert refs[..|refs|] == refs;
      EntriesCount(w, SeeInvisible(w), refs, turfId);
    }

    /** Closes and detaches the current verb menu, if any, then opens a new one
        for the item's target in the modal root, wired to close this popup. */
    method SetActiveItem(w: World, item: MenuEntry)
      requires Valid()
      modifies this, modalRoot
      ensures Valid()
      ensures currentVerbMenu.Some? && fresh(currentVerbMenu.value)
      ensures currentVerbMenu.value.target == item.target
      ensures currentVerbMenu.value.seeInvisible == SeeInvisible(w)
      ensures currentVerbMenu.value.anchor == item
      ensures Owned(modalRoot.children, spawned) == [currentVerbMenu.value as object]
      ensures match old(currentVerbMenu)
        case None =>
          && modalRoot.children == old(modalRoot.children) + [currentVerbMenu.value]
          && closedMenus == old(closedMenus)
        case Some(previous) =>
          && modalRoot.children == Without(old(modalRoot.children), previous) + [currentVerbMenu.value]
          && closedMenus == old(closedMenus) + {previous}
          && previous !in modalRoot.children
      ensures spawned == old(spawned) + {currentVerbMenu.value}
      ensures closesOnSelect == old(closesOnSelect) + {currentVerbMenu.value}
      ensures menu == old(menu) && closeRequested == old(closeRequested)
    {
      if currentVerbMenu.Some? {
        var previous := currentVerbMenu.value;
        closedMenus := closedMenus + {previous};
        OwnedWithout(modalRoot.children, previous, spawned);
        modalRoot.children := Without(modalRoot.children, previous);
      }
      assert Owned(modalRoot.children, spawned) == [];

      var verbMenu := new VerbMenu(SeeInvisible(w), item);
      currentVerbMenu := Some(verbMenu);
      OwnedIgnoresAbsent(modalRoot.children, verbMenu, spawned);
      spawned := spawned + {verbMenu};
      closesOnSelect := closesOnSelect + {verbMenu};

      OwnedAppend(modalRoot.children, [verbMenu], spawned);
      modalRoot.children := modalRoot.children + [verbMenu];
    }

    /** The selection event of a verb menu: closes this popup when that menu
        was wired to it. */
    method VerbSelected(m: VerbMenu)
      modifies this`closeRequested
      ensures closeRequested == (old(closeRequested) || m in closesOnSelect)
    {
      if m in closesOnSelect {
        closeRequested := true;
      }
    }
  }
}
