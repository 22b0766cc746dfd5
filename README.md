# Context menu popup of the OpenDream client

This project models the logic of OpenDream's client-side context menu popup
(`ContextMenuPopup`): the list of entities and turfs it offers after a click,
the see-invisible level it judges visibility with, and the single verb submenu
it keeps open in the interface's modal root. It is written in Dafny 4.11 and
every contract is proved.

- `wrappers.dfy` — `Option`.
- `entity_store.dfy` — the collaborators as plain data (`World`): the entity
  store with the transform, sprite, sight and metadata components the popup
  reads, the local session, and whether the transform and appearance systems
  exist. `sbyte` is the newtype `SByte`.
- `visibility.dfy` — `SeeInvisible`, the observer's see-invisible level.
- `menu_builder.dfy` — what `RepopulateEntities` leaves in the menu, as the
  functions `EntryFor` (one candidate, the source's chain of early exits),
  `Entries` and `Build`, and the lemmas about them: subsequence and order,
  soundness and completeness of the checks, the count, the turf quirk.
- `context_menu_popup.dfy` — the popup as a class. `RepopulateEntities` clears
  the `menu` field and appends to it in a loop, proved equal to `Build`.
  `SetActiveItem` closes and detaches the previous verb menu, then creates,
  wires and attaches a new one; its object invariant `Valid()` says that the
  only verb menu of this popup in the modal root is the current one.

Behaviour kept from the code:
- An entity with no transform component is not held back by the parent rule.
- A sprite whose icon has no appearance is not treated as mouse-transparent.
- Every turf item of one call takes its name and icon from the turf id passed
  in, not from the reference's own turf, so all turf items of a call are alike.
- A turf item needs a Turf reference among the candidates: a turf id given
  with no Turf candidate adds nothing (`FloorExample`).
- Activating the same item again still closes and replaces the verb menu.

## Model

| member | source | states |
|---|---|---|
| `EntityStore.Components` | OpenDreamClient/Input/ContextMenu/ContextMenuPopup.xaml.cs:54-57 | an entity the store does not know has no sprite and no transform, so it is skipped |
| `Visibility.ObserverSight` | OpenDreamClient/Input/ContextMenu/ContextMenuPopup.xaml.cs:96-98 | a sight component is found only through a local session that is attached to an entity having one |
| `Visibility.SeeInvisible` | OpenDreamClient/Input/ContextMenu/ContextMenuPopup.xaml.cs:95-102 | 127 when there is no session, no attached entity or no sight component; otherwise exactly that component's level |
| `MenuBuilder.EntryFor` | OpenDreamClient/Input/ContextMenu/ContextMenuPopup.xaml.cs:53-74 | an entity yields its one item (metadata name, sprite icon) exactly when it passes all five checks; a turf yields one item named by the appearance of the given turf id's icon exactly when a turf id, the appearance system and that appearance exist; any other reference yields nothing |
| `MenuBuilder.Entries` | OpenDreamClient/Input/ContextMenu/ContextMenuPopup.xaml.cs:52-75 | the loop adds at most one item per candidate |
| `MenuBuilder.Build` | OpenDreamClient/Input/ContextMenu/ContextMenuPopup.xaml.cs:46-76 | the menu is empty without a transform system and never longer than the candidate list |
| `MenuBuilder.EntriesCount` | OpenDreamClient/Input/ContextMenu/ContextMenuPopup.xaml.cs:52-75 | the number of items equals the number of candidates that pass, counted independently |
| `MenuBuilder.EntriesSubsequence` | OpenDreamClient/Input/ContextMenu/ContextMenuPopup.xaml.cs:52-75 | the items are picked from strictly increasing candidate positions, each being the item of its candidate, and every passing candidate is picked |
| `MenuBuilder.BuildSubsequence` | OpenDreamClient/Input/ContextMenu/ContextMenuPopup.xaml.cs:46-76 | the same for the whole call, at the observer's level, with nothing picked without a transform system |
| `MenuBuilder.EntriesSound` | OpenDreamClient/Input/ContextMenu/ContextMenuPopup.xaml.cs:53-74 | each item targets a candidate; an entity item's entity passes every check and carries its name and sprite icon; a turf item carries the given turf id's icon and its appearance name; no item targets another reference kind |
| `MenuBuilder.EntriesComplete` | OpenDreamClient/Input/ContextMenu/ContextMenuPopup.xaml.cs:52-75 | every candidate that passes its checks has its item in the menu |
| `MenuBuilder.IneligibleEntityNeverListed` | OpenDreamClient/Input/ContextMenu/ContextMenuPopup.xaml.cs:55-66 | an entity nested under a non-grid parent, without sprite, mouse-transparent, invisible at the observer's level or unnamed never appears |
| `MenuBuilder.UntransformedEntityListed` | OpenDreamClient/Input/ContextMenu/ContextMenuPopup.xaml.cs:55-56 | an entity with no transform that passes the other checks does appear |
| `MenuBuilder.TurfEntriesShareName` | OpenDreamClient/Input/ContextMenu/ContextMenuPopup.xaml.cs:69-73 | all turf items of one call have the same name and icon, those of the turf id passed in |
| `MenuBuilder.FloorExample` | OpenDreamClient/Input/ContextMenu/ContextMenuPopup.xaml.cs:69-73 | a Turf candidate with turf id 42 whose appearance is "Floor" gives one item "Floor"; without a turf id, an appearance system or a Turf candidate it gives none |
| `ContextMenu.Owned` | OpenDreamClient/Input/ContextMenu/ContextMenuPopup.xaml.cs:31 | the modal root's children that this popup spawned, in order, and all of them |
| `ContextMenu.Without` | OpenDreamClient/Input/ContextMenu/ContextMenuPopup.xaml.cs:81 | removing a child leaves exactly the other children |
| `ContextMenu.OwnedWithout` | OpenDreamClient/Input/ContextMenu/ContextMenuPopup.xaml.cs:79-82 | detaching the previous verb menu removes it from the popup's attached menus and nothing else |
| `ContextMenu.OwnedIgnoresAbsent` | OpenDreamClient/Input/ContextMenu/ContextMenuPopup.xaml.cs:84 | a freshly created verb menu is not yet attached |
| `ContextMenu.OwnedAppend` | OpenDreamClient/Input/ContextMenu/ContextMenuPopup.xaml.cs:90 | attaching a control adds it after the earlier ones |
| `ContextMenu.VerbMenu.constructor` | OpenDreamClient/Input/ContextMenu/ContextMenuPopup.xaml.cs:84 | a verb menu records its target, the sight level and the item it is anchored to |
| `ContextMenu.ContextMenuPopup.constructor` | OpenDreamClient/Input/ContextMenu/ContextMenuPopup.xaml.cs:29-31 | a new popup has an empty menu, no verb menu, and satisfies its invariant |
| `ContextMenu.ContextMenuPopup.RepopulateEntities` | OpenDreamClient/Input/ContextMenu/ContextMenuPopup.xaml.cs:46-76 | the menu is replaced by `Build` of the candidates, whatever it held before, and `EntityCount` is the number of passing candidates (0 without a transform system) |
| `ContextMenu.ContextMenuPopup.SetActiveItem` | OpenDreamClient/Input/ContextMenu/ContextMenuPopup.xaml.cs:78-92 | the previous verb menu, if any, is closed and gone from the modal root; a fresh one for the item's target at the observer's level is current, wired to close the popup, and the only one of this popup in the modal root; the menu is unchanged |
| `ContextMenu.ContextMenuPopup.VerbSelected` | OpenDreamClient/Input/ContextMenu/ContextMenuPopup.xaml.cs:86 | a selection in a verb menu this popup wired closes the popup |

`EntityCount` (line 29) is the length of the `menu` field; what it equals after
a rebuild is stated by `RepopulateEntities`.

## Left out

- Dependency injection, XAML loading and the entity-system lookups of the
  constructor (lines 33-44): the collaborators are the `World` value passed to
  each operation.
- The conversion from network entity ids to local entity ids is not modelled;
  references and the store use one id space.
- The internals of the sprite visibility gate, the turf icon lookup, the grid
  test and the parent lookup are foreign code: they are given data
  (`Sprite.visibleAt`, `AppearanceSystem.turfIcon`, `Transform.parentIsGrid`).
- The metadata component is assumed present on every entity with a sprite
  (the source reads it unconditionally); a null name is the empty string.
- The source asks for the see-invisible level once per entity; the collaborators
  do not change during a call, so the model reads the same level each time.
- What a verb menu shows, how `Close` hides the popup and how events are
  delivered: the subscription is the set `closesOnSelect`, and a request to
  close the popup is the flag `closeRequested`.
- Positioning (lines 88-91) is floating-point layout; the model only records
  the item a verb menu is anchored to.
- The modal root's `RemoveChild` is modelled as dropping the control from the
  children list; what the toolkit does with a control that is not a child is
  not modelled (the invariant keeps the current verb menu a child).
- `EntityCount` has no contract of its own; it is the length of the menu.
