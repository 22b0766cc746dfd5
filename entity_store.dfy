/** The read-only collaborators of the context menu, as plain data: the entity
    store with the components the popup queries, the local player session, and
    the transform and appearance systems, which may be absent. */
module EntityStore {
  import opened Wrappers

  /** A signed 8-bit see-invisible level. */
  newtype SByte = x: int | -128 <= x < 128

  /** The largest `sbyte`: an observer at this level sees everything. */
  const MaxSight: SByte := 127

  type EntityId = int
  type TurfId = int

  /** A candidate proposed for the menu. `OtherRef` stands for every kind of
      reference that is neither an entity nor a turf. */
  datatype ObjectReference = Entity(entity: EntityId) | Turf(turf: TurfId) | OtherRef

  datatype MouseOpacity = Transparent | PixelOpaque | Opaque

  datatype Appearance = Appearance(name: string, mouseOpacity: MouseOpacity)

  /** An icon: an opaque handle and the appearance it shows, if it has one. */
  datatype Icon = Icon(handle: int, appearance: Option<Appearance>)

  /** The sprite component. `visibleAt` holds the sight levels at which the
      sprite's visibility gate (which also looks at the transform) says yes. */
  datatype Sprite = Sprite(icon: Icon, visibleAt: set<SByte>)

  /** The transform component; `parentIsGrid` is whether the entity's parent
      is a map grid, i.e. the entity sits directly on the map. */
  datatype Transform = Transform(parentIsGrid: bool)

  /** The components of one entity the popup reads. The metadata component is
      always there; a null name is the empty string. */
  datatype EntityInfo = EntityInfo(
    transform: Option<Transform>,
    sprite: Option<Sprite>,
    sight: Option<SByte>,
    name: string)

  /** The local player session and the entity it is attached to, if any. */
  datatype Session = Session(attached: Option<EntityId>)

  /** The appearance system; `turfIcon` is its turf icon lookup. */
  datatype AppearanceSystem = AppearanceSystem(turfIcon: TurfId -> Icon)

  datatype World = World(
    entities: map<EntityId, EntityInfo>,
    localSession: Option<Session>,
    hasTransformSystem: bool,
    appearanceSystem: Option<AppearanceSystem>)

  /** An entity the store does not know has no components at all. */
  const NoComponents := EntityInfo(None, None, None, "")

  function Components(w: World, id: EntityId): (info: EntityInfo)
    ensures id !in w.entities ==> info.sprite.None? && info.transform.None?
  {
    if id in w.entities then w.entities[id] else NoComponents
  }
}
