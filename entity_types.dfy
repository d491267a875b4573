/** Values shared by the persistence service and its collaborators: the
    entities of the live collection, the records a bulk load yields, and the
    collection itself as the service sees it. */
module EntityTypes {

  datatype Option<+T> = None | Some(value: T)

  /** The resolution status of an entity; the service only asks whether the
      entity has resolved. */
  datatype ResolveStatus = ResolveStatus(hasResolved: bool)

  /** An entity of the live collection: its status and its payload. */
  datatype Entity<D> = Entity(status: ResolveStatus, data: D)

  /** One successfully loaded record of a bulk load (a "resolve succeeded"
      transfer object): the entity's key and its payload. */
  datatype Loaded<D> = Loaded(id: string, data: D)

  /** The injected entity collection. The service only looks entities up;
      the collection's own bookkeeping is not part of this model. */
  class HasEntities<D> {
    var items: map<string, Entity<D>>

    constructor (items: map<string, Entity<D>>)
      ensures this.items == items
    {
      this.items := items;
    }

    /** Looks up the entity stored under `id`, if any. */
    function GetEntity(id: string): (r: Option<Entity<D>>)
      reads this
      ensures r.Some? <==> id in items
      ensures r.Some? ==> r.value == items[id]
    {
      if id in items then Some(items[id]) else None
    }
  }
}
