/** The persistence access object (DAO) that the lifecycle service drives.
    It is an interface in the system; here it is an abstract collaborator
    that yields a fixed set of stored records on a bulk load, records every
    store and remove issued to it, and may fail any of them. */
module EntityPersistenceDao {
  import opened EntityTypes

  /** A store or remove request as the DAO received it. */
  datatype DaoCall<D> =
    | StoreCall(entity: Entity<D>, id: string)
    | RemoveCall(id: string)

  class Dao<D> {
    /** The directory the DAO persists to. */
    const directory: string
    /** What the backing store yields on a bulk load, in load order. */
    const records: seq<Loaded<D>>
    /** Every store and remove issued to this DAO, oldest first. */
    var calls: seq<DaoCall<D>>

    constructor (directory: string, records: seq<Loaded<D>>)
      ensures this.directory == directory && this.records == records
      ensures calls == []
    {
      this.directory := directory;
      this.records := records;
      calls := [];
    }

    /** Appends every stored record to `result`, the caller's list. */
    method LoadStored(result: seq<Loaded<D>>) returns (filled: seq<Loaded<D>>)
      ensures filled == result + records
    {
      filled := result + records;
    }

    /** Issues a store of `entity` under `id`; the request may fail. */
    method Store(entity: Entity<D>, id: string) returns (failed: bool)
      modifies this
      ensures calls == old(calls) + [StoreCall(entity, id)]
    {
      calls := calls + [StoreCall(entity, id)];
      failed :| true;
    }

    /** Issues a removal of the record under `id`; the request may fail. */
    method Remove(id: string) returns (failed: bool)
      modifies this
      ensures calls == old(calls) + [RemoveCall(id)]
    {
      calls := calls + [RemoveCall(id)];
      failed :| true;
    }
  }
}
