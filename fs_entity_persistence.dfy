/** The persistence lifecycle service of one entity type. At start-up it
    records its directory, creates its DAO, bulk-loads the stored entities
    and publishes them to the live collection as one batch while it ignores
    update notifications; then it fires "load done" and subscribes to the
    collection's updated and removed notifications, which it mirrors to the
    DAO as stores and removals. */
module EntityPersistence {
  import opened EntityTypes
  import opened EntityPersistenceDao
  import EntityPaths

  /** The collection notifications the service subscribes to. */
  datatype Notification = Updated | DidRemove

  /** A lifecycle step of the service, as an observer would see it. */
  datatype Step<D> =
    | DirectorySet(directory: string)
    | DaoCreated(directory: string)
    | PublishedResolvedMultiple(batch: seq<Loaded<D>>, ignoringUpdates: bool)
    | LoadDone
    | Bound(notification: Notification)

  /** Every batch in the trace was published while updates were ignored. */
  ghost predicate PublishedWhileIgnoring<D>(trace: seq<Step<D>>) {
    forall i :: 0 <= i < |trace| && trace[i].PublishedResolvedMultiple? ==> trace[i].ignoringUpdates
  }

  /** Every subscription in the trace comes after a completed load. */
  ghost predicate BoundAfterLoad<D>(trace: seq<Step<D>>) {
    forall i :: 0 <= i < |trace| && trace[i].Bound? ==>
      exists j :: 0 <= j < i && trace[j].LoadDone?
  }

  /** Steps that are not subscriptions keep every subscription after a load. */
  lemma ExtendWithoutBinding<D>(trace: seq<Step<D>>, steps: seq<Step<D>>)
    requires BoundAfterLoad(trace)
    requires forall k :: 0 <= k < |steps| ==> !steps[k].Bound?
    ensures BoundAfterLoad(trace + steps)
  {
    var t := trace + steps;
    forall i | 0 <= i < |t| && t[i].Bound?
      ensures exists j :: 0 <= j < i && t[j].LoadDone?
    {
      assert i < |trace|;
      var j :| 0 <= j < i && trace[j].LoadDone?;
      assert t[j] == trace[j];
    }
  }

  /** Once a load is in the trace, subscriptions may follow. */
  lemma ExtendAfterLoad<D>(trace: seq<Step<D>>, steps: seq<Step<D>>)
    requires BoundAfterLoad(trace)
    requires |trace| > 0 && trace[|trace| - 1].LoadDone?
    ensures BoundAfterLoad(trace + steps)
  {
    var t := trace + steps;
    forall i | 0 <= i < |t| && t[i].Bound?
      ensures exists j :: 0 <= j < i && t[j].LoadDone?
    {
      if i < |trace| {
        var j :| 0 <= j < i && trace[j].LoadDone?;
        assert t[j] == trace[j];
      } else {
        assert t[|trace| - 1] == trace[|trace| - 1];
      }
    }
  }

  class FSEntityPersistence<D> {
    /** The injected entity collection. */
    const entities: HasEntities<D>
    /** The platform's temporary cache directory. */
    const cacheRoot: string
    /** The full name of the entity type. */
    const typeFullName: string
    /** What the backing store holds for this type; the DAO loads it. */
    const storedRecords: seq<Loaded<D>>

    var directory: Option<string>
    var dao: Dao?<D>
    var ignoreUpdates: bool
    var updatedBound: bool
    var removedBound: bool
    /** The lifecycle steps taken so far, oldest first. */
    ghost var trace: seq<Step<D>>

    ghost predicate Valid()
      reads this
    {
      && (dao != null ==> directory.Some?)
      && (updatedBound || removedBound ==> dao != null)
      && PublishedWhileIgnoring(trace)
      && BoundAfterLoad(trace)
    }

    /** The directory the service persists to when no override is given. */
    ghost function DefaultDirectory(): string {
      EntityPaths.Lower(EntityPaths.Combine(EntityPaths.DefaultSegments(cacheRoot, typeFullName, Some([]))))
    }

    constructor (entities: HasEntities<D>, cacheRoot: string, typeFullName: string,
                 storedRecords: seq<Loaded<D>>)
      ensures Valid()
      ensures this.entities == entities && this.cacheRoot == cacheRoot
      ensures this.typeFullName == typeFullName && this.storedRecords == storedRecords
      ensures directory == None && dao == null
      ensures !ignoreUpdates && !updatedBound && !removedBound
      ensures trace == []
    {
      this.entities := entities;
      this.cacheRoot := cacheRoot;
      this.typeFullName := typeFullName;
      this.storedRecords := storedRecords;
      directory := None;
      dao := null;
      ignoreUpdates := false;
      updatedBound := false;
      removedBound := false;
      trace := [];
    }

    /** Binding entry point: loads with the default directory, then reports
        the service as ready. An exception escaping the start-up faults the
        binding, which is modelled as not reporting ready. */
    method BindIfReady() returns (ready: bool)
      requires Valid()
      modifies this
      ensures Valid()
      ensures directory == Some(DefaultDirectory())
      ensures dao != null && fresh(dao) && dao.calls == []
      ensures !ignoreUpdates
      ensures ready ==> updatedBound && removedBound
      ensures ready ==> trace == old(trace) + StartupSteps(DefaultDirectory(), DefaultDirectory())
      ensures !ready ==> updatedBound == old(updatedBound) && removedBound == old(removedBound)
      ensures !ready ==> trace == old(trace) + LoadingSteps(DefaultDirectory(), DefaultDirectory())
    {
      var d := EntityDirectory();
      var threw := LoadAndStoreUpdates(d);
      if threw {
        return false;
      }
      ready := true;
    }

    /** The default directory, with no extra path parts. */
    method EntityDirectory() returns (d: string)
      ensures d == DefaultDirectory()
    {
      d := EntityPaths.EntityDirectoryDefault(cacheRoot, typeFullName, Some([]));
    }

    /** Creates a DAO over the default directory. */
    method CreateDAO() returns (created: Dao<D>)
      ensures fresh(created)
      ensures created.directory == DefaultDirectory()
      ensures created.records == storedRecords && created.calls == []
    {
      var d := EntityDirectory();
      created := new Dao(d, storedRecords);
    }

    /** The steps of a start-up with directory `d` and a DAO over
        `daoDirectory`, up to and including "load done". */
    ghost function LoadingSteps(d: string, daoDirectory: string): seq<Step<D>> {
      [DirectorySet(d), DaoCreated(daoDirectory)] + LoadSteps(storedRecords)
    }

    /** The steps of a complete start-up: loading, then both subscriptions. */
    ghost function StartupSteps(d: string, daoDirectory: string): seq<Step<D>> {
      LoadingSteps(d, daoDirectory) + [Bound(Updated), Bound(DidRemove)]
    }

    /** The steps of a bulk load that yielded `loaded`. */
    ghost function LoadSteps(loaded: seq<Loaded<D>>): seq<Step<D>> {
      [PublishedResolvedMultiple(loaded, true), LoadDone]
    }

    /** Records `d`, creates the DAO, loads, and only then subscribes to
        the updated and removed notifications. No store or removal reaches
        the new DAO while this runs. An exception escaping the load (from a
        "load done" listener) skips the subscriptions and propagates. */
    method LoadAndStoreUpdates(d: string) returns (threw: bool)
      requires Valid()
      modifies this
      ensures Valid()
      ensures directory == Some(d)
      ensures dao != null && fresh(dao) && dao.calls == []
      ensures dao.directory == DefaultDirectory() && dao.records == storedRecords
      ensures !ignoreUpdates
      ensures !threw ==> updatedBound && removedBound
      ensures !threw ==> trace == old(trace) + StartupSteps(d, DefaultDirectory())
      ensures threw ==> updatedBound == old(updatedBound) && removedBound == old(removedBound)
      ensures threw ==> trace == old(trace) + LoadingSteps(d, DefaultDirectory())
    {
      directory := Some(d);
      ExtendWithoutBinding(trace, [DirectorySet(d)]);
      trace := trace + [DirectorySet(d)];
      dao := CreateDAO();
      ExtendWithoutBinding(trace, [DaoCreated(dao.directory)]);
      trace := trace + [DaoCreated(dao.directory)];
      threw := LoadStored();
      if threw {
        return;
      }
      ghost var afterLoad := trace;
      ExtendAfterLoad(afterLoad, [Bound(Updated), Bound(DidRemove)]);
      updatedBound := true;
      trace := trace + [Bound(Updated)];
      removedBound := true;
      trace := trace + [Bound(DidRemove)];
      assert trace == afterLoad + [Bound(Updated), Bound(DidRemove)];
    }

    /** Bulk-loads the stored entities and publishes them as one batch while
        updates are ignored; a failing publish is swallowed. Afterwards
        updates are no longer ignored and "load done" has fired once; an
        exception raised by a "load done" listener is not caught and is
        reported in `threw`. */
    method LoadStored() returns (threw: bool)
      requires Valid() && dao != null
      modifies this
      ensures Valid()
      ensures !ignoreUpdates
      ensures dao == old(dao) && directory == old(directory) && dao.calls == old(dao.calls)
      ensures updatedBound == old(updatedBound) && removedBound == old(removedBound)
      ensures trace == old(trace) + LoadSteps(dao.records)
    {
      var loaded := dao.LoadStored([]);
      assert loaded == dao.records;
      ignoreUpdates := true;
      ExtendWithoutBinding(trace, LoadSteps(loaded));
      var publishThrew := ResolvedMultiple(loaded);
      ignoreUpdates := false;
      threw := NotifyLoadDone();
    }

    /** Fires "load done" for the entity type; a listener may raise. */
    method NotifyLoadDone() returns (threw: bool)
      modifies this`trace
      ensures trace == old(trace) + [LoadDone]
    {
      trace := trace + [LoadDone];
      threw :| true;
    }

    /** Publishes `batch` to the collection as one "resolved multiple"
        event; the dispatch may raise. */
    method ResolvedMultiple(batch: seq<Loaded<D>>) returns (threw: bool)
      modifies this`trace
      ensures trace == old(trace) + [PublishedResolvedMultiple(batch, ignoreUpdates)]
    {
      trace := trace + [PublishedResolvedMultiple(batch, ignoreUpdates)];
      threw :| true;
    }

    /** Mirrors an update of `id` to the DAO: nothing while updates are
        ignored, nothing for an absent or unresolved entity, otherwise one
        store of that entity under `id`. A failing store, or one issued
        before any DAO exists, is swallowed. */
    method OnEntityUpdated(id: string)
      modifies dao
      ensures unchanged(this)
      ensures dao != null && !ignoreUpdates && id in entities.items && entities.items[id].status.hasResolved
              ==> dao.calls == old(dao.calls) + [StoreCall(entities.items[id], id)]
      ensures !(!ignoreUpdates && id in entities.items && entities.items[id].status.hasResolved)
              ==> dao == null || unchanged(dao)
    {
      if ignoreUpdates {
        return;
      }
      var entity := entities.GetEntity(id);
      if entity.None? {
        return;
      }
      if !entity.value.status.hasResolved {
        return;
      }
      if dao == null {
        // the store dereferences a missing DAO; the handler swallows the error
        return;
      }
      var failed := dao.Store(entity.value, id);
    }

    /** Mirrors a removal of `id` to the DAO: always one removal of `id`,
        whatever the flag and the entity's status. A failing removal, or one
        issued before any DAO exists, is swallowed. */
    method OnEntityRemoved(id: string)
      modifies dao
      ensures unchanged(this)
      ensures dao != null ==> dao.calls == old(dao.calls) + [RemoveCall(id)]
    {
      if dao == null {
        // the removal dereferences a missing DAO; the handler swallows the error
        return;
      }
      var failed := dao.Remove(id);
    }
  }
}
