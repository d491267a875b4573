# Entity persistence lifecycle, modelled in Dafny

This project models the persistence lifecycle service of the BeatThat
entity-persistence package: `FSEntityPersistence<DataType, SerializedType>`
keeps a live entity collection mirrored to a persistence access object (the
DAO).

At start-up the service does these steps in order:

1. It records its directory and creates its DAO.
2. It bulk-loads the stored entities into a list.
3. It raises `ignoreUpdates` and publishes the list to the collection as one
   "resolved multiple" event. An exception from that publish is swallowed.
4. It clears the flag and fires "load done".
5. Only then does it subscribe to the collection's "updated" and "removed"
   notifications.

After that, an update of a resolved entity becomes one `Store(entity, id)`,
and every removal becomes one `Remove(id)`. A failing store or removal is
swallowed. The default directory is `{cache root}/beatthat/entities/{type
full name}/{extra parts…}`, lower-cased.

Modules:

- `EntityTypes` (entity_types.dfy): entities, their resolution status, loaded
  records, and the injected collection (`HasEntities`), which the service
  only reads.
- `EntityPersistenceDao` (entity_persistence_dao.dfy): the DAO as an abstract
  collaborator. It holds a fixed list of stored records that a bulk load
  yields and a log of every store and removal issued to it. Any store or
  removal may fail: the failure flag is chosen nondeterministically.
- `EntityPaths` (entity_paths.dfy): the default directory. An array of `4 + n`
  slots is filled one slot at a time and the extra parts are copied in. The
  slots are joined with `/` and the result is lower-cased. Lemmas show that
  the result has the expected prefix and splits back into its segments.
- `EntityPersistence` (fs_entity_persistence.dfy): the service as a class. It
  has the fields `directory`, `dao`, `ignoreUpdates`, `updatedBound` and
  `removedBound`, and a ghost `trace` of its lifecycle steps. The trace
  records each published batch together with the flag's value at that
  moment. The class invariant `Valid()` says four things:
  - a DAO exists only once a directory is recorded;
  - a subscription exists only once a DAO exists;
  - every batch in the trace was published while updates were ignored;
  - every subscription in the trace comes after a completed load.

Three details of the code shape the model:

- `LoadStored` fires "load done"
  (Runtime/entity-persistence/FSEntityPersistence.cs:173) before
  `LoadAndStoreUpdates` installs the subscriptions (lines 94-95). Neither
  call is inside a `try`. So an exception from a "load done" listener
  propagates out of start-up, and the subscriptions are then never
  installed. The model reports such an exception as a `threw` result.
- The single-type subclass creates its DAO over `EntityDirectory()`, not over
  the directory passed to `LoadAndStoreUpdates`
  (Runtime/entity-persistence/FSEntityPersistence.cs:22-25). `CreateDAO` is
  modelled that way, so the DAO's directory is always the default one.
- A handler that runs before any DAO exists dereferences a missing DAO
  inside its `try`. The handler swallows that error, so the model issues no
  call in that case.

## Model

| member | source | states |
|---|---|---|
| EntityTypes.HasEntities.GetEntity | Runtime/entity-persistence/FSEntityPersistence.cs:108-112 | The lookup finds an entity exactly when the collection holds one for the id, and returns that entity. |
| EntityPersistenceDao.Dao.LoadStored | Runtime/entity-persistence/EntityPersistenceDAO.cs:19 | Filling the caller's list appends every stored record, in load order, after what the list already held. |
| EntityPersistenceDao.Dao.Store | Runtime/entity-persistence/EntityPersistenceDAO.cs:23 | A store appends exactly one store request for that entity and id to the DAO's log, whether or not it fails. |
| EntityPersistenceDao.Dao.Remove | Runtime/entity-persistence/EntityPersistenceDAO.cs:25 | A removal appends exactly one removal request for that id to the DAO's log, whether or not it fails. |
| EntityPaths.LowerChar | Runtime/entity-persistence/FSEntityPersistence.cs:79 | A lower-cased character is never upper-case. Non-letters are kept. An upper-case letter maps to the lower-case letter at the same alphabet position. |
| EntityPaths.Lower | Runtime/entity-persistence/FSEntityPersistence.cs:79 | Lower-casing keeps the length and lower-cases each character in place. |
| EntityPaths.LowerConcat | Runtime/entity-persistence/FSEntityPersistence.cs:79 | Lower-casing distributes over concatenation. |
| EntityPaths.LowerCombine | Runtime/entity-persistence/FSEntityPersistence.cs:79 | Lower-casing a joined path gives the join of the lower-cased segments. |
| EntityPaths.Combine | Runtime/entity-persistence/FSEntityPersistence.cs:79 | The join of the path parts. Its contract is given by SplitCombine and CombineSplit: joining and cutting at separators are inverse. |
| EntityPaths.ExtraParts | Runtime/entity-persistence/FSEntityPersistence.cs:68 | The number of extra parts is the array's length, or 0 for a null array; a present array contributes its own elements. |
| EntityPaths.Split | Runtime/entity-persistence/FSEntityPersistence.cs:79 | Cutting a path at its separators yields at least one segment, and no segment holds a separator. |
| EntityPaths.SplitCombine | Runtime/entity-persistence/FSEntityPersistence.cs:79 | Joining one or more separator-free segments and cutting the result gives back the same segments in the same order. |
| EntityPaths.CombineSplit | Runtime/entity-persistence/FSEntityPersistence.cs:79 | Every path is the join of its own segments. |
| EntityPaths.DefaultSegments | Runtime/entity-persistence/FSEntityPersistence.cs:68-78 | There are exactly 4 + n segments, with n = 0 for a null array. They are the cache root, "beatthat", "entities", the type full name, then the extra parts in their original order. |
| EntityPaths.CopyInto | Runtime/entity-persistence/FSEntityPersistence.cs:76-78 | The copy writes the source into the slots from the given index on and leaves the slots before and after that range unchanged. |
| EntityPaths.EntityDirectoryDefault | Runtime/entity-persistence/FSEntityPersistence.cs:66-81 | The directory is the lower-cased join of the default segments, filled slot by slot into an array of 4 + n slots. |
| EntityPaths.DefaultDirectoryPrefix | Runtime/entity-persistence/FSEntityPersistence.cs:54-81 | For every input, with the join modelled here, the directory starts with the lower-cased cache root, "/beatthat/entities/" and the lower-cased type name. With no extra parts it is exactly that. |
| EntityPaths.DefaultDirectorySegments | Runtime/entity-persistence/FSEntityPersistence.cs:66-79 | When the type name and the extra parts hold no separator, the directory splits into the cache root's own segments, then "beatthat", "entities", the type name and the extra parts. Each is lower-cased and in its original order. |
| EntityPersistence.FSEntityPersistence.EntityDirectory | Runtime/entity-persistence/FSEntityPersistence.cs:61-64 | The service's directory is the default directory with no extra parts. |
| EntityPersistence.FSEntityPersistence.CreateDAO | Runtime/entity-persistence/FSEntityPersistence.cs:22-25 | A new DAO is created over the default directory, with an empty call log, over the stored records. |
| EntityPersistence.FSEntityPersistence.BindIfReady | Runtime/entity-persistence/FSEntityPersistence.cs:48-52 | Binding runs the start-up over the default directory. It reports ready exactly when the start-up completed, with both subscriptions installed; otherwise the subscriptions are as before and the trace ends with "load done". |
| EntityPersistence.FSEntityPersistence.LoadAndStoreUpdates | Runtime/entity-persistence/FSEntityPersistence.cs:83-96 | Start-up records the directory and then creates a fresh DAO. It loads, and only after "load done" subscribes to updated and then removed. If a "load done" listener throws, no subscription is installed and the exception propagates. The DAO receives no store and no removal during start-up, the flag ends cleared, and the invariant is kept. |
| EntityPersistence.FSEntityPersistence.LoadStored | Runtime/entity-persistence/FSEntityPersistence.cs:145-174 | The published batch is exactly what the DAO loaded, and it is published while updates are ignored. Afterwards the flag is cleared and "load done" has fired exactly once, whether or not the publish threw. An exception from a "load done" listener is not caught and is reported to the caller. DAO, directory and subscriptions are unchanged. |
| EntityPersistence.FSEntityPersistence.NotifyLoadDone | Runtime/entity-persistence/FSEntityPersistence.cs:173 | "Load done" fires exactly once per call; a listener may throw. |
| EntityPersistence.FSEntityPersistence.ResolvedMultiple | Runtime/entity-persistence/FSEntityPersistence.cs:157-168 | The whole batch is published as one event, and the event records whether updates were being ignored. The publish may throw. |
| EntityPersistence.FSEntityPersistence.OnEntityUpdated | Runtime/entity-persistence/FSEntityPersistence.cs:100-129 | While updates are ignored, or when the entity is absent or unresolved, the DAO gets no call. Otherwise it gets exactly one store of that entity under the same id. A failure is swallowed, and the service's own state never changes. |
| EntityPersistence.FSEntityPersistence.OnEntityRemoved | Runtime/entity-persistence/FSEntityPersistence.cs:131-143 | Every removal issues exactly one removal of the same id, whatever the flag and the entity's status. A failure is swallowed, and the service's own state never changes. |

## Left out

- `Resolve`: a direct pass-through to the DAO, with no logic of its own.
- The DAO's serializer and validation setters and their delegate types: these are signatures only. The concrete file-system DAO is not part of this model.
- EntityPersistenceDao.Dao.Store: the model does not say how a store or removal changes what a later bulk load yields, because the storage behind the DAO interface is not part of this model. Its failure outcome is nondeterministic.
- EntityPersistenceDao.Dao.LoadStored: assumed never to throw. An exception there would escape start-up before the subscriptions are installed, and this is not modelled.
- EntityPersistence.FSEntityPersistence.ResolvedMultiple: the collection's reaction to the published batch is not modelled. The collection belongs to the entity framework, not to this service.
- Dependency injection and binding (`BindAll`, `[Inject]`, `Bind<string>`): each subscription is a flag that is set once, and no real event dispatch is modelled.
- `async`/`await`, `Task` and fire-and-forget `async void`: the steps run in sequence, with no concurrency or in-flight overlap.
- Logging (`Debug.Log`, `Debug.LogError`) and the `#if` directives.
- Array and list pooling: the pooled array and list are ordinary local values.
- EntityPaths.Lower: culture-sensitive `ToLower` is modelled as ASCII lower-casing.
- EntityPaths.Combine: `Path.Combine` is modelled as a join that always inserts one `/`. It does not model that no separator is added after a part that already ends in one (a cache root `/tmp/` gives `/tmp/beatthat/...` in the program but `/tmp//beatthat/...` here), rooted segments resetting the path, empty segments, the platform's own separator, or the exception for a null element. EntityPaths.DefaultDirectoryPrefix and EntityPaths.DefaultDirectorySegments hold for this join, so they match the program only for a cache root that does not end in a separator.
- `Bind<string>` (lines 94-95) is assumed never to throw; the binding framework is not part of this model.
- `DirectoryInfo` and the file system: a directory is its path string. `Application.temporaryCachePath` and the type's full name are constants given to the service.
