/**
 * In-memory key-value block state (`KeyValueMemoryState` of
 * src/backend/state.rs; `MemoryState` of src/backend/memory.rs behaves the
 * same way and is modelled by the same class).
 */
module KeyValueState {
  import opened Wrappers
  import opened ChainTypes

  /** Reading a memory state cannot fail; the error type has no values in the source. */
  datatype StorageError = Infallible

  /** The value stored under `key`, if any. */
  function Read(storage: StateMap, key: Bytes): (r: Option<Bytes>)
    ensures r.Some? <==> key in storage
    ensures r.Some? ==> r.value == storage[key]
  {
    if key in storage then Some(storage[key]) else None
  }

  class KeyValueMemoryState {
    var storage: StateMap

    /** The default state holds no keys. */
    constructor ()
      ensures storage == map[]
    {
      storage := map[];
    }

    /** A state over the given storage (`MemoryState { storage }`). */
    constructor FromStorage(initial: StateMap)
      ensures storage == initial
    {
      storage := initial;
    }

    /** `read_storage`: a lookup that always succeeds. */
    function ReadStorage(key: Bytes): (r: Result<Option<Bytes>, StorageError>)
      reads this
      ensures r.Ok?
      ensures r.value.Some? <==> key in storage
      ensures r.value.Some? ==> r.value.value == storage[key]
    {
      Ok(Read(storage, key))
    }

    /** `write_storage`: insert or overwrite one key. */
    method WriteStorage(key: Bytes, value: Bytes)
      modifies this
      ensures storage == old(storage)[key := value]
    {
      storage := storage[key := value];
    }

    /** `remove_storage`: forget one key. */
    method RemoveStorage(key: Bytes)
      modifies this
      ensures storage == old(storage) - {key}
    {
      storage := storage - {key};
    }
  }

  /** A read after a write of the same key returns the written value. */
  lemma ReadAfterWrite(storage: StateMap, key: Bytes, value: Bytes)
    ensures Read(storage[key := value], key) == Some(value)
  {
  }

  /** A read after a removal of the same key finds nothing. */
  lemma ReadAfterRemove(storage: StateMap, key: Bytes)
    ensures Read(storage - {key}, key) == None
  {
  }

  /** Writing or removing one key leaves every other key as it was. */
  lemma OtherKeysUnchanged(storage: StateMap, key: Bytes, value: Bytes, other: Bytes)
    requires other != key
    ensures Read(storage[key := value], other) == Read(storage, other)
    ensures Read(storage - {key}, other) == Read(storage, other)
  {
  }

  /** The default state answers every read with nothing. */
  lemma DefaultIsEmpty(key: Bytes)
    ensures Read(map[], key) == None
  {
  }
}
