/**
 * The backend over a database (`DirectBackend` of src/backend/direct.rs).
 * Its commit runs the same settlement as `Operation::settle`, step for step,
 * on the database it owns; its `ChainQuery` methods forward to the database
 * and wrap the answer in `Ok`.
 */
module Direct {
  import opened Wrappers
  import opened ChainTypes
  import opened Store
  import opened Settlement

  class DirectBackend {
    const db: ChainStore

    /** `DirectBackend::new`: a backend over an existing database. */
    constructor (existing: ChainStore)
      ensures db == existing
    {
      db := existing;
    }

    /** `commit`: the settlement of `op` on the database. */
    method Commit(op: Operation) returns (r: Outcome<BackendError>)
      requires Wf(db.View())
      requires SameIdSameParent(op.importBlock) && StoredParentsAgree(db.blocks, op.importBlock)
      modifies db
      ensures Settled(old(db.View()), op, db.View(), r)
    {
      r := Settle(op, db);
    }

    function Genesis(): (g: Id)
      reads db
      ensures g == db.View().genesis
    {
      db.genesis
    }

    function Head(): (h: Id)
      reads db
      ensures h == db.View().head
    {
      db.head
    }

    function Contains(id: Id): (r: Result<bool, BackendError>)
      reads db
      ensures r.Ok? && (r.value <==> id in db.View().blocks)
    {
      Ok(db.Contains(id))
    }

    function IsCanon(id: Id): (r: Result<bool, BackendError>)
      reads db
      ensures r.Ok? <==> id in db.View().blocks
      ensures r.Ok? ==> r.value == db.View().blocks[id].isCanon
      ensures r.Err? ==> r.error == NotExist
    {
      db.IsCanon(id)
    }

    function LookupCanonDepth(depth: nat): (r: Result<Option<Id>, BackendError>)
      reads db
      ensures r.Ok?
      ensures r.value.Some? <==> depth in db.View().canonDepth
      ensures r.value.Some? ==> r.value.value == db.View().canonDepth[depth]
    {
      Ok(db.LookupCanonDepth(depth))
    }

    function Auxiliary(key: AuxKey): (r: Result<Option<Auxiliary>, BackendError>)
      reads db
      ensures r.Ok?
      ensures r.value.Some? <==> key in db.View().aux
      ensures r.value.Some? ==> r.value.value == db.View().aux[key]
    {
      Ok(db.Auxiliary(key))
    }

    function DepthAt(id: Id): (r: Result<nat, BackendError>)
      reads db
      ensures r.Ok? <==> id in db.View().blocks
      ensures r.Ok? ==> r.value == db.View().blocks[id].depth
      ensures r.Err? ==> r.error == NotExist
    {
      db.DepthAt(id)
    }

    function ChildrenAt(id: Id): (r: Result<seq<Id>, BackendError>)
      reads db
      ensures r.Ok? <==> id in db.View().blocks
      ensures r.Ok? ==> r.value == db.View().blocks[id].children
      ensures r.Err? ==> r.error == NotExist
    {
      db.ChildrenAt(id)
    }

    function StateAt(id: Id): (r: Result<StateMap, BackendError>)
      reads db
      ensures r.Ok? <==> id in db.View().blocks
      ensures r.Ok? ==> r.value == db.View().blocks[id].state
      ensures r.Err? ==> r.error == NotExist
    {
      db.StateAt(id)
    }

    function BlockAt(id: Id): (r: Result<Block, BackendError>)
      reads db
      ensures r.Ok? <==> id in db.View().blocks
      ensures r.Ok? ==> r.value == db.View().blocks[id].block
      ensures r.Err? ==> r.error == NotExist
    {
      db.BlockAt(id)
    }
  }
}
