/**
 * The simple best-depth synchronisation (`SimpleSync` of
 * network/src/sync/mod.rs and network/simple/src/lib.rs, `BestDepthSync` of
 * the counter example's network modules): on every tick a peer broadcasts
 * its status; a deeper peer's status is answered with a request for the
 * blocks above the own head; a request is answered with the contiguous
 * canonical blocks from the requested depth; and a response is imported in
 * order up to the first failure.
 */
module Sync {
  import opened Wrappers
  import opened ChainTypes
  import opened Store
  import opened Settlement
  import opened Preservation
  import opened Direct
  import opened BestDepth

  type PeerId = nat

  datatype Message =
    | Status(status: BestDepthStatus)
    | BlockRequest(startDepth: nat, count: nat)
    | BlockResponse(blocks: seq<Block>)

  /** What a handler hands to the network handle: a message to every peer, or to one. */
  datatype Outgoing = Broadcast(message: Message) | Send(peer: PeerId, message: Message)

  /**
   * How many blocks a status reply asks for: a fixed batch (network/src/sync/mod.rs,
   * network/simple/src/lib.rs) or exactly the depth gap to the peer (the counter example).
   */
  datatype RequestSize = Batch | DepthGap

  const BatchSize: nat := 256

  /** Depth `d` is one of the depths a block request asks for. */
  predicate Requested(m: Message, d: nat)
    requires m.BlockRequest?
  {
    m.startDepth <= d < m.startDepth + m.count
  }

  /**
   * The reply to a peer's status: when the peer's status is greater than
   * the own one, a single request starting just above the own head, for a
   * batch of 256 blocks or for exactly the depths up to the peer's;
   * otherwise nothing.
   */
  function StatusReply(size: RequestSize, own: BestDepthStatus, peer: PeerId, theirs: BestDepthStatus): (out: seq<Outgoing>)
    ensures |out| <= 1
    ensures out != [] <==> theirs.bestDepth > own.bestDepth
    ensures out != [] ==> && out[0].Send? && out[0].peer == peer && out[0].message.BlockRequest?
                          && out[0].message.startDepth == own.bestDepth + 1
    ensures out != [] && size == Batch ==> out[0].message.count == BatchSize
    ensures out != [] && size == DepthGap ==>
      forall d: nat :: Requested(out[0].message, d) <==> own.bestDepth < d <= theirs.bestDepth
  {
    CmpIsDepthOrder(theirs, own, own);
    if Cmp(theirs, own) != Greater then []
    else
      var count := if size == Batch then BatchSize else theirs.bestDepth - own.bestDepth;
      [Send(peer, BlockRequest(own.bestDepth + 1, count))]
  }

  /**
   * The answer to a block request: the canonical blocks at depths `start`,
   * `start + 1`, ... in order, at most `count` of them, ending early at the
   * first depth with no canonical block.
   */
  function CanonRun(v: StoreView, start: nat, count: nat): (r: seq<Block>)
    requires CanonStored(v)
    ensures |r| <= count
    decreases count
  {
    if count == 0 || start !in v.canonDepth then []
    else [v.blocks[v.canonDepth[start]].block] + CanonRun(v, start + 1, count - 1)
  }

  /**
   * The run holds the canonical block of each depth it covers, in depth
   * order, and it stops short of `count` only at a depth with no canonical
   * block.
   */
  lemma {:induction false} CanonRunIsCanonical(v: StoreView, start: nat, count: nat)
    requires CanonStored(v)
    ensures var r := CanonRun(v, start, count);
      && (forall d :: start <= d < start + |r| ==> d in v.canonDepth && r[d - start] == v.blocks[v.canonDepth[d]].block)
      && (|r| < count ==> start + |r| !in v.canonDepth)
    decreases count
  {
    if count > 0 && start in v.canonDepth {
      CanonRunIsCanonical(v, start + 1, count - 1);
    }
  }

  /** One depth of the run: the block there, then the rest; or nothing when the depth is not canonical. */
  lemma CanonRunStep(v: StoreView, d: nat, count: nat)
    requires CanonStored(v) && count > 0
    ensures d in v.canonDepth ==> CanonRun(v, d, count) == [v.blocks[v.canonDepth[d]].block] + CanonRun(v, d + 1, count - 1)
    ensures d !in v.canonDepth ==> CanonRun(v, d, count) == []
  {
  }

  /**
   * The blocks of a response agree with the store and with each other on
   * the parent of every id (ids are content hashes).
   */
  ghost predicate ResponseConsistent(v: StoreView, blocks: seq<Block>)
  {
    && (forall j :: 0 <= j < |blocks| ==> SameParentIfStored(v, blocks[j]))
    && Coherent(blocks)
  }

  /** Blocks of a response with the same id have the same parent. */
  ghost predicate Coherent(blocks: seq<Block>)
  {
    forall j, k :: 0 <= j < k < |blocks| && blocks[j].hash == blocks[k].hash ==> blocks[j].parentHash == blocks[k].parentHash
  }

  /**
   * The imports of a response so far: `views[i]` is the store before the
   * import of `blocks[i]` and `results[i]` that import's outcome.
   */
  ghost predicate StepsImported(executor: Executor, execution: Execution, failures: Failures,
                                blocks: seq<Block>, views: seq<StoreView>, results: seq<Outcome<ImportError>>)
    decreases |results|
  {
    && |views| == |results| + 1 && |results| <= |blocks|
    && (|results| > 0 ==>
          var n := |results| - 1;
          && StepsImported(executor, execution, failures, blocks, views[..n + 1], results[..n])
          && Wf(views[n]) && SameParentIfStored(views[n], blocks[n])
          && BestDepthImported(views[n], executor, execution, failures, blocks[n], views[n + 1], results[n]))
  }

  /**
   * A response imported in order: every import but the last passed, and
   * the imports stop before the end only after a failure.
   */
  ghost predicate ImportedInOrder(executor: Executor, execution: Execution, failures: Failures,
                                  blocks: seq<Block>, views: seq<StoreView>, results: seq<Outcome<ImportError>>)
  {
    && StepsImported(executor, execution, failures, blocks, views, results)
    && (forall i :: 0 <= i < |results| - 1 ==> results[i].Pass?)
    && (|results| < |blocks| ==> |results| > 0 && results[|results| - 1].Fail?)
  }

  /** One more import extends the steps. */
  lemma StepImported(executor: Executor, execution: Execution, failures: Failures,
                     blocks: seq<Block>, views: seq<StoreView>, results: seq<Outcome<ImportError>>,
                     after: StoreView, r: Outcome<ImportError>)
    requires StepsImported(executor, execution, failures, blocks, views, results) && |results| < |blocks|
    requires Wf(views[|results|]) && SameParentIfStored(views[|results|], blocks[|results|])
    requires BestDepthImported(views[|results|], executor, execution, failures, blocks[|results|], after, r)
    ensures StepsImported(executor, execution, failures, blocks, views + [after], results + [r])
  {
    var n := |results|;
    assert (views + [after])[..n + 1] == views && (results + [r])[..n] == results;
    assert (views + [after])[n] == views[n] && (views + [after])[n + 1] == after && (results + [r])[n] == r;
  }

  /** An import keeps a later block of the response in agreement with the store. */
  lemma ImportKeepsAgreement(before: StoreView, executor: Executor, execution: Execution, failures: Failures,
                             block: Block, after: StoreView, r: Outcome<ImportError>, later: Block)
    requires Wf(before) && SameParentIfStored(before, block)
    requires BestDepthImported(before, executor, execution, failures, block, after, r)
    requires SameParentIfStored(before, later)
    requires later.hash == block.hash ==> later.parentHash == block.parentHash
    ensures SameParentIfStored(after, later)
  {
    var res := ImportedOperation(before, executor, execution, block);
    if res.Ok? && r.Pass? {
      var st := res.value.importBlock[0].state;
      assert res.value == Operation([ImportOperation(block, st)], HeadChoice(before, block), [], []);
      if later.hash == block.hash {
        OneBlockConsistent(before, block, st);
        SettledOneBlockRecord(before, block, st, HeadChoice(before, block), after);
      } else {
        OneBlockKeepsOthers(before, block, st, HeadChoice(before, block), after, later);
      }
    }
  }

  /**
   * The state of a response import between two blocks: the steps so far all
   * passed, the store is well formed, and the blocks still to import agree
   * with it on their parents.
   */
  ghost predicate ResponseProgress(executor: Executor, execution: Execution, failures: Failures,
                                   blocks: seq<Block>, views: seq<StoreView>, results: seq<Outcome<ImportError>>)
  {
    && StepsImported(executor, execution, failures, blocks, views, results)
    && Wf(views[|results|]) && Coherent(blocks)
    && (forall j :: |results| <= j < |blocks| ==> SameParentIfStored(views[|results|], blocks[j]))
    && (forall j :: 0 <= j < |results| ==> results[j].Pass?)
  }

  /** Before the first import. */
  lemma ResponseStart(executor: Executor, execution: Execution, failures: Failures, blocks: seq<Block>, v: StoreView)
    requires Wf(v) && ResponseConsistent(v, blocks)
    ensures ResponseProgress(executor, execution, failures, blocks, [v], [])
  {
  }

  /**
   * One import of a response: a passing import keeps the progress, a
   * failing one ends the response imported in order.
   */
  lemma ResponseStep(executor: Executor, execution: Execution, failures: Failures,
                     blocks: seq<Block>, views: seq<StoreView>, results: seq<Outcome<ImportError>>,
                     after: StoreView, r: Outcome<ImportError>)
    requires ResponseProgress(executor, execution, failures, blocks, views, results) && |results| < |blocks|
    requires BestDepthImported(views[|results|], executor, execution, failures, blocks[|results|], after, r)
    requires r.Pass?
    ensures ResponseProgress(executor, execution, failures, blocks, views + [after], results + [r])
  {
    var i := |results|;
    StepImported(executor, execution, failures, blocks, views, results, after, r);
    HeadDepthNeverDecreases(views[i], executor, execution, failures, blocks[i], after, r);
    AgreementStep(executor, execution, failures, blocks, i, views[i], after, r);
    AllPassExtended(results, r);
    Progress(executor, execution, failures, blocks, views + [after], results + [r]);
  }

  /** A failed import ends the response, and the steps so far are in order. */
  lemma ResponseFailed(executor: Executor, execution: Execution, failures: Failures,
                       blocks: seq<Block>, views: seq<StoreView>, results: seq<Outcome<ImportError>>,
                       after: StoreView, r: Outcome<ImportError>)
    requires ResponseProgress(executor, execution, failures, blocks, views, results) && |results| < |blocks|
    requires BestDepthImported(views[|results|], executor, execution, failures, blocks[|results|], after, r)
    requires r.Fail?
    ensures ImportedInOrder(executor, execution, failures, blocks, views + [after], results + [r])
  {
    StepImported(executor, execution, failures, blocks, views, results, after, r);
    AllPassPrefix(results, r);
  }

  /** One import of the response: either the progress goes on or the response is done. */
  lemma ResponseNext(executor: Executor, execution: Execution, failures: Failures,
                     blocks: seq<Block>, views: seq<StoreView>, results: seq<Outcome<ImportError>>,
                     after: StoreView, r: Outcome<ImportError>)
    requires ResponseProgress(executor, execution, failures, blocks, views, results) && |results| < |blocks|
    requires BestDepthImported(views[|results|], executor, execution, failures, blocks[|results|], after, r)
    ensures r.Pass? ==> ResponseProgress(executor, execution, failures, blocks, views + [after], results + [r])
    ensures r.Fail? ==> ImportedInOrder(executor, execution, failures, blocks, views + [after], results + [r])
  {
    if r.Pass? {
      ResponseStep(executor, execution, failures, blocks, views, results, after, r);
    } else {
      ResponseFailed(executor, execution, failures, blocks, views, results, after, r);
    }
  }

  lemma AllPassExtended(results: seq<Outcome<ImportError>>, r: Outcome<ImportError>)
    requires forall j :: 0 <= j < |results| ==> results[j].Pass?
    requires r.Pass?
    ensures forall j :: 0 <= j < |results + [r]| ==> (results + [r])[j].Pass?
  {
  }

  lemma AllPassPrefix(results: seq<Outcome<ImportError>>, r: Outcome<ImportError>)
    requires forall j :: 0 <= j < |results| ==> results[j].Pass?
    ensures forall j :: 0 <= j < |results + [r]| - 1 ==> (results + [r])[j].Pass?
  {
  }

  /** An import keeps the later blocks of a coherent response in agreement with the store. */
  lemma AgreementStep(executor: Executor, execution: Execution, failures: Failures, blocks: seq<Block>, i: nat,
                      before: StoreView, after: StoreView, r: Outcome<ImportError>)
    requires i < |blocks| && Wf(before) && Coherent(blocks)
    requires forall j :: i <= j < |blocks| ==> SameParentIfStored(before, blocks[j])
    requires BestDepthImported(before, executor, execution, failures, blocks[i], after, r)
    ensures forall j :: i < j < |blocks| ==> SameParentIfStored(after, blocks[j])
  {
    forall j | i < j < |blocks|
      ensures SameParentIfStored(after, blocks[j])
    {
      ImportKeepsAgreement(before, executor, execution, failures, blocks[i], after, r, blocks[j]);
    }
  }

  /** The parts of the progress, put together. */
  lemma Progress(executor: Executor, execution: Execution, failures: Failures,
                 blocks: seq<Block>, views: seq<StoreView>, results: seq<Outcome<ImportError>>)
    requires StepsImported(executor, execution, failures, blocks, views, results)
    requires Wf(views[|results|]) && Coherent(blocks)
    requires forall j :: |results| <= j < |blocks| ==> SameParentIfStored(views[|results|], blocks[j])
    requires forall j :: 0 <= j < |results| ==> results[j].Pass?
    ensures ResponseProgress(executor, execution, failures, blocks, views, results)
  {
  }

  /** After the last block. */
  lemma ResponseComplete(executor: Executor, execution: Execution, failures: Failures,
                         blocks: seq<Block>, views: seq<StoreView>, results: seq<Outcome<ImportError>>)
    requires ResponseProgress(executor, execution, failures, blocks, views, results) && |results| == |blocks|
    ensures ImportedInOrder(executor, execution, failures, blocks, views, results)
  {
  }

  /**
   * Importing a response never lowers the best depth: the store after the
   * imports is still well formed and its head is at least as deep as the
   * head before the response.
   */
  lemma {:induction false} ResponseKeepsBestDepth(executor: Executor, execution: Execution, failures: Failures,
                                                  blocks: seq<Block>, views: seq<StoreView>, results: seq<Outcome<ImportError>>)
    requires StepsImported(executor, execution, failures, blocks, views, results) && Wf(views[0])
    ensures Wf(views[|results|])
    ensures views[|results|].blocks[views[|results|].head].depth >= views[0].blocks[views[0].head].depth
    decreases |results|
  {
    var n := |results|;
    if n > 0 {
      ResponseKeepsBestDepth(executor, execution, failures, blocks, views[..n], results[..n - 1]);
      HeadDepthNeverDecreases(views[n - 1], executor, execution, failures, blocks[n - 1], views[n], results[n - 1]);
    }
  }

  /**
   * Importing a response keeps every id of the canonical depth index stored,
   * so a block request can still be answered afterwards.
   */
  lemma {:induction false} ResponseKeepsCanonStored(executor: Executor, execution: Execution, failures: Failures,
                                                    blocks: seq<Block>, views: seq<StoreView>, results: seq<Outcome<ImportError>>)
    requires StepsImported(executor, execution, failures, blocks, views, results) && CanonStored(views[0])
    ensures CanonStored(views[|results|])
    decreases |results|
  {
    var n := |results|;
    if n > 0 {
      ResponseKeepsCanonStored(executor, execution, failures, blocks, views[..n], results[..n - 1]);
      ImportKeepsCanonStored(views[n - 1], executor, execution, failures, blocks[n - 1], views[n], results[n - 1]);
    }
  }

  /** `SimpleSync` / `BestDepthSync`: the handlers of one peer. */
  class BestDepthSync {
    const backend: DirectBackend
    const importer: BestDepthImporter
    const size: RequestSize

    constructor (backend: DirectBackend, importer: BestDepthImporter, size: RequestSize)
      requires importer.backend == backend
      ensures this.backend == backend && this.importer == importer && this.size == size
    {
      this.backend := backend;
      this.importer := importer;
      this.size := size;
    }

    /** `on_tick`: one broadcast of the own status, the head's depth. */
    method OnTick() returns (out: seq<Outgoing>)
      requires Wf(backend.db.View())
      ensures |out| == 1 && out[0].Broadcast?
      ensures out[0].message == Status(BestDepthStatus(backend.db.View().blocks[backend.db.View().head].depth))
    {
      var status := Generate(backend.db);
      out := [Broadcast(Status(status))];
    }

    /** The `Status` branch of `on_message`. */
    method OnStatus(peer: PeerId, theirs: BestDepthStatus) returns (out: seq<Outgoing>)
      requires Wf(backend.db.View())
      ensures out == StatusReply(size, BestDepthStatus(backend.db.View().blocks[backend.db.View().head].depth), peer, theirs)
    {
      var status := Generate(backend.db);
      var bestDepth := backend.DepthAt(backend.Head()).value;
      out := [];
      if Cmp(theirs, status) == Greater {
        var count := if size == Batch then BatchSize else theirs.bestDepth - bestDepth;
        out := [Send(peer, BlockRequest(bestDepth + 1, count))];
      }
    }

    /** The `BlockRequest` branch of `on_message`. */
    method OnBlockRequest(peer: PeerId, start: nat, count: nat) returns (out: seq<Outgoing>)
      requires CanonStored(backend.db.View())
      ensures out == [Send(peer, BlockResponse(CanonRun(backend.db.View(), start, count)))]
    {
      ghost var v := backend.db.View();
      var ret: seq<Block> := [];
      for d := start to start + count
        invariant ret + CanonRun(v, d, start + count - d) == CanonRun(v, start, count)
      {
        var found := backend.LookupCanonDepth(d);
        CanonRunStep(v, d, start + count - d);
        if found.Ok? && found.value.Some? {
          var block := backend.BlockAt(found.value.value).value;
          assert [block] + CanonRun(v, d + 1, start + count - (d + 1)) == CanonRun(v, d, start + count - d);
          assert (ret + [block]) + CanonRun(v, d + 1, start + count - (d + 1)) == ret + CanonRun(v, d, start + count - d);
          ret := ret + [block];
        } else {
          assert ret == CanonRun(v, start, count);
          break;
        }
      }
      assert v == backend.db.View() && ret == CanonRun(v, start, count);
      out := [Send(peer, BlockResponse(ret))];
    }

    /** The `BlockResponse` branch of `on_message`: import in order, stop at the first failure. */
    method OnBlockResponse(blocks: seq<Block>) returns (ghost views: seq<StoreView>, ghost results: seq<Outcome<ImportError>>)
      requires importer.backend == backend
      requires Wf(backend.db.View()) && ResponseConsistent(backend.db.View(), blocks)
      modifies backend.db
      ensures ImportedInOrder(importer.executor, importer.execution, importer.failures, blocks, views, results)
      ensures views[0] == old(backend.db.View()) && views[|views| - 1] == backend.db.View()
    {
      views := [backend.db.View()];
      results := [];
      ResponseStart(importer.executor, importer.execution, importer.failures, blocks, backend.db.View());
      var i := 0;
      while i < |blocks|
        invariant i <= |blocks| && |results| == i && |views| == i + 1
        invariant views[0] == old(backend.db.View()) && views[i] == backend.db.View()
        invariant ResponseProgress(importer.executor, importer.execution, importer.failures, blocks, views, results)
      {
        var r := importer.ImportBlock(blocks[i]);
        ResponseNext(importer.executor, importer.execution, importer.failures, blocks, views, results, backend.db.View(), r);
        views, results := views + [backend.db.View()], results + [r];
        if r.Fail? {
          return;
        }
        i := i + 1;
      }
      ResponseComplete(importer.executor, importer.execution, importer.failures, blocks, views, results);
    }

    /**
     * `on_message`: a status may ask the peer for blocks, a request is
     * answered from the canonical chain, and a response is imported. The
     * store stays well formed and its canonical index keeps naming stored
     * blocks, so the next message can be handled in turn.
     */
    method OnMessage(peer: PeerId, message: Message)
      returns (out: seq<Outgoing>, ghost views: seq<StoreView>, ghost results: seq<Outcome<ImportError>>)
      requires importer.backend == backend && Wf(backend.db.View())
      requires message.BlockRequest? ==> CanonStored(backend.db.View())
      requires message.BlockResponse? ==> ResponseConsistent(backend.db.View(), message.blocks)
      modifies backend.db
      ensures !message.BlockResponse? ==> backend.db.View() == old(backend.db.View())
      ensures message.Status? ==> out == StatusReply(size, BestDepthStatus(old(backend.db.View()).blocks[old(backend.db.View()).head].depth), peer, message.status)
      ensures message.BlockRequest? ==> out == [Send(peer, BlockResponse(CanonRun(old(backend.db.View()), message.startDepth, message.count)))]
      ensures message.BlockResponse? ==> out == []
      ensures message.BlockResponse? ==>
        && ImportedInOrder(importer.executor, importer.execution, importer.failures, message.blocks, views, results)
        && views[0] == old(backend.db.View()) && views[|views| - 1] == backend.db.View()
      ensures Wf(backend.db.View())
      ensures CanonStored(old(backend.db.View())) ==> CanonStored(backend.db.View())
    {
      views, results := [], [];
      match message
      case Status(theirs) =>
        out := OnStatus(peer, theirs);
      case BlockRequest(start, count) =>
        out := OnBlockRequest(peer, start, count);
      case BlockResponse(blocks) =>
        out := [];
        views, results := OnBlockResponse(blocks);
        ResponseKeepsBestDepth(importer.executor, importer.execution, importer.failures, blocks, views, results);
        if CanonStored(views[0]) {
          ResponseKeepsCanonStored(importer.executor, importer.execution, importer.failures, blocks, views, results);
        }
    }
  }
}
