/**
 * The counter example's runtime (examples/counter/src/runtime.rs): the hash
 * of a block, the unsigned 128-bit counter kept in the state under the key
 * `counter`, and the executor that adds the `Add` amounts of a block to that
 * counter.
 */
module CounterRuntime {
  import opened Wrappers
  import opened ChainTypes
  import opened KeyValueState

  /** SHA3-256 over the encoded parent hash and extrinsics; a parameter of the model. */
  type Hasher = (Option<Id>, seq<Extrinsic>) -> Id

  /** `calculate_hash`: the hash of a block's content; the stored hash is not part of it. */
  function CalculateHash(hasher: Hasher, block: Block): Id
  {
    hasher(block.parentHash, block.extrinsics)
  }

  /** `verify_hash`: the stored hash is the hash of the content. */
  predicate VerifyHash(hasher: Hasher, block: Block)
  {
    block.hash == CalculateHash(hasher, block)
  }

  /**
   * The hash depends on the content alone: blocks with the same parent and
   * extrinsics hash alike, so two blocks that both verify and share their
   * content are the same block, and changing the stored hash of a verified
   * block makes it fail verification.
   */
  lemma HashOfContent(hasher: Hasher, a: Block, b: Block)
    ensures a.parentHash == b.parentHash && a.extrinsics == b.extrinsics ==>
      CalculateHash(hasher, a) == CalculateHash(hasher, b)
    ensures a.parentHash == b.parentHash && a.extrinsics == b.extrinsics ==>
      (VerifyHash(hasher, a) && VerifyHash(hasher, b) <==> a == b && VerifyHash(hasher, a))
  {
  }

  /** `fix_hash`: store the hash of the content; nothing else changes. */
  function FixHash(hasher: Hasher, block: Block): (r: Block)
    ensures VerifyHash(hasher, r)
    ensures r.parentHash == block.parentHash && r.extrinsics == block.extrinsics
  {
    block.(hash := CalculateHash(hasher, block))
  }

  /** Fixing a fixed hash changes nothing, and a block is fixed exactly when its hash verifies. */
  lemma FixHashIdempotent(hasher: Hasher, block: Block)
    ensures FixHash(hasher, FixHash(hasher, block)) == FixHash(hasher, block)
    ensures VerifyHash(hasher, block) <==> FixHash(hasher, block) == block
  {
  }

  /** `genesis`: no parent, no extrinsics, and a hash that verifies. */
  function Genesis(hasher: Hasher): (g: Block)
    ensures g.parentHash.None? && g.extrinsics == [] && VerifyHash(hasher, g)
  {
    FixHash(hasher, Block(0, None, []))
  }

  // The counter's encoding: parity-codec writes a u128 as 16 little-endian bytes.

  /** The storage key `b"counter"`. */
  const CounterKey: Bytes := [0x63, 0x6f, 0x75, 0x6e, 0x74, 0x65, 0x72]

  const U128Width: nat := 16

  function Pow256(k: nat): (p: nat)
    ensures p > 0
  {
    if k == 0 then 1 else 256 * Pow256(k - 1)
  }

  lemma U128BoundIsPow256()
    ensures Pow256(U128Width) == U128_BOUND
  {
    assert Pow256(4) == 0x1_0000_0000;
    assert Pow256(8) == 0x1_0000_0000_0000_0000;
    assert Pow256(12) == 0x1_0000_0000_0000_0000_0000_0000;
  }

  /** A byte and the rest of a number split apart again by `%` and `/`. */
  lemma SplitByte(low: nat, high: nat)
    requires low < 256
    ensures (low + 256 * high) % 256 == low && (low + 256 * high) / 256 == high
  {
  }

  /** The lowest `width` bytes of `n`, least significant first. */
  function EncodeLE(n: nat, width: nat): (r: Bytes)
    ensures |r| == width
  {
    if width == 0 then [] else [(n % 256) as Byte] + EncodeLE(n / 256, width - 1)
  }

  /** The number whose little-endian bytes are `bs`. */
  function DecodeLE(bs: Bytes): (n: nat)
    ensures n < Pow256(|bs|)
  {
    if bs == [] then 0
    else
      var rest := DecodeLE(bs[1..]);
      assert 256 * rest <= 256 * (Pow256(|bs| - 1) - 1);
      bs[0] as nat + 256 * rest
  }

  lemma {:induction false} DecodeEncodeLE(n: nat, width: nat)
    requires n < Pow256(width)
    ensures DecodeLE(EncodeLE(n, width)) == n
  {
    if width > 0 {
      var e := EncodeLE(n, width);
      DropByte(n, Pow256(width - 1));
      DecodeEncodeLE(n / 256, width - 1);
      assert e[1..] == EncodeLE(n / 256, width - 1);
      assert e[0] as nat == n % 256;
    }
  }

  /** Dropping the lowest byte of a number below `256 * bound` leaves one below `bound`. */
  lemma DropByte(n: nat, bound: nat)
    requires n < 256 * bound
    ensures n / 256 < bound && n == n % 256 + 256 * (n / 256)
  {
  }

  lemma {:induction false} EncodeDecodeLE(bs: Bytes)
    ensures EncodeLE(DecodeLE(bs), |bs|) == bs
  {
    if bs != [] {
      EncodeDecodeLE(bs[1..]);
      SplitByte(bs[0] as nat, DecodeLE(bs[1..]));
      assert DecodeLE(bs) == bs[0] as nat + 256 * DecodeLE(bs[1..]);
    }
  }

  /** `u128::encode`. */
  function EncodeU128(n: nat): (r: Bytes)
    requires n < U128_BOUND
    ensures |r| == U128Width
  {
    EncodeLE(n, U128Width)
  }

  /** `u128::decode` from a slice: the first 16 bytes, or nothing when fewer are left. */
  function DecodeU128(bs: Bytes): (r: Option<nat>)
    ensures r.Some? <==> |bs| >= U128Width
    ensures r.Some? ==> r.value < U128_BOUND
  {
    U128BoundIsPow256();
    if |bs| < U128Width then None else Some(DecodeLE(bs[..U128Width]))
  }

  /** Decoding an encoded counter gives it back. */
  lemma U128RoundTrip(n: nat)
    requires n < U128_BOUND
    ensures DecodeU128(EncodeU128(n)) == Some(n)
  {
    U128BoundIsPow256();
    DecodeEncodeLE(n, U128Width);
    assert EncodeU128(n)[..U128Width] == EncodeU128(n);
  }

  /** Decoding reads exactly the first 16 bytes: encoding the value gives them back. */
  lemma U128DecodeThenEncode(bs: Bytes)
    requires |bs| >= U128Width
    ensures DecodeU128(bs).Some? && EncodeU128(DecodeU128(bs).value) == bs[..U128Width]
  {
    EncodeDecodeLE(bs[..U128Width]);
  }

  /**
   * `read_counter`, given what `read_storage(b"counter")` returned: a storage
   * failure is passed on, a missing counter is 0, and a value that does not
   * decode is `StateCorruption`.
   */
  function ReadCounter(stored: Result<Option<Bytes>, StorageError>): (r: Result<nat, ExecError>)
    ensures stored.Err? ==> r == Err(StorageFailure)
    ensures stored == Ok(None) ==> r == Ok(0)
    ensures stored.Ok? && stored.value.Some? ==>
      (r == Err(StateCorruption) <==> |stored.value.value| < U128Width)
    ensures r.Ok? ==> r.value < U128_BOUND
    ensures stored.Ok? && stored.value.Some? && r.Ok? ==> EncodeU128(r.value) == stored.value.value[..U128Width]
  {
    match stored
    case Err(_) => Err(StorageFailure)
    case Ok(None) => Ok(0)
    case Ok(Some(bytes)) =>
      var decoded := DecodeU128(bytes);
      if decoded.None? then Err(StateCorruption)
      else
        U128DecodeThenEncode(bytes);
        Ok(decoded.value)
  }

  /** The counter of a state snapshot. */
  function CounterIn(storage: StateMap): Result<nat, ExecError>
  {
    ReadCounter(Ok(Read(storage, CounterKey)))
  }

  /** `write_counter`: the written counter reads back, and no other key changes. */
  function WriteCounter(storage: StateMap, counter: nat): (s: StateMap)
    requires counter < U128_BOUND
    ensures CounterIn(s) == Ok(counter)
    ensures forall key :: key != CounterKey ==> Read(s, key) == Read(storage, key)
  {
    U128RoundTrip(counter);
    storage[CounterKey := EncodeU128(counter)]
  }

  /**
   * `counter += add` on a u128. The model wraps around, as a release build
   * does; a debug build panics instead.
   */
  function AddWrapping(counter: nat, amount: nat): (r: nat)
    ensures r < U128_BOUND
    ensures counter + amount < U128_BOUND ==> r == counter + amount
  {
    (counter + amount) % U128_BOUND
  }

  /** The sum of the `Add` amounts. */
  function Total(extrinsics: seq<Extrinsic>): nat
  {
    if extrinsics == [] then 0
    else Total(extrinsics[..|extrinsics| - 1]) + extrinsics[|extrinsics| - 1].amount
  }

  lemma {:induction false} TotalFront(extrinsics: seq<Extrinsic>)
    requires extrinsics != []
    ensures Total(extrinsics) == extrinsics[0].amount + Total(extrinsics[1..])
    decreases |extrinsics|
  {
    var n := |extrinsics|;
    if n > 1 {
      var init := extrinsics[..n - 1];
      TotalFront(init);
      assert init[1..] == extrinsics[1..][..n - 2];
    }
  }

  /** Wrapping after each step is wrapping once at the end. */
  lemma WrapThenAdd(x: nat, a: nat, b: nat)
    ensures AddWrapping(AddWrapping(x, a), b) == AddWrapping(x, a + b)
  {
    var q := (x + a) / U128_BOUND;
    assert x + a == q * U128_BOUND + AddWrapping(x, a);
    assert x + a + b == q * U128_BOUND + (AddWrapping(x, a) + b);
  }

  /** The loop of `execute_block`: add every amount in order, wrapping. */
  function AddAll(counter: nat, extrinsics: seq<Extrinsic>): (r: nat)
    requires counter < U128_BOUND
    ensures r == AddWrapping(counter, Total(extrinsics))
    decreases |extrinsics|
  {
    if extrinsics == [] then counter
    else
      var r := AddAll(AddWrapping(counter, extrinsics[0].amount), extrinsics[1..]);
      TotalFront(extrinsics);
      WrapThenAdd(counter, extrinsics[0].amount, Total(extrinsics[1..]));
      r
  }

  /**
   * `execute_block` on a state snapshot: a block whose hash does not verify
   * is refused, a counter that cannot be read is an error, and otherwise the
   * counter grows by the block's total, wrapping at 2^128.
   */
  function Execute(hasher: Hasher, block: Block, storage: StateMap): (r: Result<StateMap, ExecError>)
    ensures !VerifyHash(hasher, block) ==> r == Err(HashMismatch)
    ensures r.Ok? <==> VerifyHash(hasher, block) && CounterIn(storage).Ok?
    ensures VerifyHash(hasher, block) && CounterIn(storage).Err? ==> r == Err(StateCorruption)
    ensures r.Ok? ==> r.value == WriteCounter(storage, AddWrapping(CounterIn(storage).value, Total(block.extrinsics)))
  {
    if !VerifyHash(hasher, block) then Err(HashMismatch)
    else match CounterIn(storage)
      case Err(e) => Err(e)
      case Ok(counter) => Ok(WriteCounter(storage, AddAll(counter, block.extrinsics)))
  }

  /**
   * Executing a block raises the counter (0 when absent) by the sum of its
   * amounts when that sum does not overflow, and leaves every other key as
   * it was.
   */
  lemma ExecuteAddsTotal(hasher: Hasher, block: Block, storage: StateMap)
    requires VerifyHash(hasher, block) && CounterIn(storage).Ok?
    requires CounterIn(storage).value + Total(block.extrinsics) < U128_BOUND
    ensures Execute(hasher, block, storage).Ok?
    ensures CounterIn(Execute(hasher, block, storage).value) == Ok(CounterIn(storage).value + Total(block.extrinsics))
    ensures forall key :: key != CounterKey ==> Read(Execute(hasher, block, storage).value, key) == Read(storage, key)
  {
    var sum := CounterIn(storage).value + Total(block.extrinsics);
    assert AddWrapping(CounterIn(storage).value, Total(block.extrinsics)) == sum;
  }

  /**
   * `execute_block` on a memory state, extrinsic by extrinsic. On failure the
   * state is untouched.
   */
  method ExecuteBlock(hasher: Hasher, block: Block, state: KeyValueMemoryState) returns (r: Outcome<ExecError>)
    modifies state
    ensures r.Pass? <==> Execute(hasher, block, old(state.storage)).Ok?
    ensures r.Pass? ==> state.storage == Execute(hasher, block, old(state.storage)).value
    ensures r.Fail? ==> r.error == Execute(hasher, block, old(state.storage)).error && state.storage == old(state.storage)
  {
    if !VerifyHash(hasher, block) {
      return Fail(HashMismatch);
    }
    var read := ReadCounter(state.ReadStorage(CounterKey));
    assert read == CounterIn(state.storage);
    if read.Err? {
      return Fail(read.error);
    }
    var counter := read.value;
    var extrinsics := block.extrinsics;
    for i := 0 to |extrinsics|
      invariant counter == AddWrapping(read.value, Total(extrinsics[..i]))
      invariant state.storage == old(state.storage)
    {
      assert extrinsics[..i + 1][..i] == extrinsics[..i];
      match extrinsics[i]
      case Add(amount) =>
        WrapThenAdd(read.value, Total(extrinsics[..i]), amount);
        counter := AddWrapping(counter, amount);
    }
    assert extrinsics[..|extrinsics|] == extrinsics;
    assert Execute(hasher, block, state.storage).value == WriteCounter(state.storage, counter);
    state.WriteStorage(CounterKey, EncodeU128(counter));
    return Pass;
  }

  /**
   * `initialize_block`: the new block names the old one as its parent, keeps
   * its extrinsics, and has a hash that verifies. The state is not used.
   */
  function InitializeBlock(hasher: Hasher, parent: Block): (r: Result<Block, ExecError>)
    ensures r.Ok?
    ensures r.value.parentHash == Some(parent.hash) && r.value.extrinsics == parent.extrinsics
    ensures VerifyHash(hasher, r.value)
  {
    Ok(FixHash(hasher, parent.(parentHash := Some(parent.hash))))
  }

  /**
   * `apply_extrinsic`: the counter in the state grows by the amount and the
   * block's hash is fixed again; the extrinsic is not added to the block.
   */
  method ApplyExtrinsic(hasher: Hasher, block: Block, extrinsic: Extrinsic, state: KeyValueMemoryState)
    returns (r: Result<Block, ExecError>)
    modifies state
    ensures r.Ok? <==> CounterIn(old(state.storage)).Ok?
    ensures r.Err? ==> r.error == StateCorruption && state.storage == old(state.storage)
    ensures r.Ok? ==> r.value == FixHash(hasher, block) && r.value.extrinsics == block.extrinsics
    ensures r.Ok? ==> state.storage == WriteCounter(old(state.storage), AddWrapping(CounterIn(old(state.storage)).value, extrinsic.amount))
  {
    var read := ReadCounter(state.ReadStorage(CounterKey));
    if read.Err? {
      return Err(read.error);
    }
    var counter := AddWrapping(read.value, extrinsic.amount);
    state.WriteStorage(CounterKey, EncodeU128(counter));
    return Ok(FixHash(hasher, block));
  }

  /** `finalize_block`: only the hash is fixed again. */
  function FinalizeBlock(hasher: Hasher, block: Block): (r: Result<Block, ExecError>)
    ensures r.Ok? && VerifyHash(hasher, r.value)
    ensures r.value.parentHash == block.parentHash && r.value.extrinsics == block.extrinsics
  {
    Ok(FixHash(hasher, block))
  }

  /**
   * The builder of the counter example initializes on the head and finalizes
   * at once: finalizing changes nothing, and the block built is the head's
   * child with the head's extrinsics.
   */
  lemma BuildOnHead(hasher: Hasher, head: Block)
    ensures FinalizeBlock(hasher, InitializeBlock(hasher, head).value) == InitializeBlock(hasher, head)
    ensures InitializeBlock(hasher, head).value.parentHash == Some(head.hash)
  {
    FixHashIdempotent(hasher, head.(parentHash := Some(head.hash)));
  }
}
