/**
 * The chunk save-file format (Game/World.cpp:514-595, header in
 * Game/Chunk.hpp:56-66): an 8-byte header followed by (block type, run
 * length) byte pairs covering the chunk's blocks in index order.
 */
module ChunkFile {
  import opened GameCommon
  import opened Blocks

  /** 'G', 'C', 'H', 'K', version 1, then the recorded bit widths 4, 4, 7. */
  const CHUNK_FILE_HEADER: seq<byte> := [0x47, 0x43, 0x48, 0x4B, 1, 4, 4, 7]
  const CHUNK_FILE_MAGIC: seq<byte> := [0x47, 0x43, 0x48, 0x4B]
  const HEADER_SIZE := 8
  const MAX_RUN_LENGTH := 255

  /** The header's bit widths for x and y are not the chunk's: the decoder never reads them. */
  lemma HeaderBitWidths()
    ensures CHUNK_FILE_HEADER[..4] == CHUNK_FILE_MAGIC
    ensures CHUNK_FILE_HEADER[5] != CHUNK_BITS_X && CHUNK_FILE_HEADER[6] != CHUNK_BITS_Y
    ensures CHUNK_FILE_HEADER[7] == CHUNK_BITS_Z
  {
  }

  function Repeat(t: byte, n: nat): (r: seq<byte>)
    ensures |r| == n
    ensures forall i :: 0 <= i < n ==> r[i] == t
  {
    if n == 0 then [] else Repeat(t, n - 1) + [t]
  }

  /** The block types of a sequence of blocks. */
  function TypesOf(blocks: seq<Block>): (types: seq<byte>)
    ensures |types| == |blocks|
    ensures forall i :: 0 <= i < |blocks| ==> types[i] == blocks[i].blockType
  {
    seq(|blocks|, i requires 0 <= i < |blocks| => blocks[i].blockType)
  }

  // ---------------------------------------------------------------------
  // Encoding

  /**
   * The pairs the encoder emits for the types in `rest` while a run of
   * `runLength` blocks of type `current` is open: a run grows while the type
   * repeats and it is shorter than 255, and is flushed otherwise.
   */
  function EncodeFrom(rest: seq<byte>, current: byte, runLength: int): seq<byte>
    requires 1 <= runLength <= MAX_RUN_LENGTH
    decreases |rest|
  {
    if rest == [] then [current, runLength]
    else if rest[0] == current && runLength < MAX_RUN_LENGTH then EncodeFrom(rest[1..], current, runLength + 1)
    else [current, runLength] + EncodeFrom(rest[1..], rest[0], 1)
  }

  /** The whole file for a non-empty sequence of block types. */
  function EncodeChunkFile(types: seq<byte>): seq<byte>
    requires |types| >= 1
  {
    CHUNK_FILE_HEADER + EncodeFrom(types[1..], types[0], 1)
  }

  // ---------------------------------------------------------------------
  // Decoding

  /** The block types the pairs of `body` expand to; nothing when a pair is cut short. */
  function DecodeRuns(body: seq<byte>): (r: Option<seq<byte>>)
    ensures r.Some? <==> |body| % 2 == 0
  {
    if |body| == 0 then Some([])
    else if |body| == 1 then None
    else match DecodeRuns(body[2..])
      case None => None
      case Some(rest) => Some(Repeat(body[0], body[1]) + rest)
  }

  /** Every run is non-empty, and a run is followed by one of the same type only when it is full. */
  predicate RunsWellFormed(body: seq<byte>)
    decreases |body|
  {
    if |body| == 0 then true
    else if |body| == 1 then false
    else (body[1] != 0
          && (|body| >= 4 && body[2] == body[0] ==> body[1] == MAX_RUN_LENGTH)
          && RunsWellFormed(body[2..]))
  }

  datatype LoadError = TruncatedHeader | BadMagic | TruncatedRun | RunPastChunkEnd | UnknownBlockType

  datatype LoadOutcome = Loaded | Failed(error: LoadError)

  predicate HasMagic(file: seq<byte>) {
    |file| >= HEADER_SIZE && file[..4] == CHUNK_FILE_MAGIC
  }

  /** A file the loader accepts: magic, whole pairs, at most a chunk of blocks, known types only. */
  predicate Loadable(file: seq<byte>, defs: DefTable) {
    HasMagic(file)
    && DecodeRuns(file[HEADER_SIZE..]).Some?
    && |DecodeRuns(file[HEADER_SIZE..]).value| <= CHUNK_BLOCK_TOTAL
    && forall i :: 0 <= i < |DecodeRuns(file[HEADER_SIZE..]).value| ==>
         KnownType(defs, DecodeRuns(file[HEADER_SIZE..]).value[i])
  }

  // ---------------------------------------------------------------------
  // Properties of the format

  /** Decoding what the encoder emits gives back the open run followed by the remaining types. */
  lemma {:induction false} DecodeEncodeFrom(rest: seq<byte>, current: byte, runLength: int)
    requires 1 <= runLength <= MAX_RUN_LENGTH
    ensures DecodeRuns(EncodeFrom(rest, current, runLength)) == Some(Repeat(current, runLength) + rest)
    ensures RunsWellFormed(EncodeFrom(rest, current, runLength))
    decreases |rest|
  {
    var e := EncodeFrom(rest, current, runLength);
    if rest == [] {
      assert e == [current, runLength];
      assert e[2..] == [];
    } else if rest[0] == current && runLength < MAX_RUN_LENGTH {
      DecodeEncodeFrom(rest[1..], current, runLength + 1);
      assert Repeat(current, runLength + 1) + rest[1..] == Repeat(current, runLength) + rest;
    } else {
      var tail := EncodeFrom(rest[1..], rest[0], 1);
      DecodeEncodeFrom(rest[1..], rest[0], 1);
      assert e == [current, runLength] + tail;
      assert e[2..] == tail;
      assert Repeat(rest[0], 1) + rest[1..] == rest;
      FirstPairOf(rest[1..], rest[0], 1);
    }
  }

  /** The encoder's output starts with the open run's type, and its first length is at least the open length. */
  lemma {:induction false} FirstPairOf(rest: seq<byte>, current: byte, runLength: int)
    requires 1 <= runLength <= MAX_RUN_LENGTH
    ensures |EncodeFrom(rest, current, runLength)| >= 2
    ensures EncodeFrom(rest, current, runLength)[0] == current
    ensures EncodeFrom(rest, current, runLength)[1] as int >= runLength
    decreases |rest|
  {
    if rest != [] && rest[0] == current && runLength < MAX_RUN_LENGTH {
      FirstPairOf(rest[1..], current, runLength + 1);
    }
  }

  /** Decoding a saved file restores every block type, and its runs are well formed. */
  lemma SaveLoadRoundTrip(types: seq<byte>)
    requires |types| >= 1
    ensures EncodeChunkFile(types)[..HEADER_SIZE] == CHUNK_FILE_HEADER
    ensures HasMagic(EncodeChunkFile(types))
    ensures DecodeRuns(EncodeChunkFile(types)[HEADER_SIZE..]) == Some(types)
    ensures RunsWellFormed(EncodeChunkFile(types)[HEADER_SIZE..])
  {
    var body := EncodeFrom(types[1..], types[0], 1);
    assert EncodeChunkFile(types)[HEADER_SIZE..] == body;
    DecodeEncodeFrom(types[1..], types[0], 1);
    assert Repeat(types[0], 1) == [types[0]];
    assert [types[0]] + types[1..] == types;
  }

  /** A saved chunk of known block types can be loaded. */
  lemma SavedChunkIsLoadable(types: seq<byte>, defs: DefTable)
    requires |types| == CHUNK_BLOCK_TOTAL
    requires forall i :: 0 <= i < |types| ==> KnownType(defs, types[i])
    ensures Loadable(EncodeChunkFile(types), defs)
  {
    SaveLoadRoundTrip(types);
  }

  /** Decoding distributes over a split at a pair boundary. */
  lemma {:induction false} DecodeRunsAppend(a: seq<byte>, b: seq<byte>)
    requires |a| % 2 == 0
    ensures DecodeRuns(a + b) ==
      if DecodeRuns(b).Some? then Some(DecodeRuns(a).value + DecodeRuns(b).value) else None
    decreases |a|
  {
    if |a| == 0 {
      assert a + b == b;
      assert DecodeRuns(a) == Some([]);
      if DecodeRuns(b).Some? {
        assert [] + DecodeRuns(b).value == DecodeRuns(b).value;
      }
    } else {
      assert (a + b)[0] == a[0] && (a + b)[1] == a[1];
      assert (a + b)[2..] == a[2..] + b;
      DecodeRunsAppend(a[2..], b);
      if DecodeRuns(b).Some? {
        var r := Repeat(a[0], a[1]);
        assert r + (DecodeRuns(a[2..]).value + DecodeRuns(b).value)
            == (r + DecodeRuns(a[2..]).value) + DecodeRuns(b).value;
      }
    }
  }

  // ---------------------------------------------------------------------
  // The save and load loops over a chunk's block array

  /**
   * SaveChunkToFile's byte buffer: the header, then the runs of the block
   * types in index order.
   */
  method EncodeChunkBlocks(blocks: array<Block>) returns (bytes: seq<byte>)
    requires blocks.Length == CHUNK_BLOCK_TOTAL
    ensures bytes == EncodeChunkFile(TypesOf(blocks[..]))
    ensures bytes[..HEADER_SIZE] == CHUNK_FILE_HEADER
    ensures DecodeRuns(bytes[HEADER_SIZE..]) == Some(TypesOf(blocks[..]))
    ensures RunsWellFormed(bytes[HEADER_SIZE..])
  {
    ghost var types := TypesOf(blocks[..]);
    bytes := CHUNK_FILE_HEADER;
    var currentBlockType: byte := blocks[0].GetBlockType();
    var runLength: byte := 1;
    var blockIndex := 1;
    while blockIndex < CHUNK_BLOCK_TOTAL
      invariant 1 <= blockIndex <= CHUNK_BLOCK_TOTAL
      invariant 1 <= runLength <= MAX_RUN_LENGTH
      invariant bytes + EncodeFrom(types[blockIndex..], currentBlockType, runLength) == EncodeChunkFile(types)
    {
      var blockType := blocks[blockIndex].GetBlockType();
      assert types[blockIndex..][0] == blockType;
      assert types[blockIndex..][1..] == types[blockIndex + 1..];
      if blockType == currentBlockType && runLength < MAX_RUN_LENGTH {
        runLength := runLength + 1;
      } else {
        bytes := bytes + [currentBlockType, runLength];
        currentBlockType := blockType;
        runLength := 1;
      }
      blockIndex := blockIndex + 1;
    }
    assert types[blockIndex..] == [];
    bytes := bytes + [currentBlockType, runLength];
    SaveLoadRoundTrip(types);
  }

  /** Decoding one more pair extends the decoded prefix by that pair's run, and a whole decode splits there. */
  lemma DecodePairStep(body: seq<byte>, q: int)
    requires 0 <= q && q + 2 <= |body| && q % 2 == 0
    ensures DecodeRuns(body[..q + 2]) == Some(DecodeRuns(body[..q]).value + Repeat(body[q], body[q + 1]))
    ensures DecodeRuns(body).Some? ==>
      DecodeRuns(body).value == DecodeRuns(body[..q + 2]).value + DecodeRuns(body[q + 2..]).value
  {
    var pair := body[q..q + 2];
    assert body[..q + 2] == body[..q] + pair;
    DecodeRunsAppend(body[..q], pair);
    assert pair[2..] == [];
    assert DecodeRuns(pair[2..]) == Some([]);
    assert Repeat(body[q], body[q + 1]) + [] == Repeat(body[q], body[q + 1]);
    assert body == body[..q + 2] + body[q + 2..];
    DecodeRunsAppend(body[..q + 2], body[q + 2..]);
  }

  /** Sets `n` blocks from `start` on to type `t`, as SetBlockType does one at a time. */
  method FillRun(blocks: array<Block>, start: int, n: int, t: byte, defs: DefTable)
    requires 0 <= start && 0 <= n && start + n <= blocks.Length
    requires n > 0 ==> KnownType(defs, t)
    modifies blocks
    ensures forall i :: 0 <= i < blocks.Length ==>
      blocks[i] == if start <= i < start + n then old(blocks[i]).SetBlockType(t, defs) else old(blocks[i])
  {
    var setBlockIndex := 0;
    while setBlockIndex < n
      invariant 0 <= setBlockIndex <= n
      invariant forall i :: 0 <= i < blocks.Length ==>
        blocks[i] == if start <= i < start + setBlockIndex then old(blocks[i]).SetBlockType(t, defs) else old(blocks[i])
    {
      blocks[start + setBlockIndex] := blocks[start + setBlockIndex].SetBlockType(t, defs);
      setBlockIndex := setBlockIndex + 1;
    }
  }

  /**
   * LoadChunkFromFile's decode loop: checks the magic, then expands each pair
   * into the block array in index order with Block.SetBlockType. A file that
   * is not Loadable is rejected; the source stops only on a bad magic and
   * otherwise reads or writes past its buffers.
   */
  method DecodeIntoBlocks(blocks: array<Block>, file: seq<byte>, defs: DefTable) returns (r: LoadOutcome)
    requires blocks.Length == CHUNK_BLOCK_TOTAL
    modifies blocks
    ensures r == Failed(TruncatedHeader) <==> |file| < HEADER_SIZE
    ensures r == Failed(BadMagic) <==> |file| >= HEADER_SIZE && file[..4] != CHUNK_FILE_MAGIC
    ensures r.Failed? && r.error in {TruncatedHeader, BadMagic} ==> blocks[..] == old(blocks[..])
    ensures r == Loaded <==> Loadable(file, defs)
    ensures forall i :: 0 <= i < blocks.Length ==> blocks[i] == old(blocks[i]) || KnownType(defs, blocks[i].blockType)
    ensures r == Loaded ==>
      var types := DecodeRuns(file[HEADER_SIZE..]).value;
      forall i :: 0 <= i < CHUNK_BLOCK_TOTAL ==>
        blocks[i] == if i < |types| then old(blocks[i]).SetBlockType(types[i], defs) else old(blocks[i])
  {
    if |file| < HEADER_SIZE {
      return Failed(TruncatedHeader);
    }
    if file[0] != 0x47 || file[1] != 0x43 || file[2] != 0x48 || file[3] != 0x4B {
      assert file[..4] != CHUNK_FILE_MAGIC;
      return Failed(BadMagic);
    }
    assert file[..4] == CHUNK_FILE_MAGIC;
    var body := file[HEADER_SIZE..];
    var q := 0;
    var blockIndex := 0;
    ghost var done: seq<byte> := [];
    while q < |body|
      invariant 0 <= q <= |body| && q % 2 == 0
      invariant DecodeRuns(body[..q]) == Some(done)
      invariant blockIndex == |done| <= CHUNK_BLOCK_TOTAL
      invariant forall i :: 0 <= i < blockIndex ==> KnownType(defs, done[i])
      invariant forall i :: 0 <= i < CHUNK_BLOCK_TOTAL ==>
        blocks[i] == if i < blockIndex then old(blocks[i]).SetBlockType(done[i], defs) else old(blocks[i])
      decreases |body| - q
    {
      if q + 1 >= |body| {
        return Failed(TruncatedRun);
      }
      var blockType := body[q];
      var runLength := body[q + 1];
      DecodePairStep(body, q);
      if blockIndex + runLength > CHUNK_BLOCK_TOTAL {
        return Failed(RunPastChunkEnd);
      }
      if runLength > 0 && !KnownType(defs, blockType) {
        if DecodeRuns(body).Some? {
          assert DecodeRuns(body).value[blockIndex] == blockType;
        }
        return Failed(UnknownBlockType);
      }
      FillRun(blocks, blockIndex, runLength, blockType, defs);
      done := done + Repeat(blockType, runLength);
      blockIndex := blockIndex + runLength;
      q := q + 2;
    }
    assert body[..q] == body;
    return Loaded;
  }
}
