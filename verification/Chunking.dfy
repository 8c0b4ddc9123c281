/** Block ranges cut into chunks small enough for one `eth_getLogs` request. */
module Chunking {
  import opened Wrappers
  import opened Arithmetic
  import opened JsonRpc

  datatype BlockChunk = BlockChunk(fromBlock: nat, toBlock: nat) {
    function BlockCount(): int {
      toBlock - fromBlock + 1
    }
  }

  datatype ChunkError = NegativeBlock | ReversedRange | BadMaxBlocks

  /**
   The chunks cover from..to in order, without gap or overlap; each holds 1 to maxBlocks blocks and all but the
   last are full.
   */
  ghost predicate Tiles(chunks: seq<BlockChunk>, fromBlock: int, toBlock: int, maxBlocks: int) {
    && (forall i | 0 <= i < |chunks| :: 1 <= chunks[i].BlockCount() <= maxBlocks)
    && (forall i | 0 <= i < |chunks| - 1 :: chunks[i].BlockCount() == maxBlocks)
    && (forall i | 0 < i < |chunks| :: chunks[i].fromBlock == chunks[i - 1].toBlock + 1)
    && (if chunks == [] then fromBlock == toBlock + 1
        else chunks[0].fromBlock == fromBlock && chunks[|chunks| - 1].toBlock == toBlock)
  }

  method IterBlockChunks(fromBlock: int, toBlock: int, maxBlocks: int)
    returns (r: Result<seq<BlockChunk>, ChunkError>)
    ensures r.Success? <==> 0 <= fromBlock <= toBlock && 1 <= maxBlocks <= 10
    ensures r == Failure(NegativeBlock) <==> fromBlock < 0 || toBlock < 0
    ensures r == Failure(ReversedRange) <==> 0 <= toBlock < fromBlock
    ensures r.Success? ==> Tiles(r.value, fromBlock, toBlock, maxBlocks)
  {
    if fromBlock < 0 || toBlock < 0 {
      return Failure(NegativeBlock);
    }
    if fromBlock > toBlock {
      return Failure(ReversedRange);
    }
    if maxBlocks < 1 || maxBlocks > MAX_BLOCKS_PER_LOG_REQUEST {
      return Failure(BadMaxBlocks);
    }
    var chunks: seq<BlockChunk> := [];
    var chunkStart := fromBlock;
    while chunkStart <= toBlock
      invariant fromBlock <= chunkStart <= toBlock + 1
      invariant Tiles(chunks, fromBlock, chunkStart - 1, maxBlocks)
      invariant chunkStart <= toBlock && chunks != [] ==> chunks[|chunks| - 1].BlockCount() == maxBlocks
    {
      var chunkEnd := Min(chunkStart + maxBlocks - 1, toBlock);
      var chunk := BlockChunk(chunkStart, chunkEnd);
      // The source raises an error here when the chunk is too small or too large; it never does.
      assert 1 <= chunk.BlockCount() <= MAX_BLOCKS_PER_LOG_REQUEST;
      chunks := chunks + [chunk];
      chunkStart := chunkEnd + 1;
    }
    return Success(chunks);
  }

  /** The first i chunks cover the blocks below `next`, and those left need a request each. */
  ghost predicate TiledUpTo(chunks: seq<BlockChunk>, fromBlock: int, toBlock: int, maxBlocks: int, i: int, next: int) {
    && Tiles(chunks, fromBlock, toBlock, maxBlocks)
    && 0 <= i <= |chunks| && 0 <= fromBlock <= next
    && next == (if i < |chunks| then chunks[i].fromBlock else toBlock + 1)
    && next + (|chunks| - i) <= toBlock + 1
  }

  lemma TilesStart(chunks: seq<BlockChunk>, fromBlock: int, toBlock: int, maxBlocks: int)
    requires Tiles(chunks, fromBlock, toBlock, maxBlocks) && 0 <= fromBlock <= toBlock
    ensures TiledUpTo(chunks, fromBlock, toBlock, maxBlocks, 0, fromBlock)
  {
    BlocksLeft(chunks, fromBlock, toBlock, maxBlocks, 0);
  }

  /** Every chunk still to come holds at least one block. */
  lemma {:induction false} BlocksLeft(chunks: seq<BlockChunk>, fromBlock: int, toBlock: int, maxBlocks: int, i: nat)
    requires Tiles(chunks, fromBlock, toBlock, maxBlocks) && i < |chunks|
    ensures chunks[i].fromBlock + (|chunks| - i) <= toBlock + 1
    decreases |chunks| - i
  {
    assert chunks[i].BlockCount() >= 1;
    if i + 1 == |chunks| {
    } else {
      BlocksLeft(chunks, fromBlock, toBlock, maxBlocks, i + 1);
    }
  }

  lemma TilesEnd(chunks: seq<BlockChunk>, fromBlock: int, toBlock: int, maxBlocks: int, next: int)
    requires TiledUpTo(chunks, fromBlock, toBlock, maxBlocks, |chunks|, next)
    ensures next == toBlock + 1
  {
  }

  lemma TilesNext(chunks: seq<BlockChunk>, fromBlock: int, toBlock: int, maxBlocks: int, i: nat, next: int)
    requires TiledUpTo(chunks, fromBlock, toBlock, maxBlocks, i, next) && i < |chunks|
    ensures fromBlock <= next == chunks[i].fromBlock <= chunks[i].toBlock <= toBlock
    ensures chunks[i].toBlock - next + 1 <= maxBlocks
    ensures TiledUpTo(chunks, fromBlock, toBlock, maxBlocks, i + 1, chunks[i].toBlock + 1)
  {
    BlocksLeft(chunks, fromBlock, toBlock, maxBlocks, i);
    if i + 1 < |chunks| {
      BlocksLeft(chunks, fromBlock, toBlock, maxBlocks, i + 1);
    }
  }

  /** The number of chunks is the number of blocks divided by the chunk size, rounded up. */
  lemma ChunkCount(chunks: seq<BlockChunk>, fromBlock: int, toBlock: int, maxBlocks: int)
    requires Tiles(chunks, fromBlock, toBlock, maxBlocks) && fromBlock <= toBlock && maxBlocks > 0
    ensures (|chunks| - 1) * maxBlocks < toBlock - fromBlock + 1 <= |chunks| * maxBlocks
  {
    var last := |chunks| - 1;
    MulStep(last, maxBlocks);
    if last > 0 {
      FullChunks(chunks[..last], fromBlock, chunks[last].fromBlock - 1, maxBlocks);
    }
  }

  lemma {:induction false} FullChunks(chunks: seq<BlockChunk>, fromBlock: int, toBlock: int, maxBlocks: int)
    requires Tiles(chunks, fromBlock, toBlock, maxBlocks) && maxBlocks > 0
    requires forall i | 0 <= i < |chunks| :: chunks[i].BlockCount() == maxBlocks
    ensures toBlock - fromBlock + 1 == |chunks| * maxBlocks
  {
    var last := |chunks| - 1;
    MulStep(last, maxBlocks);
    if last <= 0 {
    } else {
      FullChunks(chunks[..last], fromBlock, chunks[last].fromBlock - 1, maxBlocks);
    }
  }
}
