/**
 The chain as the pipeline sees it: a time and a list of event logs for every block number.
 Instants are whole UTC seconds.
 */
module Chain {
  import opened Wrappers

  /** A member of a JSON object: absent, null, a string, or a value of some other kind. */
  datatype Field = Missing | Null | Text(text: string) | Other

  /** The `topics` member, which must be a list when it is there. */
  datatype Topics = NoTopics | NotAList | TopicList(values: seq<Field>)

  /** One element of an `eth_getLogs` answer; `removed` is None when it is absent or not a boolean. */
  datatype RawLog = RawLog(
    blockNumber: Field,
    blockHash: Field,
    transactionHash: Field,
    transactionIndex: Field,
    logIndex: Field,
    address: Field,
    topics: Topics,
    data: Field,
    removed: Option<bool>)

  /** The times and logs of the blocks; a block without an entry has time 0 and no logs. */
  datatype Chain = Chain(times: imap<nat, int>, logs: imap<nat, seq<RawLog>>) {
    function Time(b: nat): int {
      if b in times then times[b] else 0
    }

    function Logs(b: nat): seq<RawLog> {
      if b in logs then logs[b] else []
    }
  }

  /** Every header is later than its parent ("Block Header Validity", Ethereum Yellow Paper). */
  ghost predicate StrictlyIncreasing(chain: Chain) {
    forall i: nat, j: nat | i < j :: chain.Time(i) < chain.Time(j)
  }

  /** Block b is the first block at or after instant t. */
  ghost predicate FirstAtOrAfter(chain: Chain, t: int, b: nat) {
    t <= chain.Time(b) && forall k: nat | k < b :: chain.Time(k) < t
  }

  /** The first block at or after t, found by walking up the chain one block at a time. */
  ghost function FirstBlock(chain: Chain, t: int): (b: nat)
    requires StrictlyIncreasing(chain)
    ensures FirstAtOrAfter(chain, t, b)
  {
    WalkUp(chain, t, 0)
  }

  ghost function WalkUp(chain: Chain, t: int, b: nat): (r: nat)
    requires StrictlyIncreasing(chain)
    requires forall k: nat | k < b :: chain.Time(k) < t
    ensures FirstAtOrAfter(chain, t, r)
    decreases t - chain.Time(b)
  {
    if t <= chain.Time(b) then b else WalkUp(chain, t, b + 1)
  }

  lemma FirstBlockUnique(chain: Chain, t: int, b: nat)
    requires StrictlyIncreasing(chain) && FirstAtOrAfter(chain, t, b)
    ensures b == FirstBlock(chain, t)
  {
    var r := FirstBlock(chain, t);
    assert !(r < b) && !(b < r);
  }

  /** The blocks of [start, end) are the block numbers from one first block up to the next. */
  lemma IntervalIsBlockRange(chain: Chain, start: int, end: int, b: nat)
    requires StrictlyIncreasing(chain)
    ensures start <= chain.Time(b) < end
       <==> FirstBlock(chain, start) <= b < FirstBlock(chain, end)
  {
    var lo, hi := FirstBlock(chain, start), FirstBlock(chain, end);
    assert lo < b ==> chain.Time(lo) < chain.Time(b);
    assert hi < b ==> chain.Time(hi) < chain.Time(b);
  }

  /** How many of the blocks 0..head are later than t. */
  ghost function Depth(chain: Chain, head: nat, t: int): (d: nat)
    ensures d <= head + 1
  {
    if chain.Time(head) <= t then 0
    else if head == 0 then 1
    else 1 + Depth(chain, head - 1, t)
  }

  lemma {:induction false} DepthSplits(chain: Chain, head: nat, t: int, b: nat)
    requires StrictlyIncreasing(chain) && b <= head
    ensures chain.Time(b) > t <==> head - b < Depth(chain, head, t)
  {
    if chain.Time(head) <= t {
      assert b < head ==> chain.Time(b) < chain.Time(head);
    } else if b < head {
      DepthSplits(chain, head - 1, t, b);
    }
  }

  /** The logs of the blocks lo, ..., hi - 1, in block order. */
  function BlockLogs(chain: Chain, lo: nat, hi: nat): seq<RawLog> {
    if hi <= lo then [] else BlockLogs(chain, lo, hi - 1) + chain.Logs(hi - 1)
  }

  /** The logs of a range are those of its blocks, one block after the other. */
  lemma BlockLogsOne(chain: Chain, b: nat)
    ensures BlockLogs(chain, b, b) == [] && BlockLogs(chain, b, b + 1) == chain.Logs(b)
  {
    assert BlockLogs(chain, b, b + 1) == BlockLogs(chain, b, b) + chain.Logs(b);
  }

  lemma {:induction false} BlockLogsSplit(chain: Chain, lo: nat, mid: nat, hi: nat)
    requires lo <= mid <= hi
    ensures BlockLogs(chain, lo, hi) == BlockLogs(chain, lo, mid) + BlockLogs(chain, mid, hi)
  {
    if mid == hi {
    } else {
      BlockLogsSplit(chain, lo, mid, hi - 1);
      assert BlockLogs(chain, lo, mid) + BlockLogs(chain, mid, hi)
          == (BlockLogs(chain, lo, mid) + BlockLogs(chain, mid, hi - 1)) + chain.Logs(hi - 1);
    }
  }

  /** A log is among the logs of a block range exactly when it is a log of one of its blocks. */
  lemma {:induction false} BlockLogsMember(chain: Chain, lo: nat, hi: nat, l: RawLog)
    ensures l in BlockLogs(chain, lo, hi) <==> exists b: nat :: lo <= b < hi && l in chain.Logs(b)
  {
    if hi <= lo {
    } else {
      BlockLogsMember(chain, lo, hi - 1, l);
    }
  }
}
