/** The hash-linked, append-only chain of blocks (Server/blockchain.py). */
module Chain {
  import opened Payloads

  /** One block; `timestamp` is the wall clock reading at creation. */
  datatype Block = Block(index: int, previousHash: string, timestamp: real, data: Payload, hash: string)

  /** The digest of a previous hash and a block's data. It stands for SHA-256
      over their concatenation and is left uninterpreted. */
  type Hasher = (string, Payload) -> string

  /** The first block of every chain. */
  function GenesisBlock(): Block
  {
    Block(0, "0", 0.0, Text("Genesis Block"), "0")
  }

  /** The newest block; a ledger's chain always holds at least the genesis block. */
  function Last(chain: seq<Block>): Block
    requires |chain| > 0
  {
    chain[|chain| - 1]
  }

  /** The block `add_block(data)` appends to `chain` when the clock reads `now`. */
  function NextBlock(chain: seq<Block>, data: Payload, now: real, hash: Hasher): (b: Block)
    requires |chain| > 0
    ensures b.index == |chain| && b.previousHash == Last(chain).hash
    ensures b.data == data && b.hash == hash(b.previousHash, b.data)
  {
    Block(|chain|, Last(chain).hash, now, data, hash(Last(chain).hash, data))
  }

  /** A new block's hash depends on the previous hash and the data alone: the
      clock reading and the rest of the chain do not enter it. */
  lemma HashIgnoresTimestamp(c1: seq<Block>, c2: seq<Block>, data: Payload, t1: real, t2: real, hash: Hasher)
    requires |c1| > 0 && |c2| > 0 && Last(c1).hash == Last(c2).hash
    ensures NextBlock(c1, data, t1, hash).hash == NextBlock(c2, data, t2, hash).hash
    ensures NextBlock(c1, data, t1, hash).hash == hash(Last(c1).hash, data)
  {
  }

  /** Positions and hash links: block i has index i, and every block after the
      first points at its predecessor's hash and carries the hash of that link
      and its own data. */
  ghost predicate Linked(chain: seq<Block>, hash: Hasher)
  {
    && (forall i :: 0 <= i < |chain| ==> chain[i].index == i)
    && (forall i :: 0 < i < |chain| ==> chain[i].previousHash == chain[i - 1].hash)
    && (forall i :: 0 < i < |chain| ==> chain[i].hash == hash(chain[i].previousHash, chain[i].data))
  }

  ghost predicate WellFormed(chain: seq<Block>, hash: Hasher)
  {
    |chain| > 0 && chain[0] == GenesisBlock() && Linked(chain, hash)
  }

  /** The data of each block, in chain order. */
  function PayloadsOf(blocks: seq<Block>): (r: seq<Payload>)
    ensures |r| == |blocks|
    ensures forall i :: 0 <= i < |blocks| ==> r[i] == blocks[i].data
  {
    seq(|blocks|, i requires 0 <= i < |blocks| => blocks[i].data)
  }

  /** The timestamp of each block, in chain order. */
  function TimesOf(blocks: seq<Block>): (r: seq<real>)
    ensures |r| == |blocks|
    ensures forall i :: 0 <= i < |blocks| ==> r[i] == blocks[i].timestamp
  {
    seq(|blocks|, i requires 0 <= i < |blocks| => blocks[i].timestamp)
  }

  /** The chain a fresh Blockchain holds after `add_block(datas[k])` at clock
      reading `times[k]`, for k = 0, 1, ... in turn. */
  function Replay(datas: seq<Payload>, times: seq<real>, hash: Hasher): (chain: seq<Block>)
    requires |datas| == |times|
    ensures |chain| == |datas| + 1
    decreases |datas|
  {
    if datas == [] then [GenesisBlock()]
    else
      var before := Replay(datas[..|datas| - 1], times[..|times| - 1], hash);
      before + [NextBlock(before, datas[|datas| - 1], times[|times| - 1], hash)]
  }

  /** Appending the block add_block builds keeps a chain well formed, and
      leaves every earlier block as it was. */
  lemma AppendKeepsWellFormed(chain: seq<Block>, data: Payload, now: real, hash: Hasher)
    requires WellFormed(chain, hash)
    ensures WellFormed(chain + [NextBlock(chain, data, now, hash)], hash)
    ensures (chain + [NextBlock(chain, data, now, hash)])[..|chain|] == chain
  {
    var next := chain + [NextBlock(chain, data, now, hash)];
    assert forall i :: 0 <= i < |chain| ==> next[i] == chain[i];
  }

  /** Replaying any history yields a well-formed chain whose block k + 1
      carries the k-th payload and clock reading. */
  lemma {:induction false} ReplayWellFormed(datas: seq<Payload>, times: seq<real>, hash: Hasher)
    requires |datas| == |times|
    ensures WellFormed(Replay(datas, times, hash), hash)
    ensures forall k :: 0 <= k < |datas| ==>
      Replay(datas, times, hash)[k + 1].data == datas[k] && Replay(datas, times, hash)[k + 1].timestamp == times[k]
    decreases |datas|
  {
    if datas != [] {
      var n := |datas| - 1;
      ReplayWellFormed(datas[..n], times[..n], hash);
      var before := Replay(datas[..n], times[..n], hash);
      AppendKeepsWellFormed(before, datas[n], times[n], hash);
      assert Replay(datas, times, hash) == before + [NextBlock(before, datas[n], times[n], hash)];
    }
  }

  /** Conversely, every well-formed chain is exactly the replay of the payloads
      and clock readings its blocks after the genesis block store: the indices,
      links and hashes leave nothing else free. */
  lemma {:induction false} WellFormedIsReplay(chain: seq<Block>, hash: Hasher)
    requires WellFormed(chain, hash)
    ensures chain == Replay(PayloadsOf(chain[1..]), TimesOf(chain[1..]), hash)
    decreases |chain|
  {
    var datas, times := PayloadsOf(chain[1..]), TimesOf(chain[1..]);
    if |chain| > 1 {
      var n := |chain| - 1;
      var before := chain[..n];
      assert WellFormed(before, hash) by {
        assert forall i :: 0 <= i < n ==> before[i] == chain[i];
      }
      WellFormedIsReplay(before, hash);
      assert before[1..] == chain[1..n];
      assert PayloadsOf(before[1..]) == datas[..n - 1];
      assert TimesOf(before[1..]) == times[..n - 1];
      assert chain[n] == NextBlock(before, datas[n - 1], times[n - 1], hash);
      assert chain == before + [chain[n]];
    }
  }

  /** The ledger itself: its only state is the list of blocks. */
  class Blockchain {
    var chain: seq<Block>
    const hash: Hasher

    ghost predicate Valid()
      reads this
    {
      WellFormed(chain, hash)
    }

    /** A fresh ledger holds the genesis block alone. */
    constructor (hash: Hasher)
      ensures Valid()
      ensures chain == [GenesisBlock()] && this.hash == hash
    {
      this.hash := hash;
      chain := [GenesisBlock()];
    }

    /** Appends one block holding `data`, linked to the current last block. */
    method AddBlock(data: Payload, now: real)
      requires Valid()
      modifies this`chain
      ensures Valid()
      ensures chain == old(chain) + [NextBlock(old(chain), data, now, hash)]
      ensures |chain| == |old(chain)| + 1 && chain[..|old(chain)|] == old(chain)
    {
      AppendKeepsWellFormed(chain, data, now, hash);
      var previous := chain[|chain| - 1];
      chain := chain + [Block(|chain|, previous.hash, now, data, hash(previous.hash, data))];
    }

    /** Delivery from the broadcaster: exactly the effect of AddBlock. */
    method Receive(data: Payload, now: real)
      requires Valid()
      modifies this`chain
      ensures Valid()
      ensures chain == old(chain) + [NextBlock(old(chain), data, now, hash)]
    {
      AddBlock(data, now);
    }
  }
}
