/** The part of Server/server.py with logic in it: the single ledger behind the
    stub broadcaster, the document record `send_document` submits, and the
    recipient filter of `get_documents`. */
module Server {
  import opened Payloads
  import opened Chain
  import PbftStub

  /** The sender every submitted record names. */
  const Sender: string := "client1"

  /** The record `send_document` submits for an uploaded file. */
  function DocumentRecord(filename: string, to: string): (r: Payload)
    ensures r.Record? && r.fields.Keys == {"document", "to", "from"}
    ensures Get(r.fields, "document") == Some(filename)
    ensures Get(r.fields, "to") == Some(to)
    ensures Get(r.fields, "from") == Some(Sender)
  {
    Record(map["document" := filename, "to" := to, "from" := Sender])
  }

  /** Whether block data is a record whose "to" lookup equals `userId`; an
      absent query parameter (None) matches records that have no "to". */
  predicate AddressedTo(d: Payload, userId: Option<string>)
  {
    d.Record? && Get(d.fields, "to") == userId
  }

  /** The data of the blocks addressed to `userId`, in chain order. */
  function Documents(chain: seq<Block>, userId: Option<string>): (r: seq<Payload>)
    ensures |r| <= |chain|
    ensures forall k :: 0 <= k < |r| ==> AddressedTo(r[k], userId)
  {
    if chain == [] then []
    else (if AddressedTo(chain[0].data, userId) then [chain[0].data] else []) + Documents(chain[1..], userId)
  }

  /** `xs` is `ys` with some elements left out, order kept. */
  predicate IsSubsequence<T(==)>(xs: seq<T>, ys: seq<T>)
  {
    if xs == [] then true
    else if ys == [] then false
    else if xs[0] == ys[0] then IsSubsequence(xs[1..], ys[1..])
    else IsSubsequence(xs, ys[1..])
  }

  /** The listing keeps chain order and takes nothing that is not block data. */
  lemma {:induction false} DocumentsSubsequence(chain: seq<Block>, userId: Option<string>)
    ensures IsSubsequence(Documents(chain, userId), PayloadsOf(chain))
  {
    if chain != [] {
      DocumentsSubsequence(chain[1..], userId);
      var rest := Documents(chain[1..], userId);
      assert PayloadsOf(chain)[1..] == PayloadsOf(chain[1..]);
      if !AddressedTo(chain[0].data, userId) && rest != [] {
        assert AddressedTo(rest[0], userId);
        assert rest[0] != PayloadsOf(chain)[0];
        assert Documents(chain, userId) == rest;
      }
    }
  }

  /** A payload is listed exactly when some block holds it and it is addressed
      to `userId`. */
  lemma {:induction false} DocumentsMembership(chain: seq<Block>, userId: Option<string>, d: Payload)
    ensures d in Documents(chain, userId) <==>
      AddressedTo(d, userId) && exists i :: 0 <= i < |chain| && chain[i].data == d
  {
    if chain != [] {
      DocumentsMembership(chain[1..], userId, d);
      if exists i :: 0 <= i < |chain[1..]| && chain[1..][i].data == d {
        var i :| 0 <= i < |chain[1..]| && chain[1..][i].data == d;
        assert chain[i + 1].data == d;
      }
      if exists i :: 0 <= i < |chain| && chain[i].data == d {
        var i :| 0 <= i < |chain| && chain[i].data == d;
        if i > 0 {
          assert chain[1..][i - 1].data == d;
        }
      }
    }
  }

  /** Appending a block extends the listing by that block's data exactly when
      it is addressed to `userId`. */
  lemma {:induction false} DocumentsAppend(chain: seq<Block>, b: Block, userId: Option<string>)
    ensures Documents(chain + [b], userId) ==
      Documents(chain, userId) + (if AddressedTo(b.data, userId) then [b.data] else [])
  {
    if chain == [] {
      assert [b][1..] == [];
    } else {
      assert (chain + [b])[1..] == chain[1..] + [b];
      DocumentsAppend(chain[1..], b, userId);
    }
  }

  /** The genesis block is never listed: its data is a string, not a record. */
  lemma GenesisNeverListed(chain: seq<Block>, userId: Option<string>)
    requires |chain| > 0 && chain[0] == GenesisBlock()
    ensures Documents(chain, userId) == Documents(chain[1..], userId)
  {
  }

  /** The document service's process-wide state: one ledger, and a broadcaster
      whose only node is that ledger. */
  class Service {
    const blockchain: Blockchain
    const pbft: PbftStub.Pbft

    ghost predicate Valid()
      reads this, blockchain, pbft
    {
      pbft.nodes == [blockchain] && blockchain.Valid() && pbft.Valid()
    }

    constructor (hash: Hasher)
      ensures Valid() && fresh(blockchain) && fresh(pbft)
      ensures blockchain.chain == [GenesisBlock()] && blockchain.hash == hash
      ensures pbft.requests == []
    {
      var b := new Blockchain(hash);
      blockchain := b;
      pbft := new PbftStub.Pbft([b]);
    }

    /** `send_document` without the upload: submits the record for `filename`
        addressed to `to`; the ledger grows by exactly the block carrying it. */
    method SendDocument(filename: string, to: string, now: real)
      requires Valid()
      modifies pbft, blockchain
      ensures Valid()
      ensures blockchain.chain ==
        old(blockchain.chain) + [NextBlock(old(blockchain.chain), DocumentRecord(filename, to), now, blockchain.hash)]
      ensures pbft.requests == old(pbft.requests) + [DocumentRecord(filename, to)]
      ensures GetDocuments(Some(to)) == old(GetDocuments(Some(to))) + [DocumentRecord(filename, to)]
      ensures forall u :: u != Some(to) ==> Documents(blockchain.chain, u) == Documents(old(blockchain.chain), u)
    {
      var record := DocumentRecord(filename, to);
      pbft.Request(record, now);
      assert pbft.nodes[0] == blockchain;
      var next := NextBlock(old(blockchain.chain), record, now, blockchain.hash);
      DocumentsAppend(old(blockchain.chain), next, Some(to));
      forall u | u != Some(to)
        ensures Documents(blockchain.chain, u) == Documents(old(blockchain.chain), u)
      {
        DocumentsAppend(old(blockchain.chain), next, u);
      }
    }

    /** `get_documents(userId)`: the listing over the current chain. */
    function GetDocuments(userId: Option<string>): seq<Payload>
      reads this, blockchain
    {
      Documents(blockchain.chain, userId)
    }
  }
}
