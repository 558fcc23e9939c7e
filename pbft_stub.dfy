/** The stub broadcaster of Server/pbft.py: it records each request and hands
    it to every node, which in the document service is the one ledger. */
module PbftStub {
  import opened Payloads
  import opened Chain

  ghost predicate Distinct(nodes: seq<Blockchain>)
  {
    forall i, j :: 0 <= i < j < |nodes| ==> nodes[i] != nodes[j]
  }

  /** What each node's chain becomes when it receives `data` at `now`. */
  twostate predicate DeliveredTo(nodes: seq<Blockchain>, data: Payload, now: real)
    reads nodes
  {
    forall i :: 0 <= i < |nodes| ==>
      |old(nodes[i].chain)| > 0 &&
      nodes[i].chain == old(nodes[i].chain) + [NextBlock(old(nodes[i].chain), data, now, nodes[i].hash)]
  }

  class Pbft {
    const nodes: seq<Blockchain>
    var requests: seq<Payload>

    ghost predicate Valid()
      reads this, nodes
    {
      Distinct(nodes) && forall i :: 0 <= i < |nodes| ==> nodes[i].Valid()
    }

    /** A new broadcaster has no requests and the given nodes. */
    constructor (nodes: seq<Blockchain>)
      requires Distinct(nodes) && forall i :: 0 <= i < |nodes| ==> nodes[i].Valid()
      ensures Valid()
      ensures this.nodes == nodes && requests == []
    {
      this.nodes := nodes;
      requests := [];
    }

    /** Records `data` at the end of the request list, then broadcasts it. */
    method Request(data: Payload, now: real)
      requires Valid()
      modifies this`requests, nodes
      ensures Valid()
      ensures requests == old(requests) + [data]
      ensures DeliveredTo(nodes, data, now)
    {
      requests := requests + [data];
      Broadcast(data, now);
    }

    /** Calls `Receive(data)` on every node once, in list order. */
    method Broadcast(data: Payload, now: real)
      requires Valid()
      modifies nodes
      ensures Valid()
      ensures DeliveredTo(nodes, data, now)
    {
      var i := 0;
      while i < |nodes|
        invariant 0 <= i <= |nodes|
        invariant forall j :: 0 <= j < |nodes| ==> nodes[j].Valid()
        invariant forall j :: 0 <= j < i ==>
          |old(nodes[j].chain)| > 0 &&
          nodes[j].chain == old(nodes[j].chain) + [NextBlock(old(nodes[j].chain), data, now, nodes[j].hash)]
        invariant forall j :: i <= j < |nodes| ==> nodes[j].chain == old(nodes[j].chain)
      {
        nodes[i].Receive(data, now);
        i := i + 1;
      }
    }

    /** The consensus hook of the stub: it does nothing. */
    method Receive(data: Payload)
      ensures unchanged(this)
    {
    }
  }
}
