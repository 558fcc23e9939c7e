/** One replica of the message-driven state machine of Server/pbft2.py, a
    loose take on the normal case of PBFT. Sending is modelled by an outbox:
    `Broadcast` appends one envelope per node, in list order. */
module PbftReplica {
  import opened Payloads

  /** The `state` of a log entry. */
  datatype Phase = PrePrepare | Prepare | Commit

  function Rank(p: Phase): nat
  {
    match p
    case PrePrepare => 0
    case Prepare => 1
    case Commit => 2
  }

  /** The message tuples the replica sends and dispatches on. */
  datatype Msg<D> =
    | RequestMsg(requestId: string, data: D, clientId: int)
    | PrePrepareMsg(requestId: string, view: int, seqNo: int, data: D)
    | PrepareMsg(requestId: string, view: int, seqNo: int, sender: int)
    | CommitMsg(requestId: string, view: int, seqNo: int, sender: int)
    | ViewChangeMsg

  /** One `receive(msg)` call on the node handle `to`. */
  datatype Envelope<N, D> = Envelope(to: N, msg: Msg<D>)

  /** A value of the log dictionary. `prePrepare` is the proposal copy that only
      the primary's own `start_pbft` stores. */
  datatype Entry<D> = Entry(sequence: int, data: D, state: Phase, prepares: set<int>, commits: set<int>,
                            prePrepare: Option<Msg<D>>)

  /** How a `request` call ended: the forward to the primary fails with an
      index error when the node list is empty. */
  datatype Status = Done | IndexError

  /** The number of faulty nodes tolerated among `n`: `(n - 1) // 3`, rounded
      down as Python does, so an empty node list gives -1. */
  function FaultyNodes(n: nat): (f: int)
    ensures n == 0 ==> f == -1
    ensures n > 0 ==> 0 <= f && 3 * f + 1 <= n < 3 * f + 4
  {
    (n - 1) / 3
  }

  /** The vote count `2f + 1` an entry needs to advance. */
  function Quorum(n: nat): (q: int)
    ensures n == 0 ==> q == -1
    ensures n > 0 ==> 1 <= q <= n
    ensures n == 4 ==> q == 3
  {
    2 * FaultyNodes(n) + 1
  }

  // ---------------------------------------------------------------------------
  // Request identifiers "req-k"

  function DigitChar(d: nat): char
    requires d < 10
  {
    (48 + d) as char
  }

  predicate IsDigit(c: char)
  {
    '0' as int <= c as int <= '9' as int
  }

  /** Decimal notation without leading zeros, as Python's str of a natural. */
  function NatToString(n: nat): (s: string)
    ensures |s| > 0 && forall k :: 0 <= k < |s| ==> IsDigit(s[k])
    decreases n
  {
    if n < 10 then [DigitChar(n)] else NatToString(n / 10) + [DigitChar(n % 10)]
  }

  /** The number a string of digits denotes. */
  function DecimalValue(s: string): nat
    requires forall k :: 0 <= k < |s| ==> IsDigit(s[k])
    decreases |s|
  {
    if s == [] then 0
    else
      assert IsDigit(s[|s| - 1]);
      10 * DecimalValue(s[..|s| - 1]) + (s[|s| - 1] as int - '0' as int)
  }

  lemma {:induction false} DecimalRoundTrip(n: nat)
    ensures DecimalValue(NatToString(n)) == n
    decreases n
  {
    var s := NatToString(n);
    if n >= 10 {
      DecimalRoundTrip(n / 10);
      assert s[..|s| - 1] == NatToString(n / 10);
    }
  }

  /** The identifier `request` gives the k-th request of a node. */
  function RequestId(k: nat): string
  {
    "req-" + NatToString(k)
  }

  /** Distinct positions in one node's request list get distinct identifiers. */
  lemma RequestIdInjective(i: nat, j: nat)
    ensures RequestId(i) == RequestId(j) <==> i == j
  {
    if RequestId(i) == RequestId(j) {
      assert RequestId(i)[4..] == NatToString(i);
      assert RequestId(j)[4..] == NatToString(j);
      DecimalRoundTrip(i);
      DecimalRoundTrip(j);
    }
  }

  // ---------------------------------------------------------------------------
  // Log entries and their transitions

  /** The entry a pre-prepare from a peer creates. */
  function NewEntry<D>(seqNo: int, data: D): Entry<D>
  {
    Entry(seqNo, data, PrePrepare, {}, {}, None)
  }

  /** The entry `start_pbft` writes for its own proposal. */
  function ProposalEntry<D>(requestId: string, view: int, seqNo: int, data: D): Entry<D>
  {
    Entry(seqNo, data, PrePrepare, {}, {}, Some(PrePrepareMsg(requestId, view, seqNo, data)))
  }

  /** Whether, with `sender` counted, the prepares of `e` reach the quorum
      while `e` is still in pre-prepare. */
  predicate PrepareReaches<D>(e: Entry<D>, sender: int, quorum: int)
  {
    |e.prepares + {sender}| >= quorum && e.state == PrePrepare
  }

  /** The entry after a matching prepare from `sender`; on reaching the quorum
      the replica `self` also records its own commit vote. */
  function AfterPrepare<D>(e: Entry<D>, sender: int, self: int, quorum: int): Entry<D>
  {
    if PrepareReaches(e, sender, quorum)
    then e.(prepares := e.prepares + {sender}, state := Prepare, commits := e.commits + {self})
    else e.(prepares := e.prepares + {sender})
  }

  /** Whether, with `sender` counted, the commits of `e` reach the quorum
      while `e` is prepared. */
  predicate CommitReaches<D>(e: Entry<D>, sender: int, quorum: int)
  {
    |e.commits + {sender}| >= quorum && e.state == Prepare
  }

  /** The entry after a matching commit from `sender`. */
  function AfterCommit<D>(e: Entry<D>, sender: int, quorum: int): Entry<D>
  {
    if CommitReaches(e, sender, quorum)
    then e.(commits := e.commits + {sender}, state := Commit)
    else e.(commits := e.commits + {sender})
  }

  /** `e2` is a possible later version of `e1`: same slot and proposal, no vote
      lost, and no phase undone. */
  predicate Grows<D(==)>(e1: Entry<D>, e2: Entry<D>)
  {
    && e1.sequence == e2.sequence && e1.data == e2.data && e1.prePrepare == e2.prePrepare
    && e1.prepares <= e2.prepares && e1.commits <= e2.commits
    && Rank(e1.state) <= Rank(e2.state)
  }

  /** The evidence an entry's phase rests on: past the pre-prepare phase it
      holds a prepare quorum and this replica's own commit vote; committed, it
      also holds a commit quorum. */
  predicate Certified<D>(e: Entry<D>, self: int, quorum: int)
  {
    && (e.state != PrePrepare ==> |e.prepares| >= quorum && self in e.commits)
    && (e.state == Commit ==> |e.commits| >= quorum)
  }

  /** A prepare only adds its sender, and moves the phase from pre-prepare to
      prepare exactly when the sender completes the quorum. */
  lemma AfterPrepareSpec<D>(e: Entry<D>, sender: int, self: int, quorum: int)
    ensures Grows(e, AfterPrepare(e, sender, self, quorum))
    ensures AfterPrepare(e, sender, self, quorum).prepares == e.prepares + {sender}
    ensures AfterPrepare(e, sender, self, quorum).state != e.state <==> PrepareReaches(e, sender, quorum)
    ensures PrepareReaches(e, sender, quorum) ==>
      e.state == PrePrepare && AfterPrepare(e, sender, self, quorum).state == Prepare
      && |AfterPrepare(e, sender, self, quorum).prepares| >= quorum
      && AfterPrepare(e, sender, self, quorum).commits == e.commits + {self}
    ensures !PrepareReaches(e, sender, quorum) ==> AfterPrepare(e, sender, self, quorum).commits == e.commits
    ensures Certified(e, self, quorum) ==> Certified(AfterPrepare(e, sender, self, quorum), self, quorum)
  {
    CardinalityMonotone(e.prepares, e.prepares + {sender});
  }

  /** A commit only adds its sender, and moves the phase from prepare to commit
      exactly when the sender completes the quorum. */
  lemma AfterCommitSpec<D>(e: Entry<D>, sender: int, self: int, quorum: int)
    ensures Grows(e, AfterCommit(e, sender, quorum))
    ensures AfterCommit(e, sender, quorum).commits == e.commits + {sender}
    ensures AfterCommit(e, sender, quorum).prepares == e.prepares
    ensures AfterCommit(e, sender, quorum).state != e.state <==> CommitReaches(e, sender, quorum)
    ensures CommitReaches(e, sender, quorum) ==>
      e.state == Prepare && AfterCommit(e, sender, quorum).state == Commit
      && |AfterCommit(e, sender, quorum).commits| >= quorum
    ensures Certified(e, self, quorum) ==> Certified(AfterCommit(e, sender, quorum), self, quorum)
  {
    CardinalityMonotone(e.commits, e.commits + {sender});
  }

  /** A repeated voter does not raise the count: the vote set stays as it
      was, and the phase can then only advance on the votes already held. */
  lemma RepeatedVoterNotCounted<D>(e: Entry<D>, sender: int, self: int, quorum: int)
    ensures sender in e.prepares ==>
      AfterPrepare(e, sender, self, quorum).prepares == e.prepares
      && (PrepareReaches(e, sender, quorum) <==> |e.prepares| >= quorum && e.state == PrePrepare)
    ensures sender in e.commits ==>
      AfterCommit(e, sender, quorum).commits == e.commits
      && (CommitReaches(e, sender, quorum) <==> |e.commits| >= quorum && e.state == Prepare)
  {
  }

  /** Once committed, further commits cannot reach the quorum again, so the
      request is never executed a second time for this entry. */
  lemma CommittedStaysCommitted<D>(e: Entry<D>, sender: int, quorum: int)
    requires e.state == Commit
    ensures !CommitReaches(e, sender, quorum)
    ensures AfterCommit(e, sender, quorum).state == Commit
  {
  }

  lemma {:induction false} CardinalityMonotone(a: set<int>, b: set<int>)
    requires a <= b
    ensures |a| <= |b|
  {
    assert b == a + (b - a);
  }

  /** The prepare decision depends on the set of voters, not their arrival
      order: two prepares in either order give the same entry. */
  lemma {:induction false} PreparesCommute<D>(e: Entry<D>, a: int, b: int, self: int, quorum: int)
    ensures AfterPrepare(AfterPrepare(e, a, self, quorum), b, self, quorum)
         == AfterPrepare(AfterPrepare(e, b, self, quorum), a, self, quorum)
  {
    CardinalityMonotone(e.prepares + {a}, e.prepares + {a} + {b});
    CardinalityMonotone(e.prepares + {b}, e.prepares + {b} + {a});
    assert e.prepares + {a} + {b} == e.prepares + {b} + {a};
  }

  /** Commits likewise. */
  lemma {:induction false} CommitsCommute<D>(e: Entry<D>, a: int, b: int, quorum: int)
    ensures AfterCommit(AfterCommit(e, a, quorum), b, quorum) == AfterCommit(AfterCommit(e, b, quorum), a, quorum)
  {
    CardinalityMonotone(e.commits + {a}, e.commits + {a} + {b});
    CardinalityMonotone(e.commits + {b}, e.commits + {b} + {a});
    assert e.commits + {a} + {b} == e.commits + {b} + {a};
  }

  /** A commit that arrives before the entry reaches the prepare phase is only
      recorded: the entry stays in pre-prepare. */
  lemma EarlyCommitOnlyRecorded<D>(e: Entry<D>, sender: int, quorum: int)
    requires e.state == PrePrepare
    ensures AfterCommit(e, sender, quorum).state == PrePrepare
    ensures AfterCommit(e, sender, quorum).commits == e.commits + {sender}
  {
  }

  /** So a prepare and a commit do not commute: with quorum 1, the prepare
      first commits the entry, while the commit first leaves it prepared. */
  lemma PrepareAndCommitDoNotCommute()
    ensures var e := Entry(1, 7, PrePrepare, {}, {}, None);
      && AfterCommit(AfterPrepare(e, 0, 0, 1), 0, 1).state == Commit
      && AfterPrepare(AfterCommit(e, 0, 1), 0, 0, 1).state == Prepare
  {
  }

  /** One envelope per node, in list order. */
  function Fanout<N, D>(nodes: seq<N>, msg: Msg<D>): (r: seq<Envelope<N, D>>)
    ensures |r| == |nodes|
    ensures forall k :: 0 <= k < |nodes| ==> r[k] == Envelope(nodes[k], msg)
  {
    if nodes == [] then [] else [Envelope(nodes[0], msg)] + Fanout(nodes[1..], msg)
  }

  lemma FanoutAppend<N, D>(nodes: seq<N>, node: N, msg: Msg<D>)
    ensures Fanout(nodes + [node], msg) == Fanout(nodes, msg) + [Envelope(node, msg)]
  {
    var left, right := Fanout(nodes + [node], msg), Fanout(nodes, msg) + [Envelope(node, msg)];
    assert forall k :: 0 <= k < |left| ==> left[k] == right[k];
  }

  // ---------------------------------------------------------------------------
  // The replica

  class Replica<N, D(==)> {
    const nodes: seq<N>
    const nodeId: int
    var requests: seq<(string, D)>
    var sequenceNumber: int
    var log: map<string, Entry<D>>
    var view: int
    var primary: int
    /** Every `receive` call this replica has made on another node, in order. */
    var outbox: seq<Envelope<N, D>>
    /** Every request this replica has executed, in order. */
    ghost var executed: seq<(string, D)>

    /** View change is a stub, so the view and primary stay 0; request k of
        this node is "req-k"; every entry's phase rests on its votes; every
        executed request has a log entry. */
    ghost predicate Valid()
      reads this
    {
      && view == 0 && primary == 0 && sequenceNumber >= 0
      && (forall k :: 0 <= k < |requests| ==> requests[k].0 == RequestId(k))
      && (forall r :: r in log ==> Certified(log[r], nodeId, Quorum(|nodes|)))
      && (forall k :: 0 <= k < |executed| ==> executed[k].0 in log)
    }

    predicate IsPrimary()
      reads this
    {
      nodeId == primary
    }

    /** The vote count each phase needs. */
    function QuorumSize(): int
    {
      Quorum(|nodes|)
    }

    /** The guard of `handle_pre_prepare`, as written: the current view, this
        node the primary, and a sequence number beyond its own. */
    predicate AcceptsPrePrepare(v: int, seqNo: int)
      reads this
    {
      v == view && IsPrimary() && seqNo > sequenceNumber
    }

    /** The guard of `handle_prepare` and `handle_commit`: a known request, the
        current view, and the entry's sequence number. Nothing else is checked. */
    predicate MatchesEntry(requestId: string, v: int, seqNo: int)
      reads this
    {
      requestId in log && v == view && seqNo == log[requestId].sequence
    }

    twostate predicate Unchanged()
      reads this
    {
      sequenceNumber == old(sequenceNumber) && log == old(log) && outbox == old(outbox) && executed == old(executed)
    }

    /** The effect of `start_pbft`. */
    twostate predicate Started(requestId: string, data: D)
      reads this
    {
      && sequenceNumber == old(sequenceNumber) + 1
      && log == old(log)[requestId := ProposalEntry(requestId, view, sequenceNumber, data)]
      && outbox == old(outbox) + Fanout(nodes, PrePrepareMsg(requestId, view, sequenceNumber, data))
      && executed == old(executed)
    }

    /** The effect of `handle_pre_prepare`. */
    twostate predicate PrePrepared(requestId: string, v: int, seqNo: int, data: D)
      reads this
    {
      if old(AcceptsPrePrepare(v, seqNo)) then
        var e := if requestId in old(log) then old(log)[requestId] else NewEntry(seqNo, data);
        && sequenceNumber == old(sequenceNumber) && executed == old(executed)
        && log == old(log)[requestId := e.(prepares := e.prepares + {nodeId})]
        && outbox == old(outbox) + Fanout(nodes, PrepareMsg(requestId, v, seqNo, nodeId))
      else
        Unchanged()
    }

    /** The effect of `handle_prepare`. */
    twostate predicate Prepared(requestId: string, v: int, seqNo: int, sender: int)
      reads this
    {
      if old(MatchesEntry(requestId, v, seqNo)) then
        var e := old(log)[requestId];
        && sequenceNumber == old(sequenceNumber) && executed == old(executed)
        && log == old(log)[requestId := AfterPrepare(e, sender, nodeId, QuorumSize())]
        && outbox == old(outbox) +
             (if PrepareReaches(e, sender, QuorumSize()) then Fanout(nodes, CommitMsg(requestId, v, seqNo, nodeId)) else [])
      else
        Unchanged()
    }

    /** The effect of `handle_commit`. */
    twostate predicate Committed(requestId: string, v: int, seqNo: int, sender: int)
      reads this
    {
      if old(MatchesEntry(requestId, v, seqNo)) then
        var e := old(log)[requestId];
        && sequenceNumber == old(sequenceNumber) && outbox == old(outbox)
        && log == old(log)[requestId := AfterCommit(e, sender, QuorumSize())]
        && executed == old(executed) + (if CommitReaches(e, sender, QuorumSize()) then [(requestId, e.data)] else [])
      else
        Unchanged()
    }

    /** No entry loses a vote or a phase, and none is rebound to another slot. */
    twostate predicate LogGrows()
      reads this
    {
      forall r :: r in old(log) ==> r in log && Grows(old(log)[r], log[r])
    }

    constructor (nodes: seq<N>, nodeId: int)
      ensures Valid()
      ensures this.nodes == nodes && this.nodeId == nodeId
      ensures requests == [] && sequenceNumber == 0 && log == map[] && view == 0 && primary == 0
      ensures outbox == [] && executed == []
    {
      this.nodes := nodes;
      this.nodeId := nodeId;
      requests := [];
      sequenceNumber := 0;
      log := map[];
      view := 0;
      primary := 0;
      outbox := [];
      executed := [];
    }

    /** A client request: recorded as ("req-k", data) with k the old length of
        the request list, then proposed (primary) or forwarded to the primary. */
    method Request(data: D) returns (status: Status)
      requires Valid()
      modifies this`requests, this`sequenceNumber, this`log, this`outbox
      ensures Valid()
      ensures requests == old(requests) + [(RequestId(|old(requests)|), data)]
      ensures IsPrimary() ==> status == Done && Started(RequestId(|old(requests)|), data)
      ensures !IsPrimary() ==> sequenceNumber == old(sequenceNumber) && log == old(log)
      ensures !IsPrimary() && |nodes| > 0 ==>
        status == Done && outbox == old(outbox) + [Envelope(nodes[primary], RequestMsg(RequestId(|old(requests)|), data, nodeId))]
      ensures !IsPrimary() && |nodes| == 0 ==> status == IndexError && outbox == old(outbox)
    {
      var requestId := RequestId(|requests|);
      requests := requests + [(requestId, data)];
      if IsPrimary() {
        StartPbft(requestId, data);
        status := Done;
      } else if primary < |nodes| {
        outbox := outbox + [Envelope(nodes[primary], RequestMsg(requestId, data, nodeId))];
        status := Done;
      } else {
        status := IndexError;
      }
    }

    /** The primary's proposal: the next sequence number, a fresh entry for the
        request (replacing any entry under the same identifier), and a
        pre-prepare to every node. */
    method StartPbft(requestId: string, data: D)
      requires Valid()
      modifies this`sequenceNumber, this`log, this`outbox
      ensures Valid()
      ensures Started(requestId, data)
      ensures forall r :: r in old(log) && r != requestId ==> r in log && log[r] == old(log)[r]
    {
      sequenceNumber := sequenceNumber + 1;
      var msg := PrePrepareMsg(requestId, view, sequenceNumber, data);
      log := log[requestId := ProposalEntry(requestId, view, sequenceNumber, data)];
      Broadcast(msg);
    }

    /** One `receive(msg)` call on every node, this one included, in list order. */
    method Broadcast(msg: Msg<D>)
      modifies this`outbox
      ensures outbox == old(outbox) + Fanout(nodes, msg)
    {
      var i := 0;
      while i < |nodes|
        invariant 0 <= i <= |nodes|
        invariant outbox == old(outbox) + Fanout(nodes[..i], msg)
      {
        assert nodes[..i + 1] == nodes[..i] + [nodes[i]];
        FanoutAppend(nodes[..i], nodes[i], msg);
        outbox := outbox + [Envelope(nodes[i], msg)];
        i := i + 1;
      }
      assert nodes[..i] == nodes;
    }

    /** Dispatch on the message kind; a view change is ignored. */
    method Receive(msg: Msg<D>)
      requires Valid()
      modifies this`sequenceNumber, this`log, this`outbox, this`executed
      ensures Valid()
      ensures msg.RequestMsg? && old(IsPrimary()) ==> Started(msg.requestId, msg.data)
      ensures msg.RequestMsg? && !old(IsPrimary()) ==> Unchanged()
      ensures msg.PrePrepareMsg? ==> PrePrepared(msg.requestId, msg.view, msg.seqNo, msg.data)
      ensures msg.PrepareMsg? ==> Prepared(msg.requestId, msg.view, msg.seqNo, msg.sender)
      ensures msg.CommitMsg? ==> Committed(msg.requestId, msg.view, msg.seqNo, msg.sender)
      ensures msg.ViewChangeMsg? ==> Unchanged()
      ensures !msg.RequestMsg? ==> LogGrows()
    {
      match msg
      case RequestMsg(requestId, data, clientId) =>
        if IsPrimary() {
          StartPbft(requestId, data);
        }
      case PrePrepareMsg(requestId, v, seqNo, data) =>
        HandlePrePrepare(requestId, v, seqNo, data);
      case PrepareMsg(requestId, v, seqNo, sender) =>
        HandlePrepare(requestId, v, seqNo, sender);
      case CommitMsg(requestId, v, seqNo, sender) =>
        HandleCommit(requestId, v, seqNo, sender);
      case ViewChangeMsg =>
    }

    /** A pre-prepare is dropped unless it is for the current view, this node
        is the primary, and its sequence number is beyond this node's own.
        Accepted, it creates the entry if the identifier is new (an existing
        entry keeps its slot and data), adds this node's prepare vote, and
        sends a prepare to every node. */
    method HandlePrePrepare(requestId: string, v: int, seqNo: int, data: D)
      requires Valid()
      modifies this`log, this`outbox
      ensures Valid()
      ensures PrePrepared(requestId, v, seqNo, data)
      ensures LogGrows()
      ensures !old(IsPrimary()) ==> Unchanged()
      ensures seqNo <= old(sequenceNumber) ==> Unchanged()
    {
      if v != view || !IsPrimary() || seqNo <= sequenceNumber {
        return;
      }
      if requestId !in log {
        log := log[requestId := NewEntry(seqNo, data)];
      }
      var e := log[requestId];
      CardinalityMonotone(e.prepares, e.prepares + {nodeId});
      log := log[requestId := e.(prepares := e.prepares + {nodeId})];
      Broadcast(PrepareMsg(requestId, v, seqNo, nodeId));
    }

    /** A matching prepare adds its sender's vote; completing the quorum in
        the pre-prepare phase moves the entry to the prepare phase, adds this
        node's commit vote, and sends a commit to every node. */
    method HandlePrepare(requestId: string, v: int, seqNo: int, sender: int)
      requires Valid()
      modifies this`log, this`outbox
      ensures Valid()
      ensures Prepared(requestId, v, seqNo, sender)
      ensures LogGrows()
    {
      if requestId !in log || v != view || seqNo != log[requestId].sequence {
        return;
      }
      var e := log[requestId];
      AfterPrepareSpec(e, sender, nodeId, QuorumSize());
      var prepares := e.prepares + {sender};
      if |prepares| >= 2 * FaultyNodes(|nodes|) + 1 && e.state == PrePrepare {
        log := log[requestId := e.(prepares := prepares, state := Prepare, commits := e.commits + {nodeId})];
        Broadcast(CommitMsg(requestId, v, seqNo, nodeId));
      } else {
        log := log[requestId := e.(prepares := prepares)];
      }
    }

    /** A matching commit adds its sender's vote; completing the quorum in the
        prepare phase moves the entry to the commit phase and executes it. */
    method HandleCommit(requestId: string, v: int, seqNo: int, sender: int)
      requires Valid()
      modifies this`log, this`executed
      ensures Valid()
      ensures Committed(requestId, v, seqNo, sender)
      ensures LogGrows()
    {
      if requestId !in log || v != view || seqNo != log[requestId].sequence {
        return;
      }
      var e := log[requestId];
      AfterCommitSpec(e, sender, nodeId, QuorumSize());
      var commits := e.commits + {sender};
      if |commits| >= 2 * FaultyNodes(|nodes|) + 1 && e.state == Prepare {
        log := log[requestId := e.(commits := commits, state := Commit)];
        Execute(requestId);
      } else {
        log := log[requestId := e.(commits := commits)];
      }
    }

    /** Applies a committed request: here it is only recorded. */
    method Execute(requestId: string)
      requires requestId in log
      modifies this`executed
      ensures executed == old(executed) + [(requestId, log[requestId].data)]
    {
      executed := executed + [(requestId, log[requestId].data)];
    }

  }

  /** Four nodes, node 0 the primary. The primary proposes a client request;
      its pre-prepare comes back to it with the sequence number it has just
      taken, and reaches a backup that is not the primary, so both drop it:
      the entry collects no prepare vote and the backup never logs the
      request. */
  method FourNodeProposal<D(==)>(data: D) returns (primaryVotes: nat, backupLogged: bool, sent: nat)
    ensures primaryVotes == 0 && !backupLogged && sent == 4
  {
    var nodes := [0, 1, 2, 3];
    var primary := new Replica<int, D>(nodes, 0);
    var backup := new Replica<int, D>(nodes, 1);
    var status := primary.Request(data);
    var rid := RequestId(0);
    sent := |primary.outbox|;
    assert primary.outbox[1] == Envelope(1, PrePrepareMsg(rid, 0, 1, data));
    primary.Receive(primary.outbox[0].msg);
    backup.Receive(primary.outbox[1].msg);
    primaryVotes := |primary.log[rid].prepares|;
    backupLogged := rid in backup.log;
  }

  /** On a one-node replica, the node's own prepare and commit for an entry in
      the pre-prepare phase commit it and execute it once. */
  method PrepareAndCommit<D(==)>(r: Replica<int, D>, rid: string)
    requires r.Valid() && r.nodes == [0] && r.nodeId == 0
    requires rid in r.log && r.log[rid].state == PrePrepare
    modifies r`log, r`outbox, r`executed
    ensures r.Valid() && rid in r.log && r.log[rid].state == Commit
    ensures r.executed == old(r.executed) + [(rid, old(r.log[rid].data))]
  {
    var e := r.log[rid];
    CardinalityMonotone({0}, e.prepares + {0});
    assert PrepareReaches(e, 0, Quorum(1));
    r.HandlePrepare(rid, 0, e.sequence, 0);
    var e2 := r.log[rid];
    assert e2.state == Prepare && e2.sequence == e.sequence && e2.data == e.data && 0 in e2.commits;
    CardinalityMonotone({0}, e2.commits + {0});
    assert CommitReaches(e2, 0, Quorum(1));
    r.HandleCommit(rid, 0, e.sequence, 0);
  }

  /** One node, so the quorum is 1. The node's own request is committed and
      executed; a request message reusing the identifier "req-0" makes
      `start_pbft` replace the committed entry with a fresh one, and its
      prepare and commit execute the same identifier a second time. */
  method ReproposalExecutesAgain<D(==)>(d1: D, d2: D) returns (r: Replica<int, D>)
    ensures r.executed == [(RequestId(0), d1), (RequestId(0), d2)]
  {
    r := new Replica<int, D>([0], 0);
    var rid := RequestId(0);
    var status := r.Request(d1);
    PrepareAndCommit(r, rid);
    r.Receive(RequestMsg(rid, d2, 1));
    assert r.log[rid] == ProposalEntry(rid, 0, 2, d2);
    PrepareAndCommit(r, rid);
  }
}
