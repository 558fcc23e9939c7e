# A verified model of the document ledger and its PBFT-style replica

The server keeps an append-only chain of blocks. Each block is linked to the
one before it by hash. A client's upload becomes a document record
`{document, to, from}`. That record passes through a stub broadcaster into the
chain, and users list the records addressed to them. A separate file holds a
small message-driven state machine for one replica. It loosely follows the
normal-case operation of PBFT (Castro and Liskov, OSDI 1999, section 4.2): a
client request, pre-prepare, prepare and commit, with a `2f + 1` vote quorum and
`f = (N - 1) div 3`.

This Dafny project models those four pieces. Each one is in the form the code
has.

- `payloads.dfy`: module `Payloads`. The data a block holds is either a string
  or a record of string fields (`Payload`). It also defines `Option` and
  dictionary `get`.
- `blockchain.dfy`: module `Chain`, for `Server/blockchain.py`. `Block` is a
  datatype. `Blockchain` is a class whose `chain` field `AddBlock` and `Receive`
  extend in place. `WellFormed` says four things: the genesis block comes
  first, block `i` has index `i`, every later block records its predecessor's
  hash as `previousHash`, and every later block's `hash` is
  `hash(previousHash, data)`. `AddBlock` preserves it. `Replay` is an independent reference: it builds
  the chain that a run of `add_block` calls produces. The lemmas prove that
  well-formed chains and replays are the same thing.
- `pbft_stub.dfy`: module `PbftStub`, for `Server/pbft.py`. The class `Pbft`
  appends each request to `requests` and delivers it to every node with a loop.
  Here every node is a `Blockchain`.
- `server.dfy`: module `Server`, for the logic of `Server/server.py`. It covers
  the record literal (`DocumentRecord`) and the recipient filter (`Documents`).
  It also covers the process-wide wiring, where the broadcaster's only node is
  the ledger (`Service`). `Service.SendDocument` proves that each submission
  appends exactly one block carrying the record. It also proves that the
  recipient's listing grows by exactly that record and that every other
  listing stays the same.
- `pbft_replica.dfy`: module `PbftReplica`, for `Server/pbft2.py`. One replica is
  the class `Replica`. Its fields are those of the code: `requests`,
  `sequenceNumber`, `log`, `view` and `primary`. Added to them are `outbox`, the
  list of `receive` calls the replica makes on other nodes, and a ghost log
  `executed`. Each handler's whole effect is a two-state predicate: `Started`,
  `PrePrepared`, `Prepared` and `Committed`. The handler ensures that predicate,
  and `Receive` ensures it for the matching message kind. The vote steps are
  the pure functions `AfterPrepare` and `AfterCommit`. Lemmas prove the
  following about them:
  - a phase moves forward only, and only when a vote arrives while the entry
    holds a quorum of distinct voters; that vote may come from a repeated
    voter, when the quorum was already held (`RepeatedVoterNotCounted`);
  - a repeated voter is not counted twice;
  - a committed entry is never executed again for that entry; a re-proposal
    under the same id resets the entry and can execute the id again;
  - two prepares, or two commits, give the same entry in either order; a
    commit that arrives before the prepare quorum is only recorded, so a
    prepare and a commit do not commute (`PrepareAndCommitDoNotCommute`).

  `Valid()` is kept by every handler. It pins view and primary to 0, because
  view change is a stub. It says that request `k` is `"req-k"`. It says that
  every entry past pre-prepare holds a prepare quorum and this node's own
  commit vote, and that every committed entry holds a commit quorum.

### Behaviour of the replica as written

The guards are modelled exactly as the code has them. So the model shows these
consequences, some of which the authors probably did not intend:

- `handle_pre_prepare` returns early unless this node is the primary
  (`Server/pbft2.py:82-85`), so a backup drops every pre-prepare. The primary
  drops its own proposal when it comes back, because that proposal's sequence
  number equals its `sequence_number`. `FourNodeProposal` proves that, in a
  four-node run, the proposal collects no prepare vote and the backup never
  logs it.
- Prepares and commits are matched on request id, view and sequence number
  only. No data or digest is compared.
- Request ids count requests per node. So `"req-0"` forwarded by a backup
  collides with the primary's own `"req-0"`. `start_pbft` then replaces the
  existing entry and resets its votes and phase. For that reason `StartPbft`
  states that the entry is replaced, whereas the three handlers prove
  `LogGrows`. A `request` message carrying an id that is already committed
  therefore makes the primary start over on that id. `start_pbft` resets the
  entry, and two more quorums execute the same id again.
  `ReproposalExecutesAgain` proves this for one node, where the quorum is 1.
  Its prepare and commit votes are delivered from outside, because as written
  no replica ever sends a prepare when node ids are distinct: backups drop every pre-prepare, and the
  primary's own pre-prepare carries `seq == sequence_number`. In that run
  the node executes `"req-0"` with its own data and then with the forwarded
  data.
- With an empty node list, `faulty_nodes()` is `-1` under Python's floor
  division, so the quorum is `-1`. Dafny's `/` agrees with floor division for
  the divisor 3.

The code has no digests, no view change, no request de-duplication and no
checkpoints, all of which the PBFT paper has. The model follows the code and
does not add them.

## Model

| member | source | states |
|---|---|---|
| `PbftReplica.FaultyNodes` | Server/pbft2.py:151-153 | `f` is `(N-1)` divided by 3 rounded down, stated as `3f+1 <= N < 3f+4` for `N >= 1`; `f = -1` for no nodes |
| `PbftReplica.Quorum` | Server/pbft2.py:116 | for `N >= 1` the quorum `2f+1` lies in `1..N`; it is 3 for four nodes and -1 for none |
| `PbftReplica.DecimalRoundTrip` | Server/pbft2.py:18 | the decimal rendering of a request counter reads back as the same number |
| `PbftReplica.RequestIdInjective` | Server/pbft2.py:18 | `"req-i" == "req-j"` exactly when `i == j` |
| `PbftReplica.Fanout` | Server/pbft2.py:49-52 | one envelope per node, addressed to node `k` at position `k`, all carrying the message |
| `PbftReplica.NewEntry` | Server/pbft2.py:89-95 | defined as the entry a peer's pre-prepare creates: the message's sequence and data, phase pre-prepare, no votes, no stored proposal |
| `PbftReplica.PrepareReaches` | Server/pbft2.py:113-117 | defined as the prepare threshold test: the prepares with the sender reach the quorum while the entry is in pre-prepare |
| `PbftReplica.CommitReaches` | Server/pbft2.py:136-140 | defined as the commit threshold test: the commits with the sender reach the quorum while the entry is prepared |
| `PbftReplica.ProposalEntry` | Server/pbft2.py:36-46 | defined as the entry `start_pbft` writes: the new sequence and the data, phase pre-prepare, no votes, and the stored pre-prepare for the current view |
| `PbftReplica.AfterPrepare` | Server/pbft2.py:113-122 | defined as the vote update: add the sender; when the prepares, the sender included, reach the quorum in pre-prepare, move to prepare and add this node's commit vote (properties in `AfterPrepareSpec`) |
| `PbftReplica.AfterCommit` | Server/pbft2.py:136-142 | defined as the vote update: add the sender; when the commits, the sender included, reach the quorum in prepare, move to commit (properties in `AfterCommitSpec`) |
| `PbftReplica.AfterPrepareSpec` | Server/pbft2.py:113-123 | a prepare adds its sender only, loses no vote or phase, and changes the phase exactly when the prepares, the sender included, reach the quorum in pre-prepare; this node's commit vote is added only then; the certificate invariant is kept |
| `PbftReplica.AfterCommitSpec` | Server/pbft2.py:136-143 | a commit adds its sender only, and moves prepare to commit exactly when the commits, the sender included, reach the quorum; the certificate invariant is kept |
| `PbftReplica.RepeatedVoterNotCounted` | Server/pbft2.py:113-140 | a voter already in the set leaves the set, and so the count, unchanged; the phase then advances only if the votes already held suffice |
| `PbftReplica.CommittedStaysCommitted` | Server/pbft2.py:139-143 | once committed, no later commit passes the commit test again (the count may still reach the quorum, but the entry is no longer in prepare), so that entry does not execute again; a re-proposal under the same id resets the entry and can execute the id again (`ReproposalExecutesAgain`) |
| `PbftReplica.PreparesCommute` | Server/pbft2.py:113-119 | two prepares lead to the same entry in either order |
| `PbftReplica.CommitsCommute` | Server/pbft2.py:136-142 | two commits lead to the same entry in either order |
| `PbftReplica.EarlyCommitOnlyRecorded` | Server/pbft2.py:136-140 | a commit for an entry still in pre-prepare adds its sender and leaves the phase unchanged |
| `PbftReplica.PrepareAndCommitDoNotCommute` | Server/pbft2.py:113-142 | with quorum 1, a prepare then a commit leaves an entry committed, while a commit then a prepare leaves it prepared |
| `PbftReplica.NatToString` | Server/pbft2.py:18 | Python's decimal `str` of a natural: a non-empty string of digits |
| `PbftReplica.RequestId` | Server/pbft2.py:18 | defined as `"req-"` followed by the decimal rendering of the counter |
| `PbftReplica.Replica.IsPrimary` | Server/pbft2.py:29-31 | defined as this node's id being the primary's id |
| `PbftReplica.Replica.QuorumSize` | Server/pbft2.py:116 | defined as `Quorum` of the node count, the `2 * faulty_nodes() + 1` read at lines 116 and 139 |
| `PbftReplica.Replica.AcceptsPrePrepare` | Server/pbft2.py:82-85 | defined as the pre-prepare guard as written: the current view, this node the primary, and a sequence number beyond its own |
| `PbftReplica.Replica.MatchesEntry` | Server/pbft2.py:107-110 | defined as the vote guard of both `handle_prepare` and `handle_commit` (lines 130-133 are the same test): a known id, the current view, and the entry's sequence number |
| `PbftReplica.Replica.constructor` | Server/pbft2.py:2-14 | no requests, sequence number 0, empty log, view and primary 0, the given nodes and id |
| `PbftReplica.Replica.Request` | Server/pbft2.py:16-27 | appends `("req-k", data)` with `k` the old request count; on the primary it has the `start_pbft` effect; otherwise it sends one request message to `nodes[primary]` and leaves the sequence number and log alone, or fails with an index error when there are no nodes |
| `PbftReplica.Replica.StartPbft` | Server/pbft2.py:33-47 | sequence number plus one; the entry for the id becomes that slot in pre-prepare with no votes and the stored proposal; one pre-prepare for the current view goes to every node; other entries are untouched |
| `PbftReplica.Replica.Broadcast` | Server/pbft2.py:49-52 | the outbox gains exactly one envelope per node, in list order, and nothing else changes |
| `PbftReplica.Replica.Receive` | Server/pbft2.py:54-75 | dispatches on kind to the matching effect; a request on a backup and a view change change nothing; every message but a request keeps `LogGrows` |
| `PbftReplica.Replica.HandlePrePrepare` | Server/pbft2.py:77-100 | nothing changes unless the view matches, this node is primary and the sequence is beyond its own; when accepted, a new id gets a fresh entry while an existing one keeps its slot and data, this node's prepare vote is added and one prepare goes to every node; the sequence number never changes |
| `PbftReplica.Replica.HandlePrepare` | Server/pbft2.py:102-123 | nothing changes on an unknown id, another view or another sequence; otherwise the entry becomes `AfterPrepare` of it and one commit per node is sent exactly on the transition |
| `PbftReplica.Replica.HandleCommit` | Server/pbft2.py:125-143 | nothing changes on an unknown id, another view or another sequence; otherwise the entry becomes `AfterCommit` of it, and the request is executed once exactly on the prepare-to-commit transition |
| `PbftReplica.Replica.Execute` | Server/pbft2.py:145-148 | records the request id and its logged data in the execution log |
| `PbftReplica.FourNodeProposal` | Server/pbft2.py:82-85 | with four nodes, the primary's proposal sends four pre-prepares, collects no prepare vote at the primary, and is not logged by a backup |
| `PbftReplica.ReproposalExecutesAgain` | Server/pbft2.py:58-62 | on one node, a request message reusing a committed id resets the entry through `start_pbft`, and the id is executed twice, first with the original data and then with the new data |
| `Chain.GenesisBlock` | Server/blockchain.py:17-18 | defined as the block with index 0, previous hash "0", timestamp 0, data "Genesis Block" and hash "0" |
| `Chain.Last` | Server/blockchain.py:21 | defined as the last block of a non-empty chain, `chain[-1]` |
| `Chain.NextBlock` | Server/blockchain.py:21-22 | defined as the block literal of `add_block`: index the chain length, the last block's hash as previous hash, the data unchanged, and hash `hash(previousHash, data)`; the invariant it keeps is proved in `AppendKeepsWellFormed` and `ReplayWellFormed` |
| `Chain.Replay` | Server/blockchain.py:14-23 | the chain after a run of `add_block` calls from a fresh chain has one block more than there were calls |
| `Chain.Blockchain.constructor` | Server/blockchain.py:14-18 | a fresh chain is the genesis block alone: index 0, previous hash "0", timestamp 0, data "Genesis Block", hash "0" |
| `Chain.Blockchain.AddBlock` | Server/blockchain.py:20-23 | the chain grows by exactly one block, with index the old length, previous hash the old last hash, the data unchanged and hash `hash(previous, data)`; earlier blocks are untouched and the chain stays well formed |
| `Chain.Blockchain.Receive` | Server/blockchain.py:28-29 | exactly the effect of `AddBlock` |
| `Chain.AppendKeepsWellFormed` | Server/blockchain.py:20-23 | appending the block `add_block` builds keeps the index and hash-link invariant and leaves the prefix equal to the old chain |
| `Chain.HashIgnoresTimestamp` | Server/blockchain.py:25-26 | a new block's hash is a function of the previous hash and the data only |
| `Chain.ReplayWellFormed` | Server/blockchain.py:14-23 | every run of `add_block` calls from a fresh chain yields a well-formed chain whose block `k+1` carries the `k`-th data and timestamp |
| `Chain.WellFormedIsReplay` | Server/blockchain.py:14-26 | every well-formed chain equals the replay of its own data and timestamps, so links and hashes fix everything else |
| `PbftStub.Pbft.constructor` | Server/pbft.py:3-5 | no requests and the given nodes |
| `PbftStub.Pbft.Request` | Server/pbft.py:7-9 | `data` is appended at the end of `requests` and delivered to every node |
| `PbftStub.Pbft.Broadcast` | Server/pbft.py:11-13 | each node's chain grows by exactly the block for `data`, once per node |
| `PbftStub.Pbft.Receive` | Server/pbft.py:15-17 | no effect |
| `Payloads.Get` | Server/server.py:46 | defined as `dict.get`: the stored value when the key is present, None otherwise |
| `Server.AddressedTo` | Server/server.py:46 | defined as the filter's condition: the data is a record, and its "to" lookup equals the queried user, where a missing query matches a missing key |
| `Server.DocumentRecord` | Server/server.py:34-38 | a record with exactly the keys document, to and from, holding the filename, the recipient and "client1" |
| `Server.Documents` | Server/server.py:46 | every listed item is a record whose "to" is the queried user; never longer than the chain |
| `Server.DocumentsMembership` | Server/server.py:46 | a payload is listed exactly when some block holds it and it is a record addressed to the user |
| `Server.DocumentsSubsequence` | Server/server.py:46 | the listing is a subsequence of the chain's data, so chain order is kept |
| `Server.DocumentsAppend` | Server/server.py:46 | appending a block extends the listing by its data exactly when that data is addressed to the user |
| `Server.GenesisNeverListed` | Server/server.py:46 | the genesis block contributes nothing to any listing |
| `Server.Service.constructor` | Server/server.py:11-12 | one fresh ledger holding the genesis block, and a broadcaster whose only node is that ledger |
| `Server.Service.GetDocuments` | Server/server.py:45-47 | defined as the recipient listing `Documents` over the service's current chain |
| `Server.Service.SendDocument` | Server/server.py:34-39 | the ledger grows by exactly the block carrying the new record; the recipient's listing gains exactly that record and every other listing is unchanged |

## Left out

- Concurrent requests are not modelled. `send_document` and `get_documents` are taken to run one at a time. On a threaded server, two submissions could both read the last block before either appends, and then append two blocks with the same index.

- The Flask and SocketIO routes, the file upload and saving, the download and the template rendering are I/O and are not modelled.
- `hashlib.sha256` is an uninterpreted function, the `hash` field of `Blockchain` given at construction. The hash is of the string `f"{previous_hash}{data}"`; the model keeps it a function of the two values.
- `time.time()` becomes a `now: real` parameter, and nothing is proved about it. One broadcast hands the same reading to every node.
- PbftStub.Pbft.Broadcast: the nodes must be distinct objects. A node list that names the same chain twice, which would append two blocks to it, is not modelled. Receivers other than a `Blockchain` are not modelled either.
- PbftReplica.Replica.Broadcast: the code calls `receive` on every node at once and re-entrantly, including on itself. The model appends those calls to an outbox instead, so runs that interleave several nodes are not modelled.
- The replica's `print` in `execute` becomes the ghost `executed` log.
- The message buffers `pre_prepare_msgs`, `prepare_msgs` and `commit_msgs` are never used after construction and are left out.
- Message kinds other than the five handled, and tuples of the wrong shape, are not modelled.
- View change, digests, authentication, checkpoints and request de-duplication do not exist in the code and are not added.
- `Server/pbft.py` has a stray leading space on lines 2-17, which makes the import fail. The model follows the evident intent of the class.
