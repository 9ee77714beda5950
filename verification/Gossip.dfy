/**
  internal/gossip/protocol.go and internal/cluster/node.go over HTTP: nodes exchange
  messages, each delivered at most once, and no entry of a dedup cache is dropped. What a
  transport, a store or a random choice decides is a parameter of each step. Routes and
  bindings are the subject of module Peers.
 */
module Gossip {
  import opened Wrappers

  const FANOUT_THRESHOLD := 10

  type Id = nat
  type Mid = nat

  datatype Packet =
    | Ping(from: Id, to: Id)
    | Pong(from: Id, to: Id)
    | Sync(from: Id, to: Id, info: Option<Id>)
    | SyncRequest(from: Id, to: Id, info: Option<Id>)
    | Put(mid: Mid, from: Id, to: Id) // `from` is the originator, also when forwarded
    | Ack(mid: Mid, from: Id, to: Id)

  /** `enclave` are the peers in the node's own enclave; `pending` counts confirmations. */
  datatype Node = Node(peers: set<Id>, enclave: set<Id>, seen: set<Mid>, stored: set<Mid>, pending: map<Mid, nat>)

  /** What the environment decides about one delivery. */
  datatype Choice = Choice(valid: bool, stores: bool, accepts: bool, sameEnclave: bool, targets: set<Id>)

  /** protocol.go:566 - the square root, rounded up. */
  function FanoutSize(n: nat): (f: nat)
    ensures f * f >= n && (f > 0 ==> (f - 1) * (f - 1) < n)
  {
    CeilingRoot(n, 0)
  }

  function CeilingRoot(n: nat, f: nat): (r: nat)
    requires f > 0 ==> (f - 1) * (f - 1) < n
    ensures r * r >= n && (r > 0 ==> (r - 1) * (r - 1) < n)
    decreases n - f * f, n - f
  {
    if f * f >= n then f else CeilingRoot(n, f + 1)
  }

  /** node.go:493 */
  function QuorumSize(node: Node, replicationFactor: int): (q: nat)
    ensures q >= 1 && q <= |node.enclave| + 1
  {
    var nodes := |node.enclave| + 1;
    var effective := if replicationFactor < nodes then replicationFactor else nodes;
    if effective / 2 + 1 < 1 then 1 else effective / 2 + 1
  }

  // The measure: what is in flight, and what may still be processed for the first time.

  function Weight(p: Packet, u: nat): nat {
    match p
    case Ping(_, _) => 2
    case SyncRequest(_, _, _) => 2 * u + 1
    case _ => 1
  }

  ghost function Load(wire: multiset<Packet>, u: nat): nat
    decreases |wire|
  {
    if wire == multiset{} then 0
    else
      var p :| p in wire;
      Weight(p, u) + Load(wire - multiset{p}, u)
  }

  lemma {:induction false} LoadWithout(wire: multiset<Packet>, u: nat, p: Packet)
    requires p in wire
    ensures Load(wire, u) == Weight(p, u) + Load(wire - multiset{p}, u)
    decreases |wire|
  {
    var x :| x in wire && Load(wire, u) == Weight(x, u) + Load(wire - multiset{x}, u);
    if x != p {
      LoadWithout(wire - multiset{x}, u, p);
      LoadWithout(wire - multiset{p}, u, x);
      assert wire - multiset{x} - multiset{p} == wire - multiset{p} - multiset{x};
    }
  }

  /** Messages that provoke no reply of their own kind weigh one each. */
  lemma {:induction false} LoadMore(wire: multiset<Packet>, u: nat, sent: seq<Packet>)
    requires forall p :: p in sent ==> Weight(p, u) == 1
    ensures Load(wire + multiset(sent), u) == Load(wire, u) + |sent|
    decreases |sent|
  {
    if sent == [] {
      assert wire + multiset(sent) == wire;
    } else {
      var n := |sent| - 1;
      assert sent == sent[..n] + [sent[n]];
      var all := wire + multiset(sent);
      LoadWithout(all, u, sent[n]);
      assert all - multiset{sent[n]} == wire + multiset(sent[..n]);
      LoadMore(wire, u, sent[..n]);
    }
  }

  /** The deliveries of a PUT that would not be recognised as duplicates. */
  ghost function Unseen(nodes: map<Id, Node>, mids: set<Mid>): set<(Id, Mid)> {
    set n, m | n in nodes && m in mids && m !in nodes[n].seen :: (n, m)
  }

  lemma UnseenAfter(nodes: map<Id, Node>, next: map<Id, Node>, mids: set<Mid>, n: Id, m: Mid)
    requires n in nodes && m in mids && m !in nodes[n].seen && next.Keys == nodes.Keys
    requires forall k :: k in nodes ==> next[k].seen == if k == n then nodes[k].seen + {m} else nodes[k].seen
    ensures |Unseen(next, mids)| == |Unseen(nodes, mids)| - 1
  {
    assert (n, m) in Unseen(nodes, mids);
    assert Unseen(next, mids) == Unseen(nodes, mids) - {(n, m)};
  }

  lemma UnseenSame(nodes: map<Id, Node>, next: map<Id, Node>, mids: set<Mid>)
    requires next.Keys == nodes.Keys && forall k :: k in nodes ==> next[k].seen == nodes[k].seen
    ensures Unseen(next, mids) == Unseen(nodes, mids)
  {
  }

  ghost function Measure(nodes: map<Id, Node>, wire: multiset<Packet>, mids: set<Mid>, u: nat): nat {
    Load(wire, u) + (2 * u + 2) * |Unseen(nodes, mids)|
  }

  /** The peer tables stay within the known IDs and never hold the node itself. */
  ghost predicate Bounded(nodes: map<Id, Node>, wire: multiset<Packet>, universe: set<Id>) {
    && nodes.Keys <= universe
    && (forall n :: n in nodes ==> nodes[n].enclave <= nodes[n].peers <= universe - {n})
    && (forall p :: p in wire && (p.Sync? || p.SyncRequest?) && p.info.Some? ==> p.info.value in universe)
  }

  // Confirmations.

  /**
    Every acknowledgement in flight or counted was sent once, by a node other than the
    originator that stored the message; a pending write counts exactly those it received.
   */
  ghost predicate Honest(nodes: map<Id, Node>, wire: multiset<Packet>, owner: map<Mid, Id>, acked: map<Mid, set<Id>>) {
    && acked.Keys == owner.Keys
    && (forall p :: p in wire && p.Put? ==> Originated(nodes, owner, p.mid, p.from))
    && (forall p :: p in wire && p.Ack? ==> wire[p] == 1 && Acknowledges(nodes, owner, acked, p))
    && (forall m, n :: m in acked && n in acked[m] ==> Replicated(nodes, owner, m, n))
    && (forall o, m :: o in nodes && m in nodes[o].pending ==> Pending(nodes, owner, acked, o, m))
  }

  ghost predicate Originated(nodes: map<Id, Node>, owner: map<Mid, Id>, m: Mid, o: Id) {
    m in owner && owner[m] == o && o in nodes && m in nodes[o].seen
  }

  /** A node other than the originator has processed and stored the message. */
  ghost predicate Replicated(nodes: map<Id, Node>, owner: map<Mid, Id>, m: Mid, n: Id) {
    m in owner && n != owner[m] && n in nodes && m in nodes[n].seen && m in nodes[n].stored
  }

  ghost predicate Acknowledges(nodes: map<Id, Node>, owner: map<Mid, Id>, acked: map<Mid, set<Id>>, p: Packet)
    requires p.Ack?
  {
    Replicated(nodes, owner, p.mid, p.from) && owner[p.mid] == p.to && p.mid in acked && p.from !in acked[p.mid]
  }

  ghost predicate Pending(nodes: map<Id, Node>, owner: map<Mid, Id>, acked: map<Mid, set<Id>>, o: Id, m: Mid)
    requires o in nodes && m in nodes[o].pending
  {
    && m in owner && owner[m] == o && m in acked && m in nodes[o].stored
    && nodes[o].pending[m] == 1 + |acked[m]|
  }

  ghost function Storers(nodes: map<Id, Node>, m: Mid): set<Id> { set n | n in nodes && m in nodes[n].stored }

  /** The confirmations of a pending write are that many distinct nodes, the originator among them. */
  lemma ConfirmedStorers(nodes: map<Id, Node>, wire: multiset<Packet>, owner: map<Mid, Id>, acked: map<Mid, set<Id>>,
                         o: Id, m: Mid)
    requires Honest(nodes, wire, owner, acked) && o in nodes && m in nodes[o].pending
    ensures |Storers(nodes, m)| >= nodes[o].pending[m] && o in Storers(nodes, m)
  {
    assert Pending(nodes, owner, acked, o, m);
    var confirmed := acked[m] + {o};
    forall n | n in acked[m] ensures n in Storers(nodes, m) && n != o {
      assert Replicated(nodes, owner, m, n);
    }
    assert |confirmed| == |acked[m]| + 1;
    var rest := Storers(nodes, m) - confirmed;
    assert Storers(nodes, m) == confirmed + rest;
    assert |Storers(nodes, m)| == |confirmed| + |rest|;
  }

  // Steps.

  lemma PutHonest(nodes: map<Id, Node>, wire: multiset<Packet>, owner: map<Mid, Id>, acked: map<Mid, set<Id>>, p: Packet,
                  node: Node, sent: seq<Packet>)
    requires Honest(nodes, wire, owner, acked) && p in wire && p.Put? && p.to in nodes && p.mid !in nodes[p.to].seen
    requires node.pending == nodes[p.to].pending && node.seen == nodes[p.to].seen + {p.mid}
    requires node.stored == nodes[p.to].stored + {p.mid} || (node.stored == nodes[p.to].stored && sent == [])
    requires forall q :: q in sent ==>
      (q.Put? && q.mid == p.mid && q.from == p.from) || (q == Ack(p.mid, p.to, p.from) && multiset(sent)[q] == 1)
    ensures Honest(nodes[p.to := node], wire - multiset{p} + multiset(sent), owner, acked)
  {
    var next, after := nodes[p.to := node], wire - multiset{p} + multiset(sent);
    assert Originated(nodes, owner, p.mid, p.from);
    forall q | q in after && q.Ack? ensures after[q] == 1 && Acknowledges(next, owner, acked, q) {
      if q in sent {
        assert q !in wire;
      } else {
        assert q in wire && Acknowledges(nodes, owner, acked, q);
      }
    }
    forall q | q in after && q.Put? ensures Originated(next, owner, q.mid, q.from) {
      if q in sent { assert q.mid == p.mid && q.from == p.from; } else { assert q in wire; }
    }
    forall o, m | o in next && m in next[o].pending ensures Pending(next, owner, acked, o, m) {
      assert Pending(nodes, owner, acked, o, m);
    }
    forall m, n | m in acked && n in acked[m] ensures Replicated(next, owner, m, n) {
      assert Replicated(nodes, owner, m, n);
    }
  }

  /** A change that touches neither stored messages nor dedup caches and adds neither PUT nor ACK. */
  lemma Unaffected(nodes: map<Id, Node>, wire: multiset<Packet>, owner: map<Mid, Id>, acked: map<Mid, set<Id>>, n: Id,
                   node: Node, after: multiset<Packet>)
    requires Honest(nodes, wire, owner, acked) && n in nodes
    requires node.seen == nodes[n].seen && node.stored == nodes[n].stored
    requires forall m :: m in node.pending ==> m in nodes[n].pending && node.pending[m] == nodes[n].pending[m]
    requires forall q :: q in after && (q.Put? || q.Ack?) ==> q in wire && after[q] <= wire[q]
    ensures Honest(nodes[n := node], after, owner, acked)
  {
    var next := nodes[n := node];
    forall o, m | o in next && m in next[o].pending ensures Pending(next, owner, acked, o, m) {
      assert Pending(nodes, owner, acked, o, m);
    }
    forall m, k | m in acked && k in acked[m] ensures Replicated(next, owner, m, k) {
      assert Replicated(nodes, owner, m, k);
    }
    forall q | q in after && q.Ack? ensures after[q] == 1 && Acknowledges(next, owner, acked, q) {
      assert Acknowledges(nodes, owner, acked, q);
    }
    forall q | q in after && q.Put? ensures Originated(next, owner, q.mid, q.from) {
      assert Originated(nodes, owner, q.mid, q.from);
    }
  }

  lemma QuietHonest(nodes: map<Id, Node>, wire: multiset<Packet>, owner: map<Mid, Id>, acked: map<Mid, set<Id>>, p: Packet,
                    node: Node, sent: seq<Packet>)
    requires Honest(nodes, wire, owner, acked) && p in wire && p.to in nodes
    requires node.seen == nodes[p.to].seen && node.stored == nodes[p.to].stored && node.pending == nodes[p.to].pending
    requires forall q :: q in sent ==> !q.Put? && !q.Ack?
    ensures Honest(nodes[p.to := node], wire - multiset{p} + multiset(sent), owner, acked)
  {
    var after := wire - multiset{p} + multiset(sent);
    forall q | q in after && (q.Put? || q.Ack?) ensures q in wire && after[q] <= wire[q] {
      assert q !in sent;
    }
    Unaffected(nodes, wire, owner, acked, p.to, node, after);
  }

  lemma LostHonest(nodes: map<Id, Node>, wire: multiset<Packet>, owner: map<Mid, Id>, acked: map<Mid, set<Id>>, p: Packet)
    requires Honest(nodes, wire, owner, acked)
    ensures Honest(nodes, wire - multiset{p}, owner, acked)
  {
    var after := wire - multiset{p};
    forall q | q in after ensures q in wire && after[q] <= wire[q] {
    }
    forall q | q in after && q.Ack? ensures after[q] == 1 {
    }
  }

  lemma AckHonest(nodes: map<Id, Node>, wire: multiset<Packet>, owner: map<Mid, Id>, acked: map<Mid, set<Id>>, p: Packet)
    requires Honest(nodes, wire, owner, acked) && p in wire && p.Ack? && p.to in nodes && p.mid in nodes[p.to].pending
    ensures p.mid in acked && p.from !in acked[p.mid]
    ensures var node := nodes[p.to].(pending := nodes[p.to].pending[p.mid := nodes[p.to].pending[p.mid] + 1]);
      Honest(nodes[p.to := node], wire - multiset{p}, owner, acked[p.mid := acked[p.mid] + {p.from}])
  {
    var node := nodes[p.to].(pending := nodes[p.to].pending[p.mid := nodes[p.to].pending[p.mid] + 1]);
    var next, after, more := nodes[p.to := node], wire - multiset{p}, acked[p.mid := acked[p.mid] + {p.from}];
    assert Acknowledges(nodes, owner, acked, p) && wire[p] == 1;
    forall q | q in after && q.Ack? ensures after[q] == 1 && Acknowledges(next, owner, more, q) {
      assert q in wire && Acknowledges(nodes, owner, acked, q) && q != p;
    }
    forall q | q in after && q.Put? ensures Originated(next, owner, q.mid, q.from) {
      assert q in wire && Originated(nodes, owner, q.mid, q.from);
    }
    forall o, m | o in next && m in next[o].pending ensures Pending(next, owner, more, o, m) {
      assert Pending(nodes, owner, acked, o, m);
    }
    forall m, n | m in more && n in more[m] ensures Replicated(next, owner, m, n) {
      if n in acked[m] { assert Replicated(nodes, owner, m, n); }
    }
  }

  /** A new write with its own message ID. */
  lemma StartHonest(nodes: map<Id, Node>, wire: multiset<Packet>, owner: map<Mid, Id>, acked: map<Mid, set<Id>>, o: Id,
                    m: Mid, node: Node, sent: seq<Packet>)
    requires Honest(nodes, wire, owner, acked) && o in nodes && m !in owner
    requires node.stored == nodes[o].stored + {m}
    requires node.seen == nodes[o].seen + {m} || (node.seen == nodes[o].seen && sent == [])
    requires node.pending == nodes[o].pending[m := 1] || node.pending == nodes[o].pending
    requires forall q :: q in sent ==> q.Put? && q.mid == m && q.from == o
    ensures Honest(nodes[o := node], wire + multiset(sent), owner[m := o], acked[m := {}])
  {
    var next, after, owners, more := nodes[o := node], wire + multiset(sent), owner[m := o], acked[m := {}];
    forall q | q in after && q.Ack? ensures after[q] == 1 && Acknowledges(next, owners, more, q) {
      assert q !in sent && Acknowledges(nodes, owner, acked, q);
    }
    forall q | q in after && q.Put? ensures Originated(next, owners, q.mid, q.from) {
      if q !in sent { assert Originated(nodes, owner, q.mid, q.from); }
    }
    forall k, x | k in next && x in next[k].pending ensures Pending(next, owners, more, k, x) {
      if x != m || k != o { assert Pending(nodes, owner, acked, k, x); }
    }
    forall x, n | x in more && n in more[x] ensures Replicated(next, owners, x, n) {
      assert Replicated(nodes, owner, x, n);
    }
  }

  // Handlers. Each returns the node as it leaves it and the messages it sends.

  /** protocol.go:578 - `pick` is what the shuffle would come up with. */
  method SelectRandomPeers(peers: set<Id>, n: nat, skip: Option<Id>, pick: set<Id>) returns (targets: set<Id>)
    ensures targets <= peers && (skip.Some? ==> skip.value !in targets)
    ensures |targets| <= n || targets == {}
    ensures var candidates := if skip.Some? then peers - {skip.value} else peers;
      targets <= candidates && |targets| == if |candidates| <= n then |candidates| else n
  {
    var candidates := if skip.Some? then peers - {skip.value} else peers;
    if |candidates| <= n { return candidates; }
    if pick <= candidates && |pick| == n { return pick; }
    targets := candidates;
    while |targets| > n
      invariant targets <= candidates && |targets| >= n
      decreases |targets|
    {
      var x :| x in targets;
      targets := targets - {x};
    }
  }

  /** The same PUT to each target. */
  method SendPut(mid: Mid, from: Id, targets: set<Id>) returns (sent: seq<Packet>)
    ensures |sent| == |targets| && forall q :: q in sent ==> q.Put? && q.mid == mid && q.from == from && q.to in targets
    ensures forall t :: t in targets ==> Put(mid, from, t) in sent
  {
    sent := [];
    var todo := targets;
    while todo != {}
      invariant todo <= targets && |sent| + |todo| == |targets|
      invariant forall q :: q in sent ==> q.Put? && q.mid == mid && q.from == from && q.to in targets
      invariant forall t :: t in targets && t !in todo ==> Put(mid, from, t) in sent
      decreases |todo|
    {
      var t :| t in todo;
      todo := todo - {t};
      sent := sent + [Put(mid, from, t)];
    }
  }

  /** How many peers a message goes to: all of a small enclave, the square root of a large one, and none twice. */
  function Reach(node: Node, forward: bool, from: Id): nat {
    var candidates := if forward then node.enclave - {from} else node.enclave;
    if |node.enclave| <= FANOUT_THRESHOLD then (if forward then 0 else |node.enclave|)
    else if |candidates| <= FanoutSize(|node.enclave|) then |candidates| else FanoutSize(|node.enclave|)
  }

  /** protocol.go:599 and 636: to whom a message goes on from here. */
  method EnclaveTargets(node: Node, forward: bool, from: Id, pick: set<Id>) returns (targets: set<Id>)
    ensures targets <= node.enclave && (forward ==> from !in targets)
    ensures |node.enclave| <= FANOUT_THRESHOLD ==> targets == if forward then {} else node.enclave
    ensures |targets| == Reach(node, forward, from)
  {
    if |node.enclave| <= FANOUT_THRESHOLD { return if forward then {} else node.enclave; }
    targets := SelectRandomPeers(node.enclave, FanoutSize(|node.enclave|), if forward then Some(from) else None, pick);
  }

  /** node.go:386 */
  method HandlePut(self: Id, node: Node, p: Packet, c: Choice) returns (next: Node, sent: seq<Packet>)
    requires p.Put? && node.enclave <= node.peers
    ensures next.peers == node.peers && next.enclave == node.enclave && next.pending == node.pending
    ensures if c.valid && p.mid !in node.seen then next.seen == node.seen + {p.mid} else next == node && sent == []
    ensures c.valid && p.mid !in node.seen ==>
      if c.stores then next.stored == node.stored + {p.mid} else next.stored == node.stored && sent == []
    ensures |sent| <= |node.peers| + 1
    ensures forall q :: q in sent ==>
      || (q.Put? && q.mid == p.mid && q.from == p.from && q.to in node.enclave && q.to != p.from)
      || (q == Ack(p.mid, self, p.from) && multiset(sent)[q] == 1)
    ensures c.valid && c.stores && p.mid !in node.seen && p.from in node.peers ==> Ack(p.mid, self, p.from) in sent
    ensures c.valid && c.stores && p.mid !in node.seen ==>
      |sent| == (if p.from in node.peers then 1 else 0) + Reach(node, true, p.from)
  {
    if !c.valid || p.mid in node.seen { return node, []; }
    next := node.(seen := node.seen + {p.mid});
    if !c.stores { return next, []; }
    next := next.(stored := node.stored + {p.mid});
    var ack := if p.from in node.peers then [Ack(p.mid, self, p.from)] else [];
    var targets := EnclaveTargets(node, true, p.from, c.targets);
    var puts := SendPut(p.mid, p.from, targets);
    Cardinality(targets, node.peers);
    sent := ack + puts;
    assert forall q :: q in puts ==> q.Put?;
    assert multiset(sent) == multiset(ack) + multiset(puts);
  }

  lemma Cardinality(few: set<Id>, many: set<Id>)
    requires few <= many
    ensures |few| <= |many|
  {
    assert many == few + (many - few);
    assert |many| == |few| + |many - few|;
  }

  /** The message introduces another node, and its route is accepted. */
  predicate Learns(self: Id, p: Packet, c: Choice)
    requires p.Sync? || p.SyncRequest?
  {
    p.info.Some? && p.info.value != self && c.accepts
  }

  /** protocol.go:349-375: learn a peer, and answer a request with everything known. */
  method HandleSync(self: Id, node: Node, p: Packet, c: Choice) returns (next: Node, sent: seq<Packet>)
    requires (p.Sync? || p.SyncRequest?) && node.enclave <= node.peers && self !in node.peers
    ensures next.enclave <= next.peers && self !in next.peers
    ensures next.peers == if Learns(self, p, c) then node.peers + {p.info.value} else node.peers
    ensures next.enclave == if Learns(self, p, c) && p.info.value !in node.peers && c.sameEnclave
                            then node.enclave + {p.info.value} else node.enclave
    ensures next.seen == node.seen && next.stored == node.stored && next.pending == node.pending
    ensures |sent| <= |next.peers| && (p.Sync? ==> sent == [])
    ensures forall q :: q in sent ==> q.Sync? && q.info.Some? && q.info.value in next.peers + {self}
    ensures p.SyncRequest? && p.info == Some(p.from) && Learns(self, p, c) ==>
      forall n :: n in next.peers + {self} && n != p.from ==> Sync(self, p.from, Some(n)) in sent
  {
    next := node;
    if p.info.Some? {
      if p.info.value == self { return next, []; }
      if !c.accepts { return next, []; }
      if p.info.value !in node.peers {
        next := node.(peers := node.peers + {p.info.value},
                      enclave := if c.sameEnclave then node.enclave + {p.info.value} else node.enclave);
      }
    }
    if p.SyncRequest? && p.info == Some(p.from) {
      sent := RespondWithPeerList(self, next, p.from);
    } else {
      sent := [];
    }
  }

  /** protocol.go:381 */
  method RespondWithPeerList(self: Id, node: Node, target: Id) returns (sent: seq<Packet>)
    requires self !in node.peers
    ensures |sent| <= |node.peers|
    ensures forall q :: q in sent ==> q.Sync? && q.info.Some? && q.info.value in node.peers + {self} && q.to == target
    ensures target in node.peers ==> forall n :: n in node.peers + {self} && n != target ==> Sync(self, target, Some(n)) in sent
    ensures target !in node.peers ==> sent == []
  {
    sent := [];
    if target !in node.peers { return; }
    var todo := node.peers + {self};
    while todo != {}
      invariant todo <= node.peers + {self}
      invariant |sent| + |todo| <= |node.peers| + if target in todo then 1 else 0
      invariant forall q :: q in sent ==> q.Sync? && q.info.Some? && q.info.value in node.peers + {self} && q.to == target
      invariant forall n :: n in node.peers + {self} && n != target && n !in todo ==> Sync(self, target, Some(n)) in sent
      decreases |todo|
    {
      var n :| n in todo;
      todo := todo - {n};
      if n != target {
        sent := sent + [Sync(self, target, Some(n))];
      }
    }
  }

  ghost predicate PutsWithin(wire: multiset<Packet>, mids: set<Mid>) { forall p :: p in wire && p.Put? ==> p.mid in mids }

  /** A delivery whose replies all weigh one, and are few enough for what it used up. */
  lemma Spends(nodes: map<Id, Node>, next: map<Id, Node>, wire: multiset<Packet>, p: Packet, sent: seq<Packet>,
               mids: set<Mid>, u: nat)
    requires p in wire && forall q :: q in sent ==> Weight(q, u) == 1
    requires next.Keys == nodes.Keys
    requires
      || (Unseen(next, mids) == Unseen(nodes, mids) && 2 * |sent| <= Weight(p, u))
      || (|Unseen(next, mids)| == |Unseen(nodes, mids)| - 1 && |sent| <= u + 1)
    ensures Measure(next, wire - multiset{p} + multiset(sent), mids, u) + |sent| <= Measure(nodes, wire, mids, u)
    ensures Measure(next, wire - multiset{p} + multiset(sent), mids, u) < Measure(nodes, wire, mids, u)
  {
    LoadWithout(wire, u, p);
    LoadMore(wire - multiset{p}, u, sent);
    OneLess(2 * u + 2, |Unseen(nodes, mids)|, |Unseen(next, mids)|);
  }

  lemma OneLess(k: nat, a: nat, b: nat)
    ensures b == a - 1 ==> k * b == k * a - k
  {
    if b == a - 1 { assert k * (a - 1) == k * a - k; }
  }

  /** The confirmation that takes a pending write to the quorum, or finds it there. */
  predicate Decides(before: Node, after: Node, m: Mid, replicationFactor: int) {
    m in before.pending && before.pending[m] + 1 >= QuorumSize(after, replicationFactor)
  }

  /** Its arrival completes the write it acknowledges. */
  predicate Completes(nodes: map<Id, Node>, next: map<Id, Node>, p: Packet, replicationFactor: int) {
    p.Ack? && p.to in nodes && p.to in next && Decides(nodes[p.to], next[p.to], p.mid, replicationFactor)
  }

  lemma StaysBounded(nodes: map<Id, Node>, wire: multiset<Packet>, universe: set<Id>, n: Id, node: Node,
                     sent: seq<Packet>, after: multiset<Packet>)
    requires Bounded(nodes, wire, universe) && n in nodes && node.enclave <= node.peers <= universe - {n}
    requires forall q :: q in after ==> q in wire || q in sent
    requires forall q :: q in sent && (q.Sync? || q.SyncRequest?) && q.info.Some? ==> q.info.value in universe
    ensures Bounded(nodes[n := node], after, universe)
  {
  }

  /** What every delivery does to the network as a whole. */
  ghost predicate Stepped(nodes: map<Id, Node>, wire: multiset<Packet>, next: map<Id, Node>, after: multiset<Packet>,
                          p: Packet, sent: seq<Packet>, mids: set<Mid>, u: nat) {
    && after == wire - multiset{p} + multiset(sent) && PutsWithin(after, mids) && next.Keys == nodes.Keys
    && Measure(next, after, mids, u) + |sent| <= Measure(nodes, wire, mids, u)
    && Measure(next, after, mids, u) < Measure(nodes, wire, mids, u)
    && forall m :: Storers(nodes, m) <= Storers(next, m)
  }

  lemma QuietStep(nodes: map<Id, Node>, wire: multiset<Packet>, next: map<Id, Node>, p: Packet, sent: seq<Packet>,
                  mids: set<Mid>, u: nat)
    requires p in wire && PutsWithin(wire, mids) && next.Keys == nodes.Keys
    requires forall k :: k in nodes ==> next[k].seen == nodes[k].seen && next[k].stored == nodes[k].stored
    requires forall q :: q in sent ==> !q.Put? && Weight(q, u) == 1
    requires 2 * |sent| <= Weight(p, u)
    ensures Stepped(nodes, wire, next, wire - multiset{p} + multiset(sent), p, sent, mids, u)
  {
    UnseenSame(nodes, next, mids);
    Spends(nodes, next, wire, p, sent, mids, u);
    forall q | q in wire - multiset{p} + multiset(sent) && q.Put? ensures q.mid in mids {
      assert q !in sent;
    }
  }

  lemma PutStep(nodes: map<Id, Node>, wire: multiset<Packet>, next: map<Id, Node>, p: Packet, sent: seq<Packet>,
                mids: set<Mid>, u: nat)
    requires p in wire && p.Put? && PutsWithin(wire, mids) && p.to in nodes && p.mid !in nodes[p.to].seen
    requires next.Keys == nodes.Keys
    requires forall k :: k in nodes ==> next[k].seen == if k == p.to then nodes[k].seen + {p.mid} else nodes[k].seen
    requires forall k :: k in nodes ==> nodes[k].stored <= next[k].stored
    requires forall q :: q in sent ==> (q.Put? && q.mid == p.mid) || q.Ack?
    requires |sent| <= u + 1
    ensures Stepped(nodes, wire, next, wire - multiset{p} + multiset(sent), p, sent, mids, u)
  {
    UnseenAfter(nodes, next, mids, p.to, p.mid);
    Spends(nodes, next, wire, p, sent, mids, u);
  }

  lemma MoreStorers(nodes: map<Id, Node>, next: map<Id, Node>)
    requires forall m :: Storers(nodes, m) <= Storers(next, m)
    ensures forall m :: |Storers(nodes, m)| <= |Storers(next, m)|
  {
    forall m ensures |Storers(nodes, m)| <= |Storers(next, m)| {
      Cardinality(Storers(nodes, m), Storers(next, m));
    }
  }

  datatype Event =
    | Write(o: Id, c: Choice)
    | Arrive(p: Packet, c: Choice)
    | Drop(p: Packet)
    | GiveUp(o: Id, m: Mid)
    | Evict(n: Id, peer: Id)

  /** All that a class method needs to know about a delivery, in one place. */
  ghost predicate Delivered(nodes: map<Id, Node>, wire: multiset<Packet>, owner: map<Mid, Id>, acked: map<Mid, set<Id>>,
                            universe: set<Id>, next: map<Id, Node>, after: multiset<Packet>, p: Packet, sent: seq<Packet>,
                            mids: set<Mid>) {
    && Bounded(next, after, universe) && Honest(next, after, owner, acked)
    && Stepped(nodes, wire, next, after, p, sent, mids, |universe|)
  }

  lemma QuietDelivery(nodes: map<Id, Node>, wire: multiset<Packet>, owner: map<Mid, Id>, acked: map<Mid, set<Id>>,
                      universe: set<Id>, p: Packet, node: Node, sent: seq<Packet>, mids: set<Mid>)
    requires Bounded(nodes, wire, universe) && Honest(nodes, wire, owner, acked) && PutsWithin(wire, mids)
    requires p in wire && p.to in nodes && 2 * |sent| <= Weight(p, |universe|)
    requires node.seen == nodes[p.to].seen && node.stored == nodes[p.to].stored && node.pending == nodes[p.to].pending
    requires node.enclave <= node.peers <= universe - {p.to}
    requires forall q :: q in sent ==> q.Pong? || (q.Sync? && q.info.Some? && q.info.value in universe)
    ensures Delivered(nodes, wire, owner, acked, universe, nodes[p.to := node], wire - multiset{p} + multiset(sent), p, sent,
                      mids)
  {
    StaysBounded(nodes, wire, universe, p.to, node, sent, wire - multiset{p} + multiset(sent));
    QuietHonest(nodes, wire, owner, acked, p, node, sent);
    QuietStep(nodes, wire, nodes[p.to := node], p, sent, mids, |universe|);
  }

  lemma PutDelivery(nodes: map<Id, Node>, wire: multiset<Packet>, owner: map<Mid, Id>, acked: map<Mid, set<Id>>,
                    universe: set<Id>, p: Packet, node: Node, sent: seq<Packet>, mids: set<Mid>)
    requires Bounded(nodes, wire, universe) && Honest(nodes, wire, owner, acked) && PutsWithin(wire, mids)
    requires p in wire && p.Put? && p.to in nodes && p.mid !in nodes[p.to].seen && |sent| <= |node.peers| + 1
    requires node.peers == nodes[p.to].peers && node.enclave == nodes[p.to].enclave
    requires node.pending == nodes[p.to].pending && node.seen == nodes[p.to].seen + {p.mid}
    requires node.stored == nodes[p.to].stored + {p.mid} || (node.stored == nodes[p.to].stored && sent == [])
    requires forall q :: q in sent ==>
      (q.Put? && q.mid == p.mid && q.from == p.from) || (q == Ack(p.mid, p.to, p.from) && multiset(sent)[q] == 1)
    ensures Delivered(nodes, wire, owner, acked, universe, nodes[p.to := node], wire - multiset{p} + multiset(sent), p, sent,
                      mids)
  {
    Cardinality(node.peers, universe);
    StaysBounded(nodes, wire, universe, p.to, node, sent, wire - multiset{p} + multiset(sent));
    PutHonest(nodes, wire, owner, acked, p, node, sent);
    PutStep(nodes, wire, nodes[p.to := node], p, sent, mids, |universe|);
  }

  lemma AckDelivery(nodes: map<Id, Node>, wire: multiset<Packet>, owner: map<Mid, Id>, acked: map<Mid, set<Id>>,
                    more: map<Mid, set<Id>>, universe: set<Id>, p: Packet, node: Node, sent: seq<Packet>, mids: set<Mid>)
    requires Bounded(nodes, wire, universe) && Honest(nodes, wire, owner, acked) && PutsWithin(wire, mids)
    requires p in wire && p.Ack? && p.to in nodes && p.mid in nodes[p.to].pending && sent == []
    requires node == nodes[p.to].(pending := nodes[p.to].pending[p.mid := nodes[p.to].pending[p.mid] + 1])
    requires p.mid in acked && more == acked[p.mid := acked[p.mid] + {p.from}]
    ensures Delivered(nodes, wire, owner, more, universe, nodes[p.to := node], wire - multiset{p} + multiset(sent), p, sent,
                      mids)
    ensures |Storers(nodes[p.to := node], p.mid)| >= node.pending[p.mid] && p.to in Storers(nodes[p.to := node], p.mid)
  {
    AckHonest(nodes, wire, owner, acked, p);
    var next, after := nodes[p.to := node], wire - multiset{p} + multiset(sent);
    assert after == wire - multiset{p};
    StaysBounded(nodes, wire, universe, p.to, node, sent, after);
    QuietStep(nodes, wire, next, p, sent, mids, |universe|);
    ConfirmedStorers(next, after, owner, more, p.to, p.mid);
  }

  /** The step answers a client's write with success. */
  predicate Succeeds(nodes: map<Id, Node>, wire: multiset<Packet>, next: map<Id, Node>, event: Event, replicationFactor: int) {
    match event
    case Write(o, c) => o in nodes && c.valid && c.stores && QuorumSize(nodes[o], replicationFactor) <= 1
    case Arrive(p, c) => p in wire && Completes(nodes, next, p, replicationFactor)
    case _ => false
  }

  /** As many nodes as the quorum of the originator when the write was decided still store it. */
  ghost predicate Lasting(win: (Id, Mid, nat), trace: seq<map<Id, Node>>, nodes: map<Id, Node>, replicationFactor: int) {
    && win.2 < |trace| && win.0 in trace[win.2] && win.0 in Storers(nodes, win.1)
    && |Storers(nodes, win.1)| >= QuorumSize(trace[win.2][win.0], replicationFactor)
  }

  lemma StillLasting(win: (Id, Mid, nat), trace: seq<map<Id, Node>>, nodes: map<Id, Node>, next: map<Id, Node>,
                     replicationFactor: int)
    requires Lasting(win, trace, nodes, replicationFactor) && Storers(nodes, win.1) <= Storers(next, win.1)
    requires |Storers(nodes, win.1)| <= |Storers(next, win.1)|
    ensures Lasting(win, trace + [next], next, replicationFactor)
  {
  }

  class Cluster {
    const universe: set<Id>
    const replicationFactor: int
    var nodes: map<Id, Node>
    var wire: multiset<Packet>
    var nextMid: Mid // message IDs are unique
    ghost var owner: map<Mid, Id>
    ghost var acked: map<Mid, set<Id>>

    ghost predicate Valid()
      reads this
    {
      && Bounded(nodes, wire, universe) && Honest(nodes, wire, owner, acked)
      && forall m :: m in owner ==> m < nextMid
    }

    constructor (tables: map<Id, Node>, universe: set<Id>, replicationFactor: int)
      requires Bounded(tables, multiset{}, universe) && forall n :: n in tables ==> tables[n].pending == map[]
      ensures Valid() && nodes == tables && wire == multiset{} && owner == map[]
      ensures this.universe == universe && this.replicationFactor == replicationFactor
    {
      this.universe, this.replicationFactor := universe, replicationFactor;
      nodes, wire, nextMid, owner, acked := tables, multiset{}, 0, map[], map[];
    }

    /** protocol.go:294 and node.go:360 - one message reaches its node. */
    method Deliver(p: Packet, c: Choice, ghost mids: set<Mid>) returns (sent: seq<Packet>, decided: bool)
      requires Valid() && p in wire && PutsWithin(wire, mids)
      modifies this`nodes, this`wire, this`acked
      ensures Valid() && Stepped(old(nodes), old(wire), nodes, wire, p, sent, mids, |universe|)
      ensures decided ==> p.Ack? && Confirmed(p.to, p.mid)
      ensures decided <==> Completes(old(nodes), nodes, p, replicationFactor)
      ensures p.Put? && p.to in nodes && c.valid && c.stores && p.mid !in old(nodes)[p.to].seen ==> p.mid in nodes[p.to].stored
      ensures p.Ping? && p.to in nodes ==> sent == if p.from in nodes[p.to].peers then [Pong(p.to, p.from)] else []
    {
      if p.to !in nodes {
        sent := Miss(p, mids);
        return sent, false;
      }
      decided := false;
      match p {
        case Put(_, _, _) => sent := DeliverPut(p, c, mids);
        case Ack(_, _, _) => sent, decided := DeliverAck(p, mids);
        case Ping(from, to) =>
          sent := if from in nodes[to].peers then [Pong(to, from)] else [];
          Quietly(p, nodes[to], sent, mids);
        case Pong(_, to) =>
          sent := [];
          Quietly(p, nodes[to], sent, mids);
        case Sync(_, _, _) => sent := DeliverSync(p, c, mids);
        case SyncRequest(_, _, _) => sent := DeliverSync(p, c, mids);
      }
    }

    /** A message to a node that is not there. */
    method Miss(p: Packet, ghost mids: set<Mid>) returns (sent: seq<Packet>)
      requires Valid() && p in wire && PutsWithin(wire, mids) && p.to !in nodes
      modifies this`nodes, this`wire, this`acked
      ensures Valid() && nodes == old(nodes) && sent == []
      ensures Stepped(old(nodes), old(wire), nodes, wire, p, sent, mids, |universe|)
    {
      sent := [];
      LostHonest(nodes, wire, owner, acked, p);
      assert wire - multiset{p} + multiset(sent) == wire - multiset{p};
      QuietStep(nodes, wire, nodes, p, sent, mids, |universe|);
      Move(nodes, wire - multiset{p} + multiset(sent), acked);
    }

    method DeliverSync(p: Packet, c: Choice, ghost mids: set<Mid>) returns (sent: seq<Packet>)
      requires Valid() && p in wire && PutsWithin(wire, mids) && (p.Sync? || p.SyncRequest?) && p.to in nodes
      modifies this`nodes, this`wire, this`acked
      ensures Valid() && Stepped(old(nodes), old(wire), nodes, wire, p, sent, mids, |universe|)
    {
      var next;
      next, sent := HandleSync(p.to, nodes[p.to], p, c);
      Cardinality(next.peers, universe);
      Quietly(p, next, sent, mids);
    }

    /** Enough distinct nodes, the originator among them, have stored the message. */
    ghost predicate Confirmed(o: Id, m: Mid)
      reads this
    {
      o in nodes && o in Storers(nodes, m) && |Storers(nodes, m)| >= QuorumSize(nodes[o], replicationFactor)
    }

    method DeliverPut(p: Packet, c: Choice, ghost mids: set<Mid>) returns (sent: seq<Packet>)
      requires Valid() && p in wire && PutsWithin(wire, mids) && p.Put? && p.to in nodes
      modifies this`nodes, this`wire, this`acked
      ensures Valid() && Stepped(old(nodes), old(wire), nodes, wire, p, sent, mids, |universe|)
      ensures c.valid && c.stores && p.mid !in old(nodes)[p.to].seen ==> p.mid in nodes[p.to].stored
    {
      var next;
      next, sent := HandlePut(p.to, nodes[p.to], p, c);
      if next == nodes[p.to] {
        QuietDelivery(nodes, wire, owner, acked, universe, p, next, sent, mids);
      } else {
        PutDelivery(nodes, wire, owner, acked, universe, p, next, sent, mids);
      }
      Move(nodes[p.to := next], wire - multiset{p} + multiset(sent), acked);
    }

    /** node.go:455 - count a confirmation of a pending write; the one that completes it decides. */
    method DeliverAck(p: Packet, ghost mids: set<Mid>) returns (sent: seq<Packet>, decided: bool)
      requires Valid() && p in wire && PutsWithin(wire, mids) && p.Ack? && p.to in nodes
      modifies this`nodes, this`wire, this`acked
      ensures Valid() && Stepped(old(nodes), old(wire), nodes, wire, p, sent, mids, |universe|)
      ensures decided ==> Confirmed(p.to, p.mid)
      ensures decided <==> Decides(old(nodes)[p.to], nodes[p.to], p.mid, replicationFactor)
    {
      sent := [];
      if p.mid in nodes[p.to].pending {
        decided := CountAck(p, sent, mids);
      } else {
        Quietly(p, nodes[p.to], sent, mids);
        decided := false;
      }
    }

    method CountAck(p: Packet, sent: seq<Packet>, ghost mids: set<Mid>) returns (decided: bool)
      requires Valid() && p in wire && PutsWithin(wire, mids) && p.Ack? && p.to in nodes && p.mid in nodes[p.to].pending
      requires sent == []
      modifies this`nodes, this`wire, this`acked
      ensures Valid() && Stepped(old(nodes), old(wire), nodes, wire, p, sent, mids, |universe|)
      ensures decided ==> Confirmed(p.to, p.mid)
      ensures decided <==> Decides(old(nodes)[p.to], nodes[p.to], p.mid, replicationFactor)
    {
      var node := nodes[p.to];
      var next := node.(pending := node.pending[p.mid := node.pending[p.mid] + 1]);
      assert Acknowledges(nodes, owner, acked, p);
      ghost var more := acked[p.mid := acked[p.mid] + {p.from}];
      AckDelivery(nodes, wire, owner, acked, more, universe, p, next, sent, mids);
      Move(nodes[p.to := next], wire - multiset{p} + multiset(sent), more);
      decided := next.pending[p.mid] >= QuorumSize(next, replicationFactor);
    }

    method Move(next: map<Id, Node>, after: multiset<Packet>, ghost more: map<Mid, set<Id>>)
      requires Valid() && Bounded(next, after, universe) && Honest(next, after, owner, more)
      modifies this`nodes, this`wire, this`acked
      ensures Valid() && nodes == next && wire == after && acked == more
    {
      nodes, wire, acked := next, after, more;
    }

    /** A message that concerns neither writes nor dedup caches. */
    method Quietly(p: Packet, next: Node, sent: seq<Packet>, ghost mids: set<Mid>)
      requires Valid() && p in wire && PutsWithin(wire, mids) && !p.Put? && p.to in nodes
      requires next.seen == nodes[p.to].seen && next.stored == nodes[p.to].stored && next.pending == nodes[p.to].pending
      requires next.enclave <= next.peers <= universe - {p.to} && 2 * |sent| <= Weight(p, |universe|)
      requires forall q :: q in sent ==> q.Pong? || (q.Sync? && q.info.Some? && q.info.value in universe)
      modifies this`nodes, this`wire, this`acked
      ensures Valid() && Stepped(old(nodes), old(wire), nodes, wire, p, sent, mids, |universe|)
      ensures nodes == old(nodes)[p.to := next]
    {
      QuietDelivery(nodes, wire, owner, acked, universe, p, next, sent, mids);
      Move(nodes[p.to := next], wire - multiset{p} + multiset(sent), acked);
    }

    /** node.go:279-322: store locally, then ask the enclave; one node may be enough. */
    method StartPut(o: Id, c: Choice) returns (m: Mid, sent: seq<Packet>, decided: bool)
      requires Valid() && o in nodes
      modifies this`nodes, this`wire, this`nextMid, this`owner, this`acked
      ensures Valid() && wire == old(wire) + multiset(sent) && nodes.Keys == old(nodes).Keys
      ensures decided ==> Confirmed(o, m)
      ensures forall x :: old(Storers(nodes, x)) <= Storers(nodes, x)
      ensures decided <==> c.valid && c.stores && QuorumSize(old(nodes)[o], replicationFactor) <= 1
      ensures c.valid && c.stores ==> m in nodes[o].stored && m in owner && owner[m] == o
      ensures c.valid && c.stores && !decided ==> m in nodes[o].pending && nodes[o].pending[m] == 1
      ensures c.valid && c.stores && !decided ==> |sent| == Reach(nodes[o], false, o)
      ensures c.valid && c.stores && !decided && |nodes[o].enclave| <= FANOUT_THRESHOLD ==>
        forall t :: t in nodes[o].enclave ==> Put(m, o, t) in sent
      ensures m == old(nextMid) && nextMid == m + 1
    {
      m, sent, decided := nextMid, [], false;
      nextMid := nextMid + 1;
      var node := nodes[o];
      if !c.valid || !c.stores {
        assert wire == wire + multiset(sent);
        return;
      }
      decided := 1 >= QuorumSize(node, replicationFactor);
      var next := node.(stored := node.stored + {m});
      if !decided {
        next := next.(pending := node.pending[m := 1], seen := node.seen + {m});
        var targets := EnclaveTargets(next, false, o, c.targets);
        sent := SendPut(m, o, targets);
      }
      Begin(o, m, next, sent);
      Cardinality({o}, Storers(nodes, m));
    }

    method Begin(o: Id, m: Mid, next: Node, sent: seq<Packet>)
      requires Valid() && o in nodes && m !in owner && m < nextMid
      requires next.peers == nodes[o].peers && next.enclave == nodes[o].enclave && next.stored == nodes[o].stored + {m}
      requires next.seen == nodes[o].seen + {m} || (next.seen == nodes[o].seen && sent == [])
      requires next.pending == nodes[o].pending[m := 1] || next.pending == nodes[o].pending
      requires forall q :: q in sent ==> q.Put? && q.mid == m && q.from == o
      modifies this`nodes, this`wire, this`owner, this`acked
      ensures Valid() && wire == old(wire) + multiset(sent) && nodes == old(nodes)[o := next] && owner == old(owner)[m := o]
    {
      StartHonest(nodes, wire, owner, acked, o, m, next, sent);
      StaysBounded(nodes, wire, universe, o, next, sent, wire + multiset(sent));
      nodes := nodes[o := next];
      wire := wire + multiset(sent);
      owner, acked := owner[m := o], acked[m := {}];
    }

    /** node.go:331-349: the write is answered or given up. */
    method EndPut(o: Id, m: Mid)
      requires Valid() && o in nodes
      modifies this`nodes
      ensures Valid() && nodes.Keys == old(nodes).Keys && forall x :: old(Storers(nodes, x)) <= Storers(nodes, x)
      ensures nodes == old(nodes)[o := old(nodes)[o].(pending := old(nodes)[o].pending - {m})]
    {
      var next := nodes[o].(pending := nodes[o].pending - {m});
      Unaffected(nodes, wire, owner, acked, o, next, wire);
      nodes := nodes[o := next];
    }

    /** A message is lost on the way. */
    method Lose(p: Packet)
      requires Valid() && p in wire
      modifies this`wire
      ensures Valid() && wire == old(wire) - multiset{p}
    {
      LostHonest(nodes, wire, owner, acked, p);
      wire := wire - multiset{p};
    }

    /** protocol.go:465-472: a peer that no longer answers leaves the table, so quorums may shrink. */
    method Forget(n: Id, peer: Id)
      requires Valid() && n in nodes
      modifies this`nodes
      ensures Valid() && nodes.Keys == old(nodes).Keys && forall x :: old(Storers(nodes, x)) <= Storers(nodes, x)
      ensures nodes[n].peers == old(nodes)[n].peers - {peer} && nodes[n].enclave == old(nodes)[n].enclave - {peer}
    {
      var next := nodes[n].(peers := nodes[n].peers - {peer}, enclave := nodes[n].enclave - {peer});
      Unaffected(nodes, wire, owner, acked, n, next, wire);
      nodes := nodes[n := next];
    }

    /**
      Any finite set of messages settles: delivering them, and whatever they provoke, in any
      order takes a bounded number of sends, and the bound is known in advance.
     */
    method Settle(picks: seq<Choice>, ghost mids: set<Mid>) returns (sends: nat, deliveries: nat)
      requires Valid() && PutsWithin(wire, mids)
      modifies this`nodes, this`wire, this`acked
      ensures Valid()
      ensures sends <= old(Measure(nodes, wire, mids, |universe|)) && deliveries <= old(Measure(nodes, wire, mids, |universe|))
      ensures wire == multiset{} || deliveries == |picks|
      ensures |wire| + deliveries == |old(wire)| + sends
    {
      sends, deliveries := 0, 0;
      ghost var bound := Measure(nodes, wire, mids, |universe|);
      while wire != multiset{} && deliveries < |picks|
        invariant Valid() && PutsWithin(wire, mids) && deliveries <= |picks|
        invariant |wire| + deliveries == |old(wire)| + sends
        invariant sends + Measure(nodes, wire, mids, |universe|) <= bound
        invariant deliveries + Measure(nodes, wire, mids, |universe|) <= bound
        decreases |picks| - deliveries
      {
        var p :| p in wire;
        var sent, _ := Deliver(p, picks[deliveries], mids);
        sends, deliveries := sends + |sent|, deliveries + 1;
      }
    }

    /**
      Writes, deliveries, losses, timeouts and evictions in any order: whenever a write is
      reported successful, at least as many distinct nodes as the quorum at that moment,
      the originator among them, have stored it - and they still have at the end. A win is
      the originator, the message and the number of the step that decided it.
     */
    method Run(script: seq<Event>) returns (won: seq<(Id, Mid, nat)>, ghost trace: seq<map<Id, Node>>)
      requires Valid()
      modifies this
      ensures Valid() && |trace| == |script| + 1 && trace[0] == old(nodes) && trace[|script|] == nodes
      ensures forall i :: 0 <= i < |won| ==> Lasting(won[i], trace, nodes, replicationFactor)
    {
      won, trace := [], [nodes];
      for i := 0 to |script|
        invariant Valid() && |trace| == i + 1 && trace[0] == old(nodes) && trace[i] == nodes
        invariant forall k :: 0 <= k < |won| ==> Lasting(won[k], trace, nodes, replicationFactor)
      {
        ghost var before, earlier := nodes, trace;
        var win := Happen(script[i]);
        trace := trace + [nodes];
        forall k | 0 <= k < |won| ensures Lasting(won[k], trace, nodes, replicationFactor) {
          StillLasting(won[k], earlier, before, nodes, replicationFactor);
        }
        if win.Some? {
          assert trace[i + 1] == nodes;
          won := won + [(win.value.0, win.value.1, i + 1)];
        }
      }
    }

    /** One step; it reports a success exactly when a write is decided by it. */
    method Happen(event: Event) returns (win: Option<(Id, Mid)>)
      requires Valid()
      modifies this
      ensures Valid()
      ensures win.Some? <==> Succeeds(old(nodes), old(wire), nodes, event, replicationFactor)
      ensures win.Some? ==> Confirmed(win.value.0, win.value.1)
      ensures forall m :: |Storers(nodes, m)| >= |old(Storers(nodes, m))| && old(Storers(nodes, m)) <= Storers(nodes, m)
    {
      win := None;
      ghost var before := nodes;
      match event {
        case Write(o, c) =>
          if o in nodes {
            var m, _, decided := StartPut(o, c);
            if decided { win := Some((o, m)); }
          }
        case Arrive(p, c) =>
          if p in wire {
            var _, decided := Deliver(p, c, set q | q in wire && q.Put? :: q.mid);
            if decided { win := Some((p.to, p.mid)); }
          }
        case Drop(p) => if p in wire { Lose(p); }
        case GiveUp(o, m) => if o in nodes { EndPut(o, m); }
        case Evict(n, peer) => if n in nodes { Forget(n, peer); }
      }
      MoreStorers(before, nodes);
    }
  }
}
