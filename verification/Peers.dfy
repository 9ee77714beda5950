/**
  internal/gossip/protocol.go, bindings.go and bootstrap.go: the peer table of a node, and
  the signed bindings that pin the routes of root nodes. Parsing an origin is a parameter,
  as is joining an address and a port.
 */
module Peers {
  import opened Wrappers

  datatype Text = Text(chars: string)

  const EMPTY := Text("")
  const DEFAULT := Text("default")
  const MAX_PING_FAILURES := 3

  datatype Node = Node(id: Text, address: Text, httpPort: int, httpOrigin: Text, enclave: Text)

  datatype Binding = Binding(origin: Text, enclave: Text)

  /** endpoint.Normalize, and the host and port it is given when no origin is advertised. */
  datatype Resolver = Resolver(normalize: Text -> Option<Text>, join: (Text, int) -> Text)
  {
    /** protocol.go:76 */
    function Origin(n: Node): Option<Text> {
      if n.httpOrigin != EMPTY then normalize(n.httpOrigin) else normalize(join(n.address, n.httpPort))
    }

    /** The route and enclave an entry stands for. */
    function Route(n: Node): Option<Binding> {
      var o := Origin(n);
      if o.Some? then Some(Binding(o.value, n.enclave)) else None
    }

    /** Verified manifests carry origins in canonical form. */
    predicate Canonical(b: Binding) { b.origin != EMPTY && normalize(b.origin) == Some(b.origin) }
  }

  /** An advertisement without an enclave means the default one. */
  function Defaulted(n: Node): Node { if n.enclave == EMPTY then n.(enclave := DEFAULT) else n }

  /** bindings.go:23-28 */
  function Rebound(n: Node, b: Binding): Node { n.(httpOrigin := b.origin, enclave := b.enclave) }

  type Table = map<Text, Node>

  /** Every peer under a pinned ID has the pinned route; the local node is never a peer. */
  ghost predicate Sound(local: Text, peers: Table, pins: map<Text, Binding>, r: Resolver) {
    && local !in peers && EMPTY !in peers
    && (forall id :: id in pins ==> r.Canonical(pins[id]))
    && (forall id :: id in peers ==> Entry(id, peers[id], pins, r))
  }

  ghost predicate Entry(id: Text, n: Node, pins: map<Text, Binding>, r: Resolver) {
    n.id == id && r.Route(n).Some? && (id in pins ==> r.Route(n) == Some(pins[id]))
  }

  /** A new peer joins; one that is known stays as it is. */
  function Joined(peers: Table, n: Node): Table { if n.id in peers then peers else peers[n.id := Defaulted(n)] }

  /** No route in use changed: entries only came or went. */
  ghost predicate Steady(before: Table, after: Table) {
    forall id :: id in before && id in after ==> after[id] == before[id]
  }

  datatype Seed = Unreachable | Answer(peers: seq<Option<Node>>)

  datatype Event =
    | Sync(info: Option<Node>)
    | Pong(from: Text, info: Option<Node>)
    | Ping(failed: set<Text>)
    | SignedUpdate(bindings: map<Text, Binding>)
    | BootstrapRequest(node: Node)
    | Bootstrap(seeds: seq<Seed>)

  class Protocol {
    const local: Text
    const resolver: Resolver
    var peers: Table
    var peerFailures: map<Text, nat>
    var rootBindings: map<Text, Binding>

    ghost predicate Valid() reads this { Sound(local, peers, rootBindings, resolver) }

    constructor (local: Text, resolver: Resolver)
      ensures Valid() && peers == map[] && rootBindings == map[] && this.local == local && this.resolver == resolver
    {
      this.local, this.resolver := local, resolver;
      peers, peerFailures, rootBindings := map[], map[], map[];
    }

    /** Exactly the advertisements that are accepted. */
    predicate Accepts(n: Node)
      reads this
    {
      var route := resolver.Route(Defaulted(n));
      && n.id != EMPTY && n.id != local && route.Some?
      && (n.id in rootBindings ==> rootBindings[n.id] == route.value)
      && (n.id in peers ==> resolver.Route(peers[n.id]) == route)
    }

    /** protocol.go:225 */
    method AddPeer(node: Option<Node>) returns (ok: bool)
      requires Valid()
      modifies this`peers, this`peerFailures
      ensures Valid() && Steady(old(peers), peers)
      ensures ok <==> node.Some? && old(Accepts(node.value))
      ensures peers == if ok then Joined(old(peers), node.value) else old(peers)
      ensures peerFailures == if ok && node.value.id !in old(peers) then old(peerFailures) - {node.value.id}
                              else old(peerFailures)
    {
      if node.None? || node.value.id == EMPTY { return false; }
      if node.value.id == local { return false; }
      var copy := Defaulted(node.value);
      var origin := resolver.Origin(copy);
      if origin.None? { return false; }
      var binding := Binding(origin.value, copy.enclave);
      if copy.id in rootBindings && rootBindings[copy.id] != binding { return false; }
      if copy.id in peers {
        var existing := peers[copy.id];
        assert Entry(copy.id, existing, rootBindings, resolver);
        return resolver.Origin(existing) == origin && existing.enclave == copy.enclave;
      }
      peers := peers[copy.id := copy];
      peerFailures := peerFailures - {copy.id};
      return true;
    }

    /** protocol.go:271 */
    method RemovePeer(id: Text)
      requires Valid()
      modifies this`peers, this`peerFailures
      ensures Valid() && peers == old(peers) - {id} && peerFailures == old(peerFailures) - {id}
    {
      peers := peers - {id};
      peerFailures := peerFailures - {id};
    }

    /** protocol.go:338 */
    method HandlePong(from: Text, info: Option<Node>) returns (ok: bool)
      requires Valid()
      modifies this`peerFailures
      ensures ok <==> info.None? || info.value.id == from
      ensures peerFailures == if ok then old(peerFailures) - {from} else old(peerFailures)
    {
      if info.Some? && info.value.id != from { return false; }
      peerFailures := peerFailures - {from};
      return true;
    }

    /** protocol.go:349 */
    method HandleSync(info: Option<Node>) returns (ok: bool)
      requires Valid()
      modifies this`peers, this`peerFailures
      ensures Valid() && Steady(old(peers), peers) && old(peers).Keys <= peers.Keys
      ensures ok <==> info.None? || info.value.id == local || old(Accepts(info.value))
      ensures peers == if ok && info.Some? && info.value.id != local then Joined(old(peers), info.value) else old(peers)
    {
      if info.Some? {
        if info.value.id == local { return true; }
        ok := AddPeer(info);
        if !ok { return false; }
      }
      return true;
    }

    /** protocol.go:434 - `failed` are the peers a ping did not reach this time. */
    method PingPeers(failed: set<Text>)
      requires Valid()
      modifies this`peers, this`peerFailures
      ensures Valid() && peers == old(peers) - Evicted(old(peers).Keys, old(peerFailures), failed)
      ensures forall id :: id in peers ==>
        Count(peerFailures, id) == Count(old(peerFailures), id) + if id in failed then 1 else 0
    {
      var evictions := CountFailures(failed);
      Evict(evictions);
    }

    /** protocol.go:438-463 */
    method CountFailures(failed: set<Text>) returns (evictions: set<Text>)
      modifies this`peerFailures
      ensures evictions == Evicted(peers.Keys, old(peerFailures), failed)
      ensures Counted(peers.Keys, old(peerFailures), failed, {}, peerFailures, evictions)
    {
      ghost var counts := peerFailures;
      var todo := peers.Keys;
      evictions := {};
      while todo != {}
        invariant Counted(peers.Keys, counts, failed, todo, peerFailures, evictions)
        decreases |todo|
      {
        var id :| id in todo;
        CountOne(peers.Keys, counts, failed, todo, peerFailures, evictions, id);
        todo := todo - {id};
        if id in failed {
          peerFailures := peerFailures[id := Count(peerFailures, id) + 1];
          if peerFailures[id] >= MAX_PING_FAILURES { evictions := evictions + {id}; }
        }
      }
    }

    /** protocol.go:465-472 */
    method Evict(evictions: set<Text>)
      requires Valid()
      modifies this`peers, this`peerFailures
      ensures Valid() && peers == old(peers) - evictions
      ensures forall id :: id !in evictions ==> Count(peerFailures, id) == Count(old(peerFailures), id)
    {
      var todo := evictions;
      while todo != {}
        invariant todo <= evictions && peers == old(peers) - (evictions - todo) && Valid()
        invariant forall id :: id !in evictions ==> Count(peerFailures, id) == Count(old(peerFailures), id)
        decreases |todo|
      {
        var id :| id in todo;
        todo := todo - {id};
        RemovePeer(id);
      }
    }

    /** bindings.go:15 - the only way an established route changes. */
    method SetRootBindings(bindings: map<Text, Binding>)
      requires Valid() && CanonicalAll(bindings, resolver)
      modifies this
      ensures Valid() && rootBindings == bindings && peers == ReboundAll(old(peers), bindings)
      ensures Forgiven(old(peers), bindings, {}, resolver, old(peerFailures), peerFailures)
    {
      ghost var before, counts := peers, peerFailures;
      assert Routed(local, before, resolver);
      rootBindings := map[];
      var todo := bindings.Keys;
      while todo != {}
        invariant Rebinding(before, bindings, todo, peers, rootBindings)
        invariant Forgiven(before, bindings, todo, resolver, counts, peerFailures)
        decreases |todo|
      {
        var id :| id in todo;
        RebindOne(before, bindings, todo, peers, rootBindings, id);
        ForgiveOne(before, bindings, todo, resolver, counts, peerFailures, id);
        todo := todo - {id};
        Bind(id, bindings[id]);
      }
      ReboundSound(local, before, peers, bindings, rootBindings, resolver);
    }

    /** bindings.go:20-31: one binding, and the peer it moves. */
    method Bind(id: Text, binding: Binding)
      modifies this
      ensures rootBindings == old(rootBindings)[id := binding]
      ensures peers == if id in old(peers) then old(peers)[id := Rebound(old(peers)[id], binding)] else old(peers)
      ensures peerFailures == if id in old(peers) && resolver.Origin(old(peers)[id]) != Some(binding.origin)
                              then old(peerFailures) - {id} else old(peerFailures)
    {
      rootBindings := rootBindings[id := binding];
      if id in peers {
        var peer := peers[id];
        peers := peers[id := Rebound(peer, binding)];
        if resolver.Origin(peer) != Some(binding.origin) {
          peerFailures := peerFailures - {id};
        }
      }
    }

    /** bootstrap.go:166 - a joining node is answered only if its route is accepted. */
    method HandleBootstrap(node: Node) returns (ok: bool, answer: set<Text>)
      requires Valid()
      modifies this`peers, this`peerFailures
      ensures Valid() && Steady(old(peers), peers)
      ensures ok <==> old(Accepts(node))
      ensures answer == if ok then peers.Keys + {local} else {}
      ensures ok ==> node.id in answer
      ensures peers == if ok then Joined(old(peers), node) else old(peers)
    {
      ok := AddPeer(Some(Defaulted(node)));
      if !ok { return false, {}; }
      answer := peers.Keys + {local};
    }

    /** No advertisement that could be accepted was left out. */
    ghost predicate Merged(found: seq<Option<Node>>)
      reads this
    {
      forall p :: p in found && p.Some? && Accepts(p.value) ==> p.value.id in peers
    }

    /** bootstrap.go:63-93: merge what the seeds answer, each peer once. */
    method MergeSeeds(seeds: seq<Seed>) returns (seen: set<Text>)
      requires Valid()
      modifies this`peers, this`peerFailures
      ensures Valid() && Steady(old(peers), peers) && old(peers).Keys <= peers.Keys
      ensures seen <= peers.Keys && peers.Keys - old(peers).Keys <= seen
      ensures forall i :: 0 <= i < |seeds| && seeds[i].Answer? ==> Merged(seeds[i].peers)
    {
      seen := {};
      for i := 0 to |seeds|
        invariant Valid() && Steady(old(peers), peers) && old(peers).Keys <= peers.Keys
        invariant seen <= peers.Keys && peers.Keys - old(peers).Keys <= seen
        invariant forall k :: 0 <= k < i && seeds[k].Answer? ==> Merged(seeds[k].peers)
      {
        if seeds[i].Answer? {
          var found := seeds[i].peers;
          for k := 0 to |found|
            invariant Valid() && Steady(old(peers), peers) && old(peers).Keys <= peers.Keys
            invariant seen <= peers.Keys && peers.Keys - old(peers).Keys <= seen
            invariant forall m :: 0 <= m < i && seeds[m].Answer? ==> Merged(seeds[m].peers)
            invariant Merged(found[..k])
          {
            assert found[..k + 1] == found[..k] + [found[k]];
            var peer := found[k];
            if peer.Some? && peer.value.id != local && peer.value.id !in seen {
              var ok := AddPeer(peer);
              if ok { seen := seen + {peer.value.id}; }
            }
          }
          assert found[..|found|] == found;
        }
      }
    }

    /**
      Any traffic in any order: pinned peers keep the pinned route through eviction and
      rejoining, and an established route changes only under a signed update or by the peer
      leaving and joining again.
     */
    method Run(script: seq<Event>) returns (ghost tables: seq<Table>)
      requires Valid()
      requires forall i :: 0 <= i < |script| && script[i].SignedUpdate? ==> CanonicalAll(script[i].bindings, resolver)
      modifies this
      ensures Valid() && |tables| == |script| + 1 && tables[0] == old(peers) && tables[|script|] == peers
      ensures forall i {:trigger script[i]} :: 0 <= i < |script| && !script[i].SignedUpdate? ==> Steady(tables[i], tables[i + 1])
      ensures forall i :: 0 <= i < |tables| ==> local !in tables[i]
    {
      tables := [peers];
      for i := 0 to |script|
        invariant Valid() && |tables| == i + 1 && tables[0] == old(peers) && tables[i] == peers
        invariant forall k {:trigger script[k]} :: 0 <= k < i && !script[k].SignedUpdate? ==> Steady(tables[k], tables[k + 1])
        invariant forall k :: 0 <= k < |tables| ==> local !in tables[k]
      {
        Step(script[i]);
        tables := tables + [peers];
      }
    }

    method Step(event: Event)
      requires Valid() && (event.SignedUpdate? ==> CanonicalAll(event.bindings, resolver))
      modifies this
      ensures Valid() && (!event.SignedUpdate? ==> Steady(old(peers), peers) && rootBindings == old(rootBindings))
    {
      match event
      case Sync(info) =>
        var _ := HandleSync(info);
      case Pong(from, info) =>
        var _ := HandlePong(from, info);
      case Ping(failed) => PingPeers(failed);
      case SignedUpdate(bindings) => SetRootBindings(bindings);
      case BootstrapRequest(node) =>
        var _, _ := HandleBootstrap(node);
      case Bootstrap(seeds) =>
        var _ := MergeSeeds(seeds);
    }
  }

  ghost predicate CanonicalAll(bindings: map<Text, Binding>, r: Resolver) {
    forall id :: id in bindings ==> r.Canonical(bindings[id])
  }

  function Count(failures: map<Text, nat>, id: Text): nat { if id in failures then failures[id] else 0 }

  /** The peers whose consecutive failures reach the limit with this round. */
  function Evicted(ids: set<Text>, failures: map<Text, nat>, failed: set<Text>): set<Text> {
    set id | id in ids && id in failed && Count(failures, id) + 1 >= MAX_PING_FAILURES
  }

  /** Part of the way through a round of pings. */
  ghost predicate Counted(ids: set<Text>, counts: map<Text, nat>, failed: set<Text>, todo: set<Text>,
                          failures: map<Text, nat>, evictions: set<Text>) {
    && todo <= ids
    && (forall id :: Count(failures, id) == Count(counts, id) + if id in ids && id !in todo && id in failed then 1 else 0)
    && (forall id :: id in evictions <==> id in Evicted(ids, counts, failed) && id !in todo)
  }

  lemma CountOne(ids: set<Text>, counts: map<Text, nat>, failed: set<Text>, todo: set<Text>, failures: map<Text, nat>,
                 evictions: set<Text>, id: Text)
    requires Counted(ids, counts, failed, todo, failures, evictions) && id in todo
    ensures Count(failures, id) == Count(counts, id)
    ensures
      var next := if id in failed then failures[id := Count(failures, id) + 1] else failures;
      var gone := if id in failed && next[id] >= MAX_PING_FAILURES then evictions + {id} else evictions;
      Counted(ids, counts, failed, todo - {id}, next, gone)
  {
  }

  function ReboundAll(peers: Table, bindings: map<Text, Binding>): Table {
    map id | id in peers :: if id in bindings then Rebound(peers[id], bindings[id]) else peers[id]
  }

  /** A signed update moves the peer, so its earlier failures no longer count. */
  ghost predicate Moved(peers: Table, bindings: map<Text, Binding>, r: Resolver, id: Text) {
    id in peers && id in bindings && r.Origin(peers[id]) != Some(bindings[id].origin)
  }

  ghost predicate Forgiven(before: Table, bindings: map<Text, Binding>, todo: set<Text>, r: Resolver,
                           counts: map<Text, nat>, failures: map<Text, nat>) {
    forall id :: Count(failures, id) == if id !in todo && Moved(before, bindings, r, id) then 0 else Count(counts, id)
  }

  /** Part of the way through a signed update. */
  ghost predicate Rebinding(before: Table, bindings: map<Text, Binding>, todo: set<Text>, peers: Table,
                            pins: map<Text, Binding>) {
    && todo <= bindings.Keys && peers.Keys == before.Keys && pins.Keys == bindings.Keys - todo
    && (forall id :: id in pins ==> pins[id] == bindings[id])
    && (forall id :: id in peers ==>
          peers[id] == if id in bindings && id !in todo then Rebound(before[id], bindings[id]) else before[id])
  }

  lemma ForgiveOne(before: Table, bindings: map<Text, Binding>, todo: set<Text>, r: Resolver, counts: map<Text, nat>,
                   failures: map<Text, nat>, id: Text)
    requires Forgiven(before, bindings, todo, r, counts, failures) && id in todo
    ensures Forgiven(before, bindings, todo - {id}, r, counts,
                     if Moved(before, bindings, r, id) then failures - {id} else failures)
  {
    var next := failures - {id};
    forall k ensures Count(next, k) == if k == id then 0 else Count(failures, k) {
    }
  }

  /** Every entry stands under its own ID with a usable route. */
  ghost predicate Routed(local: Text, peers: Table, r: Resolver) {
    local !in peers && EMPTY !in peers && forall id :: id in peers ==> peers[id].id == id && r.Route(peers[id]).Some?
  }

  lemma RebindOne(before: Table, bindings: map<Text, Binding>, todo: set<Text>, peers: Table, pins: map<Text, Binding>,
                  id: Text)
    requires Rebinding(before, bindings, todo, peers, pins) && id in todo
    ensures id in peers ==> id in before && peers[id] == before[id]
    ensures Rebinding(before, bindings, todo - {id},
                      if id in peers then peers[id := Rebound(peers[id], bindings[id])] else peers, pins[id := bindings[id]])
  {
  }

  lemma ReboundSound(local: Text, before: Table, peers: Table, bindings: map<Text, Binding>, pins: map<Text, Binding>,
                     r: Resolver)
    requires Rebinding(before, bindings, {}, peers, pins) && CanonicalAll(bindings, r)
    requires Routed(local, before, r)
    ensures Sound(local, peers, pins, r) && pins == bindings && peers == ReboundAll(before, bindings)
  {
    forall id | id in peers ensures Entry(id, peers[id], pins, r) {
      if id in bindings { assert r.Canonical(bindings[id]); }
    }
  }
}
