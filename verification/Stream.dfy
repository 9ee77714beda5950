/**
  internal/storage/memory.go and stream.go: an in-memory store with byte accounting and a
  bounded feed of its current contents. Subscriptions are numbered; a channel holds the
  events its reader has not taken yet.
 */
module Stream {
  import opened Wrappers

  const PREVIEW_BYTES := 4096
  const SUBSCRIBERS := 8
  const QUEUE_SIZE := 64
  const SNAPSHOT_BYTES := 4194304
  const SNAPSHOT_ENTRIES := 4096
  const EVENT_BYTES := 16384

  datatype Key = Key(name: string)
  type Bytes = seq<nat>

  datatype Entry = Entry(data: Bytes, created: int, ttl: int, expires: int, revision: nat)

  datatype Preview = Preview(key: Key, payload: Bytes, truncated: bool, size: nat, ttl: int, written: int, expires: int,
                             revision: nat)

  datatype Event = PutEvent(entry: Preview) | ExpireEvent(key: Key, revision: nat)

  /** `closings` counts how often the done channel was closed; a second time would panic. */
  datatype Channel = Channel(queue: seq<Event>, closings: nat)

  /** What the reader of a subscription has got so far. */
  datatype Feed = Feed(snapshot: map<Key, Preview>, delivered: seq<Event>)

  datatype Operation =
    | DoPut(after: nat, key: Key, payload: Bytes, ttl: int)
    | DoCleanup(after: nat)
    | DoSubscribe(after: nat)
    | DoReceive(id: nat)
    | DoUnsubscribe(id: nat)
    | DoClose

  datatype Error = StreamLimit | SnapshotLimit | StoreClosed

  function Clip(n: nat): nat { if n > PREVIEW_BYTES then PREVIEW_BYTES else n }

  /** stream.go:94 */
  function PreviewCost(key: Key, size: nat): nat { |key.name| * 6 + (Clip(size) + 2) / 3 * 4 + 512 }

  /** stream.go:101 */
  function PreviewOf(key: Key, e: Entry): Preview {
    var n := Clip(|e.data|);
    Preview(key, e.data[..n], n < |e.data|, |e.data|, e.ttl, e.created, e.expires, e.revision)
  }

  function EventCost(ev: Event): nat {
    match ev
    case PutEvent(p) => PreviewCost(p.key, |p.payload|)
    case ExpireEvent(key, _) => PreviewCost(key, 0)
  }

  function Previews(data: map<Key, Entry>): map<Key, Preview> { map k | k in data :: PreviewOf(k, data[k]) }

  function StillLive(view: map<Key, Preview>, now: int): map<Key, Preview> {
    map k | k in view && now < view[k].expires :: view[k]
  }

  /** The live contents, as any subscriber should see them. */
  function Live(data: map<Key, Entry>, now: int): map<Key, Preview> { StillLive(Previews(data), now) }

  lemma InLive(data: map<Key, Entry>, now: int, key: Key)
    requires key in data
    ensures key in Live(data, now) <==> now < data[key].expires
    ensures key in Live(data, now) ==> Live(data, now)[key] == PreviewOf(key, data[key])
  {
  }

  lemma PreviewsPut(data: map<Key, Entry>, key: Key, e: Entry)
    ensures Previews(data[key := e]) == Previews(data)[key := PreviewOf(key, e)]
  {
  }

  lemma PreviewsDelete(data: map<Key, Entry>, key: Key)
    ensures Previews(data - {key}) == Previews(data) - {key}
  {
  }

  /** sites/soph.stream/viewer.js:96-114: how a reader folds an event into its view. */
  function Apply(view: map<Key, Preview>, ev: Event): map<Key, Preview> {
    match ev
    case PutEvent(p) => if p.key in view && view[p.key].revision >= p.revision then view else view[p.key := p]
    case ExpireEvent(key, revision) =>
      if key in view && view[key].revision == revision then view - {key} else view
  }

  /** The view after the first `n` events. */
  function Replay(view: map<Key, Preview>, events: seq<Event>, n: nat): map<Key, Preview>
    requires n <= |events|
  {
    if n == 0 then view else Apply(Replay(view, events, n - 1), events[n - 1])
  }

  lemma {:induction false} ReplayPrefix(view: map<Key, Preview>, events: seq<Event>, more: seq<Event>, n: nat)
    requires n <= |events| && events <= more
    ensures Replay(view, more, n) == Replay(view, events, n)
  {
    if n > 0 { ReplayPrefix(view, events, more, n - 1); }
  }

  lemma ReplayOne(view: map<Key, Preview>, events: seq<Event>, ev: Event)
    ensures Replay(view, events + [ev], |events| + 1) == Apply(Replay(view, events, |events|), ev)
  {
    ReplayPrefix(view, events, events + [ev], |events|);
  }

  // Byte accounting.

  ghost function Sum(m: map<Key, nat>): nat {
    if m == map[] then 0
    else
      var k :| k in m;
      m[k] + Sum(m - {k})
  }

  lemma {:induction false} SumWithout(m: map<Key, nat>, k: Key)
    requires k in m
    ensures Sum(m) == m[k] + Sum(m - {k})
    decreases |m|
  {
    var x :| x in m && Sum(m) == m[x] + Sum(m - {x});
    if x != k {
      SumWithout(m - {x}, k);
      SumWithout(m - {k}, x);
      assert m - {x} - {k} == m - {k} - {x};
    }
  }

  lemma {:induction false} SumSubset(part: map<Key, nat>, m: map<Key, nat>)
    requires forall k :: k in part ==> k in m && m[k] == part[k]
    ensures Sum(part) <= Sum(m)
    decreases |part|
  {
    if part != map[] {
      var k :| k in part;
      SumWithout(part, k);
      SumWithout(m, k);
      SumSubset(part - {k}, m - {k});
    }
  }

  ghost function Sizes(data: map<Key, Entry>): map<Key, nat> { map k | k in data :: |data[k].data| }

  ghost function TotalBytes(data: map<Key, Entry>): nat { Sum(Sizes(data)) }

  function SizeOf(data: map<Key, Entry>, key: Key): nat { if key in data then |data[key].data| else 0 }

  lemma BytesAfterPut(data: map<Key, Entry>, key: Key, e: Entry)
    ensures TotalBytes(data[key := e]) == TotalBytes(data) - SizeOf(data, key) + |e.data|
  {
    var next := data[key := e];
    SumWithout(Sizes(next), key);
    assert Sizes(next) - {key} == Sizes(data) - {key};
    if key in data {
      SumWithout(Sizes(data), key);
    } else {
      assert Sizes(data) - {key} == Sizes(data);
    }
  }

  lemma BytesAfterDelete(data: map<Key, Entry>, key: Key)
    requires key in data
    ensures TotalBytes(data - {key}) == TotalBytes(data) - |data[key].data|
  {
    SumWithout(Sizes(data), key);
    assert Sizes(data - {key}) == Sizes(data) - {key};
  }

  // The feed of one subscriber.

  /** Two views show the same live entries, now and so at every later time. */
  ghost predicate Agrees(view: map<Key, Preview>, shown: map<Key, Preview>, now: int, sequence: nat) {
    StillLive(view, now) == StillLive(shown, now) && Before(view, sequence)
  }

  ghost predicate Before(view: map<Key, Preview>, sequence: nat) { forall k :: k in view ==> view[k].revision <= sequence }

  lemma AgreesLater(view: map<Key, Preview>, shown: map<Key, Preview>, now: int, sequence: nat, later: int)
    requires Agrees(view, shown, now, sequence) && now <= later
    ensures Agrees(view, shown, later, sequence)
  {
    forall v | v in {view, shown} ensures StillLive(v, later) == StillLive(StillLive(v, now), later) {
    }
  }

  lemma PutAgrees(view: map<Key, Preview>, shown: map<Key, Preview>, now: int, sequence: nat, p: Preview)
    requires Agrees(view, shown, now, sequence) && p.revision == sequence + 1
    ensures Agrees(Apply(view, PutEvent(p)), shown[p.key := p], now, sequence + 1)
  {
    assert Apply(view, PutEvent(p)) == view[p.key := p];
    forall v | v in {view, shown}
      ensures StillLive(v[p.key := p], now) ==
        if now < p.expires then StillLive(v, now)[p.key := p] else StillLive(v, now) - {p.key}
    {
    }
  }

  lemma ExpireAgrees(view: map<Key, Preview>, shown: map<Key, Preview>, now: int, sequence: nat, key: Key)
    requires Agrees(view, shown, now, sequence) && key in shown && now >= shown[key].expires
    ensures Agrees(Apply(view, ExpireEvent(key, shown[key].revision)), shown - {key}, now, sequence)
  {
    assert key !in StillLive(shown, now) && key !in StillLive(view, now);
    assert StillLive(shown - {key}, now) == StillLive(shown, now);
    assert StillLive(view - {key}, now) == StillLive(view, now);
  }

  lemma SnapshotAgrees(shown: map<Key, Preview>, now: int, sequence: nat)
    requires Before(shown, sequence)
    ensures Agrees(StillLive(shown, now), shown, now, sequence)
  {
    assert StillLive(StillLive(shown, now), now) == StillLive(shown, now);
  }

  // Sending to all subscribers.

  predicate Fits(ch: Channel, ev: Event) { EventCost(ev) <= EVENT_BYTES && |ch.queue| < QUEUE_SIZE }

  function Sent(ch: Channel, ev: Event): Channel {
    if Fits(ch, ev) then ch.(queue := ch.queue + [ev]) else Dropped(ch)
  }

  function Dropped(ch: Channel): Channel { ch.(closings := ch.closings + 1) }

  /** Bounded queues, a bounded number of subscribers, and done is closed once, exactly for those not registered. */
  ghost predicate WellFormed(channels: map<nat, Channel>, subscribers: set<nat>) {
    && subscribers <= channels.Keys && |subscribers| <= SUBSCRIBERS
    && forall id :: id in channels ==> WellKept(channels[id], id in subscribers)
  }

  ghost predicate WellKept(ch: Channel, registered: bool) {
    |ch.queue| <= QUEUE_SIZE && ch.closings <= 1 && (registered <==> ch.closings == 0)
  }

  /** Every registered subscriber got the event or was dropped; no one else noticed. */
  ghost predicate Published(channels: map<nat, Channel>, subscribers: set<nat>, channels': map<nat, Channel>,
                            subscribers': set<nat>, ev: Event) {
    && subscribers <= channels.Keys && channels'.Keys == channels.Keys
    && (forall id :: id in channels ==> channels'[id] == if id in subscribers then Sent(channels[id], ev) else channels[id])
    && (forall id :: id in subscribers' <==> id in subscribers && Fits(channels[id], ev))
  }

  /** Part of the way through the subscribers. */
  ghost predicate Publishing(before: map<nat, Channel>, members: set<nat>, todo: set<nat>, channels: map<nat, Channel>,
                             subscribers: set<nat>, ev: Event) {
    && todo <= members && members <= before.Keys && channels.Keys == before.Keys
    && (forall id :: id in channels ==>
          channels[id] == if id in members && id !in todo then Sent(before[id], ev) else before[id])
    && (forall id :: id in subscribers <==> id in todo || (id in members && Fits(before[id], ev)))
  }

  lemma PublishOne(before: map<nat, Channel>, members: set<nat>, todo: set<nat>, channels: map<nat, Channel>,
                   subscribers: set<nat>, ev: Event, id: nat)
    requires Publishing(before, members, todo, channels, subscribers, ev) && id in todo
    ensures id in channels && id in subscribers && channels[id] == before[id]
    ensures Publishing(before, members, todo - {id}, channels[id := Sent(channels[id], ev)],
                       if Fits(channels[id], ev) then subscribers else subscribers - {id}, ev)
  {
  }

  lemma PublishedWell(channels: map<nat, Channel>, subscribers: set<nat>, channels': map<nat, Channel>,
                      subscribers': set<nat>, ev: Event)
    requires WellFormed(channels, subscribers) && Published(channels, subscribers, channels', subscribers', ev)
    ensures WellFormed(channels', subscribers')
  {
    FewerMembers(subscribers', subscribers);
    forall id | id in channels' ensures WellKept(channels'[id], id in subscribers') {
      assert WellKept(channels[id], id in subscribers);
    }
  }

  /** What being in step is for: whenever it looks, a registered reader shows exactly the live entries. */
  lemma FeedShowsStore(feeds: map<nat, Feed>, channels: map<nat, Channel>, subscribers: set<nat>, data: map<Key, Entry>,
                       clock: int, sequence: nat, id: nat, now: int)
    requires InStep(feeds, channels, subscribers, Previews(data), clock, sequence) && id in subscribers && clock <= now
    ensures StillLive(Seen(feeds[id], channels[id]), now) == Live(data, now)
  {
    AgreesLater(Seen(feeds[id], channels[id]), Previews(data), clock, sequence, now);
  }

  lemma FewerMembers(few: set<nat>, many: set<nat>)
    requires few <= many
    ensures |few| <= |many|
  {
    assert many == few + (many - few);
    assert |many| == |few| + |many - few|;
  }

  /** What the reader of a subscription will have seen once it has taken everything queued. */
  function Seen(feed: Feed, ch: Channel): map<Key, Preview> {
    Replay(feed.snapshot, feed.delivered + ch.queue, |feed.delivered| + |ch.queue|)
  }

  /** Every registered subscriber's snapshot, taken and queued events add up to the store's contents. */
  ghost predicate InStep(feeds: map<nat, Feed>, channels: map<nat, Channel>, subscribers: set<nat>,
                         shown: map<Key, Preview>, now: int, sequence: nat) {
    && feeds.Keys == channels.Keys && subscribers <= channels.Keys
    && forall id :: id in subscribers ==> Agrees(Seen(feeds[id], channels[id]), shown, now, sequence)
  }

  lemma SeenOneMore(feed: Feed, ch: Channel, ev: Event)
    requires Fits(ch, ev)
    ensures Seen(feed, Sent(ch, ev)) == Apply(Seen(feed, ch), ev)
  {
    assert feed.delivered + (ch.queue + [ev]) == (feed.delivered + ch.queue) + [ev];
    ReplayOne(feed.snapshot, feed.delivered + ch.queue, ev);
  }

  lemma PutInStep(feeds: map<nat, Feed>, channels: map<nat, Channel>, subscribers: set<nat>, channels': map<nat, Channel>,
                  subscribers': set<nat>, shown: map<Key, Preview>, clock: int, now: int, sequence: nat, p: Preview)
    requires InStep(feeds, channels, subscribers, shown, clock, sequence) && clock <= now && p.revision == sequence + 1
    requires Published(channels, subscribers, channels', subscribers', PutEvent(p))
    ensures InStep(feeds, channels', subscribers', shown[p.key := p], now, sequence + 1)
  {
    forall id | id in subscribers' ensures Agrees(Seen(feeds[id], channels'[id]), shown[p.key := p], now, sequence + 1) {
      SeenOneMore(feeds[id], channels[id], PutEvent(p));
      AgreesLater(Seen(feeds[id], channels[id]), shown, clock, sequence, now);
      PutAgrees(Seen(feeds[id], channels[id]), shown, now, sequence, p);
    }
  }

  lemma ExpireInStep(feeds: map<nat, Feed>, channels: map<nat, Channel>, subscribers: set<nat>,
                     channels': map<nat, Channel>, subscribers': set<nat>, shown: map<Key, Preview>,
                     shown': map<Key, Preview>, now: int, sequence: nat, key: Key, ev: Event)
    requires InStep(feeds, channels, subscribers, shown, now, sequence) && key in shown && now >= shown[key].expires
    requires ev == ExpireEvent(key, shown[key].revision) && shown' == shown - {key}
    requires Published(channels, subscribers, channels', subscribers', ev)
    ensures InStep(feeds, channels', subscribers', shown', now, sequence)
  {
    forall id | id in subscribers' ensures Agrees(Seen(feeds[id], channels'[id]), shown', now, sequence) {
      SeenOneMore(feeds[id], channels[id], ev);
      ExpireAgrees(Seen(feeds[id], channels[id]), shown, now, sequence, key);
    }
  }

  lemma LaterInStep(feeds: map<nat, Feed>, channels: map<nat, Channel>, subscribers: set<nat>, shown: map<Key, Preview>,
                    clock: int, now: int, sequence: nat)
    requires InStep(feeds, channels, subscribers, shown, clock, sequence) && clock <= now
    ensures InStep(feeds, channels, subscribers, shown, now, sequence)
  {
    forall id | id in subscribers ensures Agrees(Seen(feeds[id], channels[id]), shown, now, sequence) {
      AgreesLater(Seen(feeds[id], channels[id]), shown, clock, sequence, now);
    }
  }

  ghost predicate Accounted(data: map<Key, Entry>, currentBytes: int, maxBytes: int, sequence: nat) {
    && currentBytes == TotalBytes(data) && (maxBytes > 0 ==> currentBytes <= maxBytes)
    && (forall k :: k in data ==> data[k].revision <= sequence)
  }

  lemma PutAccounted(data: map<Key, Entry>, currentBytes: int, maxBytes: int, sequence: nat, key: Key, e: Entry)
    requires Accounted(data, currentBytes, maxBytes, sequence) && e.revision == sequence + 1
    requires maxBytes > 0 ==> currentBytes - SizeOf(data, key) + |e.data| <= maxBytes
    ensures Accounted(data[key := e], currentBytes - SizeOf(data, key) + |e.data|, maxBytes, sequence + 1)
  {
    BytesAfterPut(data, key, e);
  }

  lemma DeleteAccounted(data: map<Key, Entry>, currentBytes: int, maxBytes: int, sequence: nat, key: Key)
    requires Accounted(data, currentBytes, maxBytes, sequence) && key in data
    ensures Accounted(data - {key}, currentBytes - |data[key].data|, maxBytes, sequence)
  {
    BytesAfterDelete(data, key);
  }

  class MemoryStore {
    const maxBytes: int // no limit unless positive
    var data: map<Key, Entry>
    var currentBytes: int
    var clock: int      // the latest time the store has read
    var sequence: nat
    var channels: map<nat, Channel>
    var subscribers: set<nat>
    var closed: bool
    ghost var feeds: map<nat, Feed>

    ghost predicate Valid()
      reads this
    {
      && Accounted(data, currentBytes, maxBytes, sequence)
      && WellFormed(channels, subscribers) && (closed ==> subscribers == {})
      && InStep(feeds, channels, subscribers, Previews(data), clock, sequence)
    }

    constructor (maxBytes: int, now: int)
      ensures Valid() && data == map[] && subscribers == {} && !closed && this.maxBytes == maxBytes && clock == now
    {
      this.maxBytes, data, currentBytes, clock, sequence := maxBytes, map[], 0, now, 0;
      channels, subscribers, closed, feeds := map[], {}, false, map[];
    }

    /** stream.go:126 */
    method Drop(id: nat)
      requires id in subscribers && id in channels
      modifies this`subscribers, this`channels
      ensures subscribers == old(subscribers) - {id}
      ensures channels == old(channels)[id := Dropped(old(channels)[id])]
    {
      subscribers := subscribers - {id};
      channels := channels[id := Dropped(channels[id])];
    }

    /** stream.go:112 */
    method Publish(ev: Event)
      requires WellFormed(channels, subscribers)
      modifies this`subscribers, this`channels
      ensures WellFormed(channels, subscribers)
      ensures Published(old(channels), old(subscribers), channels, subscribers, ev)
    {
      ghost var before, members := channels, subscribers;
      var todo := subscribers;
      while todo != {}
        invariant Publishing(before, members, todo, channels, subscribers, ev)
        decreases |todo|
      {
        var id :| id in todo;
        PublishOne(before, members, todo, channels, subscribers, ev, id);
        todo := todo - {id};
        if EventCost(ev) > EVENT_BYTES {
          Drop(id);
        } else if |channels[id].queue| < QUEUE_SIZE {
          channels := channels[id := channels[id].(queue := channels[id].queue + [ev])];
        } else {
          Drop(id);
        }
      }
      PublishedWell(before, members, channels, subscribers, ev);
    }

    /** memory.go:47 */
    method Put(key: Key, payload: Bytes, ttl: int, now: int) returns (ok: bool)
      requires Valid() && clock <= now
      modifies this
      ensures Valid() && closed == old(closed)
      ensures ok <==> !(maxBytes > 0 && old(currentBytes) - SizeOf(old(data), key) + |payload| > maxBytes)
      ensures ok ==> clock == now && data == old(data)[key := Entry(payload, now, ttl, now + ttl, old(sequence) + 1)]
      ensures !ok ==> data == old(data) && channels == old(channels) && subscribers == old(subscribers)
      ensures ok ==> Published(old(channels), old(subscribers), channels, subscribers, PutEvent(PreviewOf(key, data[key])))
    {
      var oldSize := SizeOf(data, key);
      if maxBytes > 0 && currentBytes - oldSize + |payload| > maxBytes { return false; }
      Accept(key, Entry(payload, now, ttl, now + ttl, sequence + 1), now);
      return true;
    }

    /** memory.go:61-79: a write that is within capacity. */
    method Accept(key: Key, e: Entry, now: int)
      requires Valid() && clock <= now && e.revision == sequence + 1
      requires maxBytes > 0 ==> currentBytes - SizeOf(data, key) + |e.data| <= maxBytes
      modifies this`data, this`currentBytes, this`sequence, this`clock, this`channels, this`subscribers
      ensures Valid() && clock == now && data == old(data)[key := e]
      ensures Published(old(channels), old(subscribers), channels, subscribers, PutEvent(PreviewOf(key, e)))
    {
      ghost var shown, at, n := Previews(data), clock, sequence;
      ghost var fed, ids, queues := feeds, subscribers, channels;
      assert InStep(fed, queues, ids, shown, at, n);
      Keep(key, e, now);
      ghost var after := Previews(data);
      Announce(PutEvent(PreviewOf(key, e)));
      PutInStep(fed, queues, ids, channels, subscribers, shown, at, now, n, PreviewOf(key, e));
      assert InStep(feeds, channels, subscribers, after, clock, sequence);
    }

    /** memory.go:65-75 */
    method Keep(key: Key, e: Entry, now: int)
      requires Accounted(data, currentBytes, maxBytes, sequence) && e.revision == sequence + 1
      requires maxBytes > 0 ==> currentBytes - SizeOf(data, key) + |e.data| <= maxBytes
      modifies this`data, this`currentBytes, this`sequence, this`clock
      ensures Accounted(data, currentBytes, maxBytes, sequence)
      ensures data == old(data)[key := e] && sequence == old(sequence) + 1 && clock == now
      ensures Previews(data) == Previews(old(data))[key := PreviewOf(key, e)]
    {
      PutAccounted(data, currentBytes, maxBytes, sequence, key, e);
      PreviewsPut(data, key, e);
      currentBytes := currentBytes - SizeOf(data, key) + |e.data|;
      clock, sequence, data := now, sequence + 1, data[key := e];
    }

    /** memory.go:76-78 */
    method Announce(ev: Event)
      requires WellFormed(channels, subscribers)
      modifies this`subscribers, this`channels
      ensures WellFormed(channels, subscribers)
      ensures Published(old(channels), old(subscribers), channels, subscribers, ev)
    {
      if subscribers != {} {
        Publish(ev);
      }
    }

    /** memory.go:83 */
    method Get(key: Key, now: int) returns (found: bool, payload: Bytes)
      requires Valid() && clock <= now
      ensures found <==> key in Live(data, now)
      ensures found ==> payload == data[key].data
    {
      if key !in data || now >= data[key].expires { return false, []; }
      return true, data[key].data;
    }

    /** memory.go:133 */
    method CleanupExpired(now: int)
      requires Valid() && clock <= now
      modifies this
      ensures Valid() && clock == now && closed == old(closed)
      ensures data == LiveEntries(old(data), now) && subscribers <= old(subscribers)
      ensures Announced(old(data), now, {}, channels, subscribers)
    {
      ghost var was, members := data, subscribers;
      LaterInStep(feeds, channels, subscribers, Previews(data), clock, now, sequence);
      clock := now;
      var todo := data.Keys;
      while todo != {}
        invariant Valid() && clock == now && closed == old(closed)
        invariant subscribers <= members && Swept(was, data, todo, now) && Announced(was, now, todo, channels, subscribers)
        decreases |todo|
      {
        var k :| k in todo;
        SweepOne(was, data, todo, now, k);
        ghost var ids, queues := subscribers, channels;
        if now >= data[k].expires {
          Expire(k);
          AnnounceOne(was, now, todo, queues, ids, channels, subscribers, k);
        }
        todo := todo - {k};
      }
      SweptAll(was, data, now);
    }

    /** memory.go:139-143: one expired entry. */
    method Expire(key: Key)
      requires Valid() && key in data && clock >= data[key].expires
      modifies this`data, this`currentBytes, this`channels, this`subscribers
      ensures Valid() && data == old(data) - {key} && subscribers <= old(subscribers)
      ensures Published(old(channels), old(subscribers), channels, subscribers, ExpireEvent(key, old(data)[key].revision))
    {
      var ev := ExpireEvent(key, data[key].revision);
      ghost var shown := Previews(data);
      assert shown[key] == PreviewOf(key, data[key]);
      Forget(key);
      TellExpired(key, ev, shown);
    }

    method TellExpired(key: Key, ev: Event, ghost shown: map<Key, Preview>)
      requires WellFormed(channels, subscribers) && InStep(feeds, channels, subscribers, shown, clock, sequence)
      requires key in shown && clock >= shown[key].expires && ev == ExpireEvent(key, shown[key].revision)
      modifies this`channels, this`subscribers
      ensures WellFormed(channels, subscribers) && InStep(feeds, channels, subscribers, shown - {key}, clock, sequence)
      ensures Published(old(channels), old(subscribers), channels, subscribers, ev)
    {
      ghost var ids, queues := subscribers, channels;
      Publish(ev);
      ExpireInStep(feeds, queues, ids, channels, subscribers, shown, shown - {key}, clock, sequence, key, ev);
    }

    /** memory.go:140-141 */
    method Forget(key: Key)
      requires Accounted(data, currentBytes, maxBytes, sequence) && key in data
      modifies this`data, this`currentBytes
      ensures Accounted(data, currentBytes, maxBytes, sequence) && data == old(data) - {key}
      ensures Previews(data) == Previews(old(data)) - {key}
    {
      DeleteAccounted(data, currentBytes, maxBytes, sequence, key);
      PreviewsDelete(data, key);
      currentBytes := currentBytes - |data[key].data|;
      data := data - {key};
    }

    /** stream.go:66 - the snapshot and the registration are one step. */
    method Subscribe(now: int) returns (r: Result<seq<Preview>, Error>, id: nat)
      requires Valid() && clock <= now
      modifies this
      ensures Valid() && data == old(data) && closed == old(closed)
      ensures r.Ok? ==> clock == now && id !in old(channels) && subscribers == old(subscribers) + {id}
      ensures r.Ok? ==> Lists(r.value, Live(data, now)) && id in feeds && feeds[id] == Feed(Live(data, now), [])
      ensures r.Err? ==> channels == old(channels) && subscribers == old(subscribers)
      ensures r == Err(StoreClosed) <==> closed
      ensures r == Err(StreamLimit) <==> !closed && |old(subscribers)| >= SUBSCRIBERS
      ensures r == Err(SnapshotLimit) <==> !closed && |old(subscribers)| < SUBSCRIBERS && TooLarge(data, now)
    {
      id := 0;
      if closed { return Err(StoreClosed), id; }
      if |subscribers| >= SUBSCRIBERS { return Err(StreamLimit), id; }
      r := TakeSnapshot(data, now);
      if r.Err? { return; }
      id := NewChannel();
      Register(id, now);
    }

    method Register(id: nat, now: int)
      requires Valid() && clock <= now && id !in channels && !closed && |subscribers| < SUBSCRIBERS
      modifies this`clock, this`channels, this`subscribers, this`feeds
      ensures Valid() && clock == now && subscribers == old(subscribers) + {id}
      ensures id in feeds && feeds[id] == Feed(Live(data, now), [])
    {
      LaterInStep(feeds, channels, subscribers, Previews(data), clock, now, sequence);
      Registered(feeds, channels, subscribers, Previews(data), now, sequence, id);
      clock := now;
      channels, subscribers := channels[id := Channel([], 0)], subscribers + {id};
      feeds := feeds[id := Feed(Live(data, now), [])];
    }

    method NewChannel() returns (id: nat)
      ensures id !in channels
    {
      id := 0;
      var seen: set<nat> := {};
      while id in channels
        invariant forall k :: k in seen <==> 0 <= k < id
        invariant seen <= channels.Keys
        decreases channels.Keys - seen
      {
        seen := seen + {id};
        id := id + 1;
      }
    }

    /** stream.go:55 */
    method CloseSubscription(id: nat)
      requires Valid()
      modifies this`subscribers, this`channels
      ensures Valid() && subscribers == old(subscribers) - {id}
    {
      if id in subscribers {
        ghost var ids, queues := subscribers, channels;
        Drop(id);
        DroppedOne(feeds, queues, ids, id, Previews(data), clock, sequence);
      }
    }

    /** The reader takes the next event; it may still do so after it was dropped. */
    method Receive(id: nat) returns (ev: Event)
      requires Valid() && id in channels && channels[id].queue != []
      modifies this`channels, this`feeds
      ensures Valid() && ev == old(channels)[id].queue[0]
      ensures channels == old(channels)[id := old(channels)[id].(queue := old(channels)[id].queue[1..])]
      ensures feeds == old(feeds)[id := old(feeds)[id].(delivered := old(feeds)[id].delivered + [ev])]
    {
      ghost var fed, queues := feeds, channels;
      ev := channels[id].queue[0];
      feeds := feeds[id := feeds[id].(delivered := feeds[id].delivered + [ev])];
      channels := channels[id := channels[id].(queue := channels[id].queue[1..])];
      Received(fed, queues, subscribers, id, Previews(data), clock, sequence);
    }

    /** Everything that can happen to the store, each operation some time after the one before. */
    method Run(script: seq<Operation>)
      requires Valid()
      modifies this
      ensures Valid()
    {
      for i := 0 to |script|
        invariant Valid()
      {
        match script[i] {
          case DoPut(after, key, payload, ttl) =>
            var _ := Put(key, payload, ttl, clock + after);
          case DoCleanup(after) => CleanupExpired(clock + after);
          case DoSubscribe(after) =>
            var _, _ := Subscribe(clock + after);
          case DoReceive(id) =>
            if id in channels && channels[id].queue != [] {
              var _ := Receive(id);
            }
          case DoUnsubscribe(id) => CloseSubscription(id);
          case DoClose => Close();
        }
      }
    }

    /** memory.go:147 */
    method Close()
      requires Valid()
      modifies this`closed, this`subscribers, this`channels
      ensures Valid() && closed && subscribers == {}
      ensures forall id :: id in old(subscribers) ==> id in channels && channels[id].closings == 1
    {
      if closed { return; }
      closed := true;
      while subscribers != {}
        invariant WellFormed(channels, subscribers) && InStep(feeds, channels, subscribers, Previews(data), clock, sequence)
        invariant closed && channels.Keys == old(channels.Keys)
        decreases |subscribers|
      {
        var id :| id in subscribers;
        ghost var ids, queues := subscribers, channels;
        Drop(id);
        DroppedOne(feeds, queues, ids, id, Previews(data), clock, sequence);
      }
      assert forall id :: id in old(subscribers) ==> id in channels && WellKept(channels[id], id in subscribers);
    }
  }

  /** Part of the way through an expiry sweep. */
  ghost predicate Swept(before: map<Key, Entry>, data: map<Key, Entry>, todo: set<Key>, now: int) {
    && todo <= data.Keys
    && (forall k :: k in data ==> k in before && data[k] == before[k])
    && (forall k :: k in before && (k in todo || now < before[k].expires) ==> k in data)
    && (forall k :: k in data && k !in todo ==> now < data[k].expires)
  }

  /** Every reader that is still registered was told of each expired entry that is no longer to do. */
  ghost predicate Announced(before: map<Key, Entry>, now: int, todo: set<Key>, channels: map<nat, Channel>,
                            subscribers: set<nat>) {
    forall id, k :: id in subscribers && k in before && k !in todo && now >= before[k].expires ==>
      id in channels && ExpireEvent(k, before[k].revision) in channels[id].queue
  }

  lemma AnnounceOne(before: map<Key, Entry>, now: int, todo: set<Key>, channels: map<nat, Channel>, subscribers: set<nat>,
                    channels': map<nat, Channel>, subscribers': set<nat>, key: Key)
    requires Announced(before, now, todo, channels, subscribers) && key in before
    requires Published(channels, subscribers, channels', subscribers', ExpireEvent(key, before[key].revision))
    ensures Announced(before, now, todo - {key}, channels', subscribers')
  {
    forall id, k | id in subscribers' && k in before && k !in todo - {key} && now >= before[k].expires
      ensures id in channels' && ExpireEvent(k, before[k].revision) in channels'[id].queue
    {
      assert channels'[id].queue == channels[id].queue + [ExpireEvent(key, before[key].revision)];
    }
  }

  function LiveEntries(data: map<Key, Entry>, now: int): map<Key, Entry> {
    map k | k in data && now < data[k].expires :: data[k]
  }

  lemma SweptAll(before: map<Key, Entry>, data: map<Key, Entry>, now: int)
    requires Swept(before, data, {}, now)
    ensures data == LiveEntries(before, now)
  {
  }

  lemma SweepOne(before: map<Key, Entry>, data: map<Key, Entry>, todo: set<Key>, now: int, k: Key)
    requires Swept(before, data, todo, now) && k in todo
    ensures k in data && Swept(before, if now >= data[k].expires then data - {k} else data, todo - {k}, now)
  {
  }

  lemma Registered(feeds: map<nat, Feed>, channels: map<nat, Channel>, subscribers: set<nat>, shown: map<Key, Preview>,
                   now: int, sequence: nat, id: nat)
    requires WellFormed(channels, subscribers) && InStep(feeds, channels, subscribers, shown, now, sequence)
    requires id !in channels && |subscribers| < SUBSCRIBERS && Before(shown, sequence)
    ensures WellFormed(channels[id := Channel([], 0)], subscribers + {id})
    ensures InStep(feeds[id := Feed(StillLive(shown, now), [])], channels[id := Channel([], 0)], subscribers + {id}, shown, now,
                   sequence)
  {
    SnapshotAgrees(shown, now, sequence);
    var channels' := channels[id := Channel([], 0)];
    assert Seen(Feed(StillLive(shown, now), []), channels'[id]) == StillLive(shown, now);
    forall k | k in channels' ensures WellKept(channels'[k], k in subscribers + {id}) {
      if k != id { assert WellKept(channels[k], k in subscribers); }
    }
  }

  lemma DroppedOne(feeds: map<nat, Feed>, channels: map<nat, Channel>, subscribers: set<nat>, id: nat,
                   shown: map<Key, Preview>, now: int, sequence: nat)
    requires WellFormed(channels, subscribers) && InStep(feeds, channels, subscribers, shown, now, sequence)
    requires id in subscribers
    ensures WellFormed(channels[id := Dropped(channels[id])], subscribers - {id})
    ensures InStep(feeds, channels[id := Dropped(channels[id])], subscribers - {id}, shown, now, sequence)
  {
    FewerMembers(subscribers - {id}, subscribers);
    var channels' := channels[id := Dropped(channels[id])];
    forall k | k in channels' ensures WellKept(channels'[k], k in subscribers - {id}) {
      assert WellKept(channels[k], k in subscribers);
    }
  }

  lemma Received(feeds: map<nat, Feed>, channels: map<nat, Channel>, subscribers: set<nat>, id: nat,
                 shown: map<Key, Preview>, now: int, sequence: nat)
    requires WellFormed(channels, subscribers) && InStep(feeds, channels, subscribers, shown, now, sequence)
    requires id in channels && channels[id].queue != []
    ensures var ch, feed := channels[id], feeds[id];
      var channels', feeds' := channels[id := ch.(queue := ch.queue[1..])],
                               feeds[id := feed.(delivered := feed.delivered + [ch.queue[0]])];
      WellFormed(channels', subscribers) && InStep(feeds', channels', subscribers, shown, now, sequence)
  {
    var ch, feed := channels[id], feeds[id];
    var channels' := channels[id := ch.(queue := ch.queue[1..])];
    assert WellKept(ch, id in subscribers);
    assert (feed.delivered + [ch.queue[0]]) + ch.queue[1..] == feed.delivered + ch.queue;
    forall k | k in channels' ensures WellKept(channels'[k], k in subscribers) {
      assert WellKept(channels[k], k in subscribers);
    }
  }

  // Snapshots.

  ghost function Costs(view: map<Key, Preview>): map<Key, nat> { map k | k in view :: PreviewCost(k, view[k].size) }

  ghost predicate Affordable(view: map<Key, Preview>) {
    && (forall k :: k in view ==> PreviewCost(k, view[k].size) <= EVENT_BYTES)
    && Sum(Costs(view)) <= SNAPSHOT_BYTES && |view| <= SNAPSHOT_ENTRIES
  }

  /** A snapshot is refused when one entry, their number or their total is over its limit. */
  ghost predicate TooLarge(data: map<Key, Entry>, now: int) { !Affordable(Live(data, now)) }

  ghost predicate Gathered(live: map<Key, Preview>, done: map<Key, Preview>, todo: set<Key>) {
    && (forall k :: k in done ==> k in live && done[k] == live[k] && k !in todo)
    && (forall k :: k in live ==> k in done || k in todo)
  }

  lemma GatherOne(live: map<Key, Preview>, done: map<Key, Preview>, todo: set<Key>, p: Preview)
    requires Gathered(live, done, todo) && p.key in todo && p.key in live && live[p.key] == p
    ensures Gathered(live, done[p.key := p], todo - {p.key})
  {
  }

  lemma GatherNone(live: map<Key, Preview>, done: map<Key, Preview>, todo: set<Key>, key: Key)
    requires Gathered(live, done, todo) && key !in live
    ensures Gathered(live, done, todo - {key})
  {
  }

  lemma AllGathered(live: map<Key, Preview>, done: map<Key, Preview>)
    requires Gathered(live, done, {})
    ensures done == live
  {
  }

  lemma CostOfOne(done: map<Key, Preview>, p: Preview)
    requires p.key !in done
    ensures Sum(Costs(done[p.key := p])) == Sum(Costs(done)) + PreviewCost(p.key, p.size)
    ensures |done[p.key := p]| == |done| + 1
  {
    SumWithout(Costs(done[p.key := p]), p.key);
    assert Costs(done[p.key := p]) - {p.key} == Costs(done);
    assert done[p.key := p].Keys == done.Keys + {p.key};
  }

  ghost predicate Taken(done: map<Key, Preview>, entries: seq<Preview>, budget: nat) {
    Lists(entries, done) && |entries| == |done| && budget == Sum(Costs(done)) && Affordable(done)
  }

  lemma TakeOne(done: map<Key, Preview>, entries: seq<Preview>, budget: nat, p: Preview)
    requires Taken(done, entries, budget) && p.key !in done
    requires PreviewCost(p.key, p.size) <= EVENT_BYTES && budget + PreviewCost(p.key, p.size) <= SNAPSHOT_BYTES
    requires |entries| < SNAPSHOT_ENTRIES
    ensures Taken(done[p.key := p], entries + [p], budget + PreviewCost(p.key, p.size))
  {
    CostOfOne(done, p);
    ListsOne(entries, done, p);
  }

  lemma Unaffordable(live: map<Key, Preview>, done: map<Key, Preview>, p: Preview)
    requires p.key !in done && p.key in live && live[p.key] == p && forall k :: k in done ==> k in live && done[k] == live[k]
    requires PreviewCost(p.key, p.size) > EVENT_BYTES || Sum(Costs(done)) + PreviewCost(p.key, p.size) > SNAPSHOT_BYTES ||
             |done| >= SNAPSHOT_ENTRIES
    ensures !Affordable(live)
  {
    var some := done[p.key := p];
    CostOfOne(done, p);
    SumSubset(Costs(some), Costs(live));
    assert live.Keys == some.Keys + (live.Keys - some.Keys);
    assert |live.Keys| == |some.Keys| + |live.Keys - some.Keys|;
  }

  /** The list holds every entry of the view exactly once. */
  ghost predicate Lists(entries: seq<Preview>, view: map<Key, Preview>) {
    && (forall p :: p in entries ==> p.key in view && view[p.key] == p)
    && (forall k :: k in view ==> view[k] in entries)
    && (forall i, j :: 0 <= i < j < |entries| ==> entries[i].key != entries[j].key)
  }

  lemma ListsOne(entries: seq<Preview>, done: map<Key, Preview>, p: Preview)
    requires Lists(entries, done) && p.key !in done
    ensures Lists(entries + [p], done[p.key := p])
  {
    var more, wide := entries + [p], done[p.key := p];
    forall k | k in wide ensures wide[k] in more {
      if k == p.key {
        assert more[|entries|] == wide[k];
      } else {
        assert done[k] in entries;
      }
    }
    forall i, j | 0 <= i < j < |more| ensures more[i].key != more[j].key {
      assert more[i] in entries;
      if j < |entries| { assert entries[j] == more[j]; }
    }
  }

  /** stream.go:76-90 */
  method TakeSnapshot(data: map<Key, Entry>, now: int) returns (r: Result<seq<Preview>, Error>)
    ensures r.Ok? ==> Lists(r.value, Live(data, now)) && !TooLarge(data, now)
    ensures r.Err? ==> r.error == SnapshotLimit && TooLarge(data, now)
  {
    var entries: seq<Preview> := [];
    var budget: nat := 0;
    var todo := data.Keys;
    ghost var live, done: map<Key, Preview> := Live(data, now), map[];
    while todo != {}
      invariant todo <= data.Keys && Gathered(live, done, todo) && Taken(done, entries, budget)
      decreases |todo|
    {
      var key :| key in todo;
      InLive(data, now, key);
      if now < data[key].expires {
        var p := PreviewOf(key, data[key]);
        var size := PreviewCost(key, |data[key].data|);
        budget := budget + size;
        if size > EVENT_BYTES || budget > SNAPSHOT_BYTES || |entries| >= SNAPSHOT_ENTRIES {
          Unaffordable(live, done, p);
          return Err(SnapshotLimit);
        }
        TakeOne(done, entries, budget - size, p);
        GatherOne(live, done, todo, p);
        entries := entries + [p];
        done := done[key := p];
      } else {
        GatherNone(live, done, todo, key);
      }
      todo := todo - {key};
    }
    AllGathered(live, done);
    r := Ok(entries);
  }
}
