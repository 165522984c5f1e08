/** UDP messages: cut into parts by the sender, put together again by the receiver. */
module Udp {
  import opened Common

  const UDP_CHUNK_SIZE: nat := 1024
  const STALE_MILLIS: int := 1000 * 100

  type Uuid = nat
  type Payload = seq<Byte>

  /** The receiver sets the timestamp to the time of arrival, in milliseconds. */
  datatype UdpMessage = UdpMessage(bytes: Option<Payload>, part: int, parts: int, uuid: Uuid, timestamp: int)

  datatype Delivery = Delivery(uuid: Uuid, data: Payload)

  /** Parts waiting for their message to complete, and what has been handed to the relay. */
  datatype Server = Server(messages: map<Uuid, seq<UdpMessage>>, delivered: seq<Delivery>)

  // ---- Receiving ----

  /** Insert behind everything that is not greater: the sort is stable. */
  function InsertPart(sorted: seq<UdpMessage>, m: UdpMessage): seq<UdpMessage> {
    if sorted == [] || sorted[|sorted| - 1].part <= m.part then sorted + [m]
    else InsertPart(sorted[..|sorted| - 1], m) + [sorted[|sorted| - 1]]
  }

  function SortParts(parts: seq<UdpMessage>): seq<UdpMessage> {
    if parts == [] then [] else InsertPart(SortParts(parts[..|parts| - 1]), parts[|parts| - 1])
  }

  function Bytes(m: UdpMessage): Payload {
    if m.bytes.Some? then m.bytes.value else []
  }

  function Joined(parts: seq<UdpMessage>): Payload {
    if parts == [] then [] else Joined(parts[..|parts| - 1]) + Bytes(parts[|parts| - 1])
  }

  function Received(s: Server, m: UdpMessage): Server {
    if m.parts == 1 then
      if m.bytes.Some? then s.(delivered := s.delivered + [Delivery(m.uuid, m.bytes.value)]) else s
    else if m.uuid in s.messages then
      var parts := s.messages[m.uuid] + [m];
      if |parts| == m.parts then
        Server(s.messages - {m.uuid}, s.delivered + [Delivery(m.uuid, Joined(SortParts(parts)))])
      else s.(messages := s.messages[m.uuid := parts])
    else s.(messages := s.messages[m.uuid := [m]])
  }

  // ---- Expiry ----

  ghost predicate Stale(parts: seq<UdpMessage>, now: int) {
    exists i :: 0 <= i < |parts| && parts[i].timestamp + STALE_MILLIS < now
  }

  datatype Event = Incoming(m: UdpMessage) | Expire(now: int)

  ghost function Stepped(s: Server, e: Event): Server {
    match e
    case Incoming(m) => Received(s, m)
    case Expire(now) => s.(messages := map u | u in s.messages && !Stale(s.messages[u], now) :: s.messages[u])
  }

  /** A message stays through an expiry exactly when none of its parts has waited for more than a hundred
      seconds; those that stay keep all their parts, and nothing is delivered. */
  lemma ExpiryExact(s: Server, now: int, u: Uuid)
    ensures ExpiresRightly(s, Stepped(s, Expire(now)), now, u)
  {}

  ghost predicate ExpiresRightly(before: Server, after: Server, now: int, u: Uuid) {
    && after.delivered == before.delivered
    && (u in after.messages <==>
         && u in before.messages
         && forall i :: 0 <= i < |before.messages[u]| ==> now - before.messages[u][i].timestamp <= 100_000)
    && (u in after.messages ==> after.messages[u] == before.messages[u])
  }

  method Sort(parts: seq<UdpMessage>) returns (sorted: seq<UdpMessage>)
    ensures sorted == SortParts(parts)
  {
    sorted := [];
    for i := 0 to |parts|
      invariant sorted == SortParts(parts[..i])
    {
      assert parts[..i + 1][..i] == parts[..i];
      sorted := InsertPart(sorted, parts[i]);
    }
    assert parts[..|parts|] == parts;
  }

  method Join(parts: seq<UdpMessage>) returns (data: Payload)
    ensures data == Joined(parts)
  {
    data := [];
    for i := 0 to |parts|
      invariant data == Joined(parts[..i])
    {
      assert parts[..i + 1][..i] == parts[..i];
      if parts[i].bytes.Some? { data := data + parts[i].bytes.value; }
    }
    assert parts[..|parts|] == parts;
  }

  class UdpServer {
    var messages: map<Uuid, seq<UdpMessage>>
    var delivered: seq<Delivery>

    ghost function Value(): Server
      reads this
    {
      Server(messages, delivered)
    }

    constructor ()
      ensures Value() == Server(map[], [])
    {
      messages, delivered := map[], [];
    }

    method ProcessTyped(wrapper: UdpMessage, now: int)
      modifies this
      ensures Value() == Received(old(Value()), wrapper.(timestamp := now))
    {
      var m := wrapper.(timestamp := now);
      if m.parts == 1 {
        if m.bytes.Some? { delivered := delivered + [Delivery(m.uuid, m.bytes.value)]; }
      } else if m.uuid in messages {
        var parts := messages[m.uuid] + [m];
        messages := messages[m.uuid := parts];
        if |parts| == m.parts {
          var sorted := Sort(parts);
          var data := Join(sorted);
          delivered := delivered + [Delivery(m.uuid, data)];
          messages := messages - {m.uuid};
        }
      } else {
        messages := messages[m.uuid := [m]];
      }
    }

    /** Look through every waiting message for a part that has waited too long, then drop those messages. */
    method DropStale(now: int)
      modifies this
      ensures Value() == Stepped(old(Value()), Expire(now))
      ensures forall u :: ExpiresRightly(old(Value()), Value(), now, u)
    {
      var left := messages.Keys;
      var stale := {};
      while left != {}
        invariant left <= messages.Keys && messages == old(messages) && delivered == old(delivered)
        invariant forall u :: u in stale <==> u in messages && u !in left && Stale(messages[u], now)
        decreases |left|
      {
        var u :| u in left;
        var tooOld := HasOldPart(messages[u], now);
        if tooOld { stale := stale + {u}; }
        left := left - {u};
      }
      messages := messages - stale;
      ghost var was := old(Value());
      assert Value() == Stepped(was, Expire(now));
      forall u ensures ExpiresRightly(was, Value(), now, u) { ExpiryExact(was, now, u); }
    }

    method HandleUdpOperation(e: Event)
      modifies this
      ensures Value() == Stepped(old(Value()), e)
    {
      match e
      case Incoming(m) => ProcessTyped(m, m.timestamp);
      case Expire(now) => DropStale(now);
    }
  }

  method HasOldPart(parts: seq<UdpMessage>, now: int) returns (found: bool)
    ensures found <==> Stale(parts, now)
  {
    for i := 0 to |parts|
      invariant forall k :: 0 <= k < i ==> parts[k].timestamp + STALE_MILLIS >= now
    {
      if parts[i].timestamp + STALE_MILLIS < now { return true; }
    }
    found := false;
  }

  // ---- Cutting ----

  function Chunks(payload: Payload): (chunks: seq<Payload>) {
    if payload == [] then []
    else if |payload| <= UDP_CHUNK_SIZE then [payload]
    else [payload[..UDP_CHUNK_SIZE]] + Chunks(payload[UDP_CHUNK_SIZE..])
  }

  function Flatten(chunks: seq<Payload>): Payload {
    if chunks == [] then [] else Flatten(chunks[..|chunks| - 1]) + chunks[|chunks| - 1]
  }

  lemma {:induction false} FlattenFront(c: Payload, rest: seq<Payload>)
    ensures Flatten([c] + rest) == c + Flatten(rest)
    decreases |rest|
  {
    if rest == [] {
      assert [c] + rest == [c] && [c][..0] == [];
    } else {
      FlattenFront(c, rest[..|rest| - 1]);
      assert ([c] + rest)[..|rest|] == [c] + rest[..|rest| - 1];
    }
  }

  /** The chunks put together are the payload; none is empty or too long. */
  lemma {:induction false} ChunksFlatten(payload: Payload)
    ensures Flatten(Chunks(payload)) == payload
    ensures forall i :: 0 <= i < |Chunks(payload)| ==> 0 < |Chunks(payload)[i]| <= UDP_CHUNK_SIZE
    ensures forall i :: 0 <= i < |Chunks(payload)| - 1 ==> |Chunks(payload)[i]| == 1024
    ensures |Chunks(payload)| == 0 <==> payload == []
    ensures |Chunks(payload)| == 1 <==> 1 <= |payload| <= UDP_CHUNK_SIZE
    decreases |payload|
  {
    if |payload| > UDP_CHUNK_SIZE {
      var head, tail := payload[..UDP_CHUNK_SIZE], payload[UDP_CHUNK_SIZE..];
      ChunksFlatten(tail);
      FlattenFront(head, Chunks(tail));
      assert payload == head + tail;
    } else if payload != [] {
      assert [payload][..0] == [];
    }
  }

  function PartOf(chunks: seq<Payload>, k: nat, uuid: Uuid, timestamp: int): UdpMessage
    requires k < |chunks|
  {
    UdpMessage(Some(chunks[k]), k, |chunks|, uuid, timestamp)
  }

  /** What the sender emits: one message for each chunk, each with an identifier of its own. */
  method Send(payload: Payload, uuids: nat -> Uuid, now: int) returns (out: seq<UdpMessage>)
    ensures |out| == |Chunks(payload)|
    ensures forall k :: 0 <= k < |out| ==> out[k] == PartOf(Chunks(payload), k, uuids(k), now)
  {
    var chunks := Chunks(payload);
    out := [];
    for i := 0 to |chunks|
      invariant |out| == i && forall k :: 0 <= k < i ==> out[k] == PartOf(chunks, k, uuids(k), now)
    {
      out := out + [UdpMessage(Some(chunks[i]), i, |chunks|, uuids(i), now)];
    }
  }

  // ---- Sorting ----

  ghost predicate SortedParts(s: seq<UdpMessage>) {
    forall i, j :: 0 <= i < j < |s| ==> s[i].part <= s[j].part
  }

  lemma NotAbove(s: seq<UdpMessage>, m: UdpMessage, out: seq<UdpMessage>, bound: int)
    requires multiset(out) == multiset(s) + multiset{m} && m.part <= bound && forall i :: 0 <= i < |s| ==>
              s[i].part <= bound
    ensures forall i :: 0 <= i < |out| ==> out[i].part <= bound
  {
    forall i | 0 <= i < |out| ensures out[i].part <= bound {
      assert out[i] in multiset(out);
      if out[i] != m { assert out[i] in multiset(s); }
    }
  }

  lemma {:induction false} InsertPartKeeps(sorted: seq<UdpMessage>, m: UdpMessage)
    ensures multiset(InsertPart(sorted, m)) == multiset(sorted) + multiset{m}
  {
    if sorted != [] && sorted[|sorted| - 1].part > m.part {
      var n := |sorted| - 1;
      InsertPartKeeps(sorted[..n], m);
      assert sorted == sorted[..n] + [sorted[n]];
    }
  }

  lemma {:induction false} InsertPartSorts(sorted: seq<UdpMessage>, m: UdpMessage)
    requires SortedParts(sorted)
    ensures SortedParts(InsertPart(sorted, m))
  {
    if sorted != [] && sorted[|sorted| - 1].part > m.part {
      var n := |sorted| - 1;
      InsertPartSorts(sorted[..n], m);
      InsertPartKeeps(sorted[..n], m);
      NotAbove(sorted[..n], m, InsertPart(sorted[..n], m), sorted[n].part);
    }
  }

  lemma {:induction false} SortPartsFacts(parts: seq<UdpMessage>)
    ensures SortedParts(SortParts(parts)) && multiset(SortParts(parts)) == multiset(parts)
    ensures |SortParts(parts)| == |parts|
  {
    if parts != [] {
      var n := |parts| - 1;
      SortPartsFacts(parts[..n]);
      InsertPartKeeps(SortParts(parts[..n]), parts[n]);
      InsertPartSorts(SortParts(parts[..n]), parts[n]);
      assert parts == parts[..n] + [parts[n]];
    }
    assert |multiset(SortParts(parts))| == |multiset(parts)|;
  }

  /** The parts of one number, in order. */
  function Numbered(parts: seq<UdpMessage>, part: int): seq<UdpMessage> {
    if parts == [] then []
    else
      var last := parts[|parts| - 1];
      Numbered(parts[..|parts| - 1], part) + if last.part == part then [last] else []
  }

  lemma {:induction false} InsertStable(sorted: seq<UdpMessage>, m: UdpMessage, part: int)
    requires SortedParts(sorted)
    ensures Numbered(InsertPart(sorted, m), part) == Numbered(sorted + [m], part)
  {
    assert (sorted + [m])[..|sorted|] == sorted;
    if sorted != [] && sorted[|sorted| - 1].part > m.part {
      var n := |sorted| - 1;
      InsertStable(sorted[..n], m, part);
      assert (sorted[..n] + [m])[..n] == sorted[..n];
      var inserted := InsertPart(sorted[..n], m);
      assert (inserted + [sorted[n]])[..|inserted|] == inserted;
    }
  }

  /** Parts of one number stay in the order of their arrival. */
  lemma {:induction false} SortStable(parts: seq<UdpMessage>, part: int)
    ensures Numbered(SortParts(parts), part) == Numbered(parts, part)
  {
    if parts != [] {
      var n := |parts| - 1;
      SortStable(parts[..n], part);
      SortPartsFacts(parts[..n]);
      InsertStable(SortParts(parts[..n]), parts[n], part);
      var sorted := SortParts(parts[..n]);
      assert (sorted + [parts[n]])[..|sorted|] == sorted;
    }
  }

  /** One of the parts of the payload, whenever it arrived. */
  ghost predicate IsPart(chunks: seq<Payload>, uuid: Uuid, m: UdpMessage) {
    0 <= m.part < |chunks| && m == PartOf(chunks, m.part, uuid, m.timestamp)
  }

  /** `ms` are the parts of the payload under one identifier, each once, in some order. */
  ghost predicate PartsInAnyOrder(chunks: seq<Payload>, uuid: Uuid, ms: seq<UdpMessage>) {
    && |ms| == |chunks|
    && (forall i :: 0 <= i < |ms| ==> IsPart(chunks, uuid, ms[i]))
    && (forall i, j :: 0 <= i < j < |ms| ==> ms[i].part != ms[j].part)
  }

  lemma {:induction false} DistinctAfterSort(a: seq<UdpMessage>, b: seq<UdpMessage>)
    requires multiset(a) == multiset(b) && forall i, j :: 0 <= i < j < |a| ==> a[i].part != a[j].part
    ensures forall i, j :: 0 <= i < j < |b| ==> b[i].part != b[j].part
  {
    forall i, j | 0 <= i < j < |b| ensures b[i].part != b[j].part {
      if b[i].part == b[j].part {
        var x, y := b[i], b[j];
        assert x in multiset(a) && y in multiset(a);
        if x == y {
          TwiceIn(b, i, j);
          OnceIn(a, x);
        }
      }
    }
  }

  lemma {:induction false} OnceIn(s: seq<UdpMessage>, x: UdpMessage)
    requires forall i, j :: 0 <= i < j < |s| ==> s[i].part != s[j].part
    ensures multiset(s)[x] <= 1
  {
    if s != [] {
      var n := |s| - 1;
      OnceIn(s[..n], x);
      assert s == s[..n] + [s[n]];
      if x == s[n] { assert x !in s[..n]; }
    }
  }

  /** Rising integers between zero and their number are all of them. */
  lemma {:induction false} RisingIsIdentity(s: seq<UdpMessage>, k: nat)
    requires k < |s| && SortedParts(s) && forall i, j :: 0 <= i < j < |s| ==> s[i].part != s[j].part
    requires forall i :: 0 <= i < |s| ==> 0 <= s[i].part < |s|
    ensures s[k].part == k
  {
    AtLeast(s, k);
    AtMost(s, k);
  }

  lemma {:induction false} AtLeast(s: seq<UdpMessage>, k: nat)
    requires k < |s| && SortedParts(s) && forall i, j :: 0 <= i < j < |s| ==> s[i].part != s[j].part
    requires forall i :: 0 <= i < |s| ==> 0 <= s[i].part
    ensures s[k].part >= k
  {
    if k > 0 { AtLeast(s, k - 1); }
  }

  lemma {:induction false} AtMost(s: seq<UdpMessage>, k: nat)
    requires k < |s| && SortedParts(s) && forall i, j :: 0 <= i < j < |s| ==> s[i].part != s[j].part
    requires forall i :: 0 <= i < |s| ==> s[i].part < |s|
    ensures s[k].part <= k
    decreases |s| - k
  {
    if k < |s| - 1 { AtMost(s, k + 1); }
  }

  lemma SortedPartsAre(chunks: seq<Payload>, uuid: Uuid, ms: seq<UdpMessage>, k: nat)
    requires PartsInAnyOrder(chunks, uuid, ms) && k < |chunks|
    ensures |SortParts(ms)| == |chunks| && SortParts(ms)[k].bytes == Some(chunks[k])
  {
    var s := SortParts(ms);
    SortPartsFacts(ms);
    forall i | 0 <= i < |s| ensures IsPart(chunks, uuid, s[i]) {
      assert s[i] in multiset(ms);
    }
    DistinctAfterSort(ms, s);
    RisingIsIdentity(s, k);
  }

  lemma {:induction false} JoinedIsFlatten(chunks: seq<Payload>, s: seq<UdpMessage>, n: nat)
    requires |s| == |chunks| && n <= |s| && forall k :: 0 <= k < |s| ==> s[k].bytes == Some(chunks[k])
    ensures Joined(s[..n]) == Flatten(chunks[..n])
  {
    if n > 0 {
      JoinedIsFlatten(chunks, s, n - 1);
      assert s[..n][..n - 1] == s[..n - 1] && chunks[..n][..n - 1] == chunks[..n - 1];
    }
  }

  lemma JoinedIsWhole(chunks: seq<Payload>, s: seq<UdpMessage>)
    requires |s| == |chunks| && forall k :: 0 <= k < |s| ==> s[k].bytes == Some(chunks[k])
    ensures Joined(s) == Flatten(chunks)
  {
    JoinedIsFlatten(chunks, s, |s|);
    assert s[..|s|] == s && chunks[..|s|] == chunks;
  }

  lemma PartsJoinChunks(chunks: seq<Payload>, uuid: Uuid, ms: seq<UdpMessage>)
    requires PartsInAnyOrder(chunks, uuid, ms)
    ensures Joined(SortParts(ms)) == Flatten(chunks)
  {
    var s := SortParts(ms);
    SortPartsFacts(ms);
    forall k | 0 <= k < |s| ensures s[k].bytes == Some(chunks[k]) {
      SortedPartsAre(chunks, uuid, ms, k);
    }
    JoinedIsWhole(chunks, s);
  }

  /** Whatever the order of arrival, the parts join into the payload. */
  lemma PartsJoin(payload: Payload, uuid: Uuid, ms: seq<UdpMessage>)
    requires PartsInAnyOrder(Chunks(payload), uuid, ms)
    ensures Joined(SortParts(ms)) == payload
  {
    PartsJoinChunks(Chunks(payload), uuid, ms);
    ChunksFlatten(payload);
  }

  // ---- Runs ----

  ghost function After(s: Server, events: seq<Event>): Server {
    if events == [] then s
    else Stepped(After(s, events[..|events| - 1]), events[|events| - 1])
  }

  /** The messages of one identifier, in the order of arrival. */
  function Arrivals(events: seq<Event>, u: Uuid): seq<UdpMessage> {
    if events == [] then []
    else
      var e := events[|events| - 1];
      Arrivals(events[..|events| - 1], u) + if e.Incoming? && e.m.uuid == u then [e.m] else []
  }

  function DeliveredFor(d: seq<Delivery>, u: Uuid): seq<Payload> {
    if d == [] then []
    else
      var last := d[|d| - 1];
      DeliveredFor(d[..|d| - 1], u) + if last.uuid == u then [last.data] else []
  }

  function Waiting(s: Server, u: Uuid): Option<seq<UdpMessage>> {
    if u in s.messages then Some(s.messages[u]) else None
  }

  /** No expiry of the run finds a part of `u` that has waited too long. */
  ghost predicate NeverExpires(s: Server, events: seq<Event>, u: Uuid) {
    events != [] ==>
      var front, last := events[..|events| - 1], events[|events| - 1];
      && NeverExpires(s, front, u)
      && (last.Expire? && u in After(s, front).messages ==> !Stale(After(s, front).messages[u], last.now))
  }

  /** Every part of `u` arrives no more than the allowed time before any later expiry. */
  ghost predicate Timely(events: seq<Event>, u: Uuid) {
    forall i, j :: 0 <= i < j < |events| && events[i].Incoming? && events[i].m.uuid == u && events[j].Expire? ==>
      events[i].m.timestamp + STALE_MILLIS >= events[j].now
  }

  lemma {:induction false} ArrivalIsEvent(events: seq<Event>, u: Uuid, m: UdpMessage)
    requires m in Arrivals(events, u)
    ensures m.uuid == u && exists i :: 0 <= i < |events| && events[i] == Incoming(m)
  {
    var n := |events| - 1;
    if m in Arrivals(events[..n], u) {
      ArrivalIsEvent(events[..n], u, m);
      var i :| 0 <= i < n && events[..n][i] == Incoming(m);
      assert events[i] == Incoming(m);
    } else {
      assert events[n] == Incoming(m);
    }
  }

  /** What waits under an identifier the server did not hold before has arrived in the run. */
  lemma {:induction false} WaitingArrived(s: Server, events: seq<Event>, u: Uuid)
    requires u !in s.messages && u in After(s, events).messages
    ensures forall i :: 0 <= i < |After(s, events).messages[u]| ==>
              After(s, events).messages[u][i] in Arrivals(events, u)
  {
    var n := |events| - 1;
    var before := After(s, events[..n]);
    if u in before.messages { WaitingArrived(s, events[..n], u); }
  }

  lemma {:induction false} TimelyNeverExpires(s: Server, events: seq<Event>, u: Uuid)
    requires u !in s.messages && Timely(events, u)
    ensures NeverExpires(s, events, u)
  {
    if events != [] {
      var n := |events| - 1;
      var front := events[..n];
      TimelyNeverExpires(s, front, u);
      if events[n].Expire? && u in After(s, front).messages {
        WaitingArrived(s, front, u);
        var parts := After(s, front).messages[u];
        forall i | 0 <= i < |parts| ensures parts[i].timestamp + STALE_MILLIS >= events[n].now {
          ArrivalIsEvent(front, u, parts[i]);
          var k :| 0 <= k < n && front[k] == Incoming(parts[i]);
          assert events[k] == Incoming(parts[i]);
        }
      }
    }
  }

  /** The messages alone, one after the other. */
  function Fed(s: Server, ms: seq<UdpMessage>): Server {
    if ms == [] then s else Received(Fed(s, ms[..|ms| - 1]), ms[|ms| - 1])
  }

  /** The same is waiting and the same was delivered for one identifier. */
  ghost predicate Agree(a: Server, b: Server, u: Uuid) {
    Waiting(a, u) == Waiting(b, u) && DeliveredFor(a.delivered, u) == DeliveredFor(b.delivered, u)
  }

  lemma FedAppend(s: Server, ms: seq<UdpMessage>, m: UdpMessage)
    ensures Fed(s, ms + [m]) == Received(Fed(s, ms), m)
  {
    assert (ms + [m])[..|ms|] == ms;
  }

  lemma FedPrefix(s: Server, ms: seq<UdpMessage>, n: nat)
    requires n < |ms|
    ensures Fed(s, ms[..n + 1]) == Received(Fed(s, ms[..n]), ms[n])
  {
    assert ms[..n + 1] == ms[..n] + [ms[n]];
    FedAppend(s, ms[..n], ms[n]);
  }

  lemma DeliveredAppend(d: seq<Delivery>, x: Delivery, u: Uuid)
    ensures DeliveredFor(d + [x], u) == DeliveredFor(d, u) + if x.uuid == u then [x.data] else []
  {
    assert (d + [x])[..|d|] == d;
  }

  lemma ReceivedOther(s: Server, m: UdpMessage, u: Uuid)
    requires m.uuid != u
    ensures Agree(Received(s, m), s, u)
  {
    var s' := Received(s, m);
    if s'.delivered != s.delivered { DeliveredAppend(s.delivered, s'.delivered[|s.delivered|], u); }
  }

  lemma ReceivedSame(a: Server, b: Server, m: UdpMessage)
    requires Agree(a, b, m.uuid)
    ensures Agree(Received(a, m), Received(b, m), m.uuid)
  {
    var a', b' := Received(a, m), Received(b, m);
    if a'.delivered != a.delivered {
      DeliveredAppend(a.delivered, a'.delivered[|a.delivered|], m.uuid);
      DeliveredAppend(b.delivered, b'.delivered[|b.delivered|], m.uuid);
    }
  }

  lemma AgreeTransitive(a: Server, b: Server, c: Server, u: Uuid)
    requires Agree(a, b, u) && Agree(b, c, u)
    ensures Agree(a, c, u)
  {
  }

  /** One more event, against the messages of the identifier alone. */
  lemma LocalStep(before: Server, alone: Server, e: Event, u: Uuid)
    requires Agree(before, alone, u)
    requires e.Expire? && u in before.messages ==> !Stale(before.messages[u], e.now)
    ensures Agree(Stepped(before, e), if e.Incoming? && e.m.uuid == u then Received(alone, e.m) else alone, u)
  {
    if e.Incoming? {
      if e.m.uuid == u {
        ReceivedSame(before, alone, e.m);
      } else {
        ReceivedOther(before, e.m, u);
        AgreeTransitive(Received(before, e.m), before, alone, u);
      }
    }
  }

  /** Interleaving does not matter: what happens to an identifier is what its own messages alone would do. */
  lemma {:induction false} RunIsLocal(s: Server, events: seq<Event>, u: Uuid)
    requires NeverExpires(s, events, u)
    ensures Agree(After(s, events), Fed(s, Arrivals(events, u)), u)
  {
    if events != [] {
      var n := |events| - 1;
      RunIsLocal(s, events[..n], u);
      var own := Arrivals(events[..n], u);
      LocalStep(After(s, events[..n]), Fed(s, own), events[n], u);
      if events[n].Incoming? && events[n].m.uuid == u {
        FedAppend(s, own, events[n].m);
      } else {
        assert own + [] == own;
      }
    }
  }

  /** Until the last part arrives nothing is delivered. */
  lemma {:induction false} CollectsParts(s: Server, chunks: seq<Payload>, uuid: Uuid, ms: seq<UdpMessage>, n: nat)
    requires PartsInAnyOrder(chunks, uuid, ms) && 0 < n < |ms| && uuid !in s.messages
    ensures Fed(s, ms[..n]) == s.(messages := s.messages[uuid := ms[..n]])
  {
    FedPrefix(s, ms, n - 1);
    if n == 1 {
      assert ms[..0] == [] && ms[..1] == [ms[0]];
    } else {
      CollectsParts(s, chunks, uuid, ms, n - 1);
      assert ms[..n] == ms[..n - 1] + [ms[n - 1]];
    }
  }

  /** The message that makes the count right takes the waiting parts out and delivers them joined. */
  lemma LastPart(s: Server, front: seq<UdpMessage>, m: UdpMessage)
    requires m.uuid !in s.messages && front != [] && m.parts == |front| + 1
    ensures Received(s.(messages := s.messages[m.uuid := front]), m)
         == Server(s.messages, s.delivered + [Delivery(m.uuid, Joined(SortParts(front + [m])))])
  {
    assert s.messages[m.uuid := front] - {m.uuid} == s.messages;
  }

  lemma FedAll(s: Server, chunks: seq<Payload>, uuid: Uuid, ms: seq<UdpMessage>)
    requires PartsInAnyOrder(chunks, uuid, ms) && |ms| >= 2 && uuid !in s.messages
    ensures Fed(s, ms) == Server(s.messages, s.delivered + [Delivery(uuid, Joined(SortParts(ms)))])
  {
    var front, last := ms[..|ms| - 1], ms[|ms| - 1];
    CollectsParts(s, chunks, uuid, ms, |ms| - 1);
    LastPart(s, front, last);
    assert ms == front + [last];
  }

  /** The receiver rebuilds a payload of two or more parts exactly once, whatever the order of its parts and
      whatever arrives in between under other identifiers. */
  lemma ReassemblesOnce(s: Server, events: seq<Event>, payload: Payload, uuid: Uuid)
    requires |Chunks(payload)| >= 2 && uuid !in s.messages && Timely(events, uuid)
    requires PartsInAnyOrder(Chunks(payload), uuid, Arrivals(events, uuid))
    ensures uuid !in After(s, events).messages
    ensures DeliveredFor(After(s, events).delivered, uuid) == DeliveredFor(s.delivered, uuid) + [payload]
  {
    TimelyNeverExpires(s, events, uuid);
    RunIsLocal(s, events, uuid);
    FedAll(s, Chunks(payload), uuid, Arrivals(events, uuid));
    PartsJoin(payload, uuid, Arrivals(events, uuid));
    DeliveredAppend(s.delivered, Delivery(uuid, payload), uuid);
  }

  // ---- Sender and receiver together ----

  /** The messages of the sender: each under an identifier of its own that the server does not hold, and in the
      run each arrives once, in any order and with anything in between. */
  ghost predicate SentAndArrived(s: Server, events: seq<Event>, chunks: seq<Payload>, ms: seq<UdpMessage>) {
    && |ms| == |chunks|
    && (forall i, j :: 0 <= i < j < |ms| ==> ms[i].uuid != ms[j].uuid)
    && (forall i :: 0 <= i < |ms| ==>
        ArrivesAlone(s, events, ms[i]) && ms[i] == PartOf(chunks, i, ms[i].uuid, ms[i].timestamp))
  }

  ghost predicate ArrivesAlone(s: Server, events: seq<Event>, m: UdpMessage) {
    m.uuid !in s.messages && Arrivals(events, m.uuid) == [m]
  }

  /** Nothing, or one part, waits or was delivered for an identifier of which one part at most arrives. */
  ghost predicate LonelyState(s: Server, e: Server, m: UdpMessage, arrived: bool) {
    && (m.uuid in e.messages ==> arrived && e.messages[m.uuid] == [m])
    && DeliveredFor(e.delivered, m.uuid) ==
       DeliveredFor(s.delivered, m.uuid) + if arrived && m.parts == 1 then [Bytes(m)] else []
  }

  lemma LonelyStep(s: Server, before: Server, e: Event, m: UdpMessage)
    requires LonelyState(s, before, m, false) && e == Incoming(m) && m.bytes.Some?
    ensures LonelyState(s, Stepped(before, e), m, true)
  {
    if m.parts == 1 { DeliveredAppend(before.delivered, Delivery(m.uuid, m.bytes.value), m.uuid); }
  }

  lemma OtherStep(s: Server, before: Server, e: Event, m: UdpMessage, arrived: bool)
    requires LonelyState(s, before, m, arrived) && (e.Incoming? ==> e.m.uuid != m.uuid)
    ensures LonelyState(s, Stepped(before, e), m, arrived)
  {
    if e.Incoming? { ReceivedOther(before, e.m, m.uuid); }
  }

  /** One part alone under its identifier is delivered if it is the whole message, and never otherwise. */
  lemma {:induction false} LonelyPart(s: Server, events: seq<Event>, m: UdpMessage, arrived: bool)
    requires m.uuid !in s.messages && m.bytes.Some? && Arrivals(events, m.uuid) == if arrived then [m] else []
    ensures LonelyState(s, After(s, events), m, arrived)
  {
    if events != [] {
      var n := |events| - 1;
      var own := Arrivals(events[..n], m.uuid);
      if events[n].Incoming? && events[n].m.uuid == m.uuid {
        assert (own + [events[n].m])[|own|] == events[n].m;
        assert own == [] && events[n].m == m;
        LonelyPart(s, events[..n], m, false);
        LonelyStep(s, After(s, events[..n]), events[n], m);
      } else {
        assert own + [] == own;
        LonelyPart(s, events[..n], m, arrived);
        OtherStep(s, After(s, events[..n]), events[n], m, arrived);
      }
    }
  }

  /** End to end, at any server and with any other traffic and expiries in between, the payload arrives exactly
      when it fits one chunk: with an identifier for each part, the parts of a longer payload are never put
      together, and an empty payload is not sent at all. */
  lemma EndToEndIff(s: Server, events: seq<Event>, payload: Payload, ms: seq<UdpMessage>)
    requires SentAndArrived(s, events, Chunks(payload), ms)
    ensures |ms| == 1 <==> 1 <= |payload| <= UDP_CHUNK_SIZE
    ensures forall i :: 0 <= i < |ms| ==>
              DeliveredFor(After(s, events).delivered, ms[i].uuid) ==
              DeliveredFor(s.delivered, ms[i].uuid) + if 1 <= |payload| <= UDP_CHUNK_SIZE then [payload] else []
  {
    ChunksFlatten(payload);
    var chunks := Chunks(payload);
    forall i | 0 <= i < |ms|
      ensures DeliveredFor(After(s, events).delivered, ms[i].uuid) ==
              DeliveredFor(s.delivered, ms[i].uuid) + if |ms| == 1 then [payload] else []
    {
      assert ArrivesAlone(s, events, ms[i]) && ms[i] == PartOf(chunks, i, ms[i].uuid, ms[i].timestamp);
      LonelyPart(s, events, ms[i], true);
    }
  }
}
