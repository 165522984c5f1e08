/** The bootstrap download: whole days, requested backwards in time until the known data or three days
    without any are reached. */
module Downloads {
  import opened Hashes

  const DAY: int := 1000 * 60 * 60 * 24

  datatype Kind = UtxoEntry | TransactionEntry | ObservationEntry | ObservationEdgeEntry

  datatype Item = Item(kind: Kind, id: Hash, time: int)

  /** The days asked for: from `start` up to and excluding `end`. */
  datatype Window = Window(start: int, end: int)

  /** What the bootstrap peer holds, and which of its answers fail. */
  datatype Peer = Peer(items: set<Item>, fails: (Window, Kind) -> bool)

  predicate Inside(w: Window, t: int) {
    w.start <= t < w.end
  }

  predicate Answered(peer: Peer, w: Window, i: Item) {
    Inside(w, i.time) && !peer.fails(w, i.kind)
  }

  function Fetched(peer: Peer, w: Window): set<Item> {
    set i | i in peer.items && Answered(peer, w, i)
  }

  /** Day number `k` before `start`. */
  function Day(start: int, k: nat): Window {
    Window(start - (k + 1) * DAY, start - k * DAY)
  }

  predicate Empty(peer: Peer, start: int, k: nat) {
    Fetched(peer, Day(start, k)) == {}
  }

  /** Days `k - 3`, `k - 2` and `k - 1` brought nothing. */
  predicate DriedUp(peer: Peer, start: int, k: nat) {
    k >= 3 && Empty(peer, start, k - 3) && Empty(peer, start, k - 2) && Empty(peer, start, k - 1)
  }

  predicate Stops(peer: Peer, start: int, minTime: int, k: nat) {
    start - k * DAY <= minTime || DriedUp(peer, start, k)
  }

  /** At the time of a window: the output has a pool of live requests, or the transaction is known. */
  type Busy = (Window, Item) -> bool

  /** The node tests outputs and transactions before it stores them, observations not. */
  predicate Skips(busy: Busy, w: Window, i: Item) {
    (i.kind.UtxoEntry? || i.kind.TransactionEntry?) && busy(w, i)
  }

  function Kept(peer: Peer, busy: Busy, w: Window): set<Item> {
    set i | i in Fetched(peer, w) && !Skips(busy, w, i)
  }

  ghost function KeptDays(peer: Peer, busy: Busy, start: int, n: nat): set<Item> {
    if n == 0 then {} else KeptDays(peer, busy, start, n - 1) + Kept(peer, busy, Day(start, n - 1))
  }

  /** Ask for the four kinds of one window and store what is answered and not skipped. */
  method DownloadAll(peer: Peer, busy: Busy, w: Window, store: set<Item>) returns (got: bool, store': set<Item>)
    ensures store' == store + Kept(peer, busy, w)
    ensures got <==> Fetched(peer, w) != {}
  {
    got, store' := false, store;
    var kinds := [UtxoEntry, TransactionEntry, ObservationEntry, ObservationEdgeEntry];
    ghost var fetched: set<Item> := {};
    for k := 0 to |kinds|
      invariant store' == store + (set i | i in fetched && !Skips(busy, w, i)) && (got <==> fetched != {})
      invariant fetched == set i | i in peer.items && Answered(peer, w, i) && i.kind in kinds[..k]
    {
      if !peer.fails(w, kinds[k]) {
        var items := set i | i in peer.items && Inside(w, i.time) && i.kind == kinds[k];
        if items != {} { got := true; }
        store' := store' + set i | i in items && !Skips(busy, w, i);
        fetched := fetched + items;
      }
      assert kinds[..k + 1] == kinds[..k] + [kinds[k]];
    }
    assert fetched == Fetched(peer, w) by {
      assert forall i: Item :: i.kind in kinds by { AllKinds(kinds); }
      assert kinds[..|kinds|] == kinds;
    }
  }

  lemma AllKinds(kinds: seq<Kind>)
    requires kinds == [UtxoEntry, TransactionEntry, ObservationEntry, ObservationEdgeEntry]
    ensures forall k: Kind :: k in kinds
  {
    forall k: Kind ensures k in kinds {
      match k
      case UtxoEntry => assert kinds[0] == k;
      case TransactionEntry => assert kinds[1] == k;
      case ObservationEntry => assert kinds[2] == k;
      case ObservationEdgeEntry => assert kinds[3] == k;
    }
  }

  /** The loop stops at the first day count at which the minimum is reached or three days were empty, and by
      then has stored what every day before it answered and the node did not skip. */
  method Download(peer: Peer, busy: Busy, start: int, minTime: int, store: set<Item>)
    returns (rounds: nat, store': set<Item>)
    ensures Stops(peer, start, minTime, rounds)
    ensures forall k :: 0 <= k < rounds ==> !Stops(peer, start, minTime, k)
    ensures store' == store + KeptDays(peer, busy, start, rounds)
  {
    var noData := 0;
    var curEnd := start;
    rounds, store' := 0, store;
    while noData < 3 && curEnd > minTime
      invariant curEnd == start - rounds * DAY
      invariant 0 <= noData <= 3 && noData <= rounds
      invariant forall k :: rounds - noData <= k < rounds ==> Empty(peer, start, k)
      invariant rounds > noData ==> !Empty(peer, start, rounds - noData - 1)
      invariant noData < 3 ==> !DriedUp(peer, start, rounds)
      invariant forall k :: 0 <= k < rounds ==> !Stops(peer, start, minTime, k)
      invariant store' == store + KeptDays(peer, busy, start, rounds)
      decreases curEnd - minTime
    {
      var prevDay := curEnd - DAY;
      assert Window(prevDay, curEnd) == Day(start, rounds);
      var got;
      got, store' := DownloadAll(peer, busy, Window(prevDay, curEnd), store');
      if got { noData := 0; } else { noData := noData + 1; }
      curEnd := prevDay;
      rounds := rounds + 1;
    }
  }

  // ---- What the windows cover ----

  /** No more rounds than days between the minimum and the start, counting a begun day as one. */
  lemma RoundsBounded(peer: Peer, start: int, minTime: int, rounds: nat)
    requires forall k :: 0 <= k < rounds ==> !Stops(peer, start, minTime, k)
    ensures start <= minTime ==> rounds == 0
    ensures start > minTime ==> rounds <= (start - minTime + DAY - 1) / DAY
  {
    if rounds > 0 {
      assert !Stops(peer, start, minTime, rounds - 1);
      assert !Stops(peer, start, minTime, 0);
    }
  }

  /** Every instant of the covered span lies in exactly one of the windows, and no other instant in any. */
  lemma WindowsTile(start: int, rounds: nat, t: int)
    ensures start - rounds * DAY <= t < start <==> exists k :: 0 <= k < rounds && Inside(Day(start, k), t)
    ensures forall j: nat, k: nat :: Inside(Day(start, j), t) && Inside(Day(start, k), t) ==> j == k
  {
    if start - rounds * DAY <= t < start {
      var k := (start - 1 - t) / DAY;
      assert 0 <= k < rounds && Inside(Day(start, k), t);
    }
    forall j: nat, k: nat | Inside(Day(start, j), t) && Inside(Day(start, k), t) ensures j == k {
      DaysApart(start, j, k, t);
      DaysApart(start, k, j, t);
    }
  }

  lemma DaysApart(start: int, j: nat, k: nat, t: int)
    requires Inside(Day(start, j), t) && Inside(Day(start, k), t)
    ensures j <= k
  {}

  /** The day of an instant before `start`. */
  function DayOf(start: int, t: int): Window
    requires t < start
  {
    Day(start, (start - 1 - t) / DAY)
  }

  lemma {:induction false} KeptDaysIff(peer: Peer, busy: Busy, start: int, n: nat, i: Item)
    ensures i in KeptDays(peer, busy, start, n) <==> exists k :: 0 <= k < n && i in Kept(peer, busy, Day(start, k))
  {
    if n > 0 { KeptDaysIff(peer, busy, start, n - 1, i); }
  }

  lemma InsideDayOf(start: int, k: nat, t: int)
    requires Inside(Day(start, k), t)
    ensures t < start && Day(start, k) == DayOf(start, t)
  {
    DaysApart(start, k, (start - 1 - t) / DAY, t);
    DaysApart(start, (start - 1 - t) / DAY, k, t);
  }

  /** The peer holds no item of the last three of the first `k` days. */
  ghost predicate Barren(peer: Peer, start: int, k: nat) {
    forall i :: i in peer.items ==> !(start - k * 86_400_000 <= i.time < start - (k - 3) * 86_400_000)
  }

  /** Three windows in a row without an answer, by the items: each of their span failed to be sent. */
  lemma DriedUpItems(peer: Peer, start: int, k: nat)
    requires k >= 3
    ensures DriedUp(peer, start, k) <==>
              forall i :: i in peer.items && start - k * DAY <= i.time < start - (k - 3) * DAY ==>
                peer.fails(DayOf(start, i.time), i.kind)
  {
    forall i | i in peer.items && start - k * DAY <= i.time < start - (k - 3) * DAY
      ensures i in Fetched(peer, Day(start, k - 3)) || i in Fetched(peer, Day(start, k - 2))
              || i in Fetched(peer, Day(start, k - 1)) || peer.fails(DayOf(start, i.time), i.kind)
    {
      InOneOfThree(start, k, i.time);
    }
    forall i, j: nat | k - 3 <= j < k && i in Fetched(peer, Day(start, j))
      ensures start - k * DAY <= i.time < start - (k - 3) * DAY && !peer.fails(DayOf(start, i.time), i.kind)
    {
      InsideDayOf(start, j, i.time);
    }
  }

  lemma InOneOfThree(start: int, k: nat, t: int)
    requires k >= 3 && start - k * DAY <= t < start - (k - 3) * DAY
    ensures DayOf(start, t) in {Day(start, k - 3), Day(start, k - 2), Day(start, k - 1)} && Inside(DayOf(start, t), t)
  {
    var n := (start - 1 - t) / DAY;
    assert k - 3 <= n < k;
  }

  lemma DriedUpIff(peer: Peer, start: int, k: nat)
    requires k >= 3 && forall w, k :: !peer.fails(w, k)
    ensures DriedUp(peer, start, k) <==> Barren(peer, start, k)
  {
    DriedUpItems(peer, start, k);
  }

  /** With answers to every request, the download stores exactly the items of the covered span that were not
      busy when their day was asked for; it covers all of the time since the minimum unless three days in a row
      were empty. */
  lemma DownloadComplete(peer: Peer, busy: Busy, start: int, minTime: int, rounds: nat, i: Item)
    requires forall w, k :: !peer.fails(w, k)
    requires Stops(peer, start, minTime, rounds)
    ensures i in KeptDays(peer, busy, start, rounds) <==>
              && i in peer.items && start - rounds * DAY <= i.time < start
              && !(i.kind in {UtxoEntry, TransactionEntry} && busy(DayOf(start, i.time), i))
    ensures start - rounds * DAY <= minTime || (rounds >= 3 && Barren(peer, start, rounds))
    ensures rounds >= 3 ==> (DriedUp(peer, start, rounds) <==> Barren(peer, start, rounds))
  {
    if rounds >= 3 { DriedUpIff(peer, start, rounds); }
    KeptDaysIff(peer, busy, start, rounds, i);
    WindowsTile(start, rounds, i.time);
    forall k | 0 <= k < rounds && Inside(Day(start, k), i.time)
      ensures i.time < start && Day(start, k) == DayOf(start, i.time)
    {
      InsideDayOf(start, k, i.time);
    }
  }
}
