/** The mempool: a priority heap of messages and a shared index of their transactions. */
module Mempools {
  import opened Common
  import opened Hashes

  datatype Tx = Tx(hash: Hash, total: int)

  datatype Message = Message(tx: Tx, responder: Option<nat>)

  datatype SendOutcome = Sent | Full | Disconnected

  datatype Offered = Empty | Handed(message: Message) | Blocked | Lost(message: Message)

  ghost predicate HashesDistinct(heap: seq<Message>) {
    forall i, j :: 0 <= i < j < |heap| ==> heap[i].tx.hash != heap[j].tx.hash
  }

  predicate Holds(heap: seq<Message>, h: Hash) {
    exists i :: 0 <= i < |heap| && heap[i].tx.hash == h
  }

  /** The index has exactly the hashes of the heap, no hash twice, each with its transaction. */
  ghost predicate Indexed(heap: seq<Message>, index: map<Hash, Tx>) {
    && HashesDistinct(heap)
    && (forall h :: h in index <==> Holds(heap, h))
    && (forall i :: 0 <= i < |heap| ==> heap[i].tx.hash in index && index[heap[i].tx.hash] == heap[i].tx)
  }

  /** Nothing in `a` has a greater total than anything in `b`. */
  ghost predicate Below(a: seq<Message>, b: seq<Message>) {
    forall i, j :: 0 <= i < |a| && 0 <= j < |b| ==> a[i].tx.total <= b[j].tx.total
  }

  ghost predicate Ascending(s: seq<Message>) {
    forall i, j :: 0 <= i < j < |s| ==> s[i].tx.total <= s[j].tx.total
  }

  function Without(s: seq<Message>, i: nat): seq<Message>
    requires i < |s|
  {
    s[..i] + s[i + 1..]
  }

  lemma WithoutFacts(s: seq<Message>, i: nat)
    requires i < |s|
    ensures multiset(s) == multiset(Without(s, i)) + multiset{s[i]}
    ensures Within(Without(s, i), s)
    ensures HashesDistinct(s) ==> HashesDistinct(Without(s, i)) && !Holds(Without(s, i), s[i].tx.hash)
    ensures forall h :: Holds(s, h) <==> Holds(Without(s, i), h) || h == s[i].tx.hash
  {
    var w := Without(s, i);
    assert s == s[..i] + [s[i]] + s[i + 1..];
    assert forall k :: 0 <= k < |w| ==> w[k] == s[if k < i then k else k + 1];
    forall h ensures Holds(s, h) <==> Holds(w, h) || h == s[i].tx.hash {
      if Holds(s, h) {
        var k :| 0 <= k < |s| && s[k].tx.hash == h;
        if k < i { assert w[k] == s[k]; } else if k > i { assert w[k - 1] == s[k]; }
      }
    }
  }

  lemma AppendIndexed(heap: seq<Message>, index: map<Hash, Tx>, m: Message)
    requires Indexed(heap, index) && m.tx.hash !in index
    ensures Indexed(heap + [m], index[m.tx.hash := m.tx])
  {
    var more := heap + [m];
    forall h ensures Holds(more, h) <==> Holds(heap, h) || h == m.tx.hash {
      if Holds(heap, h) {
        var k :| 0 <= k < |heap| && heap[k].tx.hash == h;
        assert more[k] == heap[k];
      }
      assert more[|heap|] == m;
    }
    assert !Holds(heap, m.tx.hash);
  }

  lemma RemoveIndexed(heap: seq<Message>, index: map<Hash, Tx>, i: nat)
    requires Indexed(heap, index) && i < |heap|
    ensures Indexed(Without(heap, i), index - {heap[i].tx.hash})
  {
    WithoutFacts(heap, i);
    var w := Without(heap, i);
    forall k | 0 <= k < |w|
      ensures w[k].tx.hash in index && w[k].tx.hash != heap[i].tx.hash && index[w[k].tx.hash] == w[k].tx
    {
      assert w[k] == heap[if k < i then k else k + 1];
      assert Holds(w, w[k].tx.hash);
    }
  }

  ghost predicate Splits(all: multiset<Message>, a: seq<Message>, b: seq<Message>) {
    all == multiset(a) + multiset(b)
  }

  lemma SplitAppend(all: multiset<Message>, a: seq<Message>, b: seq<Message>, m: Message)
    requires Splits(all, a, b)
    ensures Splits(all + multiset{m}, a + [m], b) && Splits(all + multiset{m}, a, b + [m])
  {}

  lemma PrefixSplit(base: multiset<Message>, messages: seq<Message>, i: nat, a: seq<Message>, b: seq<Message>)
    requires i < |messages| && Splits(base + multiset(messages[..i]), a, b)
    ensures Splits(base + multiset(messages[..i + 1]), a + [messages[i]], b)
    ensures Splits(base + multiset(messages[..i + 1]), a, b + [messages[i]])
  {
    assert messages[..i + 1] == messages[..i] + [messages[i]];
    assert base + multiset(messages[..i + 1]) == base + multiset(messages[..i]) + multiset{messages[i]};
    SplitAppend(base + multiset(messages[..i]), a, b, messages[i]);
  }

  /** Moving one message from the right part to the left. */
  lemma SplitMove(all: multiset<Message>, a: seq<Message>, b: seq<Message>, m: Message, b': seq<Message>)
    requires Splits(all, a, b) && Splits(multiset(b), [m], b')
    ensures Splits(all, a + [m], b')
  {}

  /** The same messages or fewer. */
  ghost predicate Within(a: seq<Message>, b: seq<Message>) {
    forall i :: 0 <= i < |a| ==> a[i] in b
  }

  lemma BelowWithin(sent: seq<Message>, before: seq<Message>, after: seq<Message>)
    requires Below(sent, before) && Within(after, before)
    ensures Below(sent, after)
  {
    forall i, j | 0 <= i < |sent| && 0 <= j < |after| ensures sent[i].tx.total <= after[j].tx.total {
      assert after[j] in before;
    }
  }

  /** Handing over a least entry keeps what was handed over below what is left. */
  lemma ForwardStep(sent: seq<Message>, before: seq<Message>, m: Message, after: seq<Message>)
    requires Below(sent, before) && Ascending(sent) && m in before && Below([m], after) && Within(after, before)
    ensures Below(sent + [m], after) && Ascending(sent + [m])
  {
    BelowWithin(sent, before, after);
    assert [m][0] == m;
  }

  // ---- What a tick takes in ----

  datatype Intake = Intake(held: seq<Message>, refused: seq<Message>)

  /** Message by message: refused when known elsewhere or when its hash is held, held otherwise. */
  function TakenIn(heap: seq<Message>, messages: seq<Message>, known: seq<bool>): Intake
    requires |known| == |messages|
  {
    if messages == [] then Intake(heap, [])
    else
      var n := |messages| - 1;
      var before := TakenIn(heap, messages[..n], known[..n]);
      if known[n] || Holds(before.held, messages[n].tx.hash) then before.(refused := before.refused + [messages[n]])
      else before.(held := before.held + [messages[n]])
  }

  /** Message `i` is known, or its hash was held before the tick, or an earlier message of the tick brought it. */
  ghost predicate Turned(heap: seq<Message>, messages: seq<Message>, known: seq<bool>, i: nat)
    requires |known| == |messages| && i < |messages|
  {
    known[i] || Holds(heap, messages[i].tx.hash) || Brought(messages[..i], known[..i], messages[i].tx.hash)
  }

  ghost predicate Brought(messages: seq<Message>, known: seq<bool>, h: Hash)
    requires |known| == |messages|
  {
    exists j :: 0 <= j < |messages| && !known[j] && messages[j].tx.hash == h
  }

  lemma BroughtStep(messages: seq<Message>, known: seq<bool>, h: Hash)
    requires |known| == |messages| && messages != []
    ensures var n := |messages| - 1;
            Brought(messages, known, h) <==>
                Brought(messages[..n], known[..n], h) || (!known[n] && messages[n].tx.hash == h)
  {
    var n := |messages| - 1;
    if Brought(messages[..n], known[..n], h) {
      var j :| 0 <= j < n && !known[..n][j] && messages[..n][j].tx.hash == h;
      assert messages[j].tx.hash == h && !known[j];
    }
    if Brought(messages, known, h) {
      var j :| 0 <= j < |messages| && !known[j] && messages[j].tx.hash == h;
      if j < n { assert messages[..n][j].tx.hash == h && !known[..n][j]; }
    }
  }

  lemma HoldsAppend(heap: seq<Message>, m: Message, h: Hash)
    ensures Holds(heap + [m], h) <==> Holds(heap, h) || h == m.tx.hash
  {
    if Holds(heap, h) {
      var k :| 0 <= k < |heap| && heap[k].tx.hash == h;
      assert (heap + [m])[k] == heap[k];
    }
    assert (heap + [m])[|heap|] == m;
  }

  /** A hash is held afterwards exactly when it was before or some message not known elsewhere brought it. */
  lemma {:induction false} IntakeHolds(heap: seq<Message>, messages: seq<Message>, known: seq<bool>, h: Hash)
    requires |known| == |messages|
    ensures Holds(TakenIn(heap, messages, known).held, h) <==> Holds(heap, h) || Brought(messages, known, h)
  {
    if messages != [] {
      var n := |messages| - 1;
      var before := TakenIn(heap, messages[..n], known[..n]);
      IntakeHolds(heap, messages[..n], known[..n], h);
      BroughtStep(messages, known, h);
      HoldsAppend(before.held, messages[n], h);
    }
  }

  lemma {:induction false} IntakeConserves(heap: seq<Message>, messages: seq<Message>, known: seq<bool>)
    requires |known| == |messages|
    ensures var t := TakenIn(heap, messages, known);
            heap <= t.held && Splits(multiset(heap) + multiset(messages), t.refused, t.held)
  {
    if messages != [] {
      var n := |messages| - 1;
      var before := TakenIn(heap, messages[..n], known[..n]);
      IntakeConserves(heap, messages[..n], known[..n]);
      PrefixSplit(multiset(heap), messages, n, before.refused, before.held);
      assert messages[..n + 1] == messages;
    }
  }

  /** Exactly the turned messages are refused: of the first `n`. */
  ghost predicate Sorted(heap: seq<Message>, messages: seq<Message>, known: seq<bool>, n: nat, t: Intake)
    requires |known| == |messages| && n <= |messages|
  {
    && (forall i :: 0 <= i < n && Turned(heap, messages, known, i) ==> messages[i] in t.refused)
    && (forall i :: 0 <= i < n && !Turned(heap, messages, known, i) ==> messages[i] in t.held)
    && (forall m :: m in t.refused ==> exists i :: 0 <= i < n && messages[i] == m && Turned(heap, messages, known, i))
  }

  lemma TakenStep(heap: seq<Message>, messages: seq<Message>, known: seq<bool>, n: nat)
    requires |known| == |messages| && n < |messages|
    ensures var before := TakenIn(heap, messages[..n], known[..n]);
            TakenIn(heap, messages[..n + 1], known[..n + 1]) ==
              if Turned(heap, messages, known, n) then before.(refused := before.refused + [messages[n]])
              else before.(held := before.held + [messages[n]])
  {
    IntakeHolds(heap, messages[..n], known[..n], messages[n].tx.hash);
    assert messages[..n + 1][..n] == messages[..n] && known[..n + 1][..n] == known[..n];
  }

  lemma SortedStep(heap: seq<Message>, messages: seq<Message>, known: seq<bool>, n: nat, t: Intake, t': Intake)
    requires |known| == |messages| && n < |messages| && Sorted(heap, messages, known, n, t)
    requires t' == if Turned(heap, messages, known, n) then t.(refused := t.refused + [messages[n]])
                   else t.(held := t.held + [messages[n]])
    ensures Sorted(heap, messages, known, n + 1, t')
  {
    forall m | m in t'.refused
      ensures exists i :: 0 <= i < n + 1 && messages[i] == m && Turned(heap, messages, known, i)
    {
      if m in t.refused {
        var i :| 0 <= i < n && messages[i] == m && Turned(heap, messages, known, i);
      } else {
        assert messages[n] == m;
      }
    }
  }

  lemma {:induction false} IntakeSorted(heap: seq<Message>, messages: seq<Message>, known: seq<bool>, n: nat)
    requires |known| == |messages| && n <= |messages|
    ensures Sorted(heap, messages, known, n, TakenIn(heap, messages[..n], known[..n]))
  {
    if n > 0 {
      IntakeSorted(heap, messages, known, n - 1);
      TakenStep(heap, messages, known, n - 1);
      SortedStep(heap, messages, known, n - 1, TakenIn(heap, messages[..n - 1], known[..n - 1]),
                 TakenIn(heap, messages[..n], known[..n]));
    }
  }

  class Mempool {
    var heap: seq<Message>
    var index: map<Hash, Tx>

    ghost predicate Valid()
      reads this
    {
      Indexed(heap, index)
    }

    constructor ()
      ensures Valid() && heap == []
    {
      heap, index := [], map[];
    }

    method Push(m: Message)
      requires Valid() && m.tx.hash !in index
      modifies this
      ensures Valid() && heap == old(heap) + [m] && index == old(index)[m.tx.hash := m.tx]
    {
      AppendIndexed(heap, index, m);
      heap := heap + [m];
      index := index[m.tx.hash := m.tx];
    }

    /** The heap gives out an entry of least total; ties go either way. */
    method Pop() returns (o: Option<Message>)
      requires Valid()
      modifies this
      ensures Valid() && (o.None? <==> old(heap) == []) && (o.None? ==> heap == [])
      ensures o.Some? ==> multiset(old(heap)) == multiset(heap) + multiset{o.value}
      ensures o.Some? ==> Below([o.value], heap) && Within(heap, old(heap))
      ensures o.Some? ==> o.value.tx.hash !in index && o.value in old(heap)
    {
      if heap == [] { return None; }
      var least := 0;
      for i := 1 to |heap|
        invariant 0 <= least < |heap|
        invariant forall k :: 0 <= k < i ==> heap[least].tx.total <= heap[k].tx.total
      {
        if heap[i].tx.total < heap[least].tx.total { least := i; }
      }
      WithoutFacts(heap, least);
      RemoveIndexed(heap, index, least);
      o := Some(heap[least]);
      index := index - {heap[least].tx.hash};
      heap := Without(heap, least);
    }

    /** Take in messages; a message whose hash is indexed, or known elsewhere, is refused. */
    method TakeIn(messages: seq<Message>, known: seq<bool>) returns (refused: seq<Message>)
      requires Valid() && |known| == |messages|
      modifies this
      ensures Valid() && old(heap) <= heap
      ensures Intake(heap, refused) == TakenIn(old(heap), messages, known)
      ensures multiset(old(heap)) + multiset(messages) == multiset(refused) + multiset(heap)
      ensures forall i :: 0 <= i < |messages| && Turned(old(heap), messages, known, i) ==> messages[i] in refused
      ensures forall i :: 0 <= i < |messages| && !Turned(old(heap), messages, known, i) ==> messages[i] in heap
    {
      refused := [];
      for i := 0 to |messages|
        invariant Valid() && Intake(heap, refused) == TakenIn(old(heap), messages[..i], known[..i])
      {
        var m := messages[i];
        assert messages[..i + 1][..i] == messages[..i] && known[..i + 1][..i] == known[..i];
        if m.tx.hash in index || known[i] {
          refused := refused + [m];
        } else {
          Push(m);
        }
      }
      assert messages[..|messages|] == messages && known[..|messages|] == known;
      IntakeConserves(old(heap), messages, known);
      IntakeSorted(old(heap), messages, known, |messages|);
    }

    /** Pop one entry and offer it to the channel; a full channel gives it back. */
    method Offer(outcome: SendOutcome) returns (r: Offered)
      requires Valid()
      modifies this
      ensures Valid() && (r.Empty? <==> old(heap) == [])
      ensures r.Empty? ==> heap == []
      ensures !r.Empty? ==> (r.Handed? <==> outcome.Sent?) && (r.Blocked? <==> outcome.Full?) && (r.Lost? <==>
                outcome.Disconnected?)
      ensures r.Blocked? ==> heap != [] && multiset(heap) == multiset(old(heap)) && Within(heap, old(heap))
      ensures r.Handed? || r.Lost? ==> Splits(multiset(old(heap)), [r.message], heap) && |heap| + 1 == |old(heap)|
      ensures r.Handed? ==> r.message in old(heap) && Below([r.message], heap) && Within(heap, old(heap))
    {
      var o := Pop();
      if o.None? { return Empty; }
      assert |multiset(old(heap))| == |multiset(heap)| + 1;
      match outcome {
        case Sent => r := Handed(o.value);
        case Full =>
          ghost var rest := heap;
          Push(o.value);
          assert multiset(heap) == multiset(rest) + multiset{o.value};
          r := Blocked;
        case Disconnected => r := Lost(o.value);
      }
    }

    /** Hand entries over, least total first, until the heap is empty or the channel full. */
    method Forward(outcome: nat -> SendOutcome) returns (sent: seq<Message>, ok: bool)
      requires Valid()
      modifies this
      ensures Valid()
      ensures ok ==> Splits(multiset(old(heap)), sent, heap)
      ensures ok ==> Below(sent, heap) && Ascending(sent)
      ensures ok && heap != [] ==> outcome(|sent|) == Full
      ensures forall k :: 0 <= k < |sent| ==> outcome(k) == Sent
      ensures !ok ==> outcome(|sent|) == Disconnected && |sent| + |heap| + 1 == |old(heap)|
    {
      sent, ok := [], true;
      while true
        invariant ok && Valid() && |sent| + |heap| == |old(heap)|
        invariant Splits(multiset(old(heap)), sent, heap)
        invariant Below(sent, heap) && Ascending(sent)
        invariant forall k :: 0 <= k < |sent| ==> outcome(k) == Sent
        decreases |heap|
      {
        ghost var before := heap;
        var r := Offer(outcome(|sent|));
        if r.Lost? { return sent, false; }
        if r.Handed? {
          ForwardStep(sent, before, r.message, heap);
          SplitMove(multiset(old(heap)), sent, before, r.message, heap);
          sent := sent + [r.message];
        } else {
          if r.Blocked? { BelowWithin(sent, before, heap); }
          return;
        }
      }
    }

    /** One tick: take in what arrived, then hand over what the channel takes. */
    method IntervalFold(messages: seq<Message>, known: seq<bool>, outcome: nat -> SendOutcome)
      returns (refused: seq<Message>, sent: seq<Message>, ok: bool)
      requires Valid() && |known| == |messages|
      modifies this
      ensures Valid() && refused == TakenIn(old(heap), messages, known).refused
      ensures ok ==> Tick(old(heap), messages, known, refused, sent, heap)
      ensures ok && heap != [] ==> outcome(|sent|) == Full
    {
      refused := TakeIn(messages, known);
      sent, ok := Forward(outcome);
    }
  }

  /** A successful tick: exactly the turned messages are refused; what is taken in is forwarded, in ascending
      order of total, or left, with nothing left smaller than anything forwarded. */
  ghost predicate Tick(before: seq<Message>, messages: seq<Message>, known: seq<bool>, refused: seq<Message>,
                       sent: seq<Message>, after: seq<Message>)
  {
    && |known| == |messages| && refused == TakenIn(before, messages, known).refused
    && Splits(multiset(TakenIn(before, messages, known).held), sent, after)
    && Below(sent, after) && Ascending(sent)
  }

  // ---- Runs of ticks ----

  datatype TickRecord = TickRecord(messages: seq<Message>, known: seq<bool>, refused: seq<Message>, sent: seq<Message>,
                                   held: seq<Message>)

  function HeldAfter(ticks: seq<TickRecord>): seq<Message> {
    if ticks == [] then [] else ticks[|ticks| - 1].held
  }

  ghost predicate TickOk(before: seq<Message>, t: TickRecord) {
    Tick(before, t.messages, t.known, t.refused, t.sent, t.held)
  }

  ghost predicate IsRun(ticks: seq<TickRecord>) {
    ticks != [] ==> IsRun(ticks[..|ticks| - 1]) && TickOk(HeldAfter(ticks[..|ticks| - 1]), ticks[|ticks| - 1])
  }

  ghost function Received(ticks: seq<TickRecord>): multiset<Message> {
    if ticks == [] then multiset{} else Received(ticks[..|ticks| - 1]) + multiset(ticks[|ticks| - 1].messages)
  }

  ghost function Refused(ticks: seq<TickRecord>): multiset<Message> {
    if ticks == [] then multiset{} else Refused(ticks[..|ticks| - 1]) + multiset(ticks[|ticks| - 1].refused)
  }

  /** Everything forwarded, in order. */
  function Forwarded(ticks: seq<TickRecord>): seq<Message> {
    if ticks == [] then [] else Forwarded(ticks[..|ticks| - 1]) + ticks[|ticks| - 1].sent
  }

  lemma Balance(received: multiset<Message>, refused: multiset<Message>, sent: multiset<Message>,
                held: multiset<Message>, arrived: multiset<Message>, out: multiset<Message>, taken: multiset<Message>,
                forwarded: multiset<Message>, left: multiset<Message>)
    requires received == refused + sent + held && held + arrived == out + taken && taken == forwarded + left
    ensures received + arrived == (refused + out) + (sent + forwarded) + left
  {
    assert received + arrived == refused + sent + (held + arrived);
    assert refused + sent + (out + taken) == (refused + out) + (sent + forwarded) + left;
  }

  /** Over every run of successful ticks from the empty pool, each message received was refused once, or
      forwarded once, or is held once. */
  lemma {:induction false} RunConserves(ticks: seq<TickRecord>)
    requires IsRun(ticks)
    ensures Received(ticks) == Refused(ticks) + multiset(Forwarded(ticks)) + multiset(HeldAfter(ticks))
    ensures HashesDistinct(HeldAfter(ticks))
  {
    HeldDistinct(ticks);
    if ticks != [] {
      var front, t := ticks[..|ticks| - 1], ticks[|ticks| - 1];
      RunConserves(front);
      IntakeConserves(HeldAfter(front), t.messages, t.known);
      var taken := TakenIn(HeldAfter(front), t.messages, t.known).held;
      Balance(Received(front), Refused(front), multiset(Forwarded(front)), multiset(HeldAfter(front)),
              multiset(t.messages), multiset(t.refused), multiset(taken), multiset(t.sent), multiset(t.held));
    }
  }

  /** In every tick of every run a message is refused exactly when it is known or its hash was already held. */
  lemma {:induction false} RunRefuses(ticks: seq<TickRecord>, k: nat)
    requires IsRun(ticks) && k < |ticks|
    ensures var t := ticks[k]; var before := HeldAfter(ticks[..k]);
            && |t.known| == |t.messages|
            && t.refused == TakenIn(before, t.messages, t.known).refused
            && Sorted(before, t.messages, t.known, |t.messages|, TakenIn(before, t.messages, t.known))
  {
    var n := |ticks| - 1;
    if k < n {
      RunRefuses(ticks[..n], k);
      assert ticks[..n][..k] == ticks[..k];
    } else {
      var t := ticks[n];
      IntakeSorted(HeldAfter(ticks[..n]), t.messages, t.known, |t.messages|);
      assert t.messages[..|t.messages|] == t.messages && t.known[..|t.messages|] == t.known;
    }
  }

  lemma TakenGoesOn(before: seq<Message>, t: TickRecord, m: Message)
    requires TickOk(before, t) && m in TakenIn(before, t.messages, t.known).held
    ensures m in t.sent || m in t.held
  {
    assert m in multiset(t.sent) + multiset(t.held);
  }

  /** Whatever was not refused has been forwarded or is still held. */
  lemma {:induction false} NothingDropped(ticks: seq<TickRecord>, k: nat, i: nat)
    requires IsRun(ticks) && k < |ticks| && i < |ticks[k].messages| == |ticks[k].known|
    requires !Turned(HeldAfter(ticks[..k]), ticks[k].messages, ticks[k].known, i)
    ensures ticks[k].messages[i] in Forwarded(ticks) || ticks[k].messages[i] in HeldAfter(ticks)
  {
    var n := |ticks| - 1;
    var m := ticks[k].messages[i];
    var t := ticks[n];
    if k < n {
      assert ticks[..n][..k] == ticks[..k];
      NothingDropped(ticks[..n], k, i);
      if m in HeldAfter(ticks[..n]) {
        IntakeConserves(HeldAfter(ticks[..n]), t.messages, t.known);
        TakenGoesOn(HeldAfter(ticks[..n]), t, m);
      }
    } else {
      RunRefuses(ticks, n);
      TakenGoesOn(HeldAfter(ticks[..n]), t, m);
    }
  }

  // ---- No hash is forwarded twice ----

  lemma {:induction false} OnceAmong(s: seq<Message>, m: Message)
    requires HashesDistinct(s)
    ensures multiset(s)[m] <= 1
  {
    if s != [] {
      var n := |s| - 1;
      OnceAmong(s[..n], m);
      assert s == s[..n] + [s[n]];
      if m == s[n] { assert m !in s[..n]; }
    }
  }

  lemma DistinctRearranged(a: seq<Message>, b: seq<Message>)
    requires multiset(a) == multiset(b) && HashesDistinct(a)
    ensures HashesDistinct(b)
  {
    forall i, j | 0 <= i < j < |b| ensures b[i].tx.hash != b[j].tx.hash {
      assert b[i] in multiset(a) && b[j] in multiset(a);
      var p :| 0 <= p < |a| && a[p] == b[i];
      var q :| 0 <= q < |a| && a[q] == b[j];
      OnceAmong(a, b[i]);
      if b[i] == b[j] { TwiceIn(b, i, j); }
    }
  }

  lemma DistinctAppend(s: seq<Message>, m: Message)
    requires HashesDistinct(s) && !Holds(s, m.tx.hash)
    ensures HashesDistinct(s + [m])
  {}

  lemma HoldsConcat(a: seq<Message>, b: seq<Message>, h: Hash)
    ensures Holds(a + b, h) ==> Holds(a, h) || Holds(b, h)
  {
    if Holds(a + b, h) {
      var i :| 0 <= i < |a + b| && (a + b)[i].tx.hash == h;
      if i < |a| { assert a[i].tx.hash == h; } else { assert b[i - |a|].tx.hash == h; }
    }
  }

  lemma {:induction false} IntakeApart(past: seq<Message>, heap: seq<Message>, messages: seq<Message>, known: seq<bool>)
    requires |known| == |messages| && HashesDistinct(past + heap)
    requires forall i :: 0 <= i < |messages| && Holds(past, messages[i].tx.hash) ==> known[i]
    ensures HashesDistinct(past + TakenIn(heap, messages, known).held)
  {
    if messages != [] {
      var n := |messages| - 1;
      var before := TakenIn(heap, messages[..n], known[..n]);
      IntakeApart(past, heap, messages[..n], known[..n]);
      if !known[n] && !Holds(before.held, messages[n].tx.hash) {
        HoldsConcat(past, before.held, messages[n].tx.hash);
        DistinctAppend(past + before.held, messages[n]);
        assert past + before.held + [messages[n]] == past + (before.held + [messages[n]]);
      }
    }
  }

  lemma SuffixDistinct(a: seq<Message>, b: seq<Message>)
    requires HashesDistinct(a + b)
    ensures HashesDistinct(b)
  {
    assert forall i :: 0 <= i < |b| ==> b[i] == (a + b)[|a| + i];
  }

  /** Whatever is known elsewhere, the pool never holds a hash twice. */
  lemma {:induction false} HeldDistinct(ticks: seq<TickRecord>)
    requires IsRun(ticks)
    ensures HashesDistinct(HeldAfter(ticks))
  {
    if ticks != [] {
      var front, t := ticks[..|ticks| - 1], ticks[|ticks| - 1];
      var taken := TakenIn(HeldAfter(front), t.messages, t.known).held;
      HeldDistinct(front);
      assert [] + HeldAfter(front) == HeldAfter(front) && [] + taken == taken;
      IntakeApart([], HeldAfter(front), t.messages, t.known);
      DistinctRearranged(taken, t.sent + t.held);
      SuffixDistinct(t.sent, t.held);
    }
  }

  /** What was forwarded counts as known. It does while it is processed and once it is stored, but not after it
      was rejected. */
  ghost predicate KnowsForwarded(ticks: seq<TickRecord>) {
    ticks != [] ==>
      var front, t := ticks[..|ticks| - 1], ticks[|ticks| - 1];
      && KnowsForwarded(front) && |t.known| == |t.messages|
      && forall i :: 0 <= i < |t.messages| && Holds(Forwarded(front), t.messages[i].tx.hash) ==> t.known[i]
  }

  /** As long as forwarded transactions are known, no hash is forwarded twice, nor held once forwarded. */
  lemma {:induction false} ForwardedOnce(ticks: seq<TickRecord>)
    requires IsRun(ticks) && KnowsForwarded(ticks)
    ensures HashesDistinct(Forwarded(ticks) + HeldAfter(ticks))
  {
    if ticks != [] {
      var front, t := ticks[..|ticks| - 1], ticks[|ticks| - 1];
      var past := Forwarded(front);
      var taken := TakenIn(HeldAfter(front), t.messages, t.known).held;
      ForwardedOnce(front);
      IntakeApart(past, HeldAfter(front), t.messages, t.known);
      assert multiset(past + taken) == multiset(past + t.sent + t.held);
      DistinctRearranged(past + taken, past + t.sent + t.held);
    }
  }
}
