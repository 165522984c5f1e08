/** The shared state of the node as the transaction tasks update it: registration on a pool, the receive
    window, the resolution and the abort messages, each proved to take the steps of module Contention. */
module Relays {
  import opened Hashes
  import opened Ledger
  import opened Contention
  import opened ContentionInvariant
  import opened ContentionRace

  // ---- Resolution by least hash ----

  /** The trust of the observers and the start time are collected but never compared. */
  datatype Weighted = Weighted(trust: real, start: int, hash: Hash)

  ghost predicate SortedByHash(list: seq<Weighted>) {
    forall i, j :: 0 <= i < j < |list| ==> !Less(list[j].hash, list[i].hash)
  }

  /** Insert `w` behind everything that is not greater. */
  method InsertByHash(list: seq<Weighted>, w: Weighted) returns (out: seq<Weighted>)
    requires SortedByHash(list)
    ensures SortedByHash(out) && multiset(out) == multiset(list) + multiset{w}
  {
    var i := |list|;
    while i > 0 && Less(w.hash, list[i - 1].hash)
      invariant 0 <= i <= |list|
      invariant forall j :: i <= j < |list| ==> Less(w.hash, list[j].hash)
    {
      i := i - 1;
    }
    out := list[..i] + [w] + list[i..];
    assert list == list[..i] + list[i..];
    forall j | 0 <= j < i ensures !Less(w.hash, list[j].hash) {
      if j < i - 1 && Less(w.hash, list[j].hash) { LessAtOrBelow(w.hash, list[j].hash, list[i - 1].hash); }
    }
    forall j | i <= j < |list| ensures !Less(list[j].hash, w.hash) { LessAsymmetric(w.hash, list[j].hash); }
    InsertedSorted(list, w, i);
  }

  lemma InsertedSorted(list: seq<Weighted>, w: Weighted, i: nat)
    requires SortedByHash(list) && i <= |list|
    requires forall j :: 0 <= j < i ==> !Less(w.hash, list[j].hash)
    requires forall j :: i <= j < |list| ==> !Less(list[j].hash, w.hash)
    ensures SortedByHash(list[..i] + [w] + list[i..])
  {}

  lemma LessAtOrBelow(a: Hash, b: Hash, c: Hash)
    requires Less(a, b) && !Less(c, b)
    ensures Less(a, c)
  {
    if b != c {
      LessTotal(b, c);
      LessTransitive(a, b, c);
    }
  }

  ghost predicate HashIn(list: seq<Weighted>, h: Hash) {
    exists i :: 0 <= i < |list| && list[i].hash == h
  }

  lemma HashInInserted(list: seq<Weighted>, w: Weighted, out: seq<Weighted>, h: Hash)
    requires multiset(out) == multiset(list) + multiset{w}
    ensures HashIn(out, h) <==> HashIn(list, h) || h == w.hash
  {
    if HashIn(out, h) {
      var i :| 0 <= i < |out| && out[i].hash == h;
      assert out[i] in multiset(out);
      assert out[i] in multiset(list) || out[i] == w;
    }
    if HashIn(list, h) {
      var i :| 0 <= i < |list| && list[i].hash == h;
      assert list[i] in multiset(out);
    }
    assert w in multiset(out);
  }

  /** The winner of a list of conflicts: sort by hash, take the first. */
  method ResolveConflict(conflicts: seq<Conflict>, trust: Hash -> real) returns (winner: Hash)
    requires conflicts != []
    ensures winner == Least(conflicts)
    ensures Has(conflicts, winner)
    ensures forall i :: 0 <= i < |conflicts| ==> conflicts[i].hash == winner || Precedes(winner, conflicts[i].hash)
  {
    var sorted: seq<Weighted> := [];
    for i := 0 to |conflicts|
      invariant SortedByHash(sorted) && (i > 0 ==> sorted != [])
      invariant forall h :: HashIn(sorted, h) <==> Has(conflicts[..i], h)
    {
      var c := conflicts[i];
      ghost var before := sorted;
      var w := Weighted(-1.0 * trust(c.hash), c.start, c.hash);
      sorted := InsertByHash(sorted, w);
      assert conflicts[..i + 1] == conflicts[..i] + [c] && [c][0] == c;
      forall h ensures HashIn(sorted, h) <==> Has(conflicts[..i + 1], h) {
        HashInInserted(before, w, sorted, h);
        HasConcat(conflicts[..i], [c], h);
      }
      assert w in multiset(sorted);
    }
    assert conflicts[..|conflicts|] == conflicts;
    winner := sorted[0].hash;
    LeastFacts(conflicts);
    assert HashIn(sorted, winner) && HashIn(sorted, Least(conflicts));
    forall i | 0 <= i < |conflicts| ensures conflicts[i].hash == winner || Precedes(winner, conflicts[i].hash) {
      LessIff(winner, conflicts[i].hash);
    }
  }

  /** The winner depends on the hashes in the list alone: not on their order, nor on repeats, nor on abort
      flags and start times. */
  lemma WinnerDependsOnHashes(a: seq<Conflict>, b: seq<Conflict>)
    requires a != [] && b != [] && forall h :: Has(a, h) <==> Has(b, h)
    ensures Least(a) == Least(b)
  {
    LeastFacts(a);
    LeastFacts(b);
    var i :| 0 <= i < |a| && a[i].hash == Least(b);
    var j :| 0 <= j < |b| && b[j].hash == Least(a);
    if Least(a) != Least(b) { LessAsymmetric(Least(a), Least(b)); }
  }

  // ---- The tasks ----

  function Repeat(a: Action, n: nat): (acts: seq<Action>)
    ensures |acts| == n
  {
    seq(n, i => a)
  }

  lemma RepeatStep(s: State, a: Action, n: nat)
    requires IsRun(s, Repeat(a, n)) && Enabled(After(s, Repeat(a, n)), a)
    ensures IsRun(s, Repeat(a, n + 1)) && After(s, Repeat(a, n + 1)) == Next(After(s, Repeat(a, n)), a)
  {
    RunAppend(s, Repeat(a, n), a);
    assert Repeat(a, n) + [a] == Repeat(a, n + 1);
  }

  class Relay {
    var tables: Tables
    var pools: map<UtxoId, seq<Conflict>>
    var tasks: map<Hash, Task>
    ghost var history: seq<Tx>

    ghost function State(): State
      reads this
    {
      Contention.State(tables, pools, tasks, history)
    }

    /** Send one message into the channel of a task. */
    method Send(to: Hash, c: Conflict)
      requires to in tasks
      modifies this`tasks
      ensures tasks == old(tasks)[to := Deliver(old(tasks)[to], c)]
    {
      tasks := tasks[to := Deliver(tasks[to], c)];
    }

    /** Every active request of a pool is sent the notice. */
    method Notify(active: seq<Conflict>, notice: Conflict)
      requires forall i :: 0 <= i < |active| ==> active[i].hash in tasks
      requires forall i, j :: 0 <= i < j < |active| ==> active[i].hash != active[j].hash
      modifies this`tasks
      ensures tasks == Broadcast(old(tasks), active, notice)
    {
      for i := 0 to |active|
        invariant tasks == Broadcast(old(tasks), active[..i], notice)
      {
        PrefixHas(active, i);
        Send(active[i].hash, notice);
      }
      assert active[..|active|] == active;
    }

    /** Registration on the pool of the next consumed output: every active request becomes a conflict and is
        sent a notice. */
    method Register(h: Hash)
      requires Inv(State()) && Enabled(State(), Action.Register(h))
      modifies this`pools, this`tasks
      ensures State() == Next(old(State()), Action.Register(h))
    {
      var t := tasks[h];
      var u := Ids(t)[t.phase.next];
      var notice := Notice(t, false);
      var active := [];
      if u in pools {
        PoolFacts(State(), h, u);
        active := pools[u];
      }
      Notify(active, notice);
      pools := pools[u := active + [notice]];
      tasks := tasks[h := t.(conflicts := t.conflicts + active, phase := ToRegister(t, t.phase.next + 1))];
    }

    /** The receive window: at most `limit` messages are read; an abort ends it. */
    method Listen(h: Hash, limit: nat) returns (n: nat)
      requires h in tasks && tasks[h].phase.Listening?
      modifies this`tasks
      ensures n <= limit && IsRun(old(State()), Repeat(Receive(h), n))
      ensures State() == After(old(State()), Repeat(Receive(h), n))
      ensures h in tasks && (n == limit || tasks[h].channel == [] || tasks[h].phase.Rejected?)
    {
      n := 0;
      while n < limit && tasks[h].phase.Listening? && tasks[h].channel != []
        invariant n <= limit && h in tasks && (tasks[h].phase.Listening? || tasks[h].phase.Rejected?)
        invariant tables == old(tables) && pools == old(pools) && history == old(history)
        invariant IsRun(old(State()), Repeat(Receive(h), n)) && State() == After(old(State()), Repeat(Receive(h), n))
      {
        RepeatStep(old(State()), Receive(h), n);
        tasks := tasks[h := AfterReceive(tasks[h])];
        n := n + 1;
      }
    }

    /** The window is over: with conflicts, only the least hash goes on. */
    method Resolve(h: Hash, trust: Hash -> real)
      requires Enabled(State(), Action.Resolve(h))
      modifies this`tasks
      ensures State() == Next(old(State()), Action.Resolve(h))
    {
      var t := tasks[h];
      var phase := Inserting;
      if t.conflicts != [] {
        var winner := ResolveConflict(t.conflicts + [Notice(t, true)], trust);
        phase := if winner != t.tx.hash then Rejected(Lost(winner)) else Announcing(0);
      }
      tasks := tasks[h := t.(phase := phase)];
    }

    /** The winner tells its next conflict to abort. */
    method AnnounceOne(h: Hash)
      requires Enabled(State(), Announce(h))
      modifies this`tasks
      ensures State() == Next(old(State()), Announce(h))
    {
      var t := tasks[h];
      var n := t.phase.next;
      Send(t.conflicts[n].hash, Notice(t, true));
      tasks := tasks[h := tasks[h].(phase := if n + 1 < |t.conflicts| then Announcing(n + 1) else Inserting)];
    }

    /** The winner tells every conflict to abort. */
    method AnnounceAll(h: Hash)
      requires Inv(State()) && h in tasks && tasks[h].phase == Announcing(0) && tasks[h].conflicts != []
      modifies this`tasks
      ensures h in old(tasks) && AnnouncedSoFar(old(State()), h, |old(tasks)[h].conflicts|, State())
      ensures h in tasks && tasks[h].phase.Inserting?
    {
      var count := |tasks[h].conflicts|;
      var n := 0;
      while n < count
        invariant 0 <= n <= count && AnnouncedSoFar(old(State()), h, n, State()) && AtAnnouncement(State(), h, n, count)
      {
        AnnounceStep(old(State()), h, n, count, State());
        AnnounceOne(h);
        n := n + 1;
      }
    }
  }

  /** `e` is reached from `s` by `n` announcements of `h`. */
  ghost predicate AnnouncedSoFar(s: State, h: Hash, n: nat, e: State) {
    IsRun(s, Repeat(Announce(h), n)) && e == After(s, Repeat(Announce(h), n))
  }

  ghost predicate AtAnnouncement(s: State, h: Hash, n: nat, count: nat) {
    h in s.tasks && |s.tasks[h].conflicts| == count &&
        s.tasks[h].phase == if n < count then Announcing(n) else Inserting
  }

  lemma AnnounceReady(s: State, h: Hash, n: nat, count: nat, e: State)
    requires Inv(s) && AnnouncedSoFar(s, h, n, e) && n < count && AtAnnouncement(e, h, n, count)
    ensures Enabled(e, Announce(h)) && e.tasks[h].conflicts[n].hash != h
  {
    InvFrom(s, Repeat(Announce(h), n));
    ConflictIsTask(e, h, n);
  }

  lemma AnnounceStep(s: State, h: Hash, n: nat, count: nat, e: State)
    requires Inv(s) && AnnouncedSoFar(s, h, n, e) && n < count && AtAnnouncement(e, h, n, count)
    ensures Enabled(e, Announce(h))
    ensures AnnouncedSoFar(s, h, n + 1, Announced(e, h)) && AtAnnouncement(Announced(e, h), h, n + 1, count)
  {
    AnnounceReady(s, h, n, count, e);
    RepeatStep(s, Announce(h), n);
  }

  lemma PoolFacts(s: State, h: Hash, u: UtxoId)
    requires Inv(s) && Enabled(s, Action.Register(h)) && u == Ids(s.tasks[h])[s.tasks[h].phase.next] && u in s.pools
    ensures forall i :: 0 <= i < |s.pools[u]| ==> s.pools[u][i].hash in s.tasks && s.pools[u][i].hash != h
    ensures forall i, j :: 0 <= i < j < |s.pools[u]| ==> s.pools[u][i].hash != s.pools[u][j].hash
  {
    var pool := s.pools[u];
    assert PoolOk(s, u, pool) && TaskOk(s.pools, h, s.tasks[h]);
    forall i | 0 <= i < |pool| ensures pool[i].hash in s.tasks && pool[i].hash != h {
      assert Member(s, u, pool[i]);
      assert Has(pool, pool[i].hash);
      assert !InPool(s.pools, u, h);
    }
    forall i, j | 0 <= i < j < |pool| ensures pool[i].hash != pool[j].hash {
      assert Aware(s.tasks[pool[i].hash], pool[i].hash, s.tasks[pool[j].hash], pool[j].hash);
    }
  }

  lemma PrefixHas(pool: seq<Conflict>, i: nat)
    requires i < |pool| && forall j, k :: 0 <= j < k < |pool| ==> pool[j].hash != pool[k].hash
    ensures !Has(pool[..i], pool[i].hash)
    ensures forall x :: Has(pool[..i + 1], x) <==> Has(pool[..i], x) || x == pool[i].hash
  {
    assert pool[..i + 1] == pool[..i] + [pool[i]];
    forall x ensures Has(pool[..i + 1], x) <==> Has(pool[..i], x) || x == pool[i].hash {
      HasConcat(pool[..i], [pool[i]], x);
      assert [pool[i]][0] == pool[i];
    }
  }
}
