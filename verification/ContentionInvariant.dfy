/** Every step of the protocol, whichever task takes it, keeps the invariant of module Contention. */
module ContentionInvariant {
  import opened Hashes
  import opened Ledger
  import opened Contention

  lemma HasConcat(a: seq<Conflict>, b: seq<Conflict>, h: Hash)
    ensures Has(a + b, h) <==> Has(a, h) || Has(b, h)
  {
    if Has(a, h) {
      var i :| 0 <= i < |a| && a[i].hash == h;
      assert (a + b)[i].hash == h;
    }
    if Has(b, h) {
      var i :| 0 <= i < |b| && b[i].hash == h;
      assert (a + b)[|a| + i].hash == h;
    }
  }

  lemma NotifiedAppend(channel: seq<Conflict>, c: Conflict, h: Hash)
    ensures Notified(channel, h) ==> Notified(channel + [c], h)
    ensures !c.abort ==> Notified(channel + [c], c.hash)
  {
    if Notified(channel, h) {
      var i :| 0 <= i < |channel| && channel[i].hash == h && !channel[i].abort;
      assert (channel + [c])[i] == channel[i];
    }
    assert (channel + [c])[|channel|] == c;
  }

  /** What a task may do to itself without breaking the awareness of its pools. */
  ghost predicate Keeps(t: Task, t': Task) {
    && t'.tx == t.tx
    && (forall x :: Has(t.conflicts, x) ==> Has(t'.conflicts, x))
    && (forall x :: Notified(t.channel, x) ==> Notified(t'.channel, x) || Has(t'.conflicts, x))
  }

  lemma PoolKeeps(s: State, s': State, u: UtxoId, pool: seq<Conflict>)
    requires PoolOk(s, u, pool)
    requires forall x :: x in s.tasks ==> x in s'.tasks && Keeps(s.tasks[x], s'.tasks[x])
    ensures PoolOk(s', u, pool)
  {
    forall i | 0 <= i < |pool| ensures Member(s', u, pool[i]) {
      assert Member(s, u, pool[i]);
    }
    forall i, j | 0 <= i < j < |pool|
      ensures Aware(s'.tasks[pool[i].hash], pool[i].hash, s'.tasks[pool[j].hash], pool[j].hash)
    {
      assert Member(s, u, pool[i]) && Member(s, u, pool[j]);
      assert Aware(s.tasks[pool[i].hash], pool[i].hash, s.tasks[pool[j].hash], pool[j].hash);
    }
  }

  /** A step that changes one task only. */
  lemma UpdateKeeps(s: State, h: Hash, t: Task)
    requires Inv(s) && h in s.tasks && Keeps(s.tasks[h], t) && TaskOk(s.pools, h, t)
    ensures Inv(Set(s, h, t))
  {
    var s' := Set(s, h, t);
    forall u | u in s'.pools ensures PoolOk(s', u, s'.pools[u]) {
      PoolKeeps(s, s', u, s.pools[u]);
    }
  }

  lemma PoolMember(s: State, u: UtxoId, h: Hash)
    requires Inv(s) && InPool(s.pools, u, h)
    ensures h in s.tasks && u in Ids(s.tasks[h])
  {
    assert PoolOk(s, u, s.pools[u]);
    var i :| 0 <= i < |s.pools[u]| && s.pools[u][i].hash == h;
    assert Member(s, u, s.pools[u][i]);
  }

  lemma SubmitKeeps(s: State, tx: Tx, start: int)
    requires Inv(s) && Enabled(s, Submit(tx, start))
    ensures Inv(Next(s, Submit(tx, start)))
  {
    var s' := Next(s, Submit(tx, start));
    var t := s'.tasks[tx.hash];
    forall u ensures !InPool(s.pools, u, tx.hash) {
      if InPool(s.pools, u, tx.hash) { PoolMember(s, u, tx.hash); }
    }
    assert TaskOk(s'.pools, tx.hash, t);
    forall u | u in s'.pools ensures PoolOk(s', u, s'.pools[u]) {
      var pool := s.pools[u];
      assert PoolOk(s, u, pool);
      assert forall i :: 0 <= i < |pool| ==> Member(s, u, pool[i]) && pool[i].hash != tx.hash;
    }
  }

  lemma {:induction false} LeastFacts(list: seq<Conflict>)
    requires list != []
    ensures Has(list, Least(list))
    ensures forall i :: 0 <= i < |list| ==> list[i].hash == Least(list) || Less(Least(list), list[i].hash)
  {
    if |list| > 1 {
      var rest := Least(list[1..]);
      LeastFacts(list[1..]);
      var i :| 0 <= i < |list[1..]| && list[1..][i].hash == rest;
      assert list[i + 1].hash == rest;
      forall i | 0 <= i < |list| ensures list[i].hash == Least(list) || Less(Least(list), list[i].hash) {
        if i > 0 {
          assert list[i] == list[1..][i - 1];
          if Less(list[0].hash, rest) && list[i].hash != rest { LessTransitive(list[0].hash, rest, list[i].hash); }
        } else if !Less(list[0].hash, rest) && list[0].hash != rest {
          LessTotal(list[0].hash, rest);
        }
      }
    }
  }

  lemma ResolveJudged(pools: map<UtxoId, seq<Conflict>>, h: Hash, t: Task)
    requires TaskOk(pools, h, t) && t.phase.Listening?
    ensures TaskOk(pools, h, t.(phase := AfterResolve(t)))
  {
    if t.conflicts != [] {
      var all := t.conflicts + [Notice(t, true)];
      LeastFacts(all);
      var winner := Least(all);
      assert all[|t.conflicts|].hash == h;
      forall i | 0 <= i < |t.conflicts| ensures t.conflicts[i].hash != h && all[i] == t.conflicts[i] {
        assert Rivals(pools, h, t.conflicts[i].hash);
      }
      if winner != h {
        var i :| 0 <= i < |all| && all[i].hash == winner;
        assert i < |t.conflicts|;
        assert Rivals(pools, h, winner);
      }
    }
  }

  lemma ReceiveKeeps(pools: map<UtxoId, seq<Conflict>>, h: Hash, t: Task)
    requires TaskOk(pools, h, t) && t.phase.Listening? && t.channel != []
    ensures TaskOk(pools, h, AfterReceive(t)) && Keeps(t, AfterReceive(t))
  {
    var t' := AfterReceive(t);
    var c := t.channel[0];
    assert Rivals(pools, h, c.hash);
    forall x | Has(t.conflicts, x) ensures Has(t'.conflicts, x) {
      HasConcat(t.conflicts, [c], x);
    }
    forall x | Notified(t.channel, x) ensures Notified(t'.channel, x) || Has(t'.conflicts, x) {
      var i :| 0 <= i < |t.channel| && t.channel[i].hash == x && !t.channel[i].abort;
      if i == 0 {
        assert t'.conflicts[|t.conflicts|].hash == x;
      } else {
        assert t'.channel[i - 1] == t.channel[i];
      }
    }
    assert forall i :: 0 <= i < |t'.channel| ==> t'.channel[i] == t.channel[i + 1];
  }

  // ---- Registration ----

  lemma RegisteredPools(s: State, h: Hash, v: UtxoId, x: Hash)
    requires Inv(s) && Enabled(s, Register(h))
    ensures InPool(Registered(s, h).pools, v, x) <==>
            InPool(s.pools, v, x) || (v == Ids(s.tasks[h])[s.tasks[h].phase.next] && x == h)
  {
    var t := s.tasks[h];
    var u := Ids(t)[t.phase.next];
    if v == u {
      HasConcat(Pool(s, u), [Notice(t, false)], x);
      assert [Notice(t, false)][0].hash == h;
    }
  }

  lemma RivalsGrow(s: State, h: Hash, a: Hash, b: Hash)
    requires Inv(s) && Enabled(s, Register(h)) && Rivals(s.pools, a, b)
    ensures Rivals(Registered(s, h).pools, a, b)
  {
    var u :| InPool(s.pools, u, a) && InPool(s.pools, u, b);
    RegisteredPools(s, h, u, a);
    RegisteredPools(s, h, u, b);
  }

  /** Whoever is in the pool becomes a rival of the newcomer. */
  lemma NewRivals(s: State, h: Hash, x: Hash)
    requires Inv(s) && Enabled(s, Register(h))
    requires Has(Pool(s, Ids(s.tasks[h])[s.tasks[h].phase.next]), x)
    ensures x != h && x in s.tasks
    ensures Rivals(Registered(s, h).pools, h, x) && Rivals(Registered(s, h).pools, x, h)
  {
    var t := s.tasks[h];
    var u := Ids(t)[t.phase.next];
    assert TaskOk(s.pools, h, t);
    assert InPool(s.pools, u, x);
    PoolMember(s, u, x);
    RegisteredPools(s, h, u, x);
    RegisteredPools(s, h, u, h);
  }

  /** One more message from a rival; an abort only from a smaller hash. */
  lemma DeliverOk(pools: map<UtxoId, seq<Conflict>>, x: Hash, t: Task, c: Conflict)
    requires TaskOk(pools, x, t) && Rivals(pools, x, c.hash) && (c.abort ==> Less(c.hash, x))
    ensures TaskOk(pools, x, Deliver(t, c)) && Keeps(t, Deliver(t, c))
  {
    forall y | Notified(t.channel, y) ensures Notified(t.channel + [c], y) {
      NotifiedAppend(t.channel, c, y);
    }
  }

  lemma OtherPoolsGrow(s: State, h: Hash, x: Hash)
    requires Inv(s) && Enabled(s, Register(h)) && x in s.tasks && x != h
    ensures TaskOk(Registered(s, h).pools, x, s.tasks[x])
  {
    var pools := Registered(s, h).pools;
    assert TaskOk(s.pools, x, s.tasks[x]);
    forall v ensures InPool(pools, v, x) <==> InPool(s.pools, v, x) {
      RegisteredPools(s, h, v, x);
    }
    forall y | Rivals(s.pools, x, y) ensures Rivals(pools, x, y) {
      RivalsGrow(s, h, x, y);
    }
  }

  lemma RegisterOther(s: State, h: Hash, x: Hash)
    requires Inv(s) && Enabled(s, Register(h)) && x in s.tasks && x != h
    ensures TaskOk(Registered(s, h).pools, x, Registered(s, h).tasks[x])
    ensures Keeps(s.tasks[x], Registered(s, h).tasks[x])
  {
    OtherPoolsGrow(s, h, x);
    if Has(Pool(s, Ids(s.tasks[h])[s.tasks[h].phase.next]), x) {
      assert TaskOk(s.pools, h, s.tasks[h]);
      NewRivals(s, h, x);
      DeliverOk(Registered(s, h).pools, x, s.tasks[x], Notice(s.tasks[h], false));
    }
  }

  lemma RegisterProgress(s: State, h: Hash)
    requires Inv(s) && Enabled(s, Register(h))
    ensures RegisteredUpTo(Registered(s, h).pools, s.tasks[h].tx, h, s.tasks[h].phase.next + 1)
  {
    var ids, n := FixedIds(s.tasks[h].tx), s.tasks[h].phase.next;
    assert TaskOk(s.pools, h, s.tasks[h]);
    forall k | 0 <= k < |ids| ensures InPool(Registered(s, h).pools, ids[k], h) <==> k < n + 1 {
      RegisteredPools(s, h, ids[k], h);
    }
  }

  lemma RegisterConflict(s: State, h: Hash, i: nat)
    requires Inv(s) && Enabled(s, Register(h)) && i < |Registered(s, h).tasks[h].conflicts|
    ensures var c := Registered(s, h).tasks[h].conflicts[i];
            !c.abort && Rivals(Registered(s, h).pools, h, c.hash)
  {
    var t := s.tasks[h];
    var u := Ids(t)[t.phase.next];
    var pool := Pool(s, u);
    assert TaskOk(s.pools, h, t);
    if i < |t.conflicts| {
      assert !t.conflicts[i].abort;
      RivalsGrow(s, h, h, t.conflicts[i].hash);
    } else {
      var c := pool[i - |t.conflicts|];
      assert Has(pool, c.hash);
      assert PoolOk(s, u, pool);
      assert Member(s, u, c);
      NewRivals(s, h, c.hash);
    }
  }

  lemma RegisterSelf(s: State, h: Hash)
    requires Inv(s) && Enabled(s, Register(h))
    ensures TaskOk(Registered(s, h).pools, h, Registered(s, h).tasks[h])
    ensures Keeps(s.tasks[h], Registered(s, h).tasks[h])
  {
    var s' := Registered(s, h);
    var t, t' := s.tasks[h], s'.tasks[h];
    assert TaskOk(s.pools, h, t);
    RegisterProgress(s, h);
    forall i | 0 <= i < |t'.conflicts|
      ensures !t'.conflicts[i].abort && Rivals(s'.pools, h, t'.conflicts[i].hash)
    {
      RegisterConflict(s, h, i);
    }
    forall i | 0 <= i < |t.channel| ensures Rivals(s'.pools, h, t.channel[i].hash) {
      RivalsGrow(s, h, h, t.channel[i].hash);
    }
    ConflictsGrow(t, Pool(s, Ids(t)[t.phase.next]), t');
  }

  lemma ConflictsGrow(t: Task, more: seq<Conflict>, t': Task)
    requires t'.conflicts == t.conflicts + more && t'.channel == t.channel && t'.tx == t.tx
    ensures Keeps(t, t')
  {
    forall x | Has(t.conflicts, x) ensures Has(t'.conflicts, x) {
      HasConcat(t.conflicts, more, x);
    }
  }

  /** The newcomer knows everyone in the pool, and everyone in the pool is sent the newcomer. */
  lemma NewcomerAware(s: State, h: Hash, i: nat)
    requires Inv(s) && Enabled(s, Register(h))
    requires i < |Pool(s, Ids(s.tasks[h])[s.tasks[h].phase.next])|
    ensures var a := Pool(s, Ids(s.tasks[h])[s.tasks[h].phase.next])[i].hash;
            a in Registered(s, h).tasks && Aware(Registered(s, h).tasks[a], a, Registered(s, h).tasks[h], h)
  {
    var t := s.tasks[h];
    var pool := Pool(s, Ids(t)[t.phase.next]);
    var a := pool[i].hash;
    assert Has(pool, a);
    NewRivals(s, h, a);
    HasConcat(t.conflicts, pool, a);
    assert TaskOk(s.pools, h, t);
    NotifiedAppend(s.tasks[a].channel, Notice(t, false), h);
  }

  lemma RegisterKeeps(s: State, h: Hash)
    requires Inv(s) && Enabled(s, Register(h))
    ensures Inv(Registered(s, h))
  {
    var s' := Registered(s, h);
    var t := s.tasks[h];
    var u := Ids(t)[t.phase.next];
    RegisterSelf(s, h);
    forall x | x in s'.tasks
      ensures x in s.tasks && TaskOk(s'.pools, x, s'.tasks[x]) && Keeps(s.tasks[x], s'.tasks[x])
    {
      if x != h { RegisterOther(s, h, x); }
    }
    forall v | v in s'.pools ensures PoolOk(s', v, s'.pools[v]) {
      if v in s.pools { PoolKeeps(s, s', v, s.pools[v]); }
      if v == u {
        RegisteredPoolOk(s, h);
      }
    }
  }

  lemma RegisteredPoolOk(s: State, h: Hash)
    requires Inv(s) && Enabled(s, Register(h))
    requires PoolOk(Registered(s, h), Ids(s.tasks[h])[s.tasks[h].phase.next], Pool(s,
              Ids(s.tasks[h])[s.tasks[h].phase.next]))
    ensures PoolOk(Registered(s, h), Ids(s.tasks[h])[s.tasks[h].phase.next],
                   Pool(s, Ids(s.tasks[h])[s.tasks[h].phase.next]) + [Notice(s.tasks[h], false)])
  {
    var s' := Registered(s, h);
    var t := s.tasks[h];
    var u := Ids(t)[t.phase.next];
    var pool := Pool(s, u);
    var pool' := pool + [Notice(t, false)];
    assert TaskOk(s.pools, h, t);
    forall i | 0 <= i < |pool'| ensures Member(s', u, pool'[i]) {
      if i < |pool| { assert Member(s', u, pool[i]); }
    }
    forall i, j | 0 <= i < j < |pool'|
      ensures Aware(s'.tasks[pool'[i].hash], pool'[i].hash, s'.tasks[pool'[j].hash], pool'[j].hash)
    {
      assert pool'[i] == pool[i];
      if j < |pool| {
        assert pool'[j] == pool[j];
      } else {
        NewcomerAware(s, h, i);
      }
    }
  }

  // ---- The other steps ----

  lemma AnnounceKeeps(s: State, h: Hash)
    requires Inv(s) && Enabled(s, Announce(h))
    ensures Inv(Announced(s, h))
  {
    var t := s.tasks[h];
    var x := t.conflicts[t.phase.next].hash;
    var c := Notice(t, true);
    assert TaskOk(s.pools, h, t) && TaskOk(s.pools, x, s.tasks[x]);
    assert Rivals(s.pools, h, x) && Rivals(s.pools, x, h);
    DeliverOk(s.pools, x, s.tasks[x], c);
    UpdateKeeps(s, x, Deliver(s.tasks[x], c));
    var s1 := Set(s, x, Deliver(s.tasks[x], c));
    UpdateKeeps(s1, h, Announced(s, h).tasks[h]);
  }

  /** Phases that stand to registration and verdict as the one before does. */
  ghost predicate Follows(t: Task, p: Phase) {
    match t.phase
    case Validating(_) => p.Validating? || p == ToRegister(t, 0) || (p.Rejected? && p.why.Invalid?)
    case Revalidating(_) => p.Revalidating? || p.Listening? || (p.Rejected? && p.why.Invalid?)
    case Inserting => p.Deleting? || p.Accepted? || p.Failed?
    case Deleting(_) => p.Deleting? || p.Accepted?
    case _ => false
  }

  lemma PhaseKeeps(s: State, h: Hash, p: Phase)
    requires Inv(s) && h in s.tasks && Follows(s.tasks[h], p)
    ensures Inv(Set(s, h, s.tasks[h].(phase := p)))
  {
    assert TaskOk(s.pools, h, s.tasks[h]);
    UpdateKeeps(s, h, s.tasks[h].(phase := p));
  }

  /** Every step keeps the invariant. */
  lemma NextKeeps(s: State, a: Action)
    requires Inv(s) && Enabled(s, a)
    ensures Inv(Next(s, a))
  {
    match a
    case Submit(tx, start) => SubmitKeeps(s, tx, start);
    case Check(h, k) => CheckKeeps(s, h, k);
    case Conclude(h) => ConcludeKeeps(s, h);
    case Register(h) => RegisterKeeps(s, h);
    case Receive(h) => ReceivedKeeps(s, h);
    case Resolve(h) => ResolvedKeeps(s, h);
    case Announce(h) => AnnounceKeeps(s, h);
    case Insert(h) => CommitKeeps(s, h, AfterInsert(s.tasks[h]), Next(s, a));
    case Delete(h) => CommitKeeps(s, h, ToDelete(s.tasks[h], s.tasks[h].phase.next + 1), Next(s, a));
  }

  lemma CheckKeeps(s: State, h: Hash, k: nat)
    requires Inv(s) && Enabled(s, Check(h, k))
    ensures Inv(Set(s, h, s.tasks[h].(phase := AfterCheck(s.tables, s.tasks[h], k))))
  {
    PhaseKeeps(s, h, AfterCheck(s.tables, s.tasks[h], k));
  }

  lemma ConcludeKeeps(s: State, h: Hash)
    requires Inv(s) && Enabled(s, Conclude(h))
    ensures Inv(Set(s, h, s.tasks[h].(phase := AfterConclude(s.tables, s.tasks[h]))))
  {
    PhaseKeeps(s, h, AfterConclude(s.tables, s.tasks[h]));
  }

  lemma ReceivedKeeps(s: State, h: Hash)
    requires Inv(s) && Enabled(s, Receive(h))
    ensures Inv(Set(s, h, AfterReceive(s.tasks[h])))
  {
    ReceiveKeeps(s.pools, h, s.tasks[h]);
    UpdateKeeps(s, h, AfterReceive(s.tasks[h]));
  }

  lemma ResolvedKeeps(s: State, h: Hash)
    requires Inv(s) && Enabled(s, Resolve(h))
    ensures Inv(Set(s, h, s.tasks[h].(phase := AfterResolve(s.tasks[h]))))
  {
    ResolveJudged(s.pools, h, s.tasks[h]);
    UpdateKeeps(s, h, s.tasks[h].(phase := AfterResolve(s.tasks[h])));
  }

  /** Moving on while the tables change. */
  lemma CommitKeeps(s: State, h: Hash, p: Phase, e: State)
    requires Inv(s) && h in s.tasks && (s.tasks[h].phase.Inserting? || s.tasks[h].phase.Deleting?)
    requires Follows(s.tasks[h], p) && e.tasks == s.tasks[h := s.tasks[h].(phase := p)] && e.pools == s.pools
    ensures Inv(e)
  {
    PhaseKeeps(s, h, p);
    TablesApart(Set(s, h, s.tasks[h].(phase := p)), e);
  }

  /** The invariant does not look at the tables. */
  lemma TablesApart(s: State, s': State)
    requires Inv(s) && s'.tasks == s.tasks && s'.pools == s.pools
    ensures Inv(s')
  {
    forall u | u in s'.pools ensures PoolOk(s', u, s'.pools[u]) {
      assert PoolOk(s, u, s.pools[u]);
      PoolKeeps(s, s', u, s.pools[u]);
    }
  }

  lemma {:induction false} RunKeeps(s: State, acts: seq<Action>)
    requires Initial(s) && IsRun(s, acts)
    ensures Inv(After(s, acts))
  {
    if acts != [] {
      RunKeeps(s, acts[..|acts| - 1]);
      NextKeeps(After(s, acts[..|acts| - 1]), acts[|acts| - 1]);
    }
  }
}
