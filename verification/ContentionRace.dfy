/** The race that orderly runs exclude does happen: wherever two new transactions could each be accepted and
    share an output, the code can go on to accept both. */
module ContentionRace {
  import opened Common
  import opened Hashes
  import opened Ledger
  import opened Contention
  import opened ContentionInvariant
  import opened ContentionTables

  lemma RunAppend(s: State, acts: seq<Action>, act: Action)
    requires IsRun(s, acts) && Enabled(After(s, acts), act)
    ensures IsRun(s, acts + [act]) && After(s, acts + [act]) == Next(After(s, acts), act)
  {
    assert (acts + [act])[..|acts|] == acts;
  }

  ghost predicate Reaches(s: State, e: State) {
    exists acts :: IsRun(s, acts) && After(s, acts) == e
  }

  lemma ReachSelf(s: State)
    ensures Reaches(s, s)
  {
    assert IsRun(s, []) && After(s, []) == s;
  }

  lemma Step(s: State, e: State, act: Action)
    requires Reaches(s, e) && Enabled(e, act)
    ensures Reaches(s, Next(e, act))
  {
    var acts :| IsRun(s, acts) && After(s, acts) == e;
    RunAppend(s, acts, act);
  }

  lemma {:induction false} ReachAlong(s: State, m: State, acts: seq<Action>)
    requires Reaches(s, m) && IsRun(m, acts)
    ensures Reaches(s, After(m, acts))
  {
    if acts != [] {
      var front := acts[..|acts| - 1];
      ReachAlong(s, m, front);
      Step(s, After(m, front), acts[|acts| - 1]);
    }
  }

  lemma Chain(s: State, m: State, e: State)
    requires Reaches(s, m) && Reaches(m, e)
    ensures Reaches(s, e)
  {
    var acts :| IsRun(m, acts) && After(m, acts) == e;
    ReachAlong(s, m, acts);
  }

  lemma {:induction false} InvFrom(s: State, acts: seq<Action>)
    requires Inv(s) && IsRun(s, acts)
    ensures Inv(After(s, acts))
  {
    if acts != [] {
      InvFrom(s, acts[..|acts| - 1]);
      NextKeeps(After(s, acts[..|acts| - 1]), acts[|acts| - 1]);
    }
  }

  lemma {:induction false} TablesFrom(s: State, acts: seq<Action>)
    requires TablesInv(s) && IsRun(s, acts)
    ensures TablesInv(After(s, acts))
  {
    if acts != [] {
      TablesFrom(s, acts[..|acts| - 1]);
      NextTables(After(s, acts[..|acts| - 1]), acts[|acts| - 1]);
    }
  }

  lemma InvReach(s: State, e: State)
    requires Reaches(s, e)
    ensures Inv(s) ==> Inv(e)
    ensures TablesInv(s) ==> TablesInv(e)
  {
    var acts :| IsRun(s, acts) && After(s, acts) == e;
    if Inv(s) { InvFrom(s, acts); }
    if TablesInv(s) { TablesFrom(s, acts); }
  }

  // ---- What the steps of one task leave alone ----

  /** No task but `h` has moved; messages may have come in. */
  ghost predicate OthersSame(s: State, e: State, h: Hash) {
    && e.tasks.Keys == s.tasks.Keys + {h}
    && forall x :: x in s.tasks && x != h ==> e.tasks[x].tx == s.tasks[x].tx && e.tasks[x].phase == s.tasks[x].phase
  }

  /** The tables are as they were, and only `h` has come into pools. */
  ghost predicate Aside(s: State, e: State, h: Hash) {
    && OthersSame(s, e, h) && e.tables == s.tables && e.history == s.history
    && forall v, x :: InPool(e.pools, v, x) ==> InPool(s.pools, v, x) || x == h
  }

  lemma AsideChain(s: State, m: State, e: State, h: Hash)
    requires Reaches(s, m) && Reaches(m, e) && Aside(s, m, h) && Aside(m, e, h)
    ensures Reaches(s, e) && Aside(s, e, h)
  {
    Chain(s, m, e);
  }

  lemma SetAside(s: State, h: Hash, t: Task)
    ensures Aside(s, Set(s, h, t), h)
  {}

  // ---- Validation ----

  function Checking(again: bool, checked: set<nat>): Phase {
    if again then Revalidating(checked) else Validating(checked)
  }

  /** The inputs resolution looks at, among the first `n`. */
  function Checked(tx: Tx, n: nat): set<nat>
    requires n <= |tx.inputs|
  {
    set k: nat | k < n && !tx.inputs[k].floating
  }

  lemma {:induction false} CheckSome(s: State, h: Hash, again: bool, n: nat)
    requires h in s.tasks && s.tasks[h].phase == Checking(again, {})
    requires n <= |s.tasks[h].tx.inputs| && Resolves(s.tables, s.tasks[h].tx)
    ensures Reaches(s, Set(s, h, s.tasks[h].(phase := Checking(again, Checked(s.tasks[h].tx, n)))))
  {
    var t := s.tasks[h];
    if n == 0 {
      assert Checked(t.tx, 0) == {};
      assert Set(s, h, t.(phase := Checking(again, {}))) == s;
      ReachSelf(s);
    } else {
      CheckSome(s, h, again, n - 1);
      if t.tx.inputs[n - 1].floating {
        assert Checked(t.tx, n) == Checked(t.tx, n - 1);
      } else {
        CheckOne(s, h, again, n - 1);
      }
    }
  }

  lemma CheckOne(s: State, h: Hash, again: bool, k: nat)
    requires h in s.tasks && k < |s.tasks[h].tx.inputs| && !s.tasks[h].tx.inputs[k].floating
    requires Resolves(s.tables, s.tasks[h].tx)
    requires Reaches(s, Set(s, h, s.tasks[h].(phase := Checking(again, Checked(s.tasks[h].tx, k)))))
    ensures Reaches(s, Set(s, h, s.tasks[h].(phase := Checking(again, Checked(s.tasks[h].tx, k + 1)))))
  {
    var t := s.tasks[h];
    var m := Set(s, h, t.(phase := Checking(again, Checked(t.tx, k))));
    assert ResolveInput(s.tables, t.tx.inputs[k]).Ok?;
    Step(s, m, Check(h, k));
    assert Checked(t.tx, k + 1) == Checked(t.tx, k) + {k};
    assert Next(m, Check(h, k)) == Set(s, h, t.(phase := Checking(again, Checked(t.tx, k + 1))));
  }

  /** A whole validation, in one go. */
  lemma CheckAll(s: State, h: Hash, again: bool) returns (e: State)
    requires h in s.tasks && s.tasks[h].phase == Checking(again, {})
    requires Resolves(s.tables, s.tasks[h].tx) && Balanced(s.tables.txs, s.tasks[h].tx)
    ensures e == Set(s, h, s.tasks[h].(phase := if again then Listening else ToRegister(s.tasks[h], 0)))
    ensures Reaches(s, e) && Aside(s, e, h)
  {
    var t := s.tasks[h];
    var n := |t.tx.inputs|;
    CheckSome(s, h, again, n);
    var m := Set(s, h, t.(phase := Checking(again, Checked(t.tx, n))));
    Step(s, m, Conclude(h));
    e := Next(m, Conclude(h));
    SetAside(s, h, e.tasks[h]);
  }

  // ---- Registration ----

  lemma RegisterReach(s: State, h: Hash)
    requires Enabled(s, Register(h))
    ensures Reaches(s, Registered(s, h))
  {
    ReachSelf(s);
    Step(s, s, Register(h));
  }

  lemma RegisterAside(s: State, h: Hash)
    requires Inv(s) && Enabled(s, Register(h))
    ensures Aside(s, Registered(s, h), h)
  {
    forall v, x | InPool(Registered(s, h).pools, v, x) ensures InPool(s.pools, v, x) || x == h {
      RegisteredPools(s, h, v, x);
    }
  }

  lemma RegisterOne(s: State, h: Hash)
    requires Inv(s) && Enabled(s, Register(h))
    ensures Reaches(s, Registered(s, h)) && Aside(s, Registered(s, h), h) && Inv(Registered(s, h))
  {
    RegisterReach(s, h);
    RegisterAside(s, h);
    RegisterKeeps(s, h);
  }

  lemma {:induction false} RegisterAll(s: State, h: Hash) returns (e: State)
    requires Inv(s) && Enabled(s, Register(h))
    ensures Reaches(s, e) && Aside(s, e, h)
    ensures e.tasks[h].tx == s.tasks[h].tx && e.tasks[h].phase == Revalidating({})
    decreases |Ids(s.tasks[h])| - s.tasks[h].phase.next
  {
    var m := Registered(s, h);
    RegisterOne(s, h);
    if m.tasks[h].phase.Registering? {
      e := RegisterAll(m, h);
      AsideChain(s, m, e, h);
    } else {
      e := m;
    }
  }

  // ---- From submission to the receive window ----

  /** New, and could be accepted as the tables are. */
  ghost predicate Candidate(s: State, tx: Tx) {
    && tx.hash !in s.tasks && tx.hash !in s.tables.txs
    && SingleReference(tx) && Prevalidated(tx) && Resolves(s.tables, tx) && Balanced(s.tables.txs, tx)
  }

  ghost predicate At(s: State, tx: Tx, p: Phase) {
    tx.hash in s.tasks && s.tasks[tx.hash].tx == tx && s.tasks[tx.hash].phase == p
  }

  lemma Validated(s: State, tx: Tx) returns (e: State)
    requires Candidate(s, tx) && FixedIds(tx) != []
    ensures Reaches(s, e) && Aside(s, e, tx.hash) && At(e, tx, Registering(0))
  {
    ReachSelf(s);
    Step(s, s, Submit(tx, 0));
    var m := Next(s, Submit(tx, 0));
    SetAside(s, tx.hash, m.tasks[tx.hash]);
    e := CheckAll(m, tx.hash, false);
    AsideChain(s, m, e, tx.hash);
  }

  lemma ToListening(s: State, tx: Tx) returns (e: State)
    requires Inv(s) && Candidate(s, tx) && FixedIds(tx) != []
    ensures Reaches(s, e) && Aside(s, e, tx.hash) && At(e, tx, Listening)
  {
    var v := Validated(s, tx);
    InvReach(s, v);
    var r := RegisterAll(v, tx.hash);
    AsideChain(s, v, r, tx.hash);
    e := CheckAll(r, tx.hash, true);
    AsideChain(s, r, e, tx.hash);
  }

  // ---- From the window to the insertion ----

  lemma ConflictIsTask(s: State, h: Hash, n: nat)
    requires Inv(s) && h in s.tasks && n < |s.tasks[h].conflicts|
    ensures s.tasks[h].conflicts[n].hash in s.tasks && s.tasks[h].conflicts[n].hash != h
  {
    assert TaskOk(s.pools, h, s.tasks[h]);
    var x := s.tasks[h].conflicts[n].hash;
    assert Rivals(s.pools, h, x);
    var u :| InPool(s.pools, u, h) && InPool(s.pools, u, x);
    PoolMember(s, u, x);
  }

  /** `n` of `count` conflicts have been told. */
  ghost predicate Told(s: State, tx: Tx, n: nat, count: nat) {
    && At(s, tx, if n < count then Announcing(n) else Inserting)
    && |s.tasks[tx.hash].conflicts| == count
  }

  lemma AnnounceNext(s: State, tx: Tx, n: nat, count: nat)
    requires Told(s, tx, n, count) && n < count && Enabled(s, Announce(tx.hash))
    requires s.tasks[tx.hash].conflicts[n].hash != tx.hash
    ensures Aside(s, Announced(s, tx.hash), tx.hash) && Told(Announced(s, tx.hash), tx, n + 1, count)
  {}

  lemma AnnounceOnce(s: State, tx: Tx, n: nat, count: nat) returns (e: State)
    requires Inv(s) && Told(s, tx, n, count) && n < count
    ensures Reaches(s, e) && Inv(e) && Aside(s, e, tx.hash) && Told(e, tx, n + 1, count)
  {
    ConflictIsTask(s, tx.hash, n);
    ReachSelf(s);
    Step(s, s, Announce(tx.hash));
    AnnounceKeeps(s, tx.hash);
    AnnounceNext(s, tx, n, count);
    e := Announced(s, tx.hash);
  }

  lemma {:induction false} AnnounceRest(s: State, tx: Tx, n: nat, count: nat) returns (e: State)
    requires Inv(s) && Told(s, tx, n, count) && n < count
    ensures Reaches(s, e) && Aside(s, e, tx.hash) && At(e, tx, Inserting)
    decreases count - n
  {
    var m := AnnounceOnce(s, tx, n, count);
    if n + 1 < count {
      e := AnnounceRest(m, tx, n + 1, count);
      AsideChain(s, m, e, tx.hash);
    } else {
      e := m;
    }
  }

  /** Smaller than every conflict read: the resolution is won. */
  lemma LeastWins(t: Task)
    requires t.conflicts != [] && forall x :: Has(t.conflicts, x) ==> Less(t.tx.hash, x)
    ensures AfterResolve(t) == Announcing(0)
  {
    var all := t.conflicts + [Notice(t, true)];
    LeastFacts(all);
    assert all[|t.conflicts|].hash == t.tx.hash;
    if Least(all) != t.tx.hash {
      HasConcat(t.conflicts, [Notice(t, true)], Least(all));
      LessAsymmetric(Least(all), t.tx.hash);
    }
  }

  lemma ToInserting(s: State, tx: Tx) returns (e: State)
    requires Inv(s) && At(s, tx, Listening) && forall x :: Has(s.tasks[tx.hash].conflicts, x) ==> Less(tx.hash, x)
    ensures Reaches(s, e) && Aside(s, e, tx.hash) && At(e, tx, Inserting)
  {
    var t := s.tasks[tx.hash];
    ReachSelf(s);
    Step(s, s, Resolve(tx.hash));
    var m := Next(s, Resolve(tx.hash));
    SetAside(s, tx.hash, m.tasks[tx.hash]);
    if t.conflicts == [] {
      e := m;
    } else {
      LeastWins(t);
      InvReach(s, m);
      e := AnnounceRest(m, tx, 0, |t.conflicts|);
      AsideChain(s, m, e, tx.hash);
    }
  }

  // ---- Commit ----

  lemma {:induction false} DeleteRest(s: State, tx: Tx) returns (e: State)
    requires tx.hash in s.tasks && s.tasks[tx.hash].tx == tx && FixedIds(tx) != []
    requires s.tasks[tx.hash].phase.Deleting? && s.tasks[tx.hash].phase.next < |FixedIds(tx)|
    ensures Reaches(s, e) && OthersSame(s, e, tx.hash) && At(e, tx, Accepted) && e.history == s.history
    decreases |FixedIds(tx)| - s.tasks[tx.hash].phase.next
  {
    ReachSelf(s);
    Step(s, s, Delete(tx.hash));
    var m := DeletedBy(s, tx.hash);
    if m.tasks[tx.hash].phase.Deleting? {
      e := DeleteRest(m, tx);
      Chain(s, m, e);
    } else {
      e := m;
    }
  }

  /** Where a commit ends. */
  function Final(tx: Tx): Phase {
    if Complete(tx) then Accepted else Failed
  }

  lemma InsertReach(s: State, tx: Tx)
    requires TablesInv(s) && At(s, tx, Inserting)
    ensures Reaches(s, InsertedBy(s, tx.hash))
  {
    InsertFits(s, tx.hash);
    ReachSelf(s);
    Step(s, s, Insert(tx.hash));
  }

  lemma CommitAll(s: State, tx: Tx) returns (e: State)
    requires TablesInv(s) && At(s, tx, Inserting) && FixedIds(tx) != []
    ensures Reaches(s, e) && OthersSame(s, e, tx.hash) && At(e, tx, Final(tx)) && e.history == s.history + [tx]
  {
    InsertReach(s, tx);
    e := InsertedBy(s, tx.hash);
    if Complete(tx) {
      var m := e;
      e := DeleteRest(m, tx);
      Chain(s, m, e);
    }
  }

  // ---- Both win ----

  /** A conflict of a newcomer was in one of its pools before it came. */
  lemma ConflictWasThere(s: State, e: State, tx: Tx, x: Hash)
    requires Inv(e) && Aside(s, e, tx.hash) && tx.hash in e.tasks && e.tasks[tx.hash].tx == tx
    requires Has(e.tasks[tx.hash].conflicts, x)
    ensures exists v :: v in FixedIds(tx) && InPool(s.pools, v, x)
  {
    var h := tx.hash;
    assert TaskOk(e.pools, h, e.tasks[h]);
    var i :| 0 <= i < |e.tasks[h].conflicts| && e.tasks[h].conflicts[i].hash == x;
    assert Rivals(e.pools, h, e.tasks[h].conflicts[i].hash);
    var v :| InPool(e.pools, v, h) && InPool(e.pools, v, x);
    PoolMember(e, v, h);
    assert v in FixedIds(tx) && InPool(s.pools, v, x);
  }

  /** `tx` wins if whoever is in its pools has a greater hash. */
  lemma Wins(s: State, tx: Tx) returns (e: State)
    requires Inv(s) && Candidate(s, tx) && FixedIds(tx) != []
    requires Unbeaten(s, tx)
    ensures Reaches(s, e) && Aside(s, e, tx.hash) && At(e, tx, Inserting)
  {
    var m := ToListening(s, tx);
    InvReach(s, m);
    forall x | Has(m.tasks[tx.hash].conflicts, x) ensures Less(tx.hash, x) { ConflictWasThere(s, m, tx, x); }
    e := ToInserting(m, tx);
    AsideChain(s, m, e, tx.hash);
  }

  lemma TwiceInConcat(x: seq<UtxoId>, y: seq<UtxoId>, z: seq<UtxoId>, u: UtxoId)
    requires u in y && u in z
    ensures !Distinct(x + y + z)
  {
    var i :| 0 <= i < |y| && y[i] == u;
    var j :| 0 <= j < |z| && z[j] == u;
    assert (x + y + z)[|x| + i] == u && (x + y + z)[|x| + |y| + j] == u;
  }

  lemma SpentTwice(h: seq<Tx>, a: Tx, b: Tx, u: UtxoId)
    requires u in FixedIds(a) && u in FixedIds(b) && Complete(a) && Complete(b)
    ensures !Distinct(Consumed(h + [a, b]))
  {
    HistoryExtends(h, a);
    HistoryExtends(h + [a], b);
    assert h + [a, b] == h + [a] + [b];
    TwiceInConcat(Consumed(h), FixedIds(a), FixedIds(b), u);
  }

  /** Whoever has registered on its outputs has a greater hash. */
  ghost predicate Unbeaten(s: State, tx: Tx) {
    forall v, x :: v in FixedIds(tx) && InPool(s.pools, v, x) ==> Less(tx.hash, x)
  }

  /** Both pass their resolution: the greater hash first, before the smaller registers. */
  lemma BothPass(s: State, a: Tx, b: Tx) returns (e: State)
    requires Inv(s) && Candidate(s, a) && Candidate(s, b) && FixedIds(a) != [] && FixedIds(b) != []
    requires Unbeaten(s, a) && Unbeaten(s, b) && Less(b.hash, a.hash)
    ensures Reaches(s, e) && At(e, a, Inserting) && At(e, b, Inserting) && e.history == s.history
  {
    LessIrreflexive(b.hash);
    var m := Wins(s, a);
    InvReach(s, m);
    e := Wins(m, b);
    Chain(s, m, e);
  }

  /** In every reachable state: of any two new transactions that could each be accepted, that share an output
      and that no registrant on their outputs beats, some continuation stores both: accepts both, if both can be
      inserted whole. */
  lemma DoubleSpendRun(o: State, acts: seq<Action>, a: Tx, b: Tx, u: UtxoId) returns (e: State)
    requires Initial(o) && IsRun(o, acts) && Candidate(After(o, acts), a) && Candidate(After(o, acts), b)
    requires u in FixedIds(a) && u in FixedIds(b) && Less(b.hash, a.hash)
    requires Unbeaten(After(o, acts), a) && Unbeaten(After(o, acts), b)
    ensures Reaches(o, e) && e.history == After(o, acts).history + [a, b]
    ensures At(e, a, Final(a)) && At(e, b, Final(b))
    ensures Complete(a) && Complete(b) ==> !Distinct(Consumed(e.history))
  {
    var s := After(o, acts);
    RunKeeps(o, acts);
    RunTables(o, acts);
    e := BothStored(s, a, b);
    Chain(o, s, e);
    if Complete(a) && Complete(b) { SpentTwice(s.history, a, b, u); }
  }

  lemma BothStored(s: State, a: Tx, b: Tx) returns (e: State)
    requires Inv(s) && TablesInv(s) && Candidate(s, a) && Candidate(s, b) && FixedIds(a) != [] && FixedIds(b) != []
    requires Unbeaten(s, a) && Unbeaten(s, b) && Less(b.hash, a.hash)
    ensures Reaches(s, e) && At(e, a, Final(a)) && At(e, b, Final(b)) && e.history == s.history + [a, b]
  {
    LessIrreflexive(b.hash);
    var m := BothPass(s, a, b);
    InvReach(s, m);
    e := CommitBoth(m, a, b);
    Chain(s, m, e);
  }

  lemma Unmoved(s: State, e: State, h: Hash, tx: Tx, p: Phase)
    requires OthersSame(s, e, h) && tx.hash != h && At(s, tx, p)
    ensures At(e, tx, p)
  {}

  lemma CommitBoth(s: State, a: Tx, b: Tx) returns (e: State)
    requires TablesInv(s) && At(s, a, Inserting) && At(s, b, Inserting) && a.hash != b.hash
    requires FixedIds(a) != [] && FixedIds(b) != []
    ensures Reaches(s, e) && At(e, a, Final(a)) && At(e, b, Final(b)) && e.history == s.history + [a, b]
  {
    var n := CommitAll(s, a);
    InvReach(s, n);
    Unmoved(s, n, a.hash, b, Inserting);
    e := CommitAll(n, b);
    Unmoved(n, e, b.hash, a, Final(a));
    Chain(s, n, e);
    assert s.history + [a] + [b] == s.history + [a, b];
  }
}
