/** Safety of the double-spend protocol over every run. */
module ContentionSafety {
  import opened Common
  import opened Hashes
  import opened Sums
  import opened Ledger
  import opened Contention
  import opened ContentionInvariant
  import opened ContentionTables

  // ---- Who knows of whom ----

  /** In every reachable state, of two tasks in the pool of one output the later has the earlier among its
      conflicts, and the earlier has been sent the later: it has read the notice or still has it waiting. */
  lemma PoolAwareness(s: State, acts: seq<Action>, u: UtxoId, i: nat, j: nat)
    requires Initial(s) && IsRun(s, acts)
    requires u in After(s, acts).pools && i < j < |After(s, acts).pools[u]|
    ensures var e := After(s, acts); var a := e.pools[u][i].hash; var b := e.pools[u][j].hash;
            a in e.tasks && b in e.tasks && Aware(e.tasks[a], a, e.tasks[b], b)
  {
    RunKeeps(s, acts);
    AwareInPool(After(s, acts), u, i, j);
  }

  lemma AwareInPool(s: State, u: UtxoId, i: nat, j: nat)
    requires Inv(s) && u in s.pools && i < j < |s.pools[u]|
    ensures var a := s.pools[u][i].hash; var b := s.pools[u][j].hash;
            a in s.tasks && b in s.tasks && Aware(s.tasks[a], a, s.tasks[b], b)
  {
    assert PoolOk(s, u, s.pools[u]);
    assert Member(s, u, s.pools[u][i]) && Member(s, u, s.pools[u][j]);
  }

  ghost predicate Share(s: State, a: Hash, b: Hash) {
    a in s.tasks && b in s.tasks && exists u :: u in Ids(s.tasks[a]) && u in Ids(s.tasks[b])
  }

  lemma RivalsShare(s: State, a: Hash, b: Hash)
    requires Inv(s) && Rivals(s.pools, a, b)
    ensures Share(s, a, b)
  {
    var u :| InPool(s.pools, u, a) && InPool(s.pools, u, b);
    PoolMember(s, u, a);
    PoolMember(s, u, b);
  }

  /** A task rejected as a double spend lost to a registrant of a strictly smaller hash that consumes one of
      the same outputs. */
  lemma RejectionCause(s: State, acts: seq<Action>, h: Hash)
    requires Initial(s) && IsRun(s, acts) && h in After(s, acts).tasks
    requires After(s, acts).tasks[h].phase.Rejected? && !After(s, acts).tasks[h].phase.why.Invalid?
    ensures var w := After(s, acts).tasks[h].phase.why.winner;
            Less(w, h) && Rivals(After(s, acts).pools, h, w) && Share(After(s, acts), h, w)
  {
    RunKeeps(s, acts);
    var e := After(s, acts);
    assert TaskOk(e.pools, h, e.tasks[h]);
    RivalsShare(e, h, e.tasks[h].phase.why.winner);
  }

  /** The registrant of least hash on its outputs is never rejected as a double spend. */
  lemma LeastNeverRejected(s: State, acts: seq<Action>, h: Hash)
    requires Initial(s) && IsRun(s, acts) && h in After(s, acts).tasks
    requires forall u, x :: InPool(After(s, acts).pools, u, h) && InPool(After(s, acts).pools, u, x) && x != h ==>
              Less(h, x)
    ensures After(s, acts).tasks[h].phase.Rejected? ==> After(s, acts).tasks[h].phase.why.Invalid?
  {
    var p := After(s, acts).tasks[h].phase;
    if p.Rejected? && !p.why.Invalid? {
      RejectionCause(s, acts, h);
      LessAsymmetric(p.why.winner, h);
    }
  }

  // ---- Two winners ----

  /** Two tasks that consume one output. */
  ghost predicate Contend(s: State, a: Hash, b: Hash, u: UtxoId) {
    a != b && a in s.tasks && b in s.tasks && u in Ids(s.tasks[a]) && u in Ids(s.tasks[b])
  }

  ghost predicate Unread(s: State, a: Hash, b: Hash)
    requires a in s.tasks
  {
    Notified(s.tasks[a].channel, b) && !Has(s.tasks[a].conflicts, b)
  }

  lemma WonNotAware(s: State, a: Hash, b: Hash)
    requires Inv(s) && a in s.tasks && b in s.tasks && Won(s.tasks[a].phase) && Won(s.tasks[b].phase)
    requires Aware(s.tasks[a], a, s.tasks[b], b)
    ensures Less(b, a) && Unread(s, a, b)
  {
    assert TaskOk(s.pools, a, s.tasks[a]) && TaskOk(s.pools, b, s.tasks[b]);
    var i :| 0 <= i < |s.tasks[b].conflicts| && s.tasks[b].conflicts[i].hash == a;
    assert Less(b, a);
    if Has(s.tasks[a].conflicts, b) {
      var j :| 0 <= j < |s.tasks[a].conflicts| && s.tasks[a].conflicts[j].hash == b;
      LessAsymmetric(b, a);
    }
  }

  lemma BothRegistered(s: State, a: Hash, u: UtxoId)
    requires Inv(s) && a in s.tasks && Won(s.tasks[a].phase) && u in Ids(s.tasks[a])
    ensures InPool(s.pools, u, a)
  {
    assert TaskOk(s.pools, a, s.tasks[a]);
    var k :| 0 <= k < |Ids(s.tasks[a])| && Ids(s.tasks[a])[k] == u;
    assert InPool(s.pools, FixedIds(s.tasks[a].tx)[k], a);
  }

  /** Every double spend is one race: of two winners on one output, the earlier registrant has the greater
      hash and resolved while the notice of the other was unread in its channel. */
  lemma WinnersRace(s: State, acts: seq<Action>, a: Hash, b: Hash, u: UtxoId)
    requires Initial(s) && IsRun(s, acts) && Contend(After(s, acts), a, b, u)
    requires Won(After(s, acts).tasks[a].phase) && Won(After(s, acts).tasks[b].phase)
    ensures (Less(b, a) && Unread(After(s, acts), a, b)) || (Less(a, b) && Unread(After(s, acts), b, a))
  {
    RunKeeps(s, acts);
    RaceInState(After(s, acts), a, b, u);
  }

  lemma RaceInState(s: State, a: Hash, b: Hash, u: UtxoId)
    requires Inv(s) && Contend(s, a, b, u) && Won(s.tasks[a].phase) && Won(s.tasks[b].phase)
    ensures (Less(b, a) && Unread(s, a, b)) || (Less(a, b) && Unread(s, b, a))
  {
    var i := PoolIndex(s, a, u);
    var j := PoolIndex(s, b, u);
    if i < j { RaceInPool(s, a, b, u, i, j); } else { RaceInPool(s, b, a, u, j, i); }
  }

  lemma PoolIndex(s: State, a: Hash, u: UtxoId) returns (i: nat)
    requires Inv(s) && a in s.tasks && Won(s.tasks[a].phase) && u in Ids(s.tasks[a])
    ensures u in s.pools && i < |s.pools[u]| && s.pools[u][i].hash == a
  {
    BothRegistered(s, a, u);
    i :| 0 <= i < |s.pools[u]| && s.pools[u][i].hash == a;
  }

  lemma RaceInPool(s: State, a: Hash, b: Hash, u: UtxoId, i: nat, j: nat)
    requires Inv(s) && a in s.tasks && b in s.tasks && Won(s.tasks[a].phase) && Won(s.tasks[b].phase)
    requires u in s.pools && i < j < |s.pools[u]| && s.pools[u][i].hash == a && s.pools[u][j].hash == b
    ensures Less(b, a) && Unread(s, a, b)
  {
    AwareInPool(s, u, i, j);
    WonNotAware(s, a, b);
  }

  // ---- Orderly runs ----

  /** Both are in the pool and neither has an unread notice of the other. */
  ghost predicate Settled(s: State, u: UtxoId, a: Hash, b: Hash) {
    && a in s.tasks && b in s.tasks && InPool(s.pools, u, a) && InPool(s.pools, u, b)
    && !Unread(s, a, b) && !Unread(s, b, a)
  }

  /** The row of `u` has been deleted after its parent was stored. */
  ghost predicate Gone(s: State, u: UtxoId) {
    u.hash in s.tables.txs && u !in s.tables.utxo
  }

  ghost predicate NotRevalidated(t: Task, u: UtxoId) {
    || t.phase.Validating? || t.phase.Registering? || t.phase.Rejected?
    || (t.phase.Revalidating? && forall k :: k in t.phase.checked && k < |t.tx.inputs| ==>
        t.tx.inputs[k].utxoId != Some(u))
  }

  /** `u` is gone before `b` looks at it the second time. */
  ghost predicate TooLate(s: State, u: UtxoId, b: Hash) {
    Gone(s, u) && YetToLook(s, u, b)
  }

  ghost predicate YetToLook(s: State, u: UtxoId, b: Hash) {
    b in s.tasks && u in Ids(s.tasks[b]) ==> NotRevalidated(s.tasks[b], u)
  }

  /** At some moment of the run, for every two tasks that consume one output: the output was already gone and one
      of them had yet to revalidate it, or both were registered and had read each other's notices, or one of them
      was rejected. */
  ghost predicate Orderly(s: State, acts: seq<Action>)
    requires IsRun(s, acts)
  {
    forall a, b, u :: Contend(After(s, acts), a, b, u) ==>
      exists i :: 0 <= i <= |acts| && IsRun(s, acts[..i]) && Ordered(After(s, acts[..i]), u, a, b)
  }

  ghost predicate Ordered(s: State, u: UtxoId, a: Hash, b: Hash) {
    Settled(s, u, a, b) || TooLate(s, u, a) || TooLate(s, u, b) || Out(s, a) || Out(s, b)
  }

  ghost predicate Out(s: State, h: Hash) {
    h in s.tasks && s.tasks[h].phase.Rejected?
  }

  /** A rejection is final. */
  lemma {:induction false} OutLater(s: State, acts: seq<Action>, i: nat, h: Hash)
    requires IsRun(s, acts) && i <= |acts| && IsRun(s, acts[..i]) && Out(After(s, acts[..i]), h)
    ensures Out(After(s, acts), h)
  {
    if i < |acts| {
      assert acts[..|acts| - 1][..i] == acts[..i];
      OutLater(s, acts[..|acts| - 1], i, h);
      OutNext(After(s, acts[..|acts| - 1]), acts[|acts| - 1], h);
    } else {
      assert acts[..i] == acts;
    }
  }

  lemma OutNext(s: State, act: Action, h: Hash)
    requires Enabled(s, act) && Out(s, h)
    ensures Out(Next(s, act), h)
  {
    match act
    case _ =>
  }

  lemma SettledKnow(s: State, u: UtxoId, a: Hash, b: Hash)
    requires Inv(s) && a != b && Settled(s, u, a, b)
    ensures Has(s.tasks[a].conflicts, b) && Has(s.tasks[b].conflicts, a)
  {
    var pool := s.pools[u];
    var i :| 0 <= i < |pool| && pool[i].hash == a;
    var j :| 0 <= j < |pool| && pool[j].hash == b;
    if i < j { AwareInPool(s, u, i, j); } else { AwareInPool(s, u, j, i); }
  }

  lemma KnowsNext(s: State, act: Action, x: Hash, y: Hash)
    requires Enabled(s, act) && x in s.tasks && Has(s.tasks[x].conflicts, y)
    ensures x in Next(s, act).tasks && Has(Next(s, act).tasks[x].conflicts, y)
  {
    match act
    case Register(h) =>
      if x == h { HasConcat(s.tasks[h].conflicts, Pool(s, Ids(s.tasks[h])[s.tasks[h].phase.next]), y); }
    case Receive(h) =>
      if x == h { HasConcat(s.tasks[h].conflicts, [s.tasks[h].channel[0]], y); }
    case _ =>
  }

  lemma {:induction false} KnowsLater(s: State, acts: seq<Action>, i: nat, x: Hash, y: Hash)
    requires IsRun(s, acts) && i <= |acts| && IsRun(s, acts[..i])
    requires x in After(s, acts[..i]).tasks && Has(After(s, acts[..i]).tasks[x].conflicts, y)
    ensures x in After(s, acts).tasks && Has(After(s, acts).tasks[x].conflicts, y)
  {
    if i < |acts| {
      assert acts[..|acts| - 1][..i] == acts[..i];
      KnowsLater(s, acts[..|acts| - 1], i, x, y);
      KnowsNext(After(s, acts[..|acts| - 1]), acts[|acts| - 1], x, y);
    } else {
      assert acts[..i] == acts;
    }
  }

  lemma GoneNext(s: State, act: Action, u: UtxoId)
    requires TablesInv(s) && Enabled(s, act) && Gone(s, u)
    ensures Gone(Next(s, act), u)
  {
    match act
    case Insert(h) => assert TaskInTables(s.tables, h, s.tasks[h]);
    case _ =>
  }

  /** With every input checked, a task that consumes `u` has looked at it. */
  lemma ConcludeSeesAll(s: State, b: Hash, u: UtxoId)
    requires Enabled(s, Conclude(b)) && SingleReference(s.tasks[b].tx) && s.tasks[b].phase.Revalidating? &&
              u in Ids(s.tasks[b])
    ensures !NotRevalidated(s.tasks[b], u)
  {
    var t := s.tasks[b];
    Runs.SpendsIffFixed(t.tx.inputs, u);
    var k :| 0 <= k < |t.tx.inputs| && t.tx.inputs[k].utxoId == Some(u);
    assert k in t.phase.checked;
  }

  lemma CheckMissing(tables: Tables, t: Task, k: nat, u: UtxoId)
    requires (t.phase.Validating? || t.phase.Revalidating?) && k < |t.tx.inputs|
    requires u !in tables.utxo && NotRevalidated(t, u)
    ensures NotRevalidated(t.(phase := AfterCheck(tables, t, k)), u)
  {}

  /** The second look at a missing row rejects, so the task never comes to listen. */
  lemma TooLateNext(s: State, act: Action, u: UtxoId, b: Hash)
    requires TablesInv(s) && Enabled(s, act) && TooLate(s, u, b)
    ensures TooLate(Next(s, act), u, b)
  {
    GoneNext(s, act, u);
    if b in s.tasks { assert TaskInTables(s.tables, b, s.tasks[b]); }
    YetToLookNext(s, act, u, b);
  }

  lemma YetToLookNext(s: State, act: Action, u: UtxoId, b: Hash)
    requires Enabled(s, act) && u !in s.tables.utxo && YetToLook(s, u, b)
    requires b in s.tasks ==> SingleReference(s.tasks[b].tx)
    ensures YetToLook(Next(s, act), u, b)
  {
    match act
    case Check(h, k) => CheckToLook(s, h, k, u, b);
    case Conclude(h) => ConcludeToLook(s, h, u, b);
    case Register(h) => RegisterToLook(s, h, u, b);
    case Announce(h) => AnnounceToLook(s, h, u, b);
    case _ =>
  }

  lemma RegisterToLook(s: State, h: Hash, u: UtxoId, b: Hash)
    requires Enabled(s, Register(h)) && YetToLook(s, u, b)
    ensures YetToLook(Registered(s, h), u, b)
  {}

  lemma AnnounceToLook(s: State, h: Hash, u: UtxoId, b: Hash)
    requires Enabled(s, Announce(h)) && YetToLook(s, u, b)
    ensures YetToLook(Announced(s, h), u, b)
  {}

  lemma CheckToLook(s: State, h: Hash, k: nat, u: UtxoId, b: Hash)
    requires Enabled(s, Check(h, k)) && u !in s.tables.utxo && YetToLook(s, u, b)
    ensures YetToLook(Set(s, h, s.tasks[h].(phase := AfterCheck(s.tables, s.tasks[h], k))), u, b)
  {
    if h == b && u in Ids(s.tasks[b]) { CheckMissing(s.tables, s.tasks[b], k, u); }
  }

  lemma ConcludeToLook(s: State, h: Hash, u: UtxoId, b: Hash)
    requires Enabled(s, Conclude(h)) && YetToLook(s, u, b) && (b in s.tasks ==> SingleReference(s.tasks[b].tx))
    ensures YetToLook(Set(s, h, s.tasks[h].(phase := AfterConclude(s.tables, s.tasks[h]))), u, b)
  {
    if h == b && u in Ids(s.tasks[b]) && s.tasks[b].phase.Revalidating? { ConcludeSeesAll(s, b, u); }
  }

  lemma {:induction false} TooLateLater(s: State, acts: seq<Action>, i: nat, u: UtxoId, b: Hash)
    requires Initial(s) && IsRun(s, acts) && i <= |acts| && IsRun(s, acts[..i]) && TooLate(After(s, acts[..i]), u, b)
    ensures TooLate(After(s, acts), u, b)
  {
    if i < |acts| {
      var front := acts[..|acts| - 1];
      assert front[..i] == acts[..i];
      TooLateLater(s, front, i, u, b);
      RunTables(s, front);
      TooLateNext(After(s, front), acts[|acts| - 1], u, b);
    } else {
      assert acts[..i] == acts;
    }
  }

  lemma SettledNoRace(s: State, acts: seq<Action>, i: nat, a: Hash, b: Hash, u: UtxoId)
    requires Initial(s) && IsRun(s, acts) && i <= |acts| && IsRun(s, acts[..i]) && Contend(After(s, acts), a, b, u)
    requires Settled(After(s, acts[..i]), u, a, b)
    ensures !Won(After(s, acts).tasks[a].phase) || !Won(After(s, acts).tasks[b].phase)
  {
    RunKeeps(s, acts[..i]);
    SettledKnow(After(s, acts[..i]), u, a, b);
    KnowsLater(s, acts, i, a, b);
    KnowsLater(s, acts, i, b, a);
    var e := After(s, acts);
    if Won(e.tasks[a].phase) && Won(e.tasks[b].phase) { WinnersRace(s, acts, a, b, u); }
  }

  lemma TooLateLoses(s: State, u: UtxoId, b: Hash)
    requires TooLate(s, u, b) && b in s.tasks && u in Ids(s.tasks[b])
    ensures !Won(s.tasks[b].phase)
  {}

  /** Order reached at some moment decides the race for good. */
  lemma OrderedNoRace(s: State, acts: seq<Action>, i: nat, a: Hash, b: Hash, u: UtxoId)
    requires Initial(s) && IsRun(s, acts) && i <= |acts| && IsRun(s, acts[..i]) && Contend(After(s, acts), a, b, u)
    requires Ordered(After(s, acts[..i]), u, a, b)
    ensures !Won(After(s, acts).tasks[a].phase) || !Won(After(s, acts).tasks[b].phase)
  {
    var m := After(s, acts[..i]);
    if Settled(m, u, a, b) {
      SettledNoRace(s, acts, i, a, b, u);
    } else if TooLate(m, u, a) {
      TooLateLater(s, acts, i, u, a);
      TooLateLoses(After(s, acts), u, a);
    } else if TooLate(m, u, b) {
      TooLateLater(s, acts, i, u, b);
      TooLateLoses(After(s, acts), u, b);
    } else {
      OutLater(s, acts, i, if Out(m, a) then a else b);
    }
  }

  /** In an orderly run no output has two winners. */
  lemma NoTwoWinners(s: State, acts: seq<Action>, a: Hash, b: Hash, u: UtxoId)
    requires Initial(s) && IsRun(s, acts) && Orderly(s, acts) && Contend(After(s, acts), a, b, u)
    ensures !Won(After(s, acts).tasks[a].phase) || !Won(After(s, acts).tasks[b].phase)
  {
    var i :| 0 <= i <= |acts| && IsRun(s, acts[..i]) && Ordered(After(s, acts[..i]), u, a, b);
    OrderedNoRace(s, acts, i, a, b, u);
  }

  // ---- Supply under interleaving ----

  /** Every task has come to its end. */
  ghost predicate Quiet(s: State) {
    forall h :: h in s.tasks ==>
      s.tasks[h].phase.Accepted? || s.tasks[h].phase.Failed? || s.tasks[h].phase.Rejected?
  }

  /** Only rows of consumed outputs are deleted, */
  lemma RemovedConsumed(s: State, id: UtxoId)
    requires TablesInv(s) && Removed(s, id)
    ensures id in Consumed(s.history)
  {
    ConsumedIff(s.history, id);
    var x :| x in s.tasks && RemovedBy(s.tasks[x], id);
    assert TaskInTables(s.tables, x, s.tasks[x]);
    var i :| 0 <= i < |s.history| && s.history[i] == s.tables.txs[x];
    assert id in DeletedIds(s.history[i]);
  }

  /** and at rest all of them are. */
  lemma QuietRemoved(s: State, id: UtxoId)
    requires TablesInv(s) && Quiet(s) && id in Consumed(s.history)
    ensures Removed(s, id)
  {
    ConsumedIff(s.history, id);
    var i :| 0 <= i < |s.history| && id in DeletedIds(s.history[i]);
    var x := s.history[i].hash;
    assert x in s.tasks && TaskInTables(s.tables, x, s.tasks[x]);
    assert RemovedBy(s.tasks[x], id);
  }

  /** What is consumed was produced: the parents of a stored transaction are stored, with their rows written. */
  lemma OwnedProduced(s: State, tx: Tx, id: UtxoId)
    requires TablesInv(s) && Runs.Owned(s.tables.txs, tx) && id in FixedIds(tx)
    ensures id in Produced(s.history)
  {
    Runs.SpendsIffFixed(tx.inputs, id);
    var k :| 0 <= k < |tx.inputs| && tx.inputs[k].utxoId == Some(id);
    assert Runs.OwnedInput(s.tables.txs, tx.inputs[k]);
    ProducedIff(s.history, id);
    assert s.tables.txs[id.hash] in s.history;
  }

  lemma ConsumedProduced(s: State)
    requires TablesInv(s)
    ensures Elements(Consumed(s.history)) <= Elements(Produced(s.history))
  {
    forall id | id in Consumed(s.history) ensures id in Produced(s.history) {
      ConsumedIff(s.history, id);
      var i :| 0 <= i < |s.history| && id in DeletedIds(s.history[i]);
      var x := s.history[i].hash;
      assert TaskInTables(s.tables, x, s.tasks[x]);
      OwnedProduced(s, s.history[i], id);
    }
  }

  lemma HistoryBalanced(s: State)
    requires TablesInv(s)
    ensures forall i :: 1 <= i < |s.history| ==> Balanced(s.tables.txs, s.history[i]) && SingleReference(s.history[i])
  {
    forall i | 1 <= i < |s.history| ensures Balanced(s.tables.txs, s.history[i]) && SingleReference(s.history[i]) {
      var x := s.history[i].hash;
      assert TaskInTables(s.tables, x, s.tasks[x]);
    }
  }

  lemma HistoryGrows(s: State, act: Action)
    requires Enabled(s, act)
    ensures s.history <= Next(s, act).history
  {
    match act
    case _ =>
  }

  lemma {:induction false} GenesisStays(s: State, acts: seq<Action>)
    requires Initial(s) && IsRun(s, acts)
    ensures s.history <= After(s, acts).history
  {
    if acts != [] {
      GenesisStays(s, acts[..|acts| - 1]);
      HistoryGrows(After(s, acts[..|acts| - 1]), acts[|acts| - 1]);
    }
  }

  /** The rows lie between the unspent outputs and all produced ones. */
  lemma RowsBetween(s: State)
    requires TablesInv(s)
    ensures Unspent(s.history) <= s.tables.utxo.Keys <= Elements(Produced(s.history))
    ensures Quiet(s) ==> s.tables.utxo.Keys == Unspent(s.history)
  {
    forall id ensures id in s.tables.utxo ==> id in Produced(s.history)
      ensures id in Unspent(s.history) ==> id in s.tables.utxo
      ensures Quiet(s) && id in s.tables.utxo ==> id !in Consumed(s.history)
    {
      assert RowKnown(s, id);
      if Removed(s, id) { RemovedConsumed(s, id); }
      if Quiet(s) && id in Consumed(s.history) { QuietRemoved(s, id); }
    }
  }

  /** In every reachable state of any interleaving the supply is what genesis issued, plus what failed insertions
      gained, plus the value of the double spends, plus the consumed rows still to be deleted; at rest none is,
      and the rows are the unspent outputs. */
  lemma ConcurrentSupply(s: State, acts: seq<Action>)
    requires Initial(s) && IsRun(s, acts)
    ensures var e := After(s, acts); var v := StoredValue(e.tables.txs);
            && Supply(e.tables.utxo) == OutputTotal(s.history[0].outputs) + Gained(e.history)
                 + Excess(Consumed(e.history), v) + SetSum(Due(e.tables, e.history), v)
            && (Quiet(e) ==> e.tables.utxo.Keys == Unspent(e.history) && Due(e.tables, e.history) == {})
  {
    RunTables(s, acts);
    GenesisStays(s, acts);
    SupplyInState(After(s, acts));
  }

  lemma SupplyInState(s: State)
    requires TablesInv(s)
    ensures var v := StoredValue(s.tables.txs);
            Supply(s.tables.utxo) == OutputTotal(s.history[0].outputs) + Gained(s.history)
              + Excess(Consumed(s.history), v) + SetSum(Due(s.tables, s.history), v)
    ensures Quiet(s) ==> s.tables.utxo.Keys == Unspent(s.history) && Due(s.tables, s.history) == {}
  {
    RowsBetween(s);
    ConsumedProduced(s);
    HistoryBalanced(s);
    SupplyLaw(s.tables, s.history);
  }

  lemma {:induction false} ConsumedOnce(h: seq<Tx>)
    requires forall i :: 0 <= i < |h| ==> Distinct(FixedIds(h[i]))
    requires forall i, j :: 0 <= i < j < |h| ==> Elements(FixedIds(h[i])) !! Elements(FixedIds(h[j]))
    ensures Distinct(Consumed(h))
  {
    if h != [] {
      var front := h[..|h| - 1];
      ConsumedOnce(front);
      forall id | id in Consumed(front) ensures id !in DeletedIds(h[|h| - 1]) {
        ConsumedIff(front, id);
        var i :| 0 <= i < |front| && id in DeletedIds(front[i]);
        assert id in Elements(FixedIds(h[i]));
      }
      DistinctConcat(Consumed(front), DeletedIds(h[|h| - 1]));
    }
  }

  /** Stored transactions of an orderly run have no consumed output in common. */
  lemma StoredApart(s: State, acts: seq<Action>, i: nat, j: nat)
    requires Initial(s) && IsRun(s, acts) && Orderly(s, acts) && i < j < |After(s, acts).history|
    ensures Elements(FixedIds(After(s, acts).history[i])) !! Elements(FixedIds(After(s, acts).history[j]))
  {
    RunTables(s, acts);
    var e := After(s, acts);
    var a, b := e.history[i].hash, e.history[j].hash;
    if i > 0 {
      assert TaskInTables(e.tables, a, e.tasks[a]) && TaskInTables(e.tables, b, e.tasks[b]);
      forall u | u in FixedIds(e.history[i]) ensures u !in FixedIds(e.history[j]) {
        if u in FixedIds(e.history[j]) { NoTwoWinners(s, acts, a, b, u); }
      }
    }
  }

  lemma StoredDistinct(s: State, i: nat)
    requires Inv(s) && TablesInv(s) && i < |s.history|
    ensures Distinct(FixedIds(s.history[i]))
  {
    if i > 0 {
      var x := s.history[i].hash;
      assert TaskInTables(s.tables, x, s.tasks[x]) && TaskOk(s.pools, x, s.tasks[x]);
    }
  }

  /** In an orderly run no output is consumed twice, and at rest the supply is exactly what genesis issued plus
      what failed insertions gained: what genesis issued, if none failed. */
  lemma OrderlyLedger(s: State, acts: seq<Action>)
    requires Initial(s) && IsRun(s, acts) && Orderly(s, acts)
    ensures Distinct(Consumed(After(s, acts).history))
    ensures Quiet(After(s, acts)) ==>
              Supply(After(s, acts).tables.utxo) == OutputTotal(s.history[0].outputs) + Gained(After(s, acts).history)
  {
    var e := After(s, acts);
    RunTables(s, acts);
    RunKeeps(s, acts);
    forall i | 0 <= i < |e.history| ensures Distinct(FixedIds(e.history[i])) { StoredDistinct(e, i); }
    forall i, j | 0 <= i < j < |e.history|
      ensures Elements(FixedIds(e.history[i])) !! Elements(FixedIds(e.history[j]))
    {
      StoredApart(s, acts, i, j);
    }
    ConsumedOnce(e.history);
    NoExcess(Consumed(e.history), StoredValue(e.tables.txs));
    ConcurrentSupply(s, acts);
  }
}
