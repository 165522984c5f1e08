/** What every interleaving keeps between the tasks and the tables. */
module ContentionTables {
  import opened Common
  import opened Hashes
  import opened Ledger
  import Runs = LedgerRuns
  import opened Contention

  predicate Stored(p: Phase) {
    p.Deleting? || p.Accepted? || p.Failed?
  }

  /** Past the first validation. */
  predicate Validated(p: Phase) {
    !p.Validating? && !p.Rejected?
  }

  ghost predicate TaskInTables(tables: Tables, h: Hash, t: Task) {
    && t.tx.hash == h && SingleReference(t.tx)
    && (Stored(t.phase) <==> h in tables.txs)
    && (Stored(t.phase) ==> tables.txs[h] == t.tx)
    && (t.phase.Deleting? ==> t.phase.next < |Ids(t)|)
    && (Stored(t.phase) ==> (t.phase.Failed? <==> !Complete(t.tx)))
    && (t.phase.Validating? ==>
         forall k :: k in t.phase.checked && k < |t.tx.inputs| ==> Runs.OwnedInput(tables.txs, t.tx.inputs[k]))
    && (Validated(t.phase) ==> Runs.Sound(tables, t.tx))
  }

  ghost predicate RemovedBy(t: Task, id: UtxoId) {
    || (t.phase.Deleting? && t.phase.next <= |Ids(t)| && id in Ids(t)[..t.phase.next])
    || (t.phase.Accepted? && id in Ids(t))
  }

  ghost predicate Removed(s: State, id: UtxoId) {
    exists h :: h in s.tasks && RemovedBy(s.tasks[h], id)
  }

  ghost predicate HistoryInTables(s: State) {
    && s.history != [] && IsGenesis(s.history[0])
    && DistinctHashes(s.history) && Stores(s.tables.txs, s.history)
    && (forall k :: k in s.tables.txs ==> s.tables.txs[k] in s.history && s.tables.txs[k].hash == k)
    && s.history[0].hash !in s.tasks
    && (forall i :: 1 <= i < |s.history| ==> s.history[i].hash in s.tasks)
  }

  ghost predicate RowKnown(s: State, id: UtxoId) {
    id in s.tables.utxo <==> id in Produced(s.history) && !Removed(s, id)
  }

  ghost predicate RowsInTables(s: State) {
    && (forall id :: RowKnown(s, id))
    && RowsAgree(s.tables)
  }

  ghost predicate TablesInv(s: State) {
    && HistoryInTables(s) && RowsInTables(s)
    && forall h :: h in s.tasks ==> TaskInTables(s.tables, h, s.tasks[h])
  }

  lemma InitialTables(s: State)
    requires Initial(s)
    ensures TablesInv(s)
  {
    var g := s.history[0];
    assert s.history == [g];
    CompleteIsWhole(g);
    HistoryExtends([], g);
    assert [] + [g] == [g];
    assert g in s.history;
  }

  // ---- Steps that leave the tables alone ----

  ghost predicate SameRemoval(t: Task, t': Task) {
    t'.tx == t.tx && forall id :: RemovedBy(t, id) <==> RemovedBy(t', id)
  }

  lemma FrameKeeps(s: State, s': State)
    requires TablesInv(s) && s'.tables == s.tables && s'.history == s.history && s'.tasks.Keys == s.tasks.Keys
    requires forall x :: x in s.tasks ==> SameRemoval(s.tasks[x], s'.tasks[x]) && TaskInTables(s.tables, x, s'.tasks[x])
    ensures TablesInv(s')
  {
    forall id ensures RowKnown(s', id) {
      assert RowKnown(s, id);
      if Removed(s, id) {
        var x :| x in s.tasks && RemovedBy(s.tasks[x], id);
        assert RemovedBy(s'.tasks[x], id);
      }
      if Removed(s', id) {
        var x :| x in s'.tasks && RemovedBy(s'.tasks[x], id);
        assert RemovedBy(s.tasks[x], id);
      }
    }
  }

  lemma UpdateTables(s: State, h: Hash, t: Task)
    requires TablesInv(s) && h in s.tasks && SameRemoval(s.tasks[h], t) && TaskInTables(s.tables, h, t)
    ensures TablesInv(Set(s, h, t))
  {
    FrameKeeps(s, Set(s, h, t));
  }

  lemma SubmitTables(s: State, tx: Tx, start: int)
    requires TablesInv(s) && Enabled(s, Submit(tx, start))
    ensures TablesInv(Next(s, Submit(tx, start)))
  {
    var s' := Next(s, Submit(tx, start));
    forall id ensures RowKnown(s', id) {
      assert RowKnown(s, id);
      if Removed(s, id) {
        var x :| x in s.tasks && RemovedBy(s.tasks[x], id);
        assert x in s'.tasks && RemovedBy(s'.tasks[x], id);
      }
      if Removed(s', id) {
        var x :| x in s'.tasks && RemovedBy(s'.tasks[x], id);
        assert x in s.tasks && RemovedBy(s.tasks[x], id);
      }
    }
    assert s.history[0].hash in s.tables.txs;
  }

  lemma CheckTables(s: State, h: Hash, k: nat)
    requires TablesInv(s) && Enabled(s, Check(h, k))
    ensures TablesInv(Next(s, Check(h, k)))
  {
    var t := s.tasks[h];
    UpdateTables(s, h, t.(phase := AfterCheck(s.tables, t, k)));
  }

  lemma ConcludeTables(s: State, h: Hash)
    requires TablesInv(s) && Enabled(s, Conclude(h))
    ensures TablesInv(Next(s, Conclude(h)))
  {
    var t := s.tasks[h];
    if t.phase.Validating? {
      forall k | 0 <= k < |t.tx.inputs| ensures Runs.OwnedInput(s.tables.txs, t.tx.inputs[k]) {
        if !t.tx.inputs[k].floating { assert k in t.phase.checked; }
      }
    }
    UpdateTables(s, h, t.(phase := AfterConclude(s.tables, t)));
  }

  lemma RegisterTables(s: State, h: Hash)
    requires TablesInv(s) && Enabled(s, Register(h))
    ensures TablesInv(Next(s, Register(h)))
  {
    var s' := Next(s, Register(h));
    forall x | x in s.tasks ensures SameRemoval(s.tasks[x], s'.tasks[x]) && TaskInTables(s.tables, x, s'.tasks[x]) {
      assert TaskInTables(s.tables, x, s.tasks[x]);
      RegisterTask(s.tables, x, s.tasks[x], s'.tasks[x]);
    }
    FrameKeeps(s, s');
  }

  /** Registering, and being told of a registration, leaves the tables out of it. */
  lemma RegisterTask(tables: Tables, x: Hash, t: Task, t': Task)
    requires TaskInTables(tables, x, t) && t'.tx == t.tx
    requires t'.phase == t.phase || (t.phase.Registering? && (t'.phase.Registering? || t'.phase == Revalidating({})))
    ensures SameRemoval(t, t') && TaskInTables(tables, x, t')
  {}

  lemma AnnounceTables(s: State, h: Hash)
    requires TablesInv(s) && Enabled(s, Announce(h))
    ensures TablesInv(Next(s, Announce(h)))
  {
    var s' := Next(s, Announce(h));
    forall x | x in s.tasks ensures SameRemoval(s.tasks[x], s'.tasks[x]) && TaskInTables(s.tables, x, s'.tasks[x]) {
      assert TaskInTables(s.tables, x, s.tasks[x]);
    }
    FrameKeeps(s, s');
  }

  // ---- Commit ----

  /** A deleted row was produced by a stored transaction. */
  lemma RemovedIsStored(s: State, id: UtxoId)
    requires TablesInv(s) && Removed(s, id)
    ensures id.hash in s.tables.txs
  {
    var x :| x in s.tasks && RemovedBy(s.tasks[x], id);
    var t := s.tasks[x];
    assert TaskInTables(s.tables, x, t);
    assert id in Ids(t);
    Runs.SpendsIffFixed(t.tx.inputs, id);
    var k :| 0 <= k < |t.tx.inputs| && t.tx.inputs[k].utxoId == Some(id);
    assert Runs.OwnedInput(s.tables.txs, t.tx.inputs[k]);
  }

  /** The insertion of a winner never meets an existing row. */
  lemma InsertFits(s: State, h: Hash)
    requires TablesInv(s) && h in s.tasks && s.tasks[h].phase.Inserting?
    ensures Fits(s.tables, s.tasks[h].tx)
  {
    assert TaskInTables(s.tables, h, s.tasks[h]);
  }

  lemma TaskGrows(s: State, h: Hash, x: Hash)
    requires TablesInv(s) && h in s.tasks && s.tasks[h].phase.Inserting? && x in s.tasks && x != h
    ensures TaskInTables(Inserted(s.tables, s.tasks[h].tx), x, s.tasks[x])
  {
    var tables' := Inserted(s.tables, s.tasks[h].tx);
    var t := s.tasks[x];
    assert TaskInTables(s.tables, x, t) && TaskInTables(s.tables, h, s.tasks[h]);
    if Validated(t.phase) { Runs.SoundGrows(s.tables, tables', t.tx); }
  }

  lemma InsertHistory(s: State, h: Hash)
    requires TablesInv(s) && h in s.tasks && s.tasks[h].phase.Inserting?
    ensures HistoryInTables(InsertedBy(s, h))
  {
    assert TaskInTables(s.tables, h, s.tasks[h]);
    HistoryAppends(s, InsertedBy(s, h), h, s.tasks[h].tx);
  }

  lemma HistoryAppends(s: State, s': State, h: Hash, tx: Tx)
    requires HistoryInTables(s) && h in s.tasks && h !in s.tables.txs && tx.hash == h
    requires s'.history == s.history + [tx] && s'.tables.txs == s.tables.txs[h := tx] && s'.tasks.Keys == s.tasks.Keys
    ensures HistoryInTables(s')
  {
    forall k | k in s'.tables.txs ensures s'.tables.txs[k] in s'.history && s'.tables.txs[k].hash == k {
      if k == h { assert s'.history[|s.history|] == tx; } else { assert s.tables.txs[k] in s.history; }
    }
    forall i | 0 <= i < |s.history| ensures s.history[i].hash != h && s'.history[i] == s.history[i] {
      assert s.history[i].hash in s.tables.txs;
    }
  }

  /** One task may add to the deleted rows. */
  lemma RemovedChange(s: State, s': State, h: Hash, extra: set<UtxoId>, id: UtxoId)
    requires h in s.tasks && h in s'.tasks && s'.tasks == s.tasks[h := s'.tasks[h]]
    requires RemovedBy(s'.tasks[h], id) <==> RemovedBy(s.tasks[h], id) || id in extra
    ensures Removed(s', id) <==> Removed(s, id) || id in extra
  {
    if Removed(s, id) {
      var x :| x in s.tasks && RemovedBy(s.tasks[x], id);
      assert x in s'.tasks && RemovedBy(s'.tasks[x], id);
    }
    if Removed(s', id) {
      var x :| x in s'.tasks && RemovedBy(s'.tasks[x], id);
      assert x in s.tasks && (RemovedBy(s.tasks[x], id) || id in extra);
    }
    if id in extra { assert h in s'.tasks && RemovedBy(s'.tasks[h], id); }
  }

  lemma InsertRow(s: State, h: Hash, id: UtxoId)
    requires h in s.tasks && s.tasks[h].phase.Inserting? && s.tasks[h].tx.hash == h && h !in s.tables.txs
    requires RowKnown(s, id) && (Removed(s, id) ==> id.hash in s.tables.txs)
    ensures RowKnown(InsertedBy(s, h), id)
  {
    var s' := InsertedBy(s, h);
    HistoryExtends(s.history, s.tasks[h].tx);
    assert !RemovedBy(s'.tasks[h], id) && !RemovedBy(s.tasks[h], id);
    RemovedChange(s, s', h, {}, id);
  }

  lemma InsertRows(s: State, h: Hash)
    requires TablesInv(s) && h in s.tasks && s.tasks[h].phase.Inserting?
    ensures RowsInTables(InsertedBy(s, h))
  {
    assert TaskInTables(s.tables, h, s.tasks[h]);
    forall id ensures RowKnown(InsertedBy(s, h), id) {
      if Removed(s, id) { RemovedIsStored(s, id); }
      assert RowKnown(s, id);
      InsertRow(s, h, id);
    }
    InsertAgrees(s.tables, s.tasks[h].tx);
  }

  lemma InsertAgrees(t: Tables, tx: Tx)
    requires RowsAgree(t) && tx.hash !in t.txs
    ensures RowsAgree(Inserted(t, tx))
  {
    forall id | id in Rows(Written(tx)) ensures id.index < Addressed(tx.outputs) {}
  }

  lemma InsertTables(s: State, h: Hash)
    requires TablesInv(s) && h in s.tasks && s.tasks[h].phase.Inserting?
    ensures TablesInv(InsertedBy(s, h))
  {
    var s' := InsertedBy(s, h);
    InsertHistory(s, h);
    InsertRows(s, h);
    assert TaskInTables(s.tables, h, s.tasks[h]);
    Runs.SoundGrows(s.tables, s'.tables, s.tasks[h].tx);
    forall x | x in s'.tasks ensures TaskInTables(s'.tables, x, s'.tasks[x]) {
      if x != h { TaskGrows(s, h, x); }
    }
  }

  ghost predicate Deletes(s: State, h: Hash) {
    h in s.tasks && s.tasks[h].phase.Deleting? && s.tasks[h].phase.next < |Ids(s.tasks[h])|
  }

  lemma DeleteRow(s: State, h: Hash, id: UtxoId)
    requires Deletes(s, h) && RowKnown(s, id)
    ensures RowKnown(DeletedBy(s, h), id)
  {
    var s' := DeletedBy(s, h);
    var t := s.tasks[h];
    var n := t.phase.next;
    var u := Ids(t)[n];
    assert Ids(t)[..n + 1] == Ids(t)[..n] + [u];
    assert n + 1 == |Ids(t)| ==> Ids(t)[..n + 1] == Ids(t);
    assert RemovedBy(s'.tasks[h], id) <==> RemovedBy(t, id) || id in {u};
    RemovedChange(s, s', h, {u}, id);
    assert id in Elements([u]) <==> id == u;
  }

  lemma DeleteRows(s: State, h: Hash)
    requires Deletes(s, h) && TablesInv(s)
    ensures RowsInTables(DeletedBy(s, h))
  {
    forall id ensures RowKnown(DeletedBy(s, h), id) {
      DeleteRow(s, h, id);
    }
  }

  lemma DeleteTables(s: State, h: Hash)
    requires Deletes(s, h) && TablesInv(s)
    ensures TablesInv(DeletedBy(s, h))
  {
    var s' := DeletedBy(s, h);
    DeleteRows(s, h);
    forall x | x in s'.tasks ensures TaskInTables(s'.tables, x, s'.tasks[x]) {
      assert TaskInTables(s.tables, x, s.tasks[x]);
      if Validated(s.tasks[x].phase) { Runs.SoundGrows(s.tables, s'.tables, s.tasks[x].tx); }
    }
  }

  /** Every step keeps the tables in line with the tasks. */
  lemma NextTables(s: State, a: Action)
    requires TablesInv(s) && Enabled(s, a)
    ensures TablesInv(Next(s, a))
  {
    match a
    case Submit(tx, start) => SubmitTables(s, tx, start);
    case Check(h, k) => CheckTables(s, h, k);
    case Conclude(h) => ConcludeTables(s, h);
    case Register(h) => RegisterTables(s, h);
    case Receive(h) =>
      assert TaskInTables(s.tables, h, s.tasks[h]);
      UpdateTables(s, h, AfterReceive(s.tasks[h]));
    case Resolve(h) =>
      assert TaskInTables(s.tables, h, s.tasks[h]);
      UpdateTables(s, h, s.tasks[h].(phase := AfterResolve(s.tasks[h])));
    case Announce(h) => AnnounceTables(s, h);
    case Insert(h) => InsertTables(s, h);
    case Delete(h) => DeleteTables(s, h);
  }

  lemma {:induction false} RunTables(s: State, acts: seq<Action>)
    requires Initial(s) && IsRun(s, acts)
    ensures TablesInv(After(s, acts))
  {
    if acts == [] {
      InitialTables(s);
    } else {
      RunTables(s, acts[..|acts| - 1]);
      NextTables(After(s, acts[..|acts| - 1]), acts[|acts| - 1]);
    }
  }
}
