/** What commits do to the supply, whatever the inputs: an input with a fixed and a floating id is passed over by
    resolution and still loses its row, and an insertion that fails half way leaves rows and deletes none. */
module LedgerLimits {
  import opened Common
  import opened Hashes
  import opened Sums
  import opened Ledger
  import opened LedgerRuns
  import opened LedgerRecords

  // ---- Supply, one commit at a time ----

  ghost function Merged(t: Tables, tx: Tx): map<UtxoId, Output> {
    t.utxo + Rows(Written(tx))
  }

  ghost function Worth(utxo: map<UtxoId, Output>): UtxoId -> int {
    id => RowValue(utxo, id)
  }

  /** What the rows are worth that an input with both a fixed and a floating id names. */
  function Unresolved(utxo: map<UtxoId, Output>, inputs: seq<Input>): int {
    if inputs == [] then 0
    else
      var last := inputs[|inputs| - 1];
      Unresolved(utxo, inputs[..|inputs| - 1])
      + if last.floating && last.utxoId.Some? then RowValue(utxo, last.utxoId.value) else 0
  }

  lemma RowWorth(utxo: map<UtxoId, Output>, tx: Tx, i: nat)
    requires i < |tx.outputs|
    ensures Worth(utxo + Rows(tx))(UtxoId(tx.hash, i)) == Amount(tx.outputs[i])
  {
    assert UtxoId(tx.hash, i) in Rows(tx);
  }

  lemma {:induction false} RowsWorth(utxo: map<UtxoId, Output>, tx: Tx, n: nat)
    requires n <= |tx.outputs|
    ensures SeqSum(OutputIds(tx)[..n], Worth(utxo + Rows(tx))) == OutputTotal(tx.outputs[..n])
  {
    if n > 0 {
      RowsWorth(utxo, tx, n - 1);
      RowWorth(utxo, tx, n - 1);
      var ids := OutputIds(tx);
      assert ids[..n][..n - 1] == ids[..n - 1] && ids[n - 1] == UtxoId(tx.hash, n - 1);
      assert tx.outputs[..n][..n - 1] == tx.outputs[..n - 1];
    }
  }

  /** The row of a resolved input is worth what its parent says. */
  ghost predicate RowOfParent(utxo: map<UtxoId, Output>, txs: map<Hash, Tx>, i: Input) {
    !i.floating ==> i.utxoId.Some? && RowValue(utxo, i.utxoId.value) == ValueIn(txs, i.utxoId.value)
  }

  lemma {:induction false} ConsumedWorth(utxo: map<UtxoId, Output>, txs: map<Hash, Tx>, inputs: seq<Input>)
    requires forall i :: 0 <= i < |inputs| ==> RowOfParent(utxo, txs, inputs[i])
    ensures SeqSum(IdsOf(inputs), Worth(utxo)) == ParentTotal(txs, inputs) + Unresolved(utxo, inputs)
  {
    if inputs != [] {
      var front, last := inputs[..|inputs| - 1], inputs[|inputs| - 1];
      ConsumedWorth(utxo, txs, front);
      assert RowOfParent(utxo, txs, last);
      var tail := if last.utxoId.Some? then [last.utxoId.value] else [];
      SeqSumConcat(IdsOf(front), tail, Worth(utxo));
      assert tail != [] ==> tail[..0] == [];
    }
  }

  lemma ResolvedRows(t: Tables, tx: Tx)
    requires Resolves(t, tx) && RowsAgree(t) && Fits(t, tx)
    ensures forall i :: 0 <= i < |tx.inputs| ==> RowOfParent(Merged(t, tx), t.txs, tx.inputs[i])
  {
    forall i | 0 <= i < |tx.inputs| ensures RowOfParent(Merged(t, tx), t.txs, tx.inputs[i]) {
      if !tx.inputs[i].floating {
        assert ResolveInput(t, tx.inputs[i]).Ok?;
        assert tx.inputs[i].utxoId.value in t.utxo && tx.inputs[i].utxoId.value !in Rows(tx);
      }
    }
  }

  lemma NewRowsWorth(utxo: map<UtxoId, Output>, tx: Tx)
    ensures SetSum(Rows(tx).Keys, Worth(utxo + Rows(tx))) == OutputTotal(tx.outputs)
  {
    RowsWorth(utxo, tx, |tx.outputs|);
    assert OutputIds(tx)[..|tx.outputs|] == OutputIds(tx) && tx.outputs[..|tx.outputs|] == tx.outputs;
    DistinctSeqSum(OutputIds(tx), Worth(utxo + Rows(tx)));
    assert Rows(tx).Keys == Elements(OutputIds(tx));
  }

  lemma OldRowsWorth(utxo: map<UtxoId, Output>, more: map<UtxoId, Output>)
    requires utxo.Keys !! more.Keys
    ensures SetSum(utxo.Keys, Worth(utxo + more)) == Supply(utxo)
  {
    SetSumCongruent(utxo.Keys, Worth(utxo + more), Worth(utxo));
    SupplyIsWorth(utxo);
  }

  /** The rows of a transaction add what its outputs are worth. */
  lemma InsertWorth(utxo: map<UtxoId, Output>, tx: Tx)
    requires utxo.Keys !! Rows(tx).Keys
    ensures Supply(utxo + Rows(tx)) == Supply(utxo) + OutputTotal(tx.outputs)
  {
    var m := utxo + Rows(tx);
    assert m.Keys == utxo.Keys + Rows(tx).Keys;
    SetSumUnion(utxo.Keys, Rows(tx).Keys, Worth(m));
    OldRowsWorth(utxo, Rows(tx));
    NewRowsWorth(utxo, tx);
    SupplyIsWorth(m);
  }

  lemma WrittenFits(t: Tables, tx: Tx)
    requires Fits(t, tx)
    ensures t.utxo.Keys !! Rows(Written(tx)).Keys
  {}

  lemma SupplyIsWorth(utxo: map<UtxoId, Output>)
    ensures Supply(utxo) == SetSum(utxo.Keys, Worth(utxo))
  {
    SetSumCongruent(utxo.Keys, id => RowValue(utxo, id), Worth(utxo));
  }

  lemma DeleteWorth(utxo: map<UtxoId, Output>, ids: seq<UtxoId>)
    requires Distinct(ids)
    ensures Supply(utxo - Elements(ids)) == Supply(utxo) - SeqSum(ids, Worth(utxo))
  {
    var gone := Elements(ids) * utxo.Keys;
    var left := utxo - Elements(ids);
    assert utxo.Keys == left.Keys + gone;
    SetSumUnion(left.Keys, gone, Worth(utxo));
    SetSumCongruent(left.Keys, Worth(utxo), Worth(left));
    DistinctSeqSum(ids, Worth(utxo));
    assert Elements(ids) == gone + (Elements(ids) - gone);
    SetSumUnion(gone, Elements(ids) - gone, Worth(utxo));
    SetSumZero(Elements(ids) - gone, Worth(utxo));
    SupplyIsWorth(left);
    SupplyIsWorth(utxo);
  }

  ghost function Change(t: Tables, tx: Tx): int {
    if Complete(tx) then -Unresolved(Merged(t, tx), tx.inputs) else OutputTotal(Written(tx).outputs)
  }

  /** What one commit does to the supply, whatever the transaction: one that goes through loses exactly the rows
      named by inputs that resolution passed over, one that fails gains the rows it wrote. */
  lemma CommitSupply(t: Tables, tx: Tx)
    requires Passes(t, tx) && RowsAgree(t)
    ensures Supply(Committed(t, tx).utxo) == Supply(t.utxo) + Change(t, tx)
  {
    WrittenFits(t, tx);
    InsertWorth(t.utxo, Written(tx));
    DeleteWorth(Merged(t, tx), DeletedIds(tx));
    if Complete(tx) {
      CompleteIsWhole(tx);
      ResolvedRows(t, tx);
      ConsumedWorth(Merged(t, tx), t.txs, tx.inputs);
    }
  }

  lemma {:induction false} SingleReferenceResolved(utxo: map<UtxoId, Output>, inputs: seq<Input>)
    requires forall i :: 0 <= i < |inputs| && inputs[i].floating ==> inputs[i].utxoId.None?
    ensures Unresolved(utxo, inputs) == 0
  {
    if inputs != [] { SingleReferenceResolved(utxo, inputs[..|inputs| - 1]); }
  }

  /** The supply is kept exactly when a commit that goes through passes over nothing of worth, and one that
      fails has written nothing of worth; so it is whenever no input carries both ids and none fails. */
  lemma SupplyKeptIff(t: Tables, tx: Tx)
    requires Passes(t, tx) && RowsAgree(t)
    ensures Supply(Committed(t, tx).utxo) == Supply(t.utxo) <==> Change(t, tx) == 0
    ensures SingleReference(tx) && Complete(tx) ==> Change(t, tx) == 0
  {
    CommitSupply(t, tx);
    RegularChange(t, tx);
  }

  lemma RegularChange(t: Tables, tx: Tx)
    ensures SingleReference(tx) && Complete(tx) ==> Change(t, tx) == 0
  {
    if SingleReference(tx) { SingleReferenceResolved(Merged(t, tx), tx.inputs); }
  }

  /** What an insertion that fails leaves behind: its rows and edges are there, and every output it names that
      was unspent is now in both tables, ready to be spent again. */
  lemma FailedCommit(t: Tables, tx: Tx, id: UtxoId)
    requires Accepts(t, tx) && RowsAgree(t) && !Complete(tx) && id in IdsOf(Linked(tx)) && id in t.utxo
    ensures id in Committed(t, tx).utxo && id in Committed(t, tx).edges
    ensures Committed(t, tx).utxo[id] == t.utxo[id] && Committed(t, tx).edges[id].child == tx.hash
    ensures Supply(Committed(t, tx).utxo) == Supply(t.utxo) + OutputTotal(Written(tx).outputs)
  {
    CommitSupply(t, tx);
    EdgesOfFacts(tx.hash, Linked(tx));
    assert id in Elements(IdsOf(Linked(tx)));
    WrittenFits(t, tx);
  }

  /** What the commits of a run lose to inputs that resolution passed over. */
  ghost function Lost(t: Tables, txs: seq<Tx>): int {
    if txs == [] then 0
    else
      var front, last := txs[..|txs| - 1], txs[|txs| - 1];
      Lost(t, front) + if Complete(last) then Unresolved(Merged(After(t, front), last), last.inputs) else 0
  }

  lemma GenesisSupply(g: Tx)
    ensures Supply(Genesis(g).utxo) == OutputTotal(g.outputs)
  {
    InsertWorth(map[], g);
    assert map[] + Rows(g) == Rows(g);
  }

  /** Over every serial run of any transactions the supply is what genesis issued, less those losses, plus what
      failed insertions gained. */
  lemma {:induction false} RunSupply(g: Tx, txs: seq<Tx>)
    requires IsGenesis(g) && IsRun(Genesis(g), txs)
    ensures Supply(After(Genesis(g), txs).utxo) == OutputTotal(g.outputs) - Lost(Genesis(g), txs) + Gained(txs)
  {
    if txs == [] {
      GenesisSupply(g);
    } else {
      var front := txs[..|txs| - 1];
      RunFront(Genesis(g), txs);
      RunSupply(g, front);
      RunAgrees(g, front);
      CommitSupply(After(Genesis(g), front), txs[|txs| - 1]);
    }
  }

  lemma RunAgrees(g: Tx, txs: seq<Tx>)
    requires IsGenesis(g) && IsRun(Genesis(g), txs)
    ensures RowsAgree(After(Genesis(g), txs))
  {
    RunRecords(g, txs);
  }

  lemma {:induction false} RegularKeepsSupply(t: Tables, txs: seq<Tx>)
    requires Regular(txs)
    ensures Lost(t, txs) == 0 && Gained(txs) == 0
  {
    if txs != [] {
      var front, last := txs[..|txs| - 1], txs[|txs| - 1];
      RegularKeepsSupply(t, front);
      SingleReferenceResolved(Merged(After(t, front), last), last.inputs);
    }
  }

  /** The ledger over every serial run. A row is there exactly for an output whose row was written and not
      deleted since, an edge exactly for one that was linked; every output is in exactly one of the two tables
      if and only if none is astray; and the supply is what was issued, less what was lost, plus what was
      gained. In a regular run nothing is astray, the rows are what was produced less what was consumed, and
      the supply is what genesis issued. */
  lemma SerialLedger(g: Tx, txs: seq<Tx>)
    requires IsGenesis(g) && IsRun(Genesis(g), txs)
    ensures var t := After(Genesis(g), txs); var h := [g] + txs;
            && (forall id :: RowOk(t, h, id)) && EdgesOk(t, h) && RowsAgree(t)
            && (EachInOneTable(t, h) <==> NoneAstray(h))
            && Supply(t.utxo) == OutputTotal(g.outputs) - Lost(Genesis(g), txs) + Gained(txs)
            && (Regular(txs) ==>
                 EachInOneTable(t, h) && t.utxo.Keys == Unspent(h) && Supply(t.utxo) == OutputTotal(g.outputs))
  {
    RunRecords(g, txs);
    RunSupply(g, txs);
    OneTableIff(g, txs);
    if Regular(txs) { RegularLedger(g, txs); }
  }

  lemma RegularLedger(g: Tx, txs: seq<Tx>)
    requires IsGenesis(g) && IsRun(Genesis(g), txs) && Regular(txs)
    ensures EachInOneTable(After(Genesis(g), txs), [g] + txs)
    ensures After(Genesis(g), txs).utxo.Keys == Unspent([g] + txs)
    ensures Supply(After(Genesis(g), txs).utxo) == OutputTotal(g.outputs)
  {
    RunRecords(g, txs);
    RunIsRegular(g, txs);
    RegularRecords(After(Genesis(g), txs), [g] + txs);
    RunSupply(g, txs);
    RegularKeepsSupply(Genesis(g), txs);
  }
}
