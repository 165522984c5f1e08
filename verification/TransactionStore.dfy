/** The store of the node: three tables updated in place. */
module TransactionStores {
  import opened Common
  import opened Hashes
  import opened Sums
  import opened Ledger
  import opened LedgerRuns
  import opened LedgerRecords
  import opened Balances

  /** The first `n` output rows of a transaction. */
  ghost function FirstRows(tx: Tx, n: nat): map<UtxoId, Output>
    requires n <= |tx.outputs|
  {
    if n == 0 then map[] else FirstRows(tx, n - 1)[UtxoId(tx.hash, n - 1) := tx.outputs[n - 1]]
  }

  lemma {:induction false} FirstRowsFacts(tx: Tx, n: nat)
    requires n <= |tx.outputs|
    ensures forall id :: id in FirstRows(tx, n) <==> id.hash == tx.hash && 0 <= id.index < n
    ensures forall id :: id in FirstRows(tx, n) ==> FirstRows(tx, n)[id] == tx.outputs[id.index]
  {
    if n > 0 { FirstRowsFacts(tx, n - 1); }
  }

  lemma FirstRowsWritten(tx: Tx)
    ensures FirstRows(tx, Addressed(tx.outputs)) == Rows(Written(tx))
  {
    var n := Addressed(tx.outputs);
    var first, rows := FirstRows(tx, n), Rows(Written(tx));
    FirstRowsFacts(tx, n);
    assert |Written(tx).outputs| == n;
    forall id ensures id in first <==> id in rows {}
    forall id | id in first ensures first[id] == rows[id] {
      assert rows[id] == Written(tx).outputs[id.index];
    }
  }

  /** The insertion of rows stopped at output `n`: it has no address, or its key existed. */
  ghost predicate StoppedAt(before: map<UtxoId, Output>, tx: Tx, n: nat, after: map<UtxoId, Output>)
    requires n < |tx.outputs|
  {
    && after == before + FirstRows(tx, n)
    && (tx.outputs[n].address.None? || UtxoId(tx.hash, n) in before)
  }

  /** The first output that stops the insertion is the first without an address, if all keys are new. */
  lemma StopsAtAddress(tx: Tx, n: nat)
    requires n <= |tx.outputs| && forall j :: 0 <= j < n ==> tx.outputs[j].address.Some?
    requires n < |tx.outputs| ==> tx.outputs[n].address.None?
    ensures n == Addressed(tx.outputs)
  {}

  lemma FirstRowsStep(tx: Tx, n: nat, table: map<UtxoId, Output>)
    requires n < |tx.outputs|
    ensures table + FirstRows(tx, n + 1) == (table + FirstRows(tx, n))[UtxoId(tx.hash, n) := tx.outputs[n]]
  {}

  /** Rows fit when none of their keys exists. */
  lemma FitsIff(t: Tables, tx: Tx)
    ensures Fits(t, tx) <==> forall j :: 0 <= j < |tx.outputs| ==> UtxoId(tx.hash, j) !in t.utxo
  {
    if Fits(t, tx) {
      forall j | 0 <= j < |tx.outputs| ensures UtxoId(tx.hash, j) !in t.utxo {
        assert UtxoId(tx.hash, j) in Rows(tx).Keys;
      }
    } else {
      var id :| id in t.utxo.Keys && id in Rows(tx).Keys;
      assert id == UtxoId(tx.hash, id.index);
    }
  }

  lemma IdsStep(inputs: seq<Input>, i: nat)
    requires i < |inputs|
    ensures Elements(IdsOf(inputs[..i + 1])) ==
            Elements(IdsOf(inputs[..i])) + if inputs[i].utxoId.Some? then {inputs[i].utxoId.value} else {}
  {
    assert inputs[..i + 1][..i] == inputs[..i];
  }

  /** `o` names an accepted transaction and its input that consumes `id`, and nothing if none does. */
  ghost predicate SpenderOf(h: seq<Tx>, id: UtxoId, o: Option<(Hash, nat)>) {
    && (o.None? <==> id !in Edged(h))
    && (o.Some? ==> exists j :: 0 <= j < |h| && h[j].hash == o.value.0 && Consumes(h[j], o.value.1, id))
  }

  ghost predicate Consumes(tx: Tx, i: nat, id: UtxoId) {
    i < |tx.inputs| && tx.inputs[i].utxoId == Some(id)
  }

  lemma EdgeNamesSpender(t: Tables, h: seq<Tx>, id: UtxoId)
    requires Records(t, h)
    ensures SpenderOf(h, id, if id in t.edges then Some((t.edges[id].child, t.edges[id].inputIndex)) else None)
  {
    assert id in t.edges <==> id in Elements(Edged(h));
    if id in t.edges {
      var e := t.edges[id];
      assert EdgeOk(t.txs, id, e);
      assert t.txs[e.child] in h;
      var j :| 0 <= j < |h| && h[j] == t.txs[e.child];
      assert h[j].hash == e.child && Consumes(h[j], e.inputIndex, id);
    }
  }

  class TransactionStore {
    var transactions: map<Hash, Tx>
    var utxo: map<UtxoId, Output>
    var edges: map<UtxoId, Edge>
    ghost var history: seq<Tx>  // genesis and the committed transactions

    ghost function Tables(): Tables
      reads this
    {
      Ledger.Tables(transactions, utxo, edges)
    }

    /** The tables record the history. */
    ghost predicate Faithful()
      reads this
    {
      Records(Tables(), history)
    }

    constructor (genesis: Tx)
      ensures Tables() == Genesis(genesis) && history == [genesis]
      ensures IsGenesis(genesis) ==> Faithful()
    {
      transactions := map[genesis.hash := genesis];
      utxo := Rows(genesis);
      edges := map[];
      history := [genesis];
      new;
      if IsGenesis(genesis) { GenesisRecords(genesis); }
    }

    /** A plain INSERT: refused when the output has no address or the key exists. */
    method InsertUtxo(id: UtxoId, output: Output) returns (ok: bool)
      modifies this`utxo
      ensures ok <==> output.address.Some? && id !in old(utxo)
      ensures utxo == if ok then old(utxo)[id := output] else old(utxo)
    {
      if output.address.None? { return false; }
      ok := id !in utxo;
      if ok { utxo := utxo[id := output]; }
    }

    method DeleteUtxo(id: UtxoId) returns (affected: nat)
      modifies this`utxo
      ensures utxo == old(utxo) - {id}
      ensures affected == if id in old(utxo) then 1 else 0
    {
      affected := if id in utxo then 1 else 0;
      utxo := utxo - {id};
    }

    /** Whether `id` is unspent: an accepted transaction produced it and none since has consumed it. */
    method QueryUtxoIdValid(id: UtxoId) returns (valid: bool)
      ensures valid <==> id in utxo
      ensures Faithful() ==> (valid <==> StillUnspent(history, id))
    {
      assert Faithful() ==> RowOk(Tables(), history, id);
      valid := id in utxo;
    }

    /** The accepted transaction and the index of its input that consumed `id`, if any did. */
    method UtxoUsed(id: UtxoId) returns (child: Option<(Hash, nat)>)
      ensures child == if id in edges then Some((edges[id].child, edges[id].inputIndex)) else None
      ensures Faithful() ==> SpenderOf(history, id, child)
    {
      if Faithful() { EdgeNamesSpender(Tables(), history, id); }
      child := if id in edges then Some((edges[id].child, edges[id].inputIndex)) else None;
    }

    /** Insert the output rows one by one, up to the first without an address or whose key exists. */
    method InsertRows(tx: Tx) returns (ok: bool, ghost n: nat)
      modifies this`utxo
      ensures n <= |tx.outputs| && utxo == old(utxo) + FirstRows(tx, n) && (ok <==> n == |tx.outputs|)
      ensures forall j :: 0 <= j < n ==> tx.outputs[j].address.Some? && UtxoId(tx.hash, j) !in old(utxo)
      ensures n < |tx.outputs| ==> tx.outputs[n].address.None? || UtxoId(tx.hash, n) in old(utxo)
    {
      var i := 0;
      assert utxo == utxo + FirstRows(tx, 0);
      while i < |tx.outputs|
        invariant 0 <= i <= |tx.outputs|
        invariant utxo == old(utxo) + FirstRows(tx, i)
        invariant forall j :: 0 <= j < i ==> tx.outputs[j].address.Some? && UtxoId(tx.hash, j) !in old(utxo)
      {
        var inserted := InsertUtxo(UtxoId(tx.hash, i), tx.outputs[i]);
        if !inserted {
          FirstRowsFacts(tx, i);
          return false, i;
        }
        FirstRowsStep(tx, i, old(utxo));
        i := i + 1;
      }
      return true, i;
    }

    /** With new keys, exactly the outputs before the first without an address are written. */
    method InsertOutputs(tx: Tx) returns (ok: bool)
      modifies this`utxo
      ensures ok <==> Fits(old(Tables()), tx) && Addressed(tx.outputs) == |tx.outputs|
      ensures Fits(old(Tables()), tx) ==> utxo == old(utxo) + Rows(Written(tx))
      ensures !ok ==> exists n :: 0 <= n < |tx.outputs| && StoppedAt(old(utxo), tx, n, utxo)
    {
      ghost var n;
      ok, n := InsertRows(tx);
      FitsIff(old(Tables()), tx);
      if Fits(old(Tables()), tx) {
        StopsAtAddress(tx, n);
        FirstRowsWritten(tx);
      }
      assert !ok ==> StoppedAt(old(utxo), tx, n, utxo);
    }

    /** One edge for every fixed id, up to the first without a hash. */
    method InsertEdges(tx: Tx) returns (ok: bool)
      modifies this`edges
      ensures edges == old(edges) + EdgesOf(tx.hash, tx.inputs[..Named(tx.inputs)])
      ensures ok <==> Named(tx.inputs) == |tx.inputs|
    {
      for i := 0 to |tx.inputs|
        invariant i <= Named(tx.inputs)
        invariant edges == old(edges) + EdgesOf(tx.hash, tx.inputs[..i])
      {
        assert tx.inputs[..i + 1][..i] == tx.inputs[..i];
        if tx.inputs[i].utxoId.Some? {
          if tx.inputs[i].hashless { return false; }
          edges := edges[tx.inputs[i].utxoId.value := Edge(tx.hash, i, tx.inputs[i].owner)];
        }
      }
      ok := true;
    }

    /** The index of transactions by address needs every address and the time. */
    method InsertAddressTransaction(tx: Tx) returns (ok: bool)
      ensures ok <==> Addressed(tx.outputs) == |tx.outputs| && tx.time.Some?
    {
      for i := 0 to |tx.outputs|
        invariant i <= Addressed(tx.outputs)
      {
        if tx.outputs[i].address.None? { return false; }
      }
      ok := tx.time.Some?;
    }

    /** Raw row, output rows, edges, address index. What was written before a failure stays. */
    method InsertTransaction(tx: Tx, updateUtxo: bool) returns (ok: bool)
      modifies this`transactions, this`utxo, this`edges
      ensures ok <==> (updateUtxo ==> Fits(old(Tables()), tx)) && Complete(tx)
      ensures updateUtxo && Fits(old(Tables()), tx) ==> Tables() == Inserted(old(Tables()), tx)
      ensures !updateUtxo ==>
                Tables() == Ledger.Tables(old(transactions)[tx.hash := tx], old(utxo),
                                          old(edges) + EdgesOf(tx.hash, tx.inputs[..Named(tx.inputs)]))
      ensures updateUtxo && !Fits(old(Tables()), tx) ==>
                transactions == old(transactions)[tx.hash := tx] && edges == old(edges) &&
                exists n :: 0 <= n < |tx.outputs| && StoppedAt(old(utxo), tx, n, utxo)
    {
      transactions := transactions[tx.hash := tx];
      if updateUtxo {
        ok := InsertOutputs(tx);
        if !ok {
          assert edges == edges + EdgesOf(tx.hash, []);
          return;
        }
      }
      ok := InsertEdges(tx);
      if ok { ok := InsertAddressTransaction(tx); }
    }

    /** Delete the consumed rows one by one, and look whether each is gone. */
    method DeleteConsumed(inputs: seq<Input>) returns (deleted: bool)
      modifies this`utxo
      ensures utxo == old(utxo) - Elements(IdsOf(inputs))
      ensures deleted
    {
      var i := 0;
      deleted := true;
      while i < |inputs|
        invariant 0 <= i <= |inputs| && deleted
        invariant utxo == old(utxo) - Elements(IdsOf(inputs[..i]))
      {
        IdsStep(inputs, i);
        if inputs[i].utxoId.Some? {
          var affected := DeleteUtxo(inputs[i].utxoId.value);
          var valid := QueryUtxoIdValid(inputs[i].utxoId.value);
          deleted := deleted && !valid;
        }
        i := i + 1;
      }
      assert inputs[..i] == inputs;
    }

    method InsertAndDelete(tx: Tx) returns (ok: bool)
      modifies this`transactions, this`utxo, this`edges
      ensures ok <==> Fits(old(Tables()), tx) && Complete(tx)
      ensures Fits(old(Tables()), tx) ==> Tables() == Committed(old(Tables()), tx)
    {
      ok := InsertTransaction(tx, true);
      if ok { var deleted := DeleteConsumed(tx.inputs); }
    }

    /** The acceptance of a processed transaction: insert it and, if that went through, delete every row it
        consumes. It goes through exactly when the rows fit, every output has an address, every fixed id a hash,
        and there is a time; where only the last three fail, the tables are left as `Committed` says. */
    method Commit(tx: Tx) returns (ok: bool)
      modifies this
      ensures ok <==> Fits(old(Tables()), tx) && Complete(tx)
      ensures Fits(old(Tables()), tx) ==> Tables() == Committed(old(Tables()), tx)
      ensures history == old(history) + [tx]
      ensures old(Faithful()) && Accepts(old(Tables()), tx) ==> Faithful() && (ok <==> Complete(tx))
    {
      ok := InsertAndDelete(tx);
      history := history + [tx];
      if old(Faithful()) && Accepts(old(Tables()), tx) { RecordsExtend(old(Tables()), old(history), tx); }
    }

    /** The rows of an address, added up; a total that is not positive is no balance. */
    method GetBalance(a: Address) returns (balance: Option<int>)
      ensures balance == if BalanceOf(utxo, a) > 0 then Some(BalanceOf(utxo, a)) else None
    {
      var total := 0;
      var table := utxo;
      var left := table.Keys;
      ghost var value := id => RowValueTo(table, id, a);
      while left != {}
        invariant left <= table.Keys
        invariant total + SetSum(left, value) == SetSum(table.Keys, value)
        decreases |left|
      {
        var id :| id in left;
        SetSumRemove(left, value, id);
        if table[id].address == Some(a) && table[id].amount.Some? {
          total := total + table[id].amount.value;
        }
        left := left - {id};
      }
      SetSumCongruent(table.Keys, value, id => RowValueTo(table, id, a));
      balance := if total > 0 then Some(total) else None;
    }
  }
}
