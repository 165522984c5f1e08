/** What serial runs of any transactions leave in the tables: those included whose inputs carry a fixed and a
    floating id at once, and those whose insertion fails half way. */
module LedgerRecords {
  import opened Common
  import opened Ledger
  import opened LedgerRuns

  /** Nothing from transaction `k` on deletes the row of `id`. */
  ghost predicate KeptFrom(h: seq<Tx>, k: nat, id: UtxoId) {
    forall j :: k <= j < |h| ==> id !in DeletedIds(h[j])
  }

  /** Its row was written, and not deleted since. */
  ghost predicate StillUnspent(h: seq<Tx>, id: UtxoId) {
    exists k :: 0 <= k < |h| && id in OutputIds(Written(h[k])) && KeptFrom(h, k, id)
  }

  ghost predicate StoredOk(t: Tables, h: seq<Tx>) {
    && h != [] && IsGenesis(h[0]) && DistinctHashes(h) && Stores(t.txs, h)
    && (forall k :: k in t.txs ==> t.txs[k] in h && t.txs[k].hash == k)
  }

  ghost predicate RowOk(t: Tables, h: seq<Tx>, id: UtxoId) {
    id in t.utxo <==> StillUnspent(h, id)
  }

  /** Every input that resolution looked at consumes an output that was unspent at the time. */
  ghost predicate Sourced(h: seq<Tx>) {
    forall k, i :: 1 <= k < |h| && 0 <= i < |h[k].inputs| && !h[k].inputs[i].floating ==>
      SourcedInput(h[..k], h[k].inputs[i])
  }

  ghost predicate SourcedInput(before: seq<Tx>, i: Input) {
    i.utxoId.Some? && StillUnspent(before, i.utxoId.value)
  }

  /** What the tables say of any history. */
  ghost predicate Records(t: Tables, h: seq<Tx>) {
    && StoredOk(t, h) && Sourced(h)
    && (forall id :: RowOk(t, h, id)) && RowsAgree(t)
    && EdgesOk(t, h)
  }

  lemma StoredExtends(t: Tables, h: seq<Tx>, tx: Tx)
    requires StoredOk(t, h) && tx.hash !in t.txs
    ensures StoredOk(Committed(t, tx), h + [tx])
  {
    HashesExtend(t, h, tx);
    var n := h + [tx];
    var u := Committed(t, tx);
    forall k | k in u.txs ensures u.txs[k] in n && u.txs[k].hash == k {
      if k == tx.hash { assert n[|h|] == tx; } else { assert t.txs[k] in h; }
    }
    assert n[0] == h[0];
  }

  /** With distinct hashes one transaction has the output. */
  lemma UnspentFrom(h: seq<Tx>, k: nat, id: UtxoId)
    requires DistinctHashes(h) && k < |h| && id.hash == h[k].hash
    ensures StillUnspent(h, id) <==> id in OutputIds(Written(h[k])) && KeptFrom(h, k, id)
  {
    forall m | 0 <= m < |h| && id in OutputIds(Written(h[m])) ensures m == k { assert h[m].hash == h[k].hash; }
  }

  lemma UnspentSince(h: seq<Tx>, tx: Tx, id: UtxoId)
    ensures StillUnspent(h + [tx], id) <==>
            (StillUnspent(h, id) || id in OutputIds(Written(tx))) && id !in DeletedIds(tx)
  {
    var n := h + [tx];
    assert n[|h|] == tx;
    if StillUnspent(n, id) {
      var k :| 0 <= k < |n| && id in OutputIds(Written(n[k])) && KeptFrom(n, k, id);
      if k < |h| {
        forall j | k <= j < |h| ensures id !in DeletedIds(h[j]) { assert n[j] == h[j]; }
        assert id in OutputIds(Written(h[k])) && KeptFrom(h, k, id);
      }
    }
    if StillUnspent(h, id) && id !in DeletedIds(tx) {
      var k :| 0 <= k < |h| && id in OutputIds(Written(h[k])) && KeptFrom(h, k, id);
      assert id in OutputIds(Written(n[k])) && KeptFrom(n, k, id);
    }
    if id in OutputIds(Written(tx)) && id !in DeletedIds(tx) {
      assert id in OutputIds(Written(n[|h|])) && KeptFrom(n, |h|, id);
    }
  }

  lemma RowsRecorded(t: Tables, h: seq<Tx>, tx: Tx, id: UtxoId)
    requires RowOk(t, h, id)
    ensures RowOk(Committed(t, tx), h + [tx], id)
  {
    UnspentSince(h, tx, id);
    assert id in Rows(Written(tx)) <==> id in OutputIds(Written(tx));
  }

  lemma RowsStayAgreed(t: Tables, tx: Tx)
    requires RowsAgree(t) && tx.hash !in t.txs
    ensures RowsAgree(Committed(t, tx))
  {
    var u := Committed(t, tx);
    forall id | id in u.utxo
      ensures id.hash in u.txs && 0 <= id.index < Addressed(u.txs[id.hash].outputs)
              && u.utxo[id] == u.txs[id.hash].outputs[id.index]
    {
      if id in Rows(Written(tx)) { assert u.utxo[id] == Written(tx).outputs[id.index]; }
    }
  }

  lemma SourcedExtends(t: Tables, h: seq<Tx>, tx: Tx)
    requires Sourced(h) && (forall id :: RowOk(t, h, id)) && RowsAgree(t) && Resolves(t, tx)
    ensures Sourced(h + [tx])
  {
    var n := h + [tx];
    forall k, i | 1 <= k < |n| && 0 <= i < |n[k].inputs| && !n[k].inputs[i].floating
      ensures SourcedInput(n[..k], n[k].inputs[i])
    {
      if k < |h| {
        assert SourcedInput(h[..k], h[k].inputs[i]);
        assert n[..k] == h[..k];
      } else {
        ResolvedInput(t, tx, i);
        assert RowOk(t, h, tx.inputs[i].utxoId.value);
        assert n[..k] == h;
      }
    }
  }

  lemma RecordsExtend(t: Tables, h: seq<Tx>, tx: Tx)
    requires Records(t, h) && Accepts(t, tx)
    ensures Records(Committed(t, tx), h + [tx])
  {
    StoredExtends(t, h, tx);
    SourcedExtends(t, h, tx);
    forall id ensures RowOk(Committed(t, tx), h + [tx], id) { RowsRecorded(t, h, tx, id); }
    RowsStayAgreed(t, tx);
    EdgesOkExtends(t, h, tx);
  }

  lemma GenesisRows(g: Tx, id: UtxoId)
    requires IsGenesis(g)
    ensures RowOk(Genesis(g), [g], id)
  {
    CompleteIsWhole(g);
    assert [g][0] == g;
    if id in Rows(g) { assert id in OutputIds(Written([g][0])) && KeptFrom([g], 0, id); }
  }

  lemma GenesisRecords(g: Tx)
    requires IsGenesis(g)
    ensures Records(Genesis(g), [g])
  {
    CompleteIsWhole(g);
    forall id ensures RowOk(Genesis(g), [g], id) { GenesisRows(g, id); }
    assert [g][..0] == [] && Edged([g]) == [];
  }

  /** Over every serial run, whatever the transactions. */
  lemma {:induction false} RunRecords(g: Tx, txs: seq<Tx>)
    requires IsGenesis(g) && IsRun(Genesis(g), txs)
    ensures Records(After(Genesis(g), txs), [g] + txs)
  {
    if txs == [] {
      GenesisRecords(g);
      assert [g] + txs == [g];
    } else {
      RunFront(Genesis(g), txs);
      RunRecords(g, txs[..|txs| - 1]);
      HistoryFront(g, txs);
      RecordsExtend(After(Genesis(g), txs[..|txs| - 1]), [g] + txs[..|txs| - 1], txs[|txs| - 1]);
    }
  }

  // ---- No replay, no second spend ----

  /** No run accepts a hash twice. */
  lemma NoReplay(g: Tx, txs: seq<Tx>, k: nat, tx: Tx)
    requires IsGenesis(g) && IsRun(Genesis(g), txs) && k < |[g] + txs| && tx.hash == ([g] + txs)[k].hash
    ensures !IsRun(Genesis(g), txs + [tx])
  {
    RunRecords(g, txs);
    assert tx.hash in After(Genesis(g), txs).txs;
    if IsRun(Genesis(g), txs + [tx]) { RunLast(Genesis(g), txs, tx); }
  }

  lemma RunLast(t: Tables, txs: seq<Tx>, tx: Tx)
    requires IsRun(t, txs + [tx])
    ensures tx.hash !in After(t, txs).txs
  {
    assert (txs + [tx])[..|txs|] == txs;
  }

  /** An input that resolution looked at names an output of an earlier transaction. */
  lemma SourceOf(h: seq<Tx>, k: nat, i: nat) returns (m: nat)
    requires Sourced(h) && 1 <= k < |h| && i < |h[k].inputs| && !h[k].inputs[i].floating
    ensures h[k].inputs[i].utxoId.Some? && m < k
    ensures h[k].inputs[i].utxoId.value in OutputIds(Written(h[m])) && KeptFrom(h[..k], m, h[k].inputs[i].utxoId.value)
  {
    assert SourcedInput(h[..k], h[k].inputs[i]);
    var id := h[k].inputs[i].utxoId.value;
    m :| 0 <= m < |h[..k]| && id in OutputIds(Written(h[..k][m])) && KeptFrom(h[..k], m, id);
  }

  lemma ConsumesIt(tx: Tx, i: nat)
    requires i < |tx.inputs| && tx.inputs[i].utxoId.Some?
    ensures tx.inputs[i].utxoId.value in FixedIds(tx)
  {
    SpendsIffFixed(tx.inputs, tx.inputs[i].utxoId.value);
  }

  /** In a serial run an output is spent again only if the insertion of its first spender failed half way. */
  lemma SpentTwiceOnlyIfFailed(h: seq<Tx>, j: nat, k: nat, i: nat, l: nat)
    requires Sourced(h) && DistinctHashes(h) && 1 <= j < k < |h| && i < |h[j].inputs| && l < |h[k].inputs|
    requires !h[j].inputs[i].floating && !h[k].inputs[l].floating && h[j].inputs[i].utxoId == h[k].inputs[l].utxoId
    ensures !Complete(h[j])
  {
    var m := SourceOf(h, j, i);
    var n := SourceOf(h, k, l);
    assert h[m].hash == h[n].hash;
    ConsumesIt(h[j], i);
    assert h[..k][j] == h[j];
  }

  lemma SpentForGood(t: Tables, h: seq<Tx>, k: nat, i: nat)
    requires Records(t, h) && 1 <= k < |h| && Complete(h[k]) && i < |h[k].inputs| && !h[k].inputs[i].floating
    ensures h[k].inputs[i].utxoId.Some? && h[k].inputs[i].utxoId.value !in t.utxo
  {
    var m := SourceOf(h, k, i);
    var id := h[k].inputs[i].utxoId.value;
    ConsumesIt(h[k], i);
    assert RowOk(t, h, id);
    UnspentFrom(h, m, id);
  }

  /** What resolution alone, without the look at the known hashes, would do to an accepted transaction whose
      insertion went through: it resolves again exactly when all its inputs are floating. */
  lemma ResolvesAgainIff(t: Tables, h: seq<Tx>, k: nat)
    requires Records(t, h) && 1 <= k < |h| && Complete(h[k])
    ensures Resolves(t, h[k]) <==> forall i :: 0 <= i < |h[k].inputs| ==> h[k].inputs[i].floating
  {
    forall i | 0 <= i < |h[k].inputs| && !h[k].inputs[i].floating ensures ResolveInput(t, h[k].inputs[i]).Err? {
      SpentForGood(t, h, k, i);
    }
  }

  // ---- Each output in one table ----

  /** An edge names the output, written before its row was or by an insertion that failed, and nothing has
      deleted the row since. */
  ghost predicate SpentAndKept(h: seq<Tx>, k: nat, id: UtxoId)
    requires k < |h|
  {
    && id in OutputIds(Written(h[k])) && KeptFrom(h, k, id)
    && exists j :: 0 <= j < |h| && id in IdsOf(Linked(h[j])) && (j < k || !Complete(h[j]))
  }

  /** The insertion stopped before the row, and no edge names the output. */
  ghost predicate NeverHeld(h: seq<Tx>, k: nat, id: UtxoId)
    requires k < |h|
  {
    id !in OutputIds(Written(h[k])) && forall j :: 0 <= j < |h| ==> id !in IdsOf(Linked(h[j]))
  }

  /** Where an output is: in both tables exactly when it was spent and kept, in neither exactly when it was
      never held; and its row is the output itself. */
  lemma OutputStanding(t: Tables, h: seq<Tx>, k: nat, i: nat)
    requires Records(t, h) && k < |h| && i < |h[k].outputs|
    ensures var id := UtxoId(h[k].hash, i);
            && (id in t.utxo && id in t.edges <==> SpentAndKept(h, k, id))
            && (id !in t.utxo && id !in t.edges <==> NeverHeld(h, k, id))
            && (id in t.utxo ==> t.utxo[id] == h[k].outputs[i])
  {
    var id := UtxoId(h[k].hash, i);
    assert RowOk(t, h, id);
    assert id in t.edges <==> id in Edged(h);
    StandingIn(h, k, id);
  }

  lemma StandingIn(h: seq<Tx>, k: nat, id: UtxoId)
    requires DistinctHashes(h) && k < |h| && id.hash == h[k].hash
    ensures StillUnspent(h, id) && id in Edged(h) <==> SpentAndKept(h, k, id)
    ensures !StillUnspent(h, id) && id !in Edged(h) <==> NeverHeld(h, k, id)
  {
    UnspentFrom(h, k, id);
    EdgedIff(h, id);
    KeptOrLinked(h, k, id);
  }

  /** From `k` on, an insertion that went through links exactly what it deletes. */
  lemma KeptOrLinked(h: seq<Tx>, k: nat, id: UtxoId)
    requires k < |h|
    ensures KeptFrom(h, k, id) <==> forall j :: k <= j < |h| && Complete(h[j]) ==> id !in IdsOf(Linked(h[j]))
  {
    forall j | k <= j < |h| && Complete(h[j]) && id in IdsOf(Linked(h[j])) ensures !KeptFrom(h, k, id) {
      CompleteIsWhole(h[j]);
    }
    if !KeptFrom(h, k, id) {
      var j :| k <= j < |h| && id in DeletedIds(h[j]);
      CompleteIsWhole(h[j]);
    }
  }

  ghost predicate NoneAstray(h: seq<Tx>) {
    forall k, i :: 0 <= k < |h| && 0 <= i < |h[k].outputs| ==>
      !SpentAndKept(h, k, UtxoId(h[k].hash, i)) && !NeverHeld(h, k, UtxoId(h[k].hash, i))
  }

  /** Exactly when every output is in exactly one of `utxo` and `transaction_edge`. */
  lemma OneTableIff(g: Tx, txs: seq<Tx>)
    requires IsGenesis(g) && IsRun(Genesis(g), txs)
    ensures EachInOneTable(After(Genesis(g), txs), [g] + txs) <==> NoneAstray([g] + txs)
  {
    RunRecords(g, txs);
    OneTableIn(After(Genesis(g), txs), [g] + txs);
  }

  lemma OneTableIn(t: Tables, h: seq<Tx>)
    requires Records(t, h)
    ensures EachInOneTable(t, h) <==> NoneAstray(h)
  {
    forall k, i | 0 <= k < |h| && 0 <= i < |h[k].outputs|
      ensures var id := UtxoId(h[k].hash, i);
              SpentOrUnspent(t, h[k], i) <==> !SpentAndKept(h, k, id) && !NeverHeld(h, k, id)
    {
      OutputStanding(t, h, k, i);
    }
  }

  // ---- Regular runs ----

  /** What resolution looked at was there: an output is consumed after the transaction that has it. */
  lemma ConsumedLater(h: seq<Tx>, j: nat, k: nat, id: UtxoId)
    requires Sourced(h) && DistinctHashes(h) && 1 <= j < |h| && k < |h| && SingleReference(h[j])
    requires id.hash == h[k].hash && id in FixedIds(h[j])
    ensures k < j
  {
    SpendsIffFixed(h[j].inputs, id);
    var i :| 0 <= i < |h[j].inputs| && h[j].inputs[i].utxoId == Some(id);
    var m := SourceOf(h, j, i);
    assert h[m].hash == h[k].hash;
  }

  ghost predicate AllRegular(h: seq<Tx>) {
    h != [] && IsGenesis(h[0]) && forall j :: 1 <= j < |h| ==> SingleReference(h[j]) && Complete(h[j])
  }

  /** Without inputs that carry both ids, and with every insertion going through, nothing is astray. */
  lemma RegularNotAstray(h: seq<Tx>, k: nat, i: nat)
    requires Sourced(h) && DistinctHashes(h) && AllRegular(h) && k < |h| && i < |h[k].outputs|
    ensures !SpentAndKept(h, k, UtxoId(h[k].hash, i)) && !NeverHeld(h, k, UtxoId(h[k].hash, i))
  {
    var id := UtxoId(h[k].hash, i);
    CompleteIsWhole(h[k]);
    forall j | 0 <= j < k ensures id !in IdsOf(Linked(h[j])) {
      CompleteIsWhole(h[j]);
      if id in FixedIds(h[j]) { ConsumedLater(h, j, k, id); }
    }
  }

  /** And what is unspent is what was produced and not consumed. */
  lemma RegularUnspent(h: seq<Tx>, id: UtxoId)
    requires Sourced(h) && DistinctHashes(h) && AllRegular(h)
    ensures StillUnspent(h, id) <==> id in Produced(h) && id !in Consumed(h)
  {
    ProducedIff(h, id);
    ConsumedIff(h, id);
    if StillUnspent(h, id) {
      var k :| 0 <= k < |h| && id in OutputIds(Written(h[k])) && KeptFrom(h, k, id);
      NotBefore(h, k, id);
    }
    if id in Produced(h) && id !in Consumed(h) {
      var k :| 0 <= k < |h| && id in OutputIds(Written(h[k]));
      assert KeptFrom(h, k, id);
    }
  }

  lemma NotBefore(h: seq<Tx>, k: nat, id: UtxoId)
    requires Sourced(h) && DistinctHashes(h) && AllRegular(h) && k < |h| && id.hash == h[k].hash
    ensures forall j :: 0 <= j < k ==> id !in DeletedIds(h[j])
  {
    forall j | 0 <= j < k ensures id !in DeletedIds(h[j]) {
      if id in DeletedIds(h[j]) { ConsumedLater(h, j, k, id); }
    }
  }

  lemma RunIsRegular(g: Tx, txs: seq<Tx>)
    requires IsGenesis(g) && Regular(txs)
    ensures AllRegular([g] + txs)
  {
    forall j | 1 <= j < |[g] + txs| ensures SingleReference(([g] + txs)[j]) && Complete(([g] + txs)[j]) {
      assert ([g] + txs)[j] == txs[j - 1];
    }
  }

  lemma RegularRecords(t: Tables, h: seq<Tx>)
    requires Records(t, h) && AllRegular(h)
    ensures EachInOneTable(t, h) && t.utxo.Keys == Unspent(h)
  {
    forall k, i | 0 <= k < |h| && 0 <= i < |h[k].outputs|
      ensures !SpentAndKept(h, k, UtxoId(h[k].hash, i)) && !NeverHeld(h, k, UtxoId(h[k].hash, i))
    {
      RegularNotAstray(h, k, i);
    }
    OneTableIn(t, h);
    RegularRows(t, h);
  }

  lemma RegularRows(t: Tables, h: seq<Tx>)
    requires Sourced(h) && DistinctHashes(h) && AllRegular(h) && forall id :: RowOk(t, h, id)
    ensures t.utxo.Keys == Unspent(h)
  {
    forall id ensures id in t.utxo <==> id in Unspent(h) {
      RegularUnspent(h, id);
      assert RowOk(t, h, id);
    }
  }
}
