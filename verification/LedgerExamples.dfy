/** Runs that show each way the ledger laws of regular runs fail. */
module LedgerExamples {
  import opened Common
  import opened Hashes
  import opened Ledger
  import opened LedgerRuns
  import opened LedgerRecords
  import opened LedgerLimits
  import opened Balances

  const Owner: Address := [7]
  const Stranger: Address := [9]

  const Issued: UtxoId := UtxoId([1], 0)

  const Issue: Tx := Tx([1], [], [Output(Some(Owner), Some(5))], Some(0))

  /** One input, signed by `owner`, and one output to the same. */
  function Move(hash: Hash, id: UtxoId, floating: bool, owner: Address, amount: Option<int>, time: Option<int>): Tx {
    Tx(hash, [Input(Some(id), floating, owner, true, true, false)], [Output(Some(owner), amount)], time)
  }

  lemma IdsOfOne(i: Input)
    ensures IdsOf([i]) == if i.utxoId.Some? then [i.utxoId.value] else []
    ensures forall txs ::
              ParentTotal(txs, [i]) == if !i.floating && i.utxoId.Some? then ValueIn(txs, i.utxoId.value) else 0
    ensures forall utxo ::
              Unresolved(utxo, [i]) == if i.floating && i.utxoId.Some? then RowValue(utxo, i.utxoId.value) else 0
  {
    assert [i][..0] == [];
  }

  lemma TotalOfOne(o: Output)
    ensures OutputTotal([o]) == Amount(o)
    ensures o.address.Some? ==> Addressed([o]) == 1
  {
    assert [o][..0] == [] && [o][1..] == [];
  }

  lemma MoveFacts(tx: Tx)
    requires |tx.inputs| == 1 && tx.inputs[0].utxoId.Some? && !tx.inputs[0].hashless
    requires |tx.outputs| == 1 && tx.outputs[0].address.Some?
    ensures Complete(tx) <==> tx.time.Some?
    ensures Written(tx) == tx && Linked(tx) == tx.inputs && FixedIds(tx) == [tx.inputs[0].utxoId.value]
    ensures OutputTotal(tx.outputs) == Amount(tx.outputs[0])
  {
    assert tx.inputs == [tx.inputs[0]] && tx.outputs == [tx.outputs[0]];
    IdsOfOne(tx.inputs[0]);
    TotalOfOne(tx.outputs[0]);
    assert tx.inputs[1..] == [];
    assert tx.outputs[..1] == tx.outputs && tx.inputs[..1] == tx.inputs;
  }

  /** When such a transaction is accepted. */
  lemma MoveAccepted(t: Tables, tx: Tx)
    requires |tx.inputs| == 1 && tx.inputs[0].utxoId.Some? && !tx.inputs[0].hashless
    requires tx.inputs[0].hasProof && tx.inputs[0].signed && tx.inputs[0].utxoId.value.index == 0
    requires |tx.outputs| == 1 && tx.outputs[0].address.Some? && tx.hash !in t.txs && RowsAgree(t)
    requires if tx.inputs[0].floating then Amount(tx.outputs[0]) == 0 else
               var id := tx.inputs[0].utxoId.value;
               && id in t.utxo && t.utxo[id].address == Some(tx.inputs[0].owner)
               && Amount(t.utxo[id]) == Amount(tx.outputs[0])
    ensures Accepts(t, tx)
  {
    MoveFacts(tx);
    IdsOfOne(tx.inputs[0]);
    assert tx.inputs == [tx.inputs[0]];
    NewFits(t, tx);
  }

  lemma IssueFacts()
    ensures IsGenesis(Issue) && RowsAgree(Genesis(Issue)) && Genesis(Issue).txs.Keys == {[1]}
    ensures Issued in Genesis(Issue).utxo && Genesis(Issue).utxo[Issued] == Issue.outputs[0]
    ensures OutputTotal(Issue.outputs) == 5
  {
    TotalOfOne(Issue.outputs[0]);
    assert Issue.outputs == [Issue.outputs[0]];
    assert Issued in Rows(Issue);
    GenesisRecords(Issue);
  }

  lemma RunOfOne(t: Tables, a: Tx)
    requires Accepts(t, a)
    ensures IsRun(t, [a]) && After(t, [a]) == Committed(t, a)
  {
    assert [a][..0] == [];
    assert IsRun(t, []) && After(t, []) == t;
  }

  lemma RunOfTwo(t: Tables, a: Tx, b: Tx)
    requires Accepts(t, a) && Accepts(Committed(t, a), b)
    ensures IsRun(t, [a, b]) && After(t, [a, b]) == Committed(Committed(t, a), b)
  {
    RunOfOne(t, a);
    assert [a, b][..1] == [a];
  }

  // ---- Inputs that carry both ids ----

  /** Names the output of `Owner` without a signature of theirs that resolution looks at. */
  const Dual: Tx := Move([4], Issued, true, Stranger, None, Some(0))

  /** With such an input a stranger destroys a row: the supply falls from 5 to 0, and so does the balance of its
      owner, who signed nothing away. */
  lemma DualReferenceBurns()
    ensures IsGenesis(Issue) && IsRun(Genesis(Issue), [Dual])
    ensures Supply(Genesis(Issue).utxo) == 5 && Supply(After(Genesis(Issue), [Dual]).utxo) == 0
    ensures BalanceOf(Genesis(Issue).utxo, Owner) == 5 && BalanceOf(After(Genesis(Issue), [Dual]).utxo, Owner) == 0
    ensures SpentInRun(Genesis(Issue), [Dual], Owner) == 0
  {
    var g := Genesis(Issue);
    IssueFacts();
    MoveFacts(Dual);
    MoveAccepted(g, Dual);
    RunOfOne(g, Dual);
    DualSupply();
    DualBalance();
  }

  lemma DualSupply()
    ensures Accepts(Genesis(Issue), Dual)
    ensures Supply(Genesis(Issue).utxo) == 5 && Supply(Committed(Genesis(Issue), Dual).utxo) == 0
  {
    var g := Genesis(Issue);
    IssueFacts();
    MoveFacts(Dual);
    MoveAccepted(g, Dual);
    IdsOfOne(Dual.inputs[0]);
    GenesisSupply(Issue);
    CommitSupply(g, Dual);
    assert Issued !in Rows(Dual);
    assert Merged(g, Dual)[Issued] == Issue.outputs[0];
  }

  lemma DualBalance()
    ensures BalanceOf(Genesis(Issue).utxo, Owner) == 5 && BalanceOf(Committed(Genesis(Issue), Dual).utxo, Owner) == 0
    ensures SpentInRun(Genesis(Issue), [Dual], Owner) == 0
  {
    var g := Genesis(Issue);
    IssueFacts();
    MoveFacts(Dual);
    MoveAccepted(g, Dual);
    CommitBalance(g, Dual, Owner);
    GenesisBalance(Issue, Owner);
    assert [Issue][..0] == [] && Issue.outputs[..0] == [] && Dual.outputs[..0] == [] && Dual.inputs[..0] == [];
    assert Written(Issue) == Issue by { CompleteIsWhole(Issue); }
    assert Issued !in Rows(Dual);
    assert Merged(g, Dual)[Issued] == Issue.outputs[0];
    assert [Dual][..0] == [];
  }

  /** Names an output that does not exist yet. */
  const Early: Tx := Move([2], UtxoId([3], 0), true, Stranger, None, Some(0))

  /** Produces it. */
  const Late: Tx := Move([3], Issued, false, Owner, Some(5), Some(0))

  /** The output is then in both tables. */
  lemma EarlyReferenceInBoth()
    ensures IsGenesis(Issue) && IsRun(Genesis(Issue), [Early, Late])
    ensures UtxoId([3], 0) in After(Genesis(Issue), [Early, Late]).utxo
    ensures UtxoId([3], 0) in After(Genesis(Issue), [Early, Late]).edges
  {
    var g := Genesis(Issue);
    var id := UtxoId([3], 0);
    IssueFacts();
    MoveFacts(Early);
    MoveFacts(Late);
    MoveAccepted(g, Early);
    var m := Committed(g, Early);
    EdgesOfFacts([2], Early.inputs);
    assert id in Elements(IdsOf(Early.inputs)) && id in m.edges;
    RowsStayAgreed(g, Early);
    assert Issued !in Rows(Early) && Issued !in Elements(FixedIds(Early)) && m.utxo[Issued] == Issue.outputs[0];
    MoveAccepted(m, Late);
    assert id in Rows(Late) && id !in Elements(FixedIds(Late));
    RunOfTwo(g, Early, Late);
  }

  // ---- Insertions that fail ----

  /** Has no time, so its insertion fails after rows and edges. */
  const Timeless: Tx := Move([6], Issued, false, Owner, Some(5), None)

  /** Spends the same output once more. Its hash is the smaller, so the request that `Timeless` left in the pool
      of the output does not stop it. */
  const Again: Tx := Move([5], Issued, false, Owner, Some(5), Some(0))

  lemma TimelessCommit()
    ensures var g := Genesis(Issue);
            && Accepts(g, Timeless) && RowsAgree(Committed(g, Timeless)) && [5] !in Committed(g, Timeless).txs
            && Issued in Committed(g, Timeless).utxo && Committed(g, Timeless).utxo[Issued] == Issue.outputs[0]
            && Issued in Committed(g, Timeless).edges
  {
    var g := Genesis(Issue);
    IssueFacts();
    MoveFacts(Timeless);
    MoveAccepted(g, Timeless);
    RowsStayAgreed(g, Timeless);
    assert Issued in IdsOf(Linked(Timeless));
    FailedCommit(g, Timeless, Issued);
  }

  /** A transaction without a time passes every check, and one output is spent twice, one spender after the
      other: the supply doubles. */
  lemma TimelessSpendsTwice()
    ensures IsGenesis(Issue) && IsRun(Genesis(Issue), [Timeless, Again]) && Less(Again.hash, Timeless.hash)
    ensures Issued in FixedIds(Timeless) && Issued in FixedIds(Again)
    ensures Supply(Genesis(Issue).utxo) == 5 && Supply(After(Genesis(Issue), [Timeless, Again]).utxo) == 10
  {
    var g := Genesis(Issue);
    IssueFacts();
    TimelessCommit();
    MoveFacts(Timeless);
    MoveFacts(Again);
    MoveAccepted(Committed(g, Timeless), Again);
    RunOfTwo(g, Timeless, Again);
    GenesisSupply(Issue);
    TimelessGain();
    RunSupply(Issue, [Timeless, Again]);
  }

  lemma TimelessGain()
    ensures Gained([Timeless, Again]) == 5 && Lost(Genesis(Issue), [Timeless, Again]) == 0
  {
    MoveFacts(Timeless);
    MoveFacts(Again);
    IdsOfOne(Again.inputs[0]);
    assert [Timeless, Again][..1] == [Timeless] && [Timeless][..0] == [];
    assert Gained([Timeless]) == 5 && Lost(Genesis(Issue), [Timeless]) == 0;
  }
}
