/** Balances by address: what the `utxo` rows of an address add up to, and what commits of any transactions do to
    that. */
module Balances {
  import opened Common
  import opened Hashes
  import opened Sums
  import opened Ledger
  import opened LedgerRuns
  import opened LedgerLimits

  function RowValueTo(utxo: map<UtxoId, Output>, id: UtxoId, a: Address): int {
    if id in utxo && utxo[id].address == Some(a) then Amount(utxo[id]) else 0
  }

  ghost function BalanceIn(utxo: map<UtxoId, Output>, ids: set<UtxoId>, a: Address): int {
    SetSum(ids, id => RowValueTo(utxo, id, a))
  }

  /** The total of the rows of one address. */
  ghost function BalanceOf(utxo: map<UtxoId, Output>, a: Address): int {
    BalanceIn(utxo, utxo.Keys, a)
  }

  ghost function Holders(utxo: map<UtxoId, Output>): set<Address> {
    set id | id in utxo && utxo[id].address.Some? :: utxo[id].address.value
  }

  function PaidTo(outputs: seq<Output>, a: Address): int {
    if outputs == [] then 0
    else
      var last := outputs[|outputs| - 1];
      PaidTo(outputs[..|outputs| - 1], a) + if last.address == Some(a) then Amount(last) else 0
  }

  /** What the written rows of a history pay to `a`. */
  function Received(h: seq<Tx>, a: Address): int {
    if h == [] then 0 else Received(h[..|h| - 1], a) + PaidTo(Written(h[|h| - 1]).outputs, a)
  }

  // ---- The rows of one address ----

  /** An output of another address counts nothing. */
  function Only(o: Output, a: Address): Output {
    if o.address == Some(a) then o else o.(amount := None)
  }

  function OnlyOutputs(outputs: seq<Output>, a: Address): (only: seq<Output>)
    ensures |only| == |outputs| && forall i :: 0 <= i < |outputs| ==> only[i] == Only(outputs[i], a)
  {
    seq(|outputs|, i requires 0 <= i < |outputs| => Only(outputs[i], a))
  }

  function OnlyTx(tx: Tx, a: Address): Tx {
    tx.(outputs := OnlyOutputs(tx.outputs, a))
  }

  function OnlyRows(utxo: map<UtxoId, Output>, a: Address): map<UtxoId, Output> {
    map id | id in utxo :: Only(utxo[id], a)
  }

  /** The balance of an address is the supply of a table in which only its rows count. */
  lemma BalanceIsSupply(utxo: map<UtxoId, Output>, a: Address)
    ensures BalanceOf(utxo, a) == Supply(OnlyRows(utxo, a))
  {
    var only := OnlyRows(utxo, a);
    assert only.Keys == utxo.Keys;
    SetSumCongruent(utxo.Keys, id => RowValueTo(utxo, id, a), id => RowValue(only, id));
  }

  lemma {:induction false} PaidIsTotal(outputs: seq<Output>, a: Address)
    ensures PaidTo(outputs, a) == OutputTotal(OnlyOutputs(outputs, a))
  {
    if outputs != [] {
      var n := |outputs| - 1;
      PaidIsTotal(outputs[..n], a);
      assert OnlyOutputs(outputs, a)[..n] == OnlyOutputs(outputs[..n], a);
    }
  }

  lemma OnlyUnion(x: map<UtxoId, Output>, y: map<UtxoId, Output>, a: Address)
    ensures OnlyRows(x + y, a) == OnlyRows(x, a) + OnlyRows(y, a)
  {}

  lemma OnlyNewRows(tx: Tx, a: Address)
    ensures OnlyRows(Rows(tx), a) == Rows(OnlyTx(tx, a))
  {
    var only, rows := OnlyRows(Rows(tx), a), Rows(OnlyTx(tx, a));
    assert only.Keys == rows.Keys;
    forall id | id in rows ensures only[id] == rows[id] { assert id in Rows(tx); }
  }

  // ---- What the inputs take ----

  /** What the keys of `a` sign away with the inputs that resolution looks at. */
  function SignedBy(txs: map<Hash, Tx>, inputs: seq<Input>, a: Address): int {
    if inputs == [] then 0
    else
      var last := inputs[|inputs| - 1];
      SignedBy(txs, inputs[..|inputs| - 1], a)
      + if !last.floating && last.utxoId.Some? && last.owner == a then ValueIn(txs, last.utxoId.value) else 0
  }

  /** What the rows of `a` are worth that inputs name which resolution passed over. */
  function Taken(utxo: map<UtxoId, Output>, inputs: seq<Input>, a: Address): int {
    if inputs == [] then 0
    else
      var last := inputs[|inputs| - 1];
      Taken(utxo, inputs[..|inputs| - 1], a)
      + if last.floating && last.utxoId.Some? then RowValueTo(utxo, last.utxoId.value, a) else 0
  }

  /** The row of a resolved input counts for its owner what its parent says. */
  ghost predicate RowOfOwner(utxo: map<UtxoId, Output>, txs: map<Hash, Tx>, i: Input, a: Address) {
    !i.floating ==>
      && i.utxoId.Some?
      && RowValueTo(utxo, i.utxoId.value, a) == if i.owner == a then ValueIn(txs, i.utxoId.value) else 0
  }

  lemma OwnersRows(t: Tables, tx: Tx, a: Address)
    requires Resolves(t, tx) && RowsAgree(t) && Fits(t, tx)
    ensures forall i :: 0 <= i < |tx.inputs| ==> RowOfOwner(Merged(t, tx), t.txs, tx.inputs[i], a)
  {
    forall i | 0 <= i < |tx.inputs| ensures RowOfOwner(Merged(t, tx), t.txs, tx.inputs[i], a) {
      if !tx.inputs[i].floating {
        ResolvedInput(t, tx, i);
        assert tx.inputs[i].utxoId.value !in Rows(tx);
      }
    }
  }

  lemma OnlyWorth(utxo: map<UtxoId, Output>, id: UtxoId, a: Address)
    ensures RowValue(OnlyRows(utxo, a), id) == RowValueTo(utxo, id, a)
  {}

  lemma {:induction false} InputsTake(utxo: map<UtxoId, Output>, txs: map<Hash, Tx>, inputs: seq<Input>, a: Address)
    requires forall i :: 0 <= i < |inputs| ==> RowOfOwner(utxo, txs, inputs[i], a)
    ensures SeqSum(IdsOf(inputs), Worth(OnlyRows(utxo, a))) == SignedBy(txs, inputs, a) + Taken(utxo, inputs, a)
  {
    if inputs != [] {
      var front, last := inputs[..|inputs| - 1], inputs[|inputs| - 1];
      InputsTake(utxo, txs, front, a);
      assert RowOfOwner(utxo, txs, last, a);
      var tail := if last.utxoId.Some? then [last.utxoId.value] else [];
      SeqSumConcat(IdsOf(front), tail, Worth(OnlyRows(utxo, a)));
      assert tail != [] ==> tail[..0] == [];
      if last.utxoId.Some? { OnlyWorth(utxo, last.utxoId.value, a); }
    }
  }

  // ---- One commit, and runs ----

  lemma InsertBalance(utxo: map<UtxoId, Output>, tx: Tx, a: Address)
    requires utxo.Keys !! Rows(tx).Keys
    ensures BalanceOf(utxo + Rows(tx), a) == BalanceOf(utxo, a) + PaidTo(tx.outputs, a)
  {
    BalanceIsSupply(utxo + Rows(tx), a);
    BalanceIsSupply(utxo, a);
    OnlyUnion(utxo, Rows(tx), a);
    OnlyNewRows(tx, a);
    assert OnlyRows(utxo, a).Keys == utxo.Keys && Rows(OnlyTx(tx, a)).Keys == Rows(tx).Keys;
    InsertWorth(OnlyRows(utxo, a), OnlyTx(tx, a));
    PaidIsTotal(tx.outputs, a);
  }

  lemma DeleteBalance(utxo: map<UtxoId, Output>, ids: seq<UtxoId>, a: Address)
    requires Distinct(ids)
    ensures BalanceOf(utxo - Elements(ids), a) == BalanceOf(utxo, a) - SeqSum(ids, Worth(OnlyRows(utxo, a)))
  {
    BalanceIsSupply(utxo, a);
    BalanceIsSupply(utxo - Elements(ids), a);
    assert OnlyRows(utxo - Elements(ids), a) == OnlyRows(utxo, a) - Elements(ids);
    DeleteWorth(OnlyRows(utxo, a), ids);
  }

  /** What one commit does to the balance of any address: it gains what it is paid; one that goes through takes
      what its own keys sign away, and the rows of its own that inputs name which resolution passed over. */
  lemma CommitBalance(t: Tables, tx: Tx, a: Address)
    requires Passes(t, tx) && RowsAgree(t)
    ensures BalanceOf(Committed(t, tx).utxo, a) == BalanceOf(t.utxo, a) + PaidTo(Written(tx).outputs, a) -
            if Complete(tx) then SignedBy(t.txs, tx.inputs, a) + Taken(Merged(t, tx), tx.inputs, a) else 0
  {
    WrittenFits(t, tx);
    InsertBalance(t.utxo, Written(tx), a);
    DeleteBalance(Merged(t, tx), DeletedIds(tx), a);
    if Complete(tx) {
      CompleteIsWhole(tx);
      OwnersRows(t, tx, a);
      InputsTake(Merged(t, tx), t.txs, tx.inputs, a);
    }
  }

  /** What the keys of `a` have signed away in a run. */
  ghost function SpentInRun(t: Tables, txs: seq<Tx>, a: Address): int {
    if txs == [] then 0
    else
      var front, last := txs[..|txs| - 1], txs[|txs| - 1];
      SpentInRun(t, front, a) + SignedBy(After(t, front).txs, last.inputs, a)
  }

  /** The part of it that failed insertions did not take. */
  ghost function KeptInRun(t: Tables, txs: seq<Tx>, a: Address): int {
    if txs == [] then 0
    else
      var front, last := txs[..|txs| - 1], txs[|txs| - 1];
      KeptInRun(t, front, a) + if Complete(last) then 0 else SignedBy(After(t, front).txs, last.inputs, a)
  }

  /** What was taken without a signature that resolution looked at. */
  ghost function TakenInRun(t: Tables, txs: seq<Tx>, a: Address): int {
    if txs == [] then 0
    else
      var front, last := txs[..|txs| - 1], txs[|txs| - 1];
      TakenInRun(t, front, a) + if Complete(last) then Taken(Merged(After(t, front), last), last.inputs, a) else 0
  }

  lemma GenesisBalance(g: Tx, a: Address)
    requires IsGenesis(g)
    ensures BalanceOf(Genesis(g).utxo, a) == Received([g], a)
  {
    CompleteIsWhole(g);
    assert map[] + Rows(g) == Rows(g);
    InsertBalance(map[], g, a);
    assert [g][..0] == [];
  }

  lemma {:induction false} RunBalance(g: Tx, txs: seq<Tx>, a: Address)
    requires IsGenesis(g) && IsRun(Genesis(g), txs)
    ensures BalanceOf(After(Genesis(g), txs).utxo, a) ==
            Received([g] + txs, a) - SpentInRun(Genesis(g), txs, a) + KeptInRun(Genesis(g), txs, a)
            - TakenInRun(Genesis(g), txs, a)
  {
    if txs == [] {
      GenesisBalance(g, a);
      assert [g] + txs == [g];
    } else {
      var front := txs[..|txs| - 1];
      RunFront(Genesis(g), txs);
      RunBalance(g, front, a);
      RunAgrees(g, front);
      CommitBalance(After(Genesis(g), front), txs[|txs| - 1], a);
      ReceivedFront(g, txs, a);
    }
  }

  lemma ReceivedFront(g: Tx, txs: seq<Tx>, a: Address)
    requires txs != []
    ensures Received([g] + txs, a) ==
            Received([g] + txs[..|txs| - 1], a) + PaidTo(Written(txs[|txs| - 1]).outputs, a)
  {
    assert ([g] + txs)[..|txs|] == [g] + txs[..|txs| - 1];
  }

  lemma {:induction false} NothingTaken(utxo: map<UtxoId, Output>, inputs: seq<Input>, a: Address)
    requires forall i :: 0 <= i < |inputs| && inputs[i].floating ==> inputs[i].utxoId.None?
    ensures Taken(utxo, inputs, a) == 0
  {
    if inputs != [] { NothingTaken(utxo, inputs[..|inputs| - 1], a); }
  }

  lemma {:induction false} RegularTakesNothing(t: Tables, txs: seq<Tx>, a: Address)
    requires Regular(txs)
    ensures KeptInRun(t, txs, a) == 0 && TakenInRun(t, txs, a) == 0
  {
    if txs != [] {
      var front, last := txs[..|txs| - 1], txs[|txs| - 1];
      RegularTakesNothing(t, front, a);
      NothingTaken(Merged(After(t, front), last), last.inputs, a);
    }
  }

  /** Over every serial run of any transactions the balance of every address is what it received, less what its
      own keys signed away, plus what of that failed insertions did not take, less what was taken unsigned. So
      it is received less signed away exactly when the last two are equal, as they are in a regular run. */
  lemma BalanceLaw(g: Tx, txs: seq<Tx>, a: Address)
    requires IsGenesis(g) && IsRun(Genesis(g), txs)
    ensures var t := Genesis(g); var balance := BalanceOf(After(t, txs).utxo, a);
            && balance == Received([g] + txs, a) - SpentInRun(t, txs, a) + KeptInRun(t, txs, a) - TakenInRun(t, txs, a)
            && (balance == Received([g] + txs, a) - SpentInRun(t, txs, a) <==>
                 KeptInRun(t, txs, a) == TakenInRun(t, txs, a))
            && (Regular(txs) ==> balance == Received([g] + txs, a) - SpentInRun(t, txs, a))
  {
    RunBalance(g, txs, a);
    if Regular(txs) { RegularTakesNothing(Genesis(g), txs, a); }
  }

  // ---- All balances ----

  ghost predicate HeldBy(utxo: map<UtxoId, Output>, id: UtxoId, holders: set<Address>) {
    id in utxo && utxo[id].address.Some? && utxo[id].address.value in holders
  }

  lemma RowOverHolders(utxo: map<UtxoId, Output>, id: UtxoId, holders: set<Address>)
    requires HeldBy(utxo, id, holders)
    ensures SetSum(holders, a => RowValueTo(utxo, id, a)) == RowValue(utxo, id)
  {
    var f := a => RowValueTo(utxo, id, a);
    var holder := utxo[id].address.value;
    SetSumRemove(holders, f, holder);
    SetSumZero(holders - {holder}, f);
  }

  lemma {:induction false} BalancesSumOver(utxo: map<UtxoId, Output>, ids: set<UtxoId>, holders: set<Address>)
    requires ids <= utxo.Keys && forall id :: id in ids ==> HeldBy(utxo, id, holders)
    ensures SetSum(holders, a => BalanceIn(utxo, ids, a)) == SetSum(ids, id => RowValue(utxo, id))
    decreases |ids|
  {
    var total := a => BalanceIn(utxo, ids, a);
    if ids == {} {
      SetSumZero(holders, total);
    } else {
      var id :| id in ids;
      var row := a => RowValueTo(utxo, id, a);
      var rest := a => BalanceIn(utxo, ids - {id}, a);
      forall a | a in holders ensures total(a) == row(a) + rest(a) {
        SetSumRemove(ids, i => RowValueTo(utxo, i, a), id);
      }
      SetSumPlus(holders, row, rest, total);
      RowOverHolders(utxo, id, holders);
      BalancesSumOver(utxo, ids - {id}, holders);
      SetSumRemove(ids, i => RowValue(utxo, i), id);
    }
  }

  /** Over every serial run of any transactions the balances of all holders add up to the supply. */
  lemma RunBalancesSum(g: Tx, txs: seq<Tx>)
    requires IsGenesis(g) && IsRun(Genesis(g), txs)
    ensures var utxo := After(Genesis(g), txs).utxo;
            SetSum(Holders(utxo), a => BalanceOf(utxo, a)) == Supply(utxo)
  {
    RunAgrees(g, txs);
    BalancesSumToSupply(After(Genesis(g), txs).utxo);
  }

  /** The table has no row without an address. */
  ghost predicate RowsAddressed(utxo: map<UtxoId, Output>) {
    forall id :: id in utxo ==> utxo[id].address.Some?
  }

  lemma BalancesSumToSupply(utxo: map<UtxoId, Output>)
    requires RowsAddressed(utxo)
    ensures SetSum(Holders(utxo), a => BalanceOf(utxo, a)) == Supply(utxo)
  {
    SetSumCongruent(Holders(utxo), a => BalanceOf(utxo, a), a => BalanceIn(utxo, utxo.Keys, a));
    BalancesSumOver(utxo, utxo.Keys, Holders(utxo));
  }
}
