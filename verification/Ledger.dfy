/** The node's tables as values, the validation of a transaction against them, and what a history of
    accepted transactions makes of them. */
module Ledger {
  import opened Common
  import opened Hashes
  import opened Sums

  type Address = seq<Byte>

  const MAX_INPUTS_OUTPUTS: int := 5000

  datatype UtxoId = UtxoId(hash: Hash, index: int)

  datatype Output = Output(address: Option<Address>, amount: Option<int>)

  /** `owner` is the address of the keys in the proofs, `signed` says every proof verifies against the signable
      hash, `hashless` that the fixed id lacks the hash of its transaction. */
  datatype Input = Input(utxoId: Option<UtxoId>, floating: bool, owner: Address, hasProof: bool, signed: bool,
                         hashless: bool)

  datatype Tx = Tx(hash: Hash, inputs: seq<Input>, outputs: seq<Output>, time: Option<int>)

  datatype Edge = Edge(child: Hash, inputIndex: nat, address: Address)

  /** The tables `transactions`, `utxo` and `transaction_edge`, each by its primary key. */
  datatype Tables = Tables(txs: map<Hash, Tx>, utxo: map<UtxoId, Output>, edges: map<UtxoId, Edge>)

  datatype Rejection =
    | DuplicateInput | MissingInputs | MissingOutputs | InvalidInputIndex | MissingProof | BadSignature
    | MissingUtxoId | MissingHash | UnknownParent | SpentUtxo | IndexOutOfBounds | ProofMismatch | BalanceMismatch
    | TooLarge | MissingOptions | MissingNetwork | InvalidNetwork | ContractOnMain | MessageTooLarge

  function Amount(o: Output): int {
    if o.amount.Some? then o.amount.value else 0
  }

  function IdsOf(inputs: seq<Input>): seq<UtxoId> {
    if inputs == [] then []
    else
      var last := inputs[|inputs| - 1];
      IdsOf(inputs[..|inputs| - 1]) + if last.utxoId.Some? then [last.utxoId.value] else []
  }

  /** The outputs the transaction consumes: `fixed_utxo_ids_of_inputs`. */
  function FixedIds(tx: Tx): seq<UtxoId> {
    IdsOf(tx.inputs)
  }

  function OutputTotal(outputs: seq<Output>): int {
    if outputs == [] then 0 else OutputTotal(outputs[..|outputs| - 1]) + Amount(outputs[|outputs| - 1])
  }

  /** The value of the output `id` names, if a stored transaction has it. */
  function ValueIn(txs: map<Hash, Tx>, id: UtxoId): int {
    if id.hash in txs && 0 <= id.index < |txs[id.hash].outputs| then Amount(txs[id.hash].outputs[id.index]) else 0
  }

  /** Resolution passes over the inputs that carry a floating id. */
  function ParentTotal(txs: map<Hash, Tx>, inputs: seq<Input>): int {
    if inputs == [] then 0
    else
      var last := inputs[|inputs| - 1];
      ParentTotal(txs, inputs[..|inputs| - 1])
      + if !last.floating && last.utxoId.Some? then ValueIn(txs, last.utxoId.value) else 0
  }

  function ResolveInput(t: Tables, input: Input): Result<Output, Rejection> {
    if input.utxoId.None? then Err(MissingUtxoId)
    else if input.hashless then Err(MissingHash)
    else
      var id := input.utxoId.value;
      if id.hash !in t.txs then Err(UnknownParent)
      else if id !in t.utxo then Err(SpentUtxo)
      else if !(0 <= id.index < |t.txs[id.hash].outputs|) then Err(IndexOutOfBounds)
      else
        var output := t.txs[id.hash].outputs[id.index];
        if output.address != Some(input.owner) || !input.signed then Err(ProofMismatch) else Ok(output)
  }

  ghost predicate Resolves(t: Tables, tx: Tx) {
    forall i :: 0 <= i < |tx.inputs| && !tx.inputs[i].floating ==> ResolveInput(t, tx.inputs[i]).Ok?
  }

  ghost predicate Balanced(txs: map<Hash, Tx>, tx: Tx) {
    ParentTotal(txs, tx.inputs) == OutputTotal(tx.outputs)
  }

  ghost predicate Prevalidated(tx: Tx) {
    && Distinct(FixedIds(tx))
    && tx.inputs != []
    && tx.outputs != []
    && forall i :: 0 <= i < |tx.inputs| ==> InputShapeOk(tx.inputs[i])
  }

  predicate InputShapeOk(i: Input) {
    && (i.utxoId.Some? ==> i.utxoId.value.index <= MAX_INPUTS_OUTPUTS)
    && (i.hasProof || (i.utxoId.None? && i.floating))
    && i.signed
  }

  /** No input carries a fixed and a floating id at once. */
  ghost predicate SingleReference(tx: Tx) {
    forall i :: 0 <= i < |tx.inputs| && tx.inputs[i].floating ==> tx.inputs[i].utxoId.None?
  }

  function Rows(tx: Tx): (rows: map<UtxoId, Output>)
    ensures forall id :: id in rows <==> id.hash == tx.hash && 0 <= id.index < |tx.outputs|
    ensures forall id :: id in rows ==> rows[id] == tx.outputs[id.index]
  {
    var rows := map i | 0 <= i < |tx.outputs| :: UtxoId(tx.hash, i) := tx.outputs[i];
    assert forall i :: 0 <= i < |tx.outputs| ==> UtxoId(tx.hash, i) in rows;
    rows
  }

  function EdgesOf(hash: Hash, inputs: seq<Input>): map<UtxoId, Edge> {
    if inputs == [] then map[]
    else
      var n := |inputs| - 1;
      var before := EdgesOf(hash, inputs[..n]);
      if inputs[n].utxoId.Some? then before[inputs[n].utxoId.value := Edge(hash, n, inputs[n].owner)] else before
  }

  /** The `utxo` table refuses a row whose key it already holds. */
  ghost predicate Fits(t: Tables, tx: Tx) {
    t.utxo.Keys !! Rows(tx).Keys
  }

  // ---- Commit ----

  /** The outputs before the first without an address. */
  function Addressed(outputs: seq<Output>): (n: nat)
    ensures n <= |outputs| && forall i :: 0 <= i < n ==> outputs[i].address.Some?
    ensures n < |outputs| ==> outputs[n].address.None?
  {
    if outputs == [] || outputs[0].address.None? then 0 else 1 + Addressed(outputs[1..])
  }

  predicate Nameless(i: Input) {
    i.utxoId.Some? && i.hashless
  }

  /** The inputs before the first whose fixed id has no hash. */
  function Named(inputs: seq<Input>): (n: nat)
    ensures n <= |inputs| && forall i :: 0 <= i < n ==> !Nameless(inputs[i])
    ensures n < |inputs| ==> Nameless(inputs[n])
  {
    if inputs == [] || Nameless(inputs[0]) then 0 else 1 + Named(inputs[1..])
  }

  /** The insertion goes through: every output has an address, every fixed id a hash, and there is a time. A
      caller can check all three; prevalidation checks none. */
  predicate Complete(tx: Tx) {
    Addressed(tx.outputs) == |tx.outputs| && Named(tx.inputs) == |tx.inputs| && tx.time.Some?
  }

  lemma CompleteIff(tx: Tx)
    ensures Complete(tx) <==>
              && (forall i :: 0 <= i < |tx.outputs| ==> tx.outputs[i].address.Some?)
              && (forall i :: 0 <= i < |tx.inputs| && tx.inputs[i].utxoId.Some? ==> !tx.inputs[i].hashless)
              && tx.time.Some?
  {
    if Named(tx.inputs) < |tx.inputs| { assert Nameless(tx.inputs[Named(tx.inputs)]); }
  }

  /** The outputs whose rows are written: an output without an address stops the insertion. */
  function Written(tx: Tx): Tx {
    tx.(outputs := tx.outputs[..Addressed(tx.outputs)])
  }

  /** The inputs whose edges are written: after all rows, up to the first fixed id without a hash. */
  function Linked(tx: Tx): seq<Input> {
    if Addressed(tx.outputs) < |tx.outputs| then [] else tx.inputs[..Named(tx.inputs)]
  }

  /** The rows deleted at the end: all that the transaction consumes, unless the insertion failed. */
  function DeletedIds(tx: Tx): seq<UtxoId> {
    if Complete(tx) then FixedIds(tx) else []
  }

  lemma CompleteIsWhole(tx: Tx)
    requires Complete(tx)
    ensures Written(tx) == tx && Linked(tx) == tx.inputs && DeletedIds(tx) == FixedIds(tx)
  {
    assert tx.outputs[..|tx.outputs|] == tx.outputs && tx.inputs[..|tx.inputs|] == tx.inputs;
  }

  /** What `insert_transaction` of the store writes, whether it goes through or stops. */
  ghost function Inserted(t: Tables, tx: Tx): Tables {
    Tables(t.txs[tx.hash := tx], t.utxo + Rows(Written(tx)), t.edges + EdgesOf(tx.hash, Linked(tx)))
  }

  ghost function Deleted(t: Tables, ids: seq<UtxoId>): Tables {
    t.(utxo := t.utxo - Elements(ids))
  }

  /** The whole commit: insert and, if that went through, delete every consumed row. Nothing is rolled back. */
  ghost function Committed(t: Tables, tx: Tx): Tables {
    Deleted(Inserted(t, tx), DeletedIds(tx))
  }

  /** The checks of a task and of its insertion. */
  ghost predicate Passes(t: Tables, tx: Tx) {
    Prevalidated(tx) && Resolves(t, tx) && Balanced(t.txs, tx) && Fits(t, tx)
  }

  /** The mempool lets no hash through that the store knows. */
  ghost predicate Accepts(t: Tables, tx: Tx) {
    tx.hash !in t.txs && Passes(t, tx)
  }

  // ---- Histories ----

  function OutputIds(tx: Tx): (ids: seq<UtxoId>)
    ensures Distinct(ids)
    ensures forall id :: id in ids <==> id.hash == tx.hash && 0 <= id.index < |tx.outputs|
  {
    var ids := seq(|tx.outputs|, i => UtxoId(tx.hash, i));
    assert forall i :: 0 <= i < |tx.outputs| ==> ids[i] == UtxoId(tx.hash, i);
    ids
  }

  /** The rows a history has written. */
  function Produced(h: seq<Tx>): seq<UtxoId> {
    if h == [] then [] else Produced(h[..|h| - 1]) + OutputIds(Written(h[|h| - 1]))
  }

  /** The rows it has to delete. */
  function Consumed(h: seq<Tx>): seq<UtxoId> {
    if h == [] then [] else Consumed(h[..|h| - 1]) + DeletedIds(h[|h| - 1])
  }

  /** What the insertions that failed half way have added. */
  function Gained(h: seq<Tx>): int {
    if h == [] then 0
    else
      var last := h[|h| - 1];
      Gained(h[..|h| - 1]) + if Complete(last) then 0 else OutputTotal(Written(last).outputs)
  }

  ghost function Unspent(h: seq<Tx>): set<UtxoId> {
    Elements(Produced(h)) - Elements(Consumed(h))
  }

  ghost predicate DistinctHashes(h: seq<Tx>) {
    forall i, j :: 0 <= i < j < |h| ==> h[i].hash != h[j].hash
  }

  lemma HistoryExtends(h: seq<Tx>, tx: Tx)
    ensures Produced(h + [tx]) == Produced(h) + OutputIds(Written(tx))
    ensures Consumed(h + [tx]) == Consumed(h) + DeletedIds(tx)
  {
    assert (h + [tx])[..|h|] == h;
  }

  lemma {:induction false} ProducedIff(h: seq<Tx>, id: UtxoId)
    ensures id in Produced(h) <==> exists i :: 0 <= i < |h| && id in OutputIds(Written(h[i]))
  {
    if h != [] {
      ProducedIff(h[..|h| - 1], id);
      assert h == h[..|h| - 1] + [h[|h| - 1]];
    }
  }

  lemma {:induction false} ConsumedIff(h: seq<Tx>, id: UtxoId)
    ensures id in Consumed(h) <==> exists i :: 0 <= i < |h| && id in DeletedIds(h[i])
  {
    if h != [] {
      ConsumedIff(h[..|h| - 1], id);
      assert h == h[..|h| - 1] + [h[|h| - 1]];
    }
  }

  lemma {:induction false} ProducedDistinct(h: seq<Tx>)
    requires DistinctHashes(h)
    ensures Distinct(Produced(h))
  {
    if h != [] {
      var front := h[..|h| - 1];
      ProducedDistinct(front);
      forall id | id in Produced(front) ensures id !in OutputIds(Written(h[|h| - 1])) {
        ProducedIff(front, id);
      }
      DistinctConcat(Produced(front), OutputIds(Written(h[|h| - 1])));
    }
  }

  /** Whatever a row is worth, the unspent outputs are worth what was produced less what was consumed,
      each consumed output counted once. */
  lemma UnspentValue(h: seq<Tx>, v: UtxoId -> int)
    requires DistinctHashes(h)
    requires Elements(Consumed(h)) <= Elements(Produced(h))
    ensures SetSum(Unspent(h), v) == SeqSum(Produced(h), v) - SetSum(Elements(Consumed(h)), v)
  {
    ProducedDistinct(h);
    DistinctSeqSum(Produced(h), v);
    assert Unspent(h) + Elements(Consumed(h)) == Elements(Produced(h));
    SetSumUnion(Unspent(h), Elements(Consumed(h)), v);
  }

  // ---- Value ----

  function RowValue(utxo: map<UtxoId, Output>, id: UtxoId): int {
    if id in utxo then Amount(utxo[id]) else 0
  }

  /** The total of the `utxo` table. */
  ghost function Supply(utxo: map<UtxoId, Output>): int {
    SetSum(utxo.Keys, id => RowValue(utxo, id))
  }

  ghost predicate Stores(txs: map<Hash, Tx>, h: seq<Tx>) {
    forall i :: 0 <= i < |h| ==> h[i].hash in txs && txs[h[i].hash] == h[i]
  }

  /** Every row is a written output of a stored transaction. */
  ghost predicate RowsAgree(t: Tables) {
    forall id :: id in t.utxo ==> id.hash in t.txs && 0 <= id.index < Addressed(t.txs[id.hash].outputs)
                                  && t.utxo[id] == t.txs[id.hash].outputs[id.index]
  }

  ghost function StoredValue(txs: map<Hash, Tx>): UtxoId -> int {
    id => ValueIn(txs, id)
  }

  lemma {:induction false} OutputIdsValue(txs: map<Hash, Tx>, tx: Tx, n: nat)
    requires tx.hash in txs && n <= |tx.outputs| && tx.outputs <= txs[tx.hash].outputs
    ensures SeqSum(OutputIds(tx)[..n], StoredValue(txs)) == OutputTotal(tx.outputs[..n])
  {
    if n > 0 {
      OutputIdsValue(txs, tx, n - 1);
      assert OutputIds(tx)[..n][..n - 1] == OutputIds(tx)[..n - 1];
      assert tx.outputs[..n][..n - 1] == tx.outputs[..n - 1];
    }
  }

  lemma WrittenValue(txs: map<Hash, Tx>, tx: Tx)
    requires tx.hash in txs && txs[tx.hash] == tx
    ensures SeqSum(OutputIds(Written(tx)), StoredValue(txs)) == OutputTotal(Written(tx).outputs)
  {
    var w := Written(tx);
    OutputIdsValue(txs, w, |w.outputs|);
    assert OutputIds(w)[..|w.outputs|] == OutputIds(w) && w.outputs[..|w.outputs|] == w.outputs;
  }

  lemma {:induction false} FixedIdsValue(txs: map<Hash, Tx>, inputs: seq<Input>)
    requires forall i :: 0 <= i < |inputs| && inputs[i].floating ==> inputs[i].utxoId.None?
    ensures SeqSum(IdsOf(inputs), StoredValue(txs)) == ParentTotal(txs, inputs)
  {
    if inputs != [] {
      var front := inputs[..|inputs| - 1];
      FixedIdsValue(txs, front);
      var tail := if inputs[|inputs| - 1].utxoId.Some? then [inputs[|inputs| - 1].utxoId.value] else [];
      SeqSumConcat(IdsOf(front), tail, StoredValue(txs));
      assert tail != [] ==> tail[..0] == [];
    }
  }

  /** Balanced transactions after the first consume what they produce, or fail and only produce. */
  lemma {:induction false} BalancedHistory(txs: map<Hash, Tx>, h: seq<Tx>)
    requires h != [] && Stores(txs, h) && IsGenesis(h[0])
    requires forall i :: 1 <= i < |h| ==> Balanced(txs, h[i]) && SingleReference(h[i])
    ensures SeqSum(Produced(h), StoredValue(txs)) - SeqSum(Consumed(h), StoredValue(txs))
         == OutputTotal(h[0].outputs) + Gained(h)
  {
    var v := StoredValue(txs);
    var last := h[|h| - 1];
    var front := h[..|h| - 1];
    SeqSumConcat(Produced(front), OutputIds(Written(last)), v);
    SeqSumConcat(Consumed(front), DeletedIds(last), v);
    WrittenValue(txs, last);
    if Complete(last) { CompleteIsWhole(last); }
    if |h| > 1 {
      FixedIdsValue(txs, last.inputs);
      BalancedHistory(txs, front);
    }
  }

  /** The first transaction consumes nothing and is stored whole. */
  ghost predicate IsGenesis(g: Tx) {
    FixedIds(g) == [] && Complete(g)
  }

  /** What the repeated entries of a sequence are worth beyond their first occurrence. */
  ghost function Excess(ids: seq<UtxoId>, v: UtxoId -> int): int {
    SeqSum(ids, v) - SetSum(Elements(ids), v)
  }

  /** The rows of consumed outputs that are still to be deleted. */
  ghost function Due(t: Tables, h: seq<Tx>): set<UtxoId> {
    Elements(Consumed(h)) * t.utxo.Keys
  }

  /** A table that holds the unspent outputs of a balanced history, and perhaps consumed ones that are due for
      deletion, is worth what the first transaction issued, plus what failed insertions added, plus the value
      of every double spend, plus what is due. */
  lemma SupplyLaw(t: Tables, h: seq<Tx>)
    requires h != [] && Stores(t.txs, h) && IsGenesis(h[0])
    requires forall i :: 1 <= i < |h| ==> Balanced(t.txs, h[i]) && SingleReference(h[i])
    requires DistinctHashes(h) && Elements(Consumed(h)) <= Elements(Produced(h))
    requires Unspent(h) <= t.utxo.Keys <= Elements(Produced(h)) && RowsAgree(t)
    ensures var v := StoredValue(t.txs);
            Supply(t.utxo) == OutputTotal(h[0].outputs) + Gained(h) + Excess(Consumed(h), v) + SetSum(Due(t, h), v)
  {
    var v := StoredValue(t.txs);
    BalancedHistory(t.txs, h);
    UnspentValue(h, v);
    assert t.utxo.Keys == Unspent(h) + Due(t, h);
    SetSumUnion(Unspent(h), Due(t, h), v);
    SetSumCongruent(t.utxo.Keys, id => RowValue(t.utxo, id), v);
  }

  lemma NoExcess(ids: seq<UtxoId>, v: UtxoId -> int)
    requires Distinct(ids)
    ensures Excess(ids, v) == 0
  {
    DistinctSeqSum(ids, v);
  }
}
