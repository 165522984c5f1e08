/** Validation of a transaction: the checks that need no context, the resolution of its inputs against the
    stored parents, and the balance. */
module Resolver {
  import opened Common
  import opened Ledger

  const MAX_TRANSACTION_BYTES: nat := 10_000
  const MAX_TRANSACTION_MESSAGE_SIZE: nat := 40

  datatype Network = Unknown | Main | Other

  /** `network` is None when it is not given. */
  datatype Options = Options(network: Option<Network>, contract: bool, messageLength: Option<nat>)

  /** What the checks look at beside inputs and outputs. */
  datatype Envelope = Envelope(sizeBytes: nat, options: Option<Options>)

  ghost predicate HeaderOk(e: Envelope) {
    && e.sizeBytes <= MAX_TRANSACTION_BYTES && e.options.Some? && e.options.value.network.Some?
    && !e.options.value.network.value.Unknown? && !(e.options.value.contract && e.options.value.network.value.Main?)
  }

  ghost predicate MessageOk(e: Envelope) {
    e.options.Some? && e.options.value.messageLength.Some? ==>
      e.options.value.messageLength.value <= MAX_TRANSACTION_MESSAGE_SIZE
  }

  method CheckHeader(e: Envelope) returns (error: Option<Rejection>)
    ensures error.None? <==> HeaderOk(e)
    ensures error != Some(DuplicateInput)
  {
    if e.sizeBytes > MAX_TRANSACTION_BYTES { return Some(TooLarge); }
    if e.options.None? { return Some(MissingOptions); }
    var options := e.options.value;
    if options.network.None? { return Some(MissingNetwork); }
    if options.network.value.Unknown? { return Some(InvalidNetwork); }
    if options.contract && options.network.value.Main? { return Some(ContractOnMain); }
    error := None;
  }

  method RepeatsInput(inputs: seq<Input>) returns (repeats: bool)
    ensures repeats <==> !Distinct(IdsOf(inputs))
  {
    var seen: set<UtxoId> := {};
    ghost var ids: seq<UtxoId> := [];
    for i := 0 to |inputs|
      invariant ids == IdsOf(inputs[..i])
      invariant seen == Elements(ids) && Distinct(ids)
    {
      assert inputs[..i + 1][..i] == inputs[..i];
      if inputs[i].utxoId.Some? {
        var id := inputs[i].utxoId.value;
        ghost var next := ids + [id];
        if id in seen {
          ghost var j :| 0 <= j < |ids| && ids[j] == id;
          assert next == IdsOf(inputs[..i + 1]) && next[j] == next[|ids|];
          RepeatStays(inputs, i + 1);
          return true;
        }
        seen := seen + {id};
        ids := next;
      }
    }
    assert inputs[..|inputs|] == inputs;
    repeats := false;
  }

  method CheckInputs(inputs: seq<Input>) returns (error: Option<Rejection>)
    ensures error.None? <==> forall k :: 0 <= k < |inputs| ==> InputShapeOk(inputs[k])
    ensures error != Some(DuplicateInput)
  {
    for i := 0 to |inputs|
      invariant forall k :: 0 <= k < i ==> InputShapeOk(inputs[k])
    {
      var input := inputs[i];
      if input.utxoId.Some? && input.utxoId.value.index > MAX_INPUTS_OUTPUTS { return Some(InvalidInputIndex); }
      if !input.hasProof && !(input.utxoId.None? && input.floating) { return Some(MissingProof); }
      if !input.signed { return Some(BadSignature); }
    }
    error := None;
  }

  /** The checks that need no context, in the order of the source. */
  method Prevalidate(e: Envelope, tx: Tx) returns (r: Result<(), Rejection>)
    ensures r.Ok? <==> HeaderOk(e) && MessageOk(e) && Prevalidated(tx)
    ensures r.Ok? <==>
              && e.sizeBytes <= 10_000 && e.options.Some?
              && (|| e.options.value.network == Some(Other)
                  || (e.options.value.network == Some(Main) && !e.options.value.contract))
              && (e.options.value.messageLength.Some? ==> e.options.value.messageLength.value <= 40)
              && tx.inputs != [] && tx.outputs != []
              && (forall i, j :: 0 <= i < j < |tx.inputs| && tx.inputs[i].utxoId.Some? ==>
                   tx.inputs[i].utxoId != tx.inputs[j].utxoId)
              && (forall i :: 0 <= i < |tx.inputs| ==>
                   && tx.inputs[i].signed
                   && (tx.inputs[i].utxoId.Some? ==> tx.inputs[i].hasProof && tx.inputs[i].utxoId.value.index <= 5000)
                   && (!tx.inputs[i].floating ==> tx.inputs[i].hasProof))
    ensures r == Err(DuplicateInput) <==> HeaderOk(e) && !Distinct(FixedIds(tx))
  {
    DistinctIdsIff(tx.inputs);
    var header := CheckHeader(e);
    if header.Some? { return Err(header.value); }
    var repeats := RepeatsInput(tx.inputs);
    if repeats { return Err(DuplicateInput); }
    if tx.inputs == [] { return Err(MissingInputs); }
    if tx.outputs == [] { return Err(MissingOutputs); }
    var message := e.options.value.messageLength;
    if message.Some? && message.value > MAX_TRANSACTION_MESSAGE_SIZE { return Err(MessageTooLarge); }
    var inputs := CheckInputs(tx.inputs);
    r := if inputs.Some? then Err(inputs.value) else Ok(());
  }

  /** No two inputs name one id. */
  ghost predicate NoSharedId(inputs: seq<Input>) {
    forall i, j :: 0 <= i < j < |inputs| && inputs[i].utxoId.Some? ==> inputs[i].utxoId != inputs[j].utxoId
  }

  lemma {:induction false} IdsIff(inputs: seq<Input>, id: UtxoId)
    ensures id in IdsOf(inputs) <==> exists k :: 0 <= k < |inputs| && inputs[k].utxoId == Some(id)
  {
    if inputs != [] {
      IdsIff(inputs[..|inputs| - 1], id);
      assert inputs == inputs[..|inputs| - 1] + [inputs[|inputs| - 1]];
    }
  }

  lemma {:induction false} DistinctIdsIff(inputs: seq<Input>)
    ensures Distinct(IdsOf(inputs)) <==> NoSharedId(inputs)
  {
    if inputs != [] {
      var front, last := inputs[..|inputs| - 1], inputs[|inputs| - 1];
      DistinctIdsIff(front);
      LastShared(front, last);
      assert inputs == front + [last];
    }
  }

  lemma LastShared(front: seq<Input>, last: Input)
    requires Distinct(IdsOf(front)) <==> NoSharedId(front)
    ensures Distinct(IdsOf(front + [last])) <==> NoSharedId(front + [last])
  {
    var ids, all := IdsOf(front), front + [last];
    assert all[..|front|] == front && all[|front|] == last;
    if last.utxoId.Some? {
      var id := last.utxoId.value;
      IdsIff(front, id);
      DistinctAppend(ids, id);
      if id in ids {
        var k :| 0 <= k < |front| && front[k].utxoId == Some(id);
        assert all[k] == front[k];
      }
    } else {
      assert IdsOf(all) == ids;
    }
    if NoSharedId(all) {
      forall i, j | 0 <= i < j < |front| && front[i].utxoId.Some? ensures front[i].utxoId != front[j].utxoId {
        assert all[i] == front[i] && all[j] == front[j];
      }
    }
  }

  lemma DistinctAppend(ids: seq<UtxoId>, id: UtxoId)
    ensures Distinct(ids + [id]) <==> Distinct(ids) && id !in ids
  {
    var more := ids + [id];
    assert more[|ids|] == id;
    if Distinct(more) {
      forall i, j | 0 <= i < j < |ids| ensures ids[i] != ids[j] { assert more[i] != more[j]; }
      forall i | 0 <= i < |ids| ensures ids[i] != id { assert more[i] != more[|ids|]; }
    }
  }

  /** A repeat among the first inputs is a repeat among all. */
  lemma {:induction false} RepeatStays(inputs: seq<Input>, n: nat)
    requires n <= |inputs| && !Distinct(IdsOf(inputs[..n]))
    ensures !Distinct(IdsOf(inputs))
    decreases |inputs| - n
  {
    if n == |inputs| {
      assert inputs[..n] == inputs;
    } else {
      assert inputs[..n + 1][..n] == inputs[..n];
      var ids := IdsOf(inputs[..n]);
      var i, j :| 0 <= i < j < |ids| && ids[i] == ids[j];
      var more := IdsOf(inputs[..n + 1]);
      assert more[i] == ids[i] && more[j] == ids[j];
      RepeatStays(inputs, n + 1);
    }
  }

  /** The input names, by its hash, a row that is paid to the address of its proofs, and the proofs verify. */
  ghost predicate Spendable(t: Tables, i: Input) {
    && i.utxoId.Some? && !i.hashless && i.utxoId.value in t.utxo
    && t.utxo[i.utxoId.value].address == Some(i.owner) && i.signed
  }

  ghost predicate AllSpendable(t: Tables, inputs: seq<Input>) {
    forall k :: 0 <= k < |inputs| && !inputs[k].floating ==> Spendable(t, inputs[k])
  }

  /** Which error an input gets that is not spendable. */
  ghost predicate FailsWith(t: Tables, i: Input, e: Rejection) {
    && !i.floating && !Spendable(t, i)
    && e == if i.utxoId.None? then MissingUtxoId
            else if i.hashless then MissingHash
            else if i.utxoId.value.hash !in t.txs then UnknownParent
            else if i.utxoId.value !in t.utxo then SpentUtxo
            else ProofMismatch
  }

  /** The rows named by the inputs without a floating id, in order. */
  function RowsOf(utxo: map<UtxoId, Output>, inputs: seq<Input>): seq<Output> {
    if inputs == [] then []
    else
      var last := inputs[|inputs| - 1];
      RowsOf(utxo, inputs[..|inputs| - 1]) +
        if !last.floating && last.utxoId.Some? && last.utxoId.value in utxo then [utxo[last.utxoId.value]] else []
  }

  /** Every row can be spent by its owner, whatever its index, and nothing else can. */
  lemma OneResolution(t: Tables, i: Input)
    requires RowsAgree(t)
    ensures match ResolveInput(t, i)
            case Ok(o) => Spendable(t, i) && o == t.utxo[i.utxoId.value]
            case Err(e) => !Spendable(t, i) && (!i.floating ==> FailsWith(t, i, e))
  {}

  lemma FirstFailure(t: Tables, inputs: seq<Input>, i: nat)
    requires RowsAgree(t) && i < |inputs| && !inputs[i].floating && ResolveInput(t, inputs[i]).Err?
    ensures FailsWith(t, inputs[i], ResolveInput(t, inputs[i]).error) && !AllSpendable(t, inputs)
  {
    OneResolution(t, inputs[i]);
  }

  /** What is known of the inputs looked at so far. */
  ghost predicate ResolvedSoFar(t: Tables, inputs: seq<Input>, resolved: seq<Output>) {
    && (forall k :: 0 <= k < |inputs| && !inputs[k].floating ==> ResolveInput(t, inputs[k]).Ok?)
    && OutputTotal(resolved) == ParentTotal(t.txs, inputs)
    && (RowsAgree(t) ==> AllSpendable(t, inputs) && resolved == RowsOf(t.utxo, inputs))
  }

  lemma ResolvedStep(t: Tables, inputs: seq<Input>, i: Input, resolved: seq<Output>)
    requires ResolvedSoFar(t, inputs, resolved) && (i.floating || ResolveInput(t, i).Ok?)
    ensures ResolvedSoFar(t, inputs + [i], if i.floating then resolved else resolved + [ResolveInput(t, i).value])
  {
    assert (inputs + [i])[..|inputs|] == inputs;
    if RowsAgree(t) { OneResolution(t, i); }
    if !i.floating {
      var output := ResolveInput(t, i).value;
      assert (resolved + [output])[..|resolved|] == resolved;
    }
  }

  /** The parent outputs of the inputs without a floating id, or the first input that does not resolve. */
  method ResolveTransaction(t: Tables, tx: Tx) returns (r: Result<seq<Output>, Rejection>)
    ensures r.Ok? <==> Resolves(t, tx)
    ensures r.Ok? ==> OutputTotal(r.value) == ParentTotal(t.txs, tx.inputs)
    ensures RowsAgree(t) ==> (r.Ok? <==> AllSpendable(t, tx.inputs))
    ensures RowsAgree(t) && r.Ok? ==> r.value == RowsOf(t.utxo, tx.inputs)
    ensures r.Err? ==> exists i :: 0 <= i < |tx.inputs| && !tx.inputs[i].floating
                                   && ResolveInput(t, tx.inputs[i]) == Err(r.error)
    ensures RowsAgree(t) && r.Err? ==>
              exists i :: 0 <= i < |tx.inputs| && AllSpendable(t, tx.inputs[..i]) && FailsWith(t, tx.inputs[i], r.error)
  {
    var resolved: seq<Output> := [];
    for i := 0 to |tx.inputs|
      invariant ResolvedSoFar(t, tx.inputs[..i], resolved)
    {
      ghost var before := resolved;
      if !tx.inputs[i].floating {
        var one := ResolveInput(t, tx.inputs[i]);
        if one.Err? {
          if RowsAgree(t) { FirstFailure(t, tx.inputs, i); }
          return Err(one.error);
        }
        resolved := resolved + [one.value];
      }
      ResolvedStep(t, tx.inputs[..i], tx.inputs[i], before);
      assert tx.inputs[..i + 1] == tx.inputs[..i] + [tx.inputs[i]];
    }
    assert tx.inputs[..|tx.inputs|] == tx.inputs;
    r := Ok(resolved);
  }

  method TotalAmount(outputs: seq<Output>) returns (total: int)
    ensures total == OutputTotal(outputs)
  {
    total := 0;
    for i := 0 to |outputs|
      invariant total == OutputTotal(outputs[..i])
    {
      assert outputs[..i + 1][..i] == outputs[..i];
      if outputs[i].amount.Some? { total := total + outputs[i].amount.value; }
    }
    assert outputs[..|outputs|] == outputs;
  }

  /** The whole validation a task performs before it registers and again after. */
  method Validate(t: Tables, tx: Tx) returns (r: Result<(), Rejection>)
    ensures r.Ok? <==> Resolves(t, tx) && Balanced(t.txs, tx)
    ensures r == Err(BalanceMismatch) <==> Resolves(t, tx) && !Balanced(t.txs, tx)
    ensures RowsAgree(t) ==>
              (r.Ok? <==> AllSpendable(t, tx.inputs)
                          && OutputTotal(RowsOf(t.utxo, tx.inputs)) == OutputTotal(tx.outputs))
  {
    var resolved := ResolveTransaction(t, tx);
    if resolved.Err? { return Err(resolved.error); }
    var requested := TotalAmount(tx.outputs);
    var available := TotalAmount(resolved.value);
    r := if available != requested then Err(BalanceMismatch) else Ok(());
  }
}
