/** Serial runs: transactions accepted one after another from a genesis transaction. */
module LedgerRuns {
  import opened Common
  import opened Hashes
  import opened Ledger

  ghost function Genesis(g: Tx): Tables {
    Tables(map[g.hash := g], Rows(g), map[])
  }

  ghost function After(t: Tables, txs: seq<Tx>): Tables {
    if txs == [] then t else Committed(After(t, txs[..|txs| - 1]), txs[|txs| - 1])
  }

  ghost predicate IsRun(t: Tables, txs: seq<Tx>) {
    txs != [] ==> IsRun(t, txs[..|txs| - 1]) && Accepts(After(t, txs[..|txs| - 1]), txs[|txs| - 1])
  }

  function OwnerAt(txs: map<Hash, Tx>, id: UtxoId): Option<Address>
    requires id.hash in txs && 0 <= id.index < |txs[id.hash].outputs|
  {
    txs[id.hash].outputs[id.index].address
  }

  /** The parent output `input` consumes: written, and paid to whoever signed the input. */
  ghost predicate OwnedInput(txs: map<Hash, Tx>, input: Input) {
    input.utxoId.Some? ==>
      var id := input.utxoId.value;
      id.hash in txs && 0 <= id.index < Addressed(txs[id.hash].outputs) && OwnerAt(txs, id) == Some(input.owner)
  }

  ghost predicate Owned(txs: map<Hash, Tx>, tx: Tx) {
    forall k :: 0 <= k < |tx.inputs| ==> OwnedInput(txs, tx.inputs[k])
  }

  ghost predicate Sound(t: Tables, tx: Tx) {
    Balanced(t.txs, tx) && SingleReference(tx) && Owned(t.txs, tx)
  }

  /** The edge of `id` names a stored transaction, its input that consumes `id`, and that input's owner. */
  ghost predicate EdgeOk(txs: map<Hash, Tx>, id: UtxoId, e: Edge) {
    e.child in txs && EdgeOfInput(txs[e.child].inputs, id, e)
  }

  ghost predicate EdgeOfInput(inputs: seq<Input>, id: UtxoId, e: Edge) {
    e.inputIndex < |inputs| && inputs[e.inputIndex].utxoId == Some(id) && inputs[e.inputIndex].owner == e.address
  }

  /** The outputs a history has written edges for. */
  function Edged(h: seq<Tx>): seq<UtxoId> {
    if h == [] then [] else Edged(h[..|h| - 1]) + IdsOf(Linked(h[|h| - 1]))
  }

  ghost predicate EdgesOk(t: Tables, h: seq<Tx>) {
    && t.edges.Keys == Elements(Edged(h))
    && forall id :: id in t.edges ==> EdgeOk(t.txs, id, t.edges[id])
  }

  lemma {:induction false} SpendsIffFixed(inputs: seq<Input>, id: UtxoId)
    ensures id in IdsOf(inputs) <==> exists k :: 0 <= k < |inputs| && inputs[k].utxoId == Some(id)
  {
    if inputs != [] {
      SpendsIffFixed(inputs[..|inputs| - 1], id);
      assert inputs == inputs[..|inputs| - 1] + [inputs[|inputs| - 1]];
    }
  }

  lemma {:induction false} EdgesOfFacts(hash: Hash, inputs: seq<Input>)
    ensures EdgesOf(hash, inputs).Keys == Elements(IdsOf(inputs))
    ensures forall id :: id in EdgesOf(hash, inputs) ==>
              EdgesOf(hash, inputs)[id].child == hash && EdgeOfInput(inputs, id, EdgesOf(hash, inputs)[id])
  {
    if inputs != [] {
      var front := inputs[..|inputs| - 1];
      EdgesOfFacts(hash, front);
      forall id | id in EdgesOf(hash, inputs)
        ensures EdgesOf(hash, inputs)[id].child == hash && EdgeOfInput(inputs, id, EdgesOf(hash, inputs)[id])
      {
        var e := EdgesOf(hash, inputs)[id];
        if id in EdgesOf(hash, front) && e == EdgesOf(hash, front)[id] {
          assert EdgeOfInput(front, id, e);
          assert inputs[e.inputIndex] == front[e.inputIndex];
        }
      }
    }
  }

  /** Every input that resolution looks at consumes an unspent output that belongs to its signer. */
  lemma ResolvedInput(t: Tables, tx: Tx, k: nat)
    requires Resolves(t, tx) && RowsAgree(t) && k < |tx.inputs| && !tx.inputs[k].floating
    ensures tx.inputs[k].utxoId.Some? && tx.inputs[k].utxoId.value in t.utxo && tx.inputs[k].signed
    ensures OwnedInput(t.txs, tx.inputs[k])
  {
    assert ResolveInput(t, tx.inputs[k]).Ok?;
  }

  lemma {:induction false} ParentTotalGrows(txs: map<Hash, Tx>, more: map<Hash, Tx>, inputs: seq<Input>)
    requires forall k :: k in txs ==> k in more && more[k] == txs[k]
    requires forall k :: 0 <= k < |inputs| ==> OwnedInput(txs, inputs[k])
    ensures ParentTotal(more, inputs) == ParentTotal(txs, inputs)
  {
    if inputs != [] {
      ParentTotalGrows(txs, more, inputs[..|inputs| - 1]);
      assert OwnedInput(txs, inputs[|inputs| - 1]);
    }
  }

  lemma SoundGrows(t: Tables, u: Tables, tx: Tx)
    requires Sound(t, tx)
    requires forall k :: k in t.txs ==> k in u.txs && u.txs[k] == t.txs[k]
    ensures Sound(u, tx)
  {
    ParentTotalGrows(t.txs, u.txs, tx.inputs);
    forall k | 0 <= k < |tx.inputs| ensures OwnedInput(u.txs, tx.inputs[k]) {
      assert OwnedInput(t.txs, tx.inputs[k]);
    }
  }

  /** A new hash has new rows: the insertion of a transaction the store does not know never fails. */
  lemma NewFits(t: Tables, tx: Tx)
    requires RowsAgree(t) && tx.hash !in t.txs
    ensures Fits(t, tx)
  {}

  lemma HashesExtend(t: Tables, h: seq<Tx>, tx: Tx)
    requires DistinctHashes(h) && Stores(t.txs, h) && tx.hash !in t.txs
    ensures DistinctHashes(h + [tx])
  {
    var n := h + [tx];
    forall i, j | 0 <= i < j < |n| ensures n[i].hash != n[j].hash {
      assert n[i] == h[i];
      if j < |h| { assert n[j] == h[j]; }
    }
  }

  lemma {:induction false} EdgedIff(h: seq<Tx>, id: UtxoId)
    ensures id in Edged(h) <==> exists j :: 0 <= j < |h| && id in IdsOf(Linked(h[j]))
  {
    if h != [] {
      EdgedIff(h[..|h| - 1], id);
      assert h == h[..|h| - 1] + [h[|h| - 1]];
    }
  }

  lemma EdgeKeysExtend(t: Tables, h: seq<Tx>, tx: Tx)
    requires t.edges.Keys == Elements(Edged(h))
    ensures Committed(t, tx).edges.Keys == Elements(Edged(h + [tx]))
  {
    assert (h + [tx])[..|h|] == h;
    EdgesOfFacts(tx.hash, Linked(tx));
    assert Committed(t, tx).edges == t.edges + EdgesOf(tx.hash, Linked(tx));
  }

  lemma EdgesOkExtends(t: Tables, h: seq<Tx>, tx: Tx)
    requires EdgesOk(t, h) && tx.hash !in t.txs
    ensures EdgesOk(Committed(t, tx), h + [tx])
  {
    EdgeKeysExtend(t, h, tx);
    EdgesOfFacts(tx.hash, Linked(tx));
    var e := EdgesOf(tx.hash, Linked(tx));
    var u := Committed(t, tx);
    forall id | id in u.edges ensures EdgeOk(u.txs, id, u.edges[id]) {
      if id in e {
        assert EdgeOfInput(Linked(tx), id, e[id]) && u.edges[id] == e[id];
      } else {
        assert EdgeOk(t.txs, id, t.edges[id]);
      }
    }
  }

  lemma RunFront(t: Tables, txs: seq<Tx>)
    requires IsRun(t, txs) && txs != []
    ensures IsRun(t, txs[..|txs| - 1]) && Accepts(After(t, txs[..|txs| - 1]), txs[|txs| - 1])
    ensures After(t, txs) == Committed(After(t, txs[..|txs| - 1]), txs[|txs| - 1])
  {}

  lemma HistoryFront(g: Tx, txs: seq<Tx>)
    requires txs != []
    ensures [g] + txs == [g] + txs[..|txs| - 1] + [txs[|txs| - 1]]
  {}

  /** No input carries both ids and every insertion goes through. */
  ghost predicate Regular(txs: seq<Tx>) {
    forall i :: 0 <= i < |txs| ==> SingleReference(txs[i]) && Complete(txs[i])
  }

  /** `id` is in exactly one of the tables, and the row is the output itself. */
  ghost predicate SpentOrUnspent(t: Tables, tx: Tx, i: int)
    requires 0 <= i < |tx.outputs|
  {
    var id := UtxoId(tx.hash, i);
    (id in t.utxo <==> id !in t.edges) && (id in t.utxo ==> t.utxo[id] == tx.outputs[i])
  }

  ghost predicate EachInOneTable(t: Tables, h: seq<Tx>) {
    forall k, i :: 0 <= k < |h| && 0 <= i < |h[k].outputs| ==> SpentOrUnspent(t, h[k], i)
  }
}
