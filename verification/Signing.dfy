/** Hashing and signing of transactions. Digest, signatures and address hashing are functions of a `Crypto`
    value; what is assumed of them is stated where it is used. */
module Signing {
  import opened Common
  import opened Hashes

  type Key = nat
  type Address = seq<Byte>
  type PublicKey = seq<Byte>
  type Signature = seq<Byte>

  datatype Proof = Proof(signature: Signature, publicKey: PublicKey)

  datatype Output = Output(address: Option<Address>, counterPartyProofs: seq<Proof>, data: seq<Byte>)

  /** `output` is the parent output, carried for enrichment only and left out of every hash. */
  datatype Input = Input(utxoId: seq<Byte>, proofs: seq<Proof>, output: Option<Output>)

  datatype Metadata = Metadata(time: Option<int>, version: int, hash: Option<Hash>, signableHash: Option<Hash>,
                               signedHash: Option<Hash>, counterPartyHash: Option<Hash>, confirmationHash: Option<Hash>)

  datatype Options = Options(confirmationProofs: Option<seq<Proof>>, data: seq<Byte>)

  datatype Transaction = Transaction(inputs: seq<Input>, outputs: seq<Output>, metadata: Option<Metadata>,
      options: Option<Options>)

  datatype Crypto = Crypto(
    digest: Transaction -> Hash,
    publicKey: Key -> PublicKey,
    sign: (Key, Hash) -> Signature,
    verify: (PublicKey, Hash, Signature) -> bool,
    address: seq<Byte> -> Address)

  datatype SignError = MissingAddress | NothingToSign | MissingMetadata

  // ---- Hashing ----

  function MetadataCleared(m: Metadata): Metadata {
    m.(hash := None, signableHash := None, signedHash := None, counterPartyHash := None, confirmationHash := None)
  }

  /** `hash_clear`: no enrichment, no stored hashes. */
  function HashCleared(tx: Transaction): Transaction {
    Transaction(seq(|tx.inputs|, i requires 0 <= i < |tx.inputs| => tx.inputs[i].(output := None)), tx.outputs,
                if tx.metadata.Some? then Some(MetadataCleared(tx.metadata.value)) else None, tx.options)
  }

  function CalculateHash(c: Crypto, tx: Transaction): Hash {
    c.digest(HashCleared(tx))
  }

  /** Without input, counter party and confirmation proofs. */
  function Stripped(tx: Transaction): Transaction {
    Transaction(seq(|tx.inputs|, i requires 0 <= i < |tx.inputs| => tx.inputs[i].(proofs := [])),
                seq(|tx.outputs|, i requires 0 <= i < |tx.outputs| => tx.outputs[i].(counterPartyProofs := [])),
                tx.metadata,
                if tx.options.Some? && tx.options.value.confirmationProofs.Some?
                then Some(tx.options.value.(confirmationProofs := Some([]))) else tx.options)
  }

  function SignableHash(c: Crypto, tx: Transaction): Hash {
    CalculateHash(c, Stripped(tx))
  }

  // ---- What a hash covers ----

  ghost predicate Injective(digest: Transaction -> Hash) {
    forall a, b :: digest(a) == digest(b) ==> a == b
  }

  /** One time and version, if there are metadata at all; the stored hashes may differ. */
  ghost predicate SameMetadata(a: Option<Metadata>, b: Option<Metadata>) {
    && a.Some? == b.Some?
    && (a.Some? ==> a.value.time == b.value.time && a.value.version == b.value.version)
  }

  /** The confirmation proofs may differ, but not whether there is a place for them. */
  ghost predicate SameOptions(a: Option<Options>, b: Option<Options>) {
    && a.Some? == b.Some?
    && (a.Some? ==> a.value.data == b.value.data
                    && a.value.confirmationProofs.Some? == b.value.confirmationProofs.Some?)
  }

  /** The hash covers all outputs and options, every input's id and proofs, and the time and version; of the
      enrichment and the stored hashes it covers nothing. */
  lemma HashCovers(c: Crypto, a: Transaction, b: Transaction)
    requires Injective(c.digest)
    ensures CalculateHash(c, a) == CalculateHash(c, b) <==>
              && |a.inputs| == |b.inputs| && a.outputs == b.outputs && a.options == b.options
              && (forall i :: 0 <= i < |a.inputs| ==>
                   a.inputs[i].utxoId == b.inputs[i].utxoId && a.inputs[i].proofs == b.inputs[i].proofs)
              && SameMetadata(a.metadata, b.metadata)
  {
    var x, y := HashCleared(a), HashCleared(b);
    if x == y {
      forall i | 0 <= i < |a.inputs|
        ensures a.inputs[i].utxoId == b.inputs[i].utxoId && a.inputs[i].proofs == b.inputs[i].proofs
      {
        assert x.inputs[i] == y.inputs[i];
      }
    } else if |a.inputs| == |b.inputs| && a.outputs == b.outputs && a.options == b.options
              && SameMetadata(a.metadata, b.metadata) {
      assert x.inputs != y.inputs;
      var i :| 0 <= i < |x.inputs| && x.inputs[i] != y.inputs[i];
      assert a.inputs[i].utxoId != b.inputs[i].utxoId || a.inputs[i].proofs != b.inputs[i].proofs;
    }
  }

  /** The signable hash covers the same apart from the input, counter party and confirmation proofs. */
  lemma SignableCovers(c: Crypto, a: Transaction, b: Transaction)
    requires Injective(c.digest)
    ensures SignableHash(c, a) == SignableHash(c, b) <==>
              && |a.inputs| == |b.inputs| && |a.outputs| == |b.outputs|
              && (forall i :: 0 <= i < |a.inputs| ==> a.inputs[i].utxoId == b.inputs[i].utxoId)
              && (forall i :: 0 <= i < |a.outputs| ==>
                   a.outputs[i].address == b.outputs[i].address && a.outputs[i].data == b.outputs[i].data)
              && SameMetadata(a.metadata, b.metadata) && SameOptions(a.options, b.options)
  {
    var x, y := Stripped(a), Stripped(b);
    HashCovers(c, x, y);
    OutputsStripped(a, b);
    assert forall i :: 0 <= i < |a.inputs| ==> x.inputs[i].utxoId == a.inputs[i].utxoId;
    assert forall i :: 0 <= i < |b.inputs| ==> y.inputs[i].utxoId == b.inputs[i].utxoId;
  }

  lemma OutputsStripped(a: Transaction, b: Transaction)
    ensures Stripped(a).outputs == Stripped(b).outputs <==>
              && |a.outputs| == |b.outputs|
              && forall i :: 0 <= i < |a.outputs| ==>
                   a.outputs[i].address == b.outputs[i].address && a.outputs[i].data == b.outputs[i].data
  {
    var x, y := Stripped(a).outputs, Stripped(b).outputs;
    if x == y {
      forall i | 0 <= i < |a.outputs|
        ensures a.outputs[i].address == b.outputs[i].address && a.outputs[i].data == b.outputs[i].data
      {
        assert x[i] == y[i];
      }
    }
  }

  function WithHash(c: Crypto, tx: Transaction): Transaction
    requires tx.metadata.Some?
  {
    tx.(metadata := Some(tx.metadata.value.(hash := Some(CalculateHash(c, tx)))))
  }

  // ---- Signing ----

  function AddressOf(c: Crypto, k: Key): Address {
    c.address(c.publicKey(k))
  }

  function Owner(i: Input): Option<Address> {
    if i.output.Some? then i.output.value.address else None
  }

  predicate OwnedBy(c: Crypto, k: Key, i: Input) {
    Owner(i) == Some(AddressOf(c, k))
  }

  function MakeProof(c: Crypto, k: Key, h: Hash): Proof {
    Proof(c.sign(k, h), c.publicKey(k))
  }

  function SignInput(c: Crypto, k: Key, h: Hash, i: Input): Input {
    if OwnedBy(c, k, i) then i.(proofs := i.proofs + [MakeProof(c, k, h)]) else i
  }

  function SignInputs(c: Crypto, k: Key, h: Hash, inputs: seq<Input>): (signed: seq<Input>)
    ensures |signed| == |inputs| && forall i :: 0 <= i < |inputs| ==> signed[i] == SignInput(c, k, h, inputs[i])
  {
    seq(|inputs|, i requires 0 <= i < |inputs| => SignInput(c, k, h, inputs[i]))
  }

  predicate Enriched(tx: Transaction) {
    forall i :: 0 <= i < |tx.inputs| && tx.inputs[i].output.Some? ==> tx.inputs[i].output.value.address.Some?
  }

  predicate Owns(c: Crypto, k: Key, tx: Transaction) {
    exists i :: 0 <= i < |tx.inputs| && OwnedBy(c, k, tx.inputs[i])
  }

  function Signed(c: Crypto, k: Key, tx: Transaction): Result<Transaction, SignError> {
    if !Enriched(tx) then Err(MissingAddress)
    else if !Owns(c, k, tx) then Err(NothingToSign)
    else if tx.metadata.None? then Err(MissingMetadata)
    else
      var x := WithHash(c, tx.(inputs := SignInputs(c, k, SignableHash(c, tx), tx.inputs)));
      Ok(x.(metadata := Some(x.metadata.value.(signedHash := x.metadata.value.hash))))
  }

  /** A transaction as a value that is changed in place. */
  class Draft {
    var inputs: seq<Input>
    var outputs: seq<Output>
    var metadata: Option<Metadata>
    var options: Option<Options>

    ghost function Value(): Transaction
      reads this
    {
      Transaction(inputs, outputs, metadata, options)
    }

    constructor (inputs: seq<Input>, outputs: seq<Output>, metadata: Option<Metadata>, options: Option<Options>)
      ensures Value() == Transaction(inputs, outputs, metadata, options)
    {
      this.inputs, this.outputs, this.metadata, this.options := inputs, outputs, metadata, options;
    }

    method HashClear()
      modifies this
      ensures Value() == HashCleared(old(Value()))
    {
      for i := 0 to |inputs|
        invariant |inputs| == |old(inputs)| && outputs == old(outputs) && metadata == old(metadata) &&
                  options == old(options)
        invariant forall j :: 0 <= j < |inputs| ==>
                  inputs[j] == if j < i then old(inputs)[j].(output := None) else old(inputs)[j]
      {
        inputs := inputs[i := inputs[i].(output := None)];
      }
      if metadata.Some? { metadata := Some(MetadataCleared(metadata.value)); }
      assert inputs == HashCleared(old(Value())).inputs;
    }

    method ClearProofs()
      modifies this
      ensures Value() == Stripped(old(Value()))
    {
      for i := 0 to |inputs|
        invariant |inputs| == |old(inputs)| && outputs == old(outputs) && metadata == old(metadata) &&
                  options == old(options)
        invariant forall j :: 0 <= j < |inputs| ==>
                  inputs[j] == if j < i then old(inputs)[j].(proofs := []) else old(inputs)[j]
      {
        inputs := inputs[i := inputs[i].(proofs := [])];
      }
      assert inputs == Stripped(old(Value())).inputs;
      for i := 0 to |outputs|
        invariant inputs == Stripped(old(Value())).inputs
        invariant |outputs| == |old(outputs)| && metadata == old(metadata) && options == old(options)
        invariant forall j :: 0 <= j < |outputs| ==>
                    outputs[j] == if j < i then old(outputs)[j].(counterPartyProofs := []) else old(outputs)[j]
      {
        outputs := outputs[i := outputs[i].(counterPartyProofs := [])];
      }
      if options.Some? && options.value.confirmationProofs.Some? {
        options := Some(options.value.(confirmationProofs := Some([])));
      }
      assert outputs == Stripped(old(Value())).outputs;
    }

    method ComputeHash(c: Crypto) returns (h: Hash)
      ensures h == CalculateHash(c, Value())
    {
      var clone := new Draft(inputs, outputs, metadata, options);
      clone.HashClear();
      h := c.digest(Transaction(clone.inputs, clone.outputs, clone.metadata, clone.options));
    }

    method ComputeSignableHash(c: Crypto) returns (h: Hash)
      ensures h == SignableHash(c, Value())
    {
      var clone := new Draft(inputs, outputs, metadata, options);
      clone.ClearProofs();
      h := clone.ComputeHash(c);
    }

    /** Push a proof onto every input the key owns, then refresh the stored hashes. An input whose enriched
        output has no address stops it, with the inputs before it already signed. */
    method Sign(c: Crypto, k: Key) returns (r: Result<(), SignError>)
      modifies this
      ensures r.Ok? <==> Signed(c, k, old(Value())).Ok?
      ensures r.Err? ==> r.error == Signed(c, k, old(Value())).error
      ensures r.Ok? ==> Value() == Signed(c, k, old(Value())).value
      ensures r.Err? && r.error.NothingToSign? ==> Value() == old(Value())
    {
      var h := ComputeSignableHash(c);
      var signed := false;
      var i := 0;
      while i < |inputs|
        invariant 0 <= i <= |inputs| == |old(inputs)|
        invariant outputs == old(outputs) && metadata == old(metadata) && options == old(options)
        invariant forall j :: 0 <= j < |inputs| ==>
                    inputs[j] == if j < i then SignInput(c, k, h, old(inputs)[j]) else old(inputs)[j]
        invariant forall j :: 0 <= j < i && old(inputs)[j].output.Some? ==> old(inputs)[j].output.value.address.Some?
        invariant signed <==> exists j :: 0 <= j < i && OwnedBy(c, k, old(inputs)[j])
      {
        if inputs[i].output.Some? {
          if inputs[i].output.value.address.None? { return Err(MissingAddress); }
          if inputs[i].output.value.address.value == AddressOf(c, k) {
            assert OwnedBy(c, k, old(inputs)[i]);
            inputs := inputs[i := inputs[i].(proofs := inputs[i].proofs + [MakeProof(c, k, h)])];
            signed := true;
          }
        }
        i := i + 1;
      }
      assert inputs == SignInputs(c, k, h, old(inputs));
      if !signed {
        assert inputs == old(inputs);
        return Err(NothingToSign);
      }
      if metadata.None? { return Err(MissingMetadata); }
      var hash := ComputeHash(c);
      metadata := Some(metadata.value.(hash := Some(hash), signedHash := Some(hash)));
      r := Ok(());
    }
  }

  // ---- Verification ----

  function PublicKeys(proofs: seq<Proof>): seq<Byte> {
    if proofs == [] then [] else PublicKeys(proofs[..|proofs| - 1]) + proofs[|proofs| - 1].publicKey
  }

  /** The keys are joined in the order of the proofs. */
  lemma {:induction false} KeysJoin(a: seq<Proof>, b: seq<Proof>)
    ensures PublicKeys(a + b) == PublicKeys(a) + PublicKeys(b)
    ensures forall p: Proof :: PublicKeys([p]) == p.publicKey
    decreases |b|
  {
    forall p: Proof ensures PublicKeys([p]) == p.publicKey { assert [p][..0] == []; }
    if b == [] {
      assert a + b == a;
    } else {
      var n := |b| - 1;
      KeysJoin(a, b[..n]);
      assert (a + b)[..|a| + n] == a + b[..n];
    }
  }

  /** The address of the keys is the expected one and every signature verifies. */
  ghost predicate ProofsVerify(c: Crypto, proofs: seq<Proof>, h: Hash, a: Address) {
    c.address(PublicKeys(proofs)) == a && forall i :: 0 <= i < |proofs| ==>
        c.verify(proofs[i].publicKey, h, proofs[i].signature)
  }

  method VerifyProofs(c: Crypto, proofs: seq<Proof>, h: Hash, a: Address) returns (ok: bool)
    ensures ok <==> ProofsVerify(c, proofs, h, a)
  {
    var bytes: seq<Byte> := [];
    for i := 0 to |proofs|
      invariant bytes == PublicKeys(proofs[..i])
    {
      assert proofs[..i + 1][..i] == proofs[..i];
      bytes := bytes + proofs[i].publicKey;
    }
    assert proofs[..|proofs|] == proofs;
    if a != c.address(bytes) { return false; }
    for i := 0 to |proofs|
      invariant forall j :: 0 <= j < i ==> c.verify(proofs[j].publicKey, h, proofs[j].signature)
    {
      if !c.verify(proofs[i].publicKey, h, proofs[i].signature) { return false; }
    }
    ok := true;
  }

  // ---- Runs of signatures ----

  ghost predicate Correct(c: Crypto) {
    && (forall k, h :: c.verify(c.publicKey(k), h, c.sign(k, h)))
    && (forall k :: c.publicKey(k) != [])
    && (forall a, b :: c.address(a) == c.address(b) ==> a == b)
  }

  /** Signing adds proofs and stored hashes, neither of which the signable hash covers. */
  lemma SignableUnchanged(c: Crypto, k: Key, tx: Transaction)
    requires Signed(c, k, tx).Ok?
    ensures SignableHash(c, Signed(c, k, tx).value) == SignableHash(c, tx)
  {
    var x := Signed(c, k, tx).value;
    assert HashCleared(Stripped(x)).inputs == HashCleared(Stripped(tx)).inputs;
    assert HashCleared(Stripped(x)).outputs == HashCleared(Stripped(tx)).outputs;
    assert HashCleared(Stripped(x)) == HashCleared(Stripped(tx));
  }

  /** The hashes stored by a signature are the recomputed one. */
  lemma StoredHashCurrent(c: Crypto, k: Key, tx: Transaction)
    requires Signed(c, k, tx).Ok?
    ensures var x := Signed(c, k, tx).value;
            x.metadata.Some? && x.metadata.value.hash == Some(CalculateHash(c, x)) &&
                x.metadata.value.signedHash == Some(CalculateHash(c, x))
  {
    var x := Signed(c, k, tx).value;
    var y := tx.(inputs := SignInputs(c, k, SignableHash(c, tx), tx.inputs));
    assert HashCleared(x).inputs == HashCleared(y).inputs;
    assert HashCleared(x) == HashCleared(y);
  }

  ghost function SignedByAll(c: Crypto, keys: seq<Key>, tx: Transaction): Result<Transaction, SignError> {
    if keys == [] then Ok(tx)
    else
      var r := SignedByAll(c, keys[..|keys| - 1], tx);
      if r.Err? then r else Signed(c, keys[|keys| - 1], r.value)
  }

  /** The proofs the owners among `keys` leave on an input, in order. */
  ghost function ProofsOn(c: Crypto, keys: seq<Key>, h: Hash, i: Input): seq<Proof> {
    if keys == [] then i.proofs
    else
      var k := keys[|keys| - 1];
      ProofsOn(c, keys[..|keys| - 1], h, i) + if OwnedBy(c, k, i) then [MakeProof(c, k, h)] else []
  }

  function TimesOwned(c: Crypto, keys: seq<Key>, i: Input): nat {
    if keys == [] then 0 else TimesOwned(c, keys[..|keys| - 1], i) + if OwnedBy(c, keys[|keys| - 1], i) then 1 else 0
  }

  /** Whatever the keys and their order, the signable hash never changes and each input collects exactly the
      proofs of its owners. */
  lemma {:induction false} RunOfSignatures(c: Crypto, keys: seq<Key>, tx: Transaction)
    requires SignedByAll(c, keys, tx).Ok?
    ensures var x := SignedByAll(c, keys, tx).value;
            && SignableHash(c, x) == SignableHash(c, tx) && |x.inputs| == |tx.inputs|
            && (forall i :: 0 <= i < |tx.inputs| ==>
                 x.inputs[i] == tx.inputs[i].(proofs := ProofsOn(c, keys, SignableHash(c, tx), tx.inputs[i])))
            && (keys != [] ==> x.metadata.Some? && x.metadata.value.hash == Some(CalculateHash(c, x)))
            && x.outputs == tx.outputs && x.options == tx.options && x.metadata.Some? == tx.metadata.Some?
            && (x.metadata.Some? ==>
                 x.metadata.value == tx.metadata.value.(hash := x.metadata.value.hash,
                                                        signedHash := x.metadata.value.signedHash))
  {
    if keys != [] {
      var front := keys[..|keys| - 1];
      var k := keys[|keys| - 1];
      RunOfSignatures(c, front, tx);
      var y := SignedByAll(c, front, tx).value;
      SignableUnchanged(c, k, y);
      StoredHashCurrent(c, k, y);
    }
  }

  /** Signatures succeed whenever every key owns an input of an enriched transaction. */
  lemma {:induction false} RunSucceeds(c: Crypto, keys: seq<Key>, tx: Transaction)
    requires Enriched(tx) && tx.metadata.Some? && forall k :: k in keys ==> Owns(c, k, tx)
    ensures SignedByAll(c, keys, tx).Ok?
    ensures SignedByAll(c, keys, tx).value.metadata.Some?
  {
    if keys != [] {
      var front := keys[..|keys| - 1];
      var k := keys[|keys| - 1];
      RunSucceeds(c, front, tx);
      RunOfSignatures(c, front, tx);
      var y := SignedByAll(c, front, tx).value;
      assert k in keys;
      var i :| 0 <= i < |tx.inputs| && OwnedBy(c, k, tx.inputs[i]);
      assert OwnedBy(c, k, y.inputs[i]);
      assert Owns(c, k, y);
    }
  }

  lemma {:induction false} ProofsOnFacts(c: Crypto, keys: seq<Key>, h: Hash, i: Input)
    requires Correct(c) && i.proofs == []
    ensures |ProofsOn(c, keys, h, i)| == TimesOwned(c, keys, i)
    ensures forall j :: 0 <= j < |ProofsOn(c, keys, h, i)| ==>
              var p := ProofsOn(c, keys, h, i)[j]; c.verify(p.publicKey, h, p.signature)
    ensures forall j :: 0 <= j < |ProofsOn(c, keys, h, i)| ==>
              ProofsOn(c, keys, h, i)[j].publicKey != [] &&
                  Owner(i) == Some(c.address(ProofsOn(c, keys, h, i)[j].publicKey))
  {
    if keys != [] { ProofsOnFacts(c, keys[..|keys| - 1], h, i); }
  }

  lemma {:induction false} PublicKeysLength(proofs: seq<Proof>)
    requires forall j :: 0 <= j < |proofs| ==> proofs[j].publicKey != []
    ensures |PublicKeys(proofs)| >= |proofs|
    ensures |proofs| == 1 ==> PublicKeys(proofs) == proofs[0].publicKey
    ensures |proofs| >= 2 ==> |PublicKeys(proofs)| > |proofs[|proofs| - 1].publicKey|
  {
    if proofs != [] {
      PublicKeysLength(proofs[..|proofs| - 1]);
      if |proofs| == 1 { assert proofs[..0] == []; }
    }
  }

  /** An input that started without proofs passes verification exactly when one, and only one, of the
      signatures came from its owner. */
  lemma InputVerifiesIff(c: Crypto, keys: seq<Key>, tx: Transaction, i: nat)
    requires Correct(c) && SignedByAll(c, keys, tx).Ok? && i < |tx.inputs| && tx.inputs[i].proofs == []
    requires Owner(tx.inputs[i]).Some? && exists k :: OwnedBy(c, k, tx.inputs[i])
    ensures |SignedByAll(c, keys, tx).value.inputs| == |tx.inputs|
    ensures ProofsVerify(c, SignedByAll(c, keys, tx).value.inputs[i].proofs,
                         SignableHash(c, SignedByAll(c, keys, tx).value), Owner(tx.inputs[i]).value)
            <==> TimesOwned(c, keys, tx.inputs[i]) == 1
  {
    var h := SignableHash(c, tx);
    RunOfSignatures(c, keys, tx);
    var proofs := ProofsOn(c, keys, h, tx.inputs[i]);
    ProofsOnFacts(c, keys, h, tx.inputs[i]);
    PublicKeysLength(proofs);
    var k :| OwnedBy(c, k, tx.inputs[i]);
    if |proofs| >= 2 {
      assert c.address(proofs[|proofs| - 1].publicKey) == Owner(tx.inputs[i]).value;
    } else if |proofs| == 0 {
      assert c.address(c.publicKey(k)) == Owner(tx.inputs[i]).value;
    }
  }

  /** Signed once by each owning key, in any order, every input verifies and the stored hash is current. */
  lemma SignedOnceByEach(c: Crypto, keys: seq<Key>, tx: Transaction)
    requires Correct(c) && Enriched(tx) && tx.metadata.Some? && keys != []
    requires forall k :: k in keys ==> Owns(c, k, tx)
    requires forall i :: 0 <= i < |tx.inputs| ==>
               tx.inputs[i].proofs == [] && Owner(tx.inputs[i]).Some? && TimesOwned(c, keys, tx.inputs[i]) == 1
    ensures SignedByAll(c, keys, tx).Ok?
    ensures var x := SignedByAll(c, keys, tx).value;
            && SignableHash(c, x) == SignableHash(c, tx) && |x.inputs| == |tx.inputs|
            && (forall i :: 0 <= i < |x.inputs| ==>
                ProofsVerify(c, x.inputs[i].proofs, SignableHash(c, x), Owner(tx.inputs[i]).value))
            && x.metadata.Some? && x.metadata.value.hash == Some(CalculateHash(c, x))
  {
    RunSucceeds(c, keys, tx);
    RunOfSignatures(c, keys, tx);
    forall i | 0 <= i < |tx.inputs|
      ensures ProofsVerify(c, SignedByAll(c, keys, tx).value.inputs[i].proofs,
                           SignableHash(c, SignedByAll(c, keys, tx).value), Owner(tx.inputs[i]).value)
    {
      SomeoneOwns(c, keys, tx.inputs[i]);
      InputVerifiesIff(c, keys, tx, i);
    }
  }

  lemma {:induction false} SomeoneOwns(c: Crypto, keys: seq<Key>, i: Input)
    requires TimesOwned(c, keys, i) > 0
    ensures exists k :: OwnedBy(c, k, i)
  {
    if !OwnedBy(c, keys[|keys| - 1], i) { SomeoneOwns(c, keys[..|keys| - 1], i); }
  }
}
