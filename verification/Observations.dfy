/** The observation buffer: metadata is collected and, at every tick, sealed into the next transaction of the
    node's observation chain. Hash functions are those of an `Env` value. */
module Observations {
  import opened Common
  import opened Hashes
  import opened MerkleProofs
  import Trees = MerkleTrees

  const ANCESTOR_MERKLE_ROOT_LENGTH: nat := 1000

  type Subscriber = nat

  datatype Metadata = Metadata(observedHash: Option<Hash>, detail: int)

  datatype OutputId = OutputId(hash: Hash, index: int)

  datatype Observation = Observation(merkleRoot: Option<Hash>, observations: seq<Metadata>, parentId: Option<OutputId>,
                                     ancestorRoots: seq<Hash>)

  /** An output may or may not carry an observation. */
  datatype ObservationTx = ObservationTx(outputs: seq<Option<Observation>>, height: int, input: Option<OutputId>)

  datatype ObservationProof = ObservationProof(metadata: Metadata, merkleProof: MerkleProof<Hash>,
      observationHash: Hash)

  datatype Env = Env(combine: (Hash, Hash) -> Hash, metadataHash: Metadata -> Hash, txHash: ObservationTx -> Hash)

  /** `formed` lists the chain so far, without its genesis. */
  datatype Buffer = Buffer(data: seq<Metadata>, latest: ObservationTx, ancestors: seq<Hash>,
                           subscribers: map<Hash, Subscriber>, formed: seq<ObservationTx>)

  // ---- Values ----

  function MetadataHashes(env: Env, data: seq<Metadata>): (hs: seq<Hash>)
    ensures |hs| == |data| && forall i :: 0 <= i < |data| ==> hs[i] == env.metadataHash(data[i])
  {
    seq(|data|, i requires 0 <= i < |data| => env.metadataHash(data[i]))
  }

  function TxHashes(env: Env, txs: seq<ObservationTx>): (hs: seq<Hash>)
    ensures |hs| == |txs| && forall i :: 0 <= i < |txs| ==> hs[i] == env.txHash(txs[i])
  {
    seq(|txs|, i requires 0 <= i < |txs| => env.txHash(txs[i]))
  }

  /** The first output that carries an observation. */
  function ObservationIndex(outputs: seq<Option<Observation>>): (index: nat)
    ensures index <= |outputs|
    ensures index < |outputs| ==> outputs[index].Some?
    ensures forall i :: 0 <= i < index ==> outputs[i].None?
  {
    if outputs == [] || outputs[0].Some? then 0 else 1 + ObservationIndex(outputs[1..])
  }

  function ObservationOutput(env: Env, tx: ObservationTx): Option<OutputId> {
    var i := ObservationIndex(tx.outputs);
    if i < |tx.outputs| then Some(OutputId(env.txHash(tx), i)) else None
  }

  function NextObservation(env: Env, b: Buffer): Observation
    requires b.data != [] && ObservationOutput(env, b.latest).Some?
  {
    Observation(Some(Trees.Root(env.combine, MetadataHashes(env, b.data))), b.data, ObservationOutput(env, b.latest),
                if |b.ancestors| == ANCESTOR_MERKLE_ROOT_LENGTH then [Trees.Root(env.combine, b.ancestors)] else [])
  }

  function NextTx(env: Env, b: Buffer): ObservationTx
    requires b.data != [] && ObservationOutput(env, b.latest).Some?
  {
    ObservationTx([Some(NextObservation(env, b))], b.latest.height + 1, ObservationOutput(env, b.latest))
  }

  function AncestorsKept(b: Buffer): seq<Hash> {
    if |b.ancestors| == ANCESTOR_MERKLE_ROOT_LENGTH then [] else b.ancestors
  }

  function Arrived(b: Buffer, m: Metadata, s: Subscriber): Buffer {
    if m.observedHash.None? then b
    else b.(subscribers := b.subscribers[m.observedHash.value := s], data := b.data + [m])
  }

  /** A tick with data: seal it, or lose it when the store refuses the transaction. */
  function Ticked(env: Env, b: Buffer, storeOk: bool): Buffer
    requires ObservationOutput(env, b.latest).Some?
  {
    if b.data == [] then b
    else if !storeOk then b.(data := [], ancestors := AncestorsKept(b))
    else
      var tx := NextTx(env, b);
      b.(data := [], latest := tx, ancestors := AncestorsKept(b) + [env.txHash(tx)], formed := b.formed + [tx])
  }

  /** The root over the metadata is nobody's child, so that proofs can be read off the tree; see Trees.Proof. */
  ghost predicate Provable(env: Env, data: seq<Metadata>) {
    data != [] ==> !Trees.RootIndexed(env.combine, MetadataHashes(env, data))
  }

  /** No collisions, and no metadata hashes into a combination. */
  ghost predicate SoundHashes(env: Env) {
    !Collides(env.combine) && forall m :: !Image(env.combine, env.metadataHash(m))
  }

  /** With sound hash functions the proofs can always be read. */
  lemma SoundIsProvable(env: Env, data: seq<Metadata>)
    requires SoundHashes(env)
    ensures Provable(env, data)
  {
    if data != [] {
      var hs := MetadataHashes(env, data);
      forall h | h in hs ensures !Image(env.combine, h) {
        var i :| 0 <= i < |hs| && hs[i] == h;
        assert h == env.metadataHash(data[i]);
      }
      Trees.RootUnindexed(env.combine, hs);
    }
  }

  /** The proofs so far are good ones of the first metadata. */
  ghost predicate GoodProofs(env: Env, proofs: seq<ObservationProof>, data: seq<Metadata>, tx: ObservationTx) {
    |proofs| <= |data| && forall i :: 0 <= i < |proofs| ==> GoodProof(env, proofs[i], data[i], tx)
  }

  lemma GoodAppend(env: Env, proofs: seq<ObservationProof>, p: ObservationProof, data: seq<Metadata>, tx: ObservationTx)
    requires GoodProofs(env, proofs, data, tx) && |proofs| < |data| && GoodProof(env, p, data[|proofs|], tx)
    ensures GoodProofs(env, proofs + [p], data, tx)
  {}

  method BuildProof(env: Env, observations: seq<Metadata>, i: nat, tx: ObservationTx)
    returns (r: Option<ObservationProof>)
    requires i < |observations| && |tx.outputs| == 1 && tx.outputs[0].Some?
    requires tx.outputs[0].value.merkleRoot == Some(Trees.Root(env.combine, MetadataHashes(env, observations)))
    ensures r.None? <==> !Provable(env, observations)
    ensures r.Some? ==> GoodProof(env, r.value, observations[i], tx)
  {
    var hashes := MetadataHashes(env, observations);
    assert hashes[i] in hashes;
    var p := Trees.Proof(env.combine, hashes, hashes[i]);
    r := if p.None? then None else Some(ObservationProof(observations[i], p.value, env.txHash(tx)));
  }

  /** One proof for each metadata of an observation, read off its tree; none at all if reading never ends. */
  method BuildProofs(env: Env, observations: seq<Metadata>, tx: ObservationTx)
    returns (r: Option<seq<ObservationProof>>)
    requires observations != []
    requires |tx.outputs| == 1 && tx.outputs[0].Some?
    requires tx.outputs[0].value.merkleRoot == Some(Trees.Root(env.combine, MetadataHashes(env, observations)))
    ensures r.None? <==> !Provable(env, observations)
    ensures r.Some? ==> |r.value| == |observations| && GoodProofs(env, r.value, observations, tx)
  {
    var proofs := [];
    for i := 0 to |observations|
      invariant i > 0 ==> Provable(env, observations)
      invariant |proofs| == i && GoodProofs(env, proofs, observations, tx)
    {
      var p := BuildProof(env, observations, i, tx);
      if p.None? { return None; }
      GoodAppend(env, proofs, p.value, observations, tx);
      proofs := proofs + [p.value];
    }
    r := Some(proofs);
  }

  /** A tick forms proofs, or is refused by the store, or hangs reading the proofs after it has stored. */
  datatype Formed = Proofs(proofs: seq<ObservationProof>) | Refused | Endless

  class ObservationBuffer {
    var data: seq<Metadata>
    var latest: ObservationTx
    var ancestors: seq<Hash>
    var subscribers: map<Hash, Subscriber>
    ghost var formed: seq<ObservationTx>

    ghost function Value(): Buffer
      reads this
    {
      Buffer(data, latest, ancestors, subscribers, formed)
    }

    constructor (genesis: ObservationTx)
      ensures Value() == Fresh(genesis)
    {
      data, latest, ancestors, subscribers, formed := [], genesis, [], map[], [];
    }

    method ProcessIncoming(m: Metadata, s: Subscriber)
      modifies this
      ensures Value() == Arrived(old(Value()), m, s)
    {
      if m.observedHash.Some? {
        subscribers := subscribers[m.observedHash.value := s];
        data := data + [m];
      }
    }

    /** The root of a full batch of ancestors, which starts the next batch. */
    method SealAncestors(env: Env) returns (roots: seq<Hash>)
      modifies this`ancestors
      ensures ancestors == AncestorsKept(old(Value()))
      ensures roots == if |old(ancestors)| == ANCESTOR_MERKLE_ROOT_LENGTH then
                [Trees.Root(env.combine, old(ancestors))] else []
    {
      roots := [];
      if |ancestors| == ANCESTOR_MERKLE_ROOT_LENGTH {
        var root := Trees.BuildRoot(env.combine, ancestors);
        ancestors := [];
        roots := [root];
      }
    }

    /** The next observation transaction, over the given metadata. */
    method Assemble(env: Env, observations: seq<Metadata>) returns (tx: ObservationTx)
      requires observations != [] && ObservationOutput(env, latest).Some?
      modifies this`ancestors
      ensures ancestors == AncestorsKept(old(Value()))
      ensures tx == NextTx(env, old(Value()).(data := observations))
    {
      var hashes := MetadataHashes(env, observations);
      var root := Trees.BuildRoot(env.combine, hashes);
      var parent := ObservationOutput(env, latest);
      var roots := SealAncestors(env);
      tx := ObservationTx([Some(Observation(Some(root), observations, parent, roots))], latest.height + 1, parent);
    }

    /** Seal the buffer into the next observation; a proof for every metadata sealed. */
    method FormObservation(env: Env, storeOk: bool) returns (r: Formed)
      requires ObservationOutput(env, latest).Some?
      modifies this
      ensures Value() == Ticked(env, old(Value()), storeOk)
      ensures r.Refused? <==> old(data) != [] && !storeOk
      ensures r.Endless? <==> storeOk && !Provable(env, old(data))
      ensures r.Proofs? ==> |r.proofs| == |old(data)| && GoodProofs(env, r.proofs, old(data), latest)
    {
      if data == [] { return Proofs([]); }
      var observations := data;
      data := [];
      var tx := Assemble(env, observations);
      if !storeOk { return Refused; }
      latest := tx;
      ancestors := ancestors + [env.txHash(tx)];
      formed := formed + [tx];
      var proofs := BuildProofs(env, observations, tx);
      r := if proofs.Some? then Proofs(proofs.value) else Endless;
    }

    /** Tick: form, then answer whoever subscribed to each observed hash. */
    method FormAndRespond(env: Env, storeOk: bool) returns (sent: seq<(Subscriber, ObservationProof)>, ok: bool)
      requires ObservationOutput(env, latest).Some?
      modifies this
      ensures Value() == Ticked(env, old(Value()), storeOk)
      ensures ok <==> old(data) == [] || (storeOk && Provable(env, old(data)))
      ensures !ok ==> sent == []
      ensures ok && Answerable(old(Value())) ==>
                |sent| == |old(data)| && forall i :: 0 <= i < |sent| ==>
                  old(data)[i].observedHash.Some? && old(data)[i].observedHash.value in old(subscribers)
                  && sent[i].0 == old(subscribers)[old(data)[i].observedHash.value]
                  && GoodProof(env, sent[i].1, old(data)[i], latest)
    {
      sent := [];
      var r := FormObservation(env, storeOk);
      if !r.Proofs? { return sent, false; }
      var proofs := r.proofs;
      for i := 0 to |proofs|
        invariant Answerable(old(Value())) ==>
                    |sent| == i && forall j :: 0 <= j < i ==>
                      old(data)[j].observedHash.Some? && old(data)[j].observedHash.value in old(subscribers)
                      && sent[j].0 == old(subscribers)[old(data)[j].observedHash.value]
                      && GoodProof(env, sent[j].1, old(data)[j], latest)
      {
        assert GoodProof(env, proofs[i], old(data)[i], latest);
        var observed := proofs[i].metadata.observedHash;
        if observed.Some? && observed.value in subscribers {
          sent := sent + [(subscribers[observed.value], proofs[i])];
        }
      }
      ok := true;
    }
  }

  /** Every buffered metadata names a hash somebody subscribed to. */
  ghost predicate Answerable(b: Buffer) {
    forall i :: 0 <= i < |b.data| ==> b.data[i].observedHash.Some? && b.data[i].observedHash.value in b.subscribers
  }

  /** The proof is of `m`, names the observation transaction, and leads from the hash of `m` to the root that
      the transaction carries. */
  ghost predicate GoodProof(env: Env, p: ObservationProof, m: Metadata, tx: ObservationTx) {
    && p.metadata == m && p.observationHash == env.txHash(tx)
    && |tx.outputs| == 1 && tx.outputs[0].Some? && tx.outputs[0].value.merkleRoot == p.merkleProof.root
    && p.merkleProof.root.Some? && p.merkleProof.leaf == Some(env.metadataHash(m)) && p.merkleProof.nodes != []
    && Climbs(env.combine, env.metadataHash(m), p.merkleProof.nodes, p.merkleProof.root.value)
  }

  // ---- Runs ----

  datatype Event = Incoming(m: Metadata, s: Subscriber) | Tick(storeOk: bool)

  function Fresh(genesis: ObservationTx): Buffer {
    Buffer([], genesis, [], map[], [])
  }

  function Sealed(tx: ObservationTx): seq<Metadata> {
    if |tx.outputs| > 0 && tx.outputs[0].Some? then tx.outputs[0].value.observations else []
  }

  function AllSealed(txs: seq<ObservationTx>): seq<Metadata> {
    if txs == [] then [] else AllSealed(txs[..|txs| - 1]) + Sealed(txs[|txs| - 1])
  }

  /** The arrivals that name a hash. */
  function Taken(events: seq<Event>): seq<Metadata> {
    if events == [] then []
    else
      var e := events[|events| - 1];
      Taken(events[..|events| - 1]) + if e.Incoming? && e.m.observedHash.Some? then [e.m] else []
  }

  function Previous(genesis: ObservationTx, formed: seq<ObservationTx>, k: nat): ObservationTx
    requires k <= |formed|
  {
    if k == 0 then genesis else formed[k - 1]
  }

  /** Start of the current batch of ancestors after `n` observations. */
  function BatchStart(n: nat): nat {
    if n == 0 then 0 else (n - 1) / ANCESTOR_MERKLE_ROOT_LENGTH * ANCESTOR_MERKLE_ROOT_LENGTH
  }

  /** Observation `k` is one higher than its predecessor, names its observation output as parent and input,
      and carries an ancestor root exactly at every thousandth observation: that of the thousand before it. */
  ghost predicate Link(env: Env, genesis: ObservationTx, formed: seq<ObservationTx>, k: nat)
    requires k < |formed|
  {
    var tx := formed[k];
    var previous := Previous(genesis, formed, k);
    && tx.height == genesis.height + k + 1
    && |tx.outputs| == 1 && tx.outputs[0].Some? && tx.outputs[0].value.observations != []
    && ObservationOutput(env, previous).Some? && tx.input == ObservationOutput(env, previous)
    && tx.outputs[0].value.parentId == ObservationOutput(env, previous)
    && tx.outputs[0].value.ancestorRoots == RootsAt(env, formed, k)
  }

  /** At every thousandth observation the root of the thousand before it. */
  function RootsAt(env: Env, formed: seq<ObservationTx>, k: nat): seq<Hash>
    requires k <= |formed|
  {
    if k > 0 && k % ANCESTOR_MERKLE_ROOT_LENGTH == 0
    then [Trees.Root(env.combine, TxHashes(env, formed[k - ANCESTOR_MERKLE_ROOT_LENGTH..k]))] else []
  }

  lemma RootsGrow(env: Env, formed: seq<ObservationTx>, tx: ObservationTx, k: nat)
    requires k <= |formed|
    ensures RootsAt(env, formed + [tx], k) == RootsAt(env, formed, k)
  {
    if k >= ANCESTOR_MERKLE_ROOT_LENGTH {
      assert (formed + [tx])[k - ANCESTOR_MERKLE_ROOT_LENGTH..k] == formed[k - ANCESTOR_MERKLE_ROOT_LENGTH..k];
    }
  }

  ghost predicate Chain(env: Env, genesis: ObservationTx, b: Buffer) {
    && ObservationOutput(env, genesis).Some?
    && b.latest == Previous(genesis, b.formed, |b.formed|)
    && (forall k :: 0 <= k < |b.formed| ==> Link(env, genesis, b.formed, k))
    && b.ancestors == TxHashes(env, b.formed[BatchStart(|b.formed|)..])
  }

  lemma LatestHasOutput(env: Env, genesis: ObservationTx, b: Buffer)
    requires Chain(env, genesis, b)
    ensures ObservationOutput(env, b.latest).Some?
    ensures b.latest.height == genesis.height + |b.formed|
  {
    if b.formed != [] { assert Link(env, genesis, b.formed, |b.formed| - 1); }
  }

  /** Exactly after every thousand observations the batch is full. */
  lemma BatchFull(n: nat)
    ensures n - BatchStart(n) <= ANCESTOR_MERKLE_ROOT_LENGTH
    ensures n - BatchStart(n) == ANCESTOR_MERKLE_ROOT_LENGTH <==> n > 0 && n % ANCESTOR_MERKLE_ROOT_LENGTH == 0
    ensures BatchStart(n + 1) == if n > 0 && n % ANCESTOR_MERKLE_ROOT_LENGTH == 0 then n else BatchStart(n)
  {}

  lemma LinkGrows(env: Env, genesis: ObservationTx, formed: seq<ObservationTx>, tx: ObservationTx, k: nat)
    requires k < |formed| && Link(env, genesis, formed, k)
    ensures Link(env, genesis, formed + [tx], k)
  {
    RootsGrow(env, formed, tx, k);
    assert Previous(genesis, formed + [tx], k) == Previous(genesis, formed, k);
  }

  lemma NewLink(env: Env, genesis: ObservationTx, b: Buffer)
    requires Chain(env, genesis, b) && b.data != []
    ensures ObservationOutput(env, b.latest).Some?
    ensures Link(env, genesis, b.formed + [NextTx(env, b)], |b.formed|)
  {
    var n := |b.formed|;
    LatestHasOutput(env, genesis, b);
    BatchFull(n);
    var tx := NextTx(env, b);
    var formed := b.formed + [tx];
    assert Previous(genesis, formed, n) == b.latest;
    if n > 0 && n % ANCESTOR_MERKLE_ROOT_LENGTH == 0 {
      assert formed[n - ANCESTOR_MERKLE_ROOT_LENGTH..n] == b.formed[BatchStart(n)..];
    }
  }

  lemma TxHashesAppend(env: Env, txs: seq<ObservationTx>, tx: ObservationTx)
    ensures TxHashes(env, txs + [tx]) == TxHashes(env, txs) + [env.txHash(tx)]
  {}

  lemma NewAncestors(env: Env, b: Buffer, tx: ObservationTx)
    requires b.ancestors == TxHashes(env, b.formed[BatchStart(|b.formed|)..])
    ensures AncestorsKept(b) + [env.txHash(tx)] == TxHashes(env, (b.formed + [tx])[BatchStart(|b.formed| + 1)..])
  {
    var n := |b.formed|;
    BatchFull(n);
    if n > 0 && n % ANCESTOR_MERKLE_ROOT_LENGTH == 0 {
      assert (b.formed + [tx])[n..] == [tx];
    } else {
      assert (b.formed + [tx])[BatchStart(n)..] == b.formed[BatchStart(n)..] + [tx];
      TxHashesAppend(env, b.formed[BatchStart(n)..], tx);
    }
  }

  lemma LinksGrow(env: Env, genesis: ObservationTx, formed: seq<ObservationTx>, tx: ObservationTx)
    requires forall k :: 0 <= k < |formed| ==> Link(env, genesis, formed, k)
    requires Link(env, genesis, formed + [tx], |formed|)
    ensures forall k :: 0 <= k < |formed + [tx]| ==> Link(env, genesis, formed + [tx], k)
  {
    forall k | 0 <= k < |formed + [tx]| ensures Link(env, genesis, formed + [tx], k) {
      if k < |formed| { LinkGrows(env, genesis, formed, tx, k); }
    }
  }

  /** A tick that is stored keeps the chain. */
  lemma TickKeepsChain(env: Env, genesis: ObservationTx, b: Buffer)
    requires Chain(env, genesis, b)
    ensures ObservationOutput(env, b.latest).Some? && Chain(env, genesis, Ticked(env, b, true))
  {
    LatestHasOutput(env, genesis, b);
    if b.data != [] {
      var b' := Ticked(env, b, true);
      NewLink(env, genesis, b);
      NewAncestors(env, b, NextTx(env, b));
      LinksGrow(env, genesis, b.formed, NextTx(env, b));
      assert b'.latest == Previous(genesis, b'.formed, |b'.formed|);
    }
  }

  ghost predicate AllStored(events: seq<Event>) {
    forall i :: 0 <= i < |events| ==> events[i] != Tick(false)
  }

  /** The buffer after a run in which the store never fails. */
  ghost function After(env: Env, genesis: ObservationTx, events: seq<Event>): (b: Buffer)
    requires ObservationOutput(env, genesis).Some? && AllStored(events)
    ensures Chain(env, genesis, b)
  {
    if events == [] then Fresh(genesis)
    else
      var b := After(env, genesis, events[..|events| - 1]);
      var e := events[|events| - 1];
      if e.Incoming? then Arrived(b, e.m, e.s)
      else
        TickKeepsChain(env, genesis, b);
        Ticked(env, b, true)
  }

  /** The event is an arrival of `h`. */
  ghost predicate Arrives(e: Event, h: Hash) {
    e.Incoming? && e.m.observedHash == Some(h)
  }

  /** The last arrival of `h` among the events. */
  ghost predicate LastArrival(events: seq<Event>, h: Hash, k: nat) {
    && k < |events| && Arrives(events[k], h)
    && forall j :: k < j < |events| ==> !Arrives(events[j], h)
  }

  /** `h` has a subscriber exactly if it arrived, and it is the sender of the last arrival. */
  ghost predicate Subscribed(subscribers: map<Hash, Subscriber>, events: seq<Event>, h: Hash) {
    && (h in subscribers <==> exists k :: 0 <= k < |events| && Arrives(events[k], h))
    && (forall k: nat :: LastArrival(events, h, k) ==> h in subscribers && subscribers[h] == events[k].s)
  }

  function Subscribe(subscribers: map<Hash, Subscriber>, e: Event): map<Hash, Subscriber> {
    if e.Incoming? && e.m.observedHash.Some? then subscribers[e.m.observedHash.value := e.s] else subscribers
  }

  function SubscribersAfter(events: seq<Event>): map<Hash, Subscriber> {
    if events == [] then map[] else Subscribe(SubscribersAfter(events[..|events| - 1]), events[|events| - 1])
  }

  lemma {:induction false} AllSubscribed(events: seq<Event>, h: Hash)
    ensures Subscribed(SubscribersAfter(events), events, h)
  {
    if events != [] {
      var n := |events| - 1;
      AllSubscribed(events[..n], h);
      SubscribedStep(SubscribersAfter(events[..n]), events, h);
    }
  }

  lemma {:induction false} RunKeepsSubscribers(env: Env, genesis: ObservationTx, events: seq<Event>)
    requires ObservationOutput(env, genesis).Some? && AllStored(events)
    ensures After(env, genesis, events).subscribers == SubscribersAfter(events)
  {
    if events != [] { RunKeepsSubscribers(env, genesis, events[..|events| - 1]); }
  }

  /** Over every run the subscriber of a hash is whoever sent it last, whatever was sealed in between. */
  lemma RunSubscribers(env: Env, genesis: ObservationTx, events: seq<Event>, h: Hash)
    requires ObservationOutput(env, genesis).Some? && AllStored(events)
    ensures Subscribed(After(env, genesis, events).subscribers, events, h)
  {
    RunKeepsSubscribers(env, genesis, events);
    AllSubscribed(events, h);
  }

  lemma SubscribedStep(before: map<Hash, Subscriber>, events: seq<Event>, h: Hash)
    requires events != [] && Subscribed(before, events[..|events| - 1], h)
    ensures Subscribed(Subscribe(before, events[|events| - 1]), events, h)
  {
    var n := |events| - 1;
    var front := events[..n];
    if !Arrives(events[n], h) {
      assert forall k :: 0 <= k < n ==> front[k] == events[k];
      forall k: nat | LastArrival(events, h, k) ensures LastArrival(front, h, k) {
        forall j | k < j < n ensures !Arrives(front[j], h) { assert !Arrives(events[j], h); }
      }
    }
  }

  lemma SealedAppend(formed: seq<ObservationTx>, tx: ObservationTx)
    ensures AllSealed(formed + [tx]) == AllSealed(formed) + Sealed(tx)
  {
    assert (formed + [tx])[..|formed|] == formed;
  }

  /** The sealed metadata followed by the buffer, each of which has a subscriber. */
  ghost predicate Accounts(b: Buffer, taken: seq<Metadata>) {
    AllSealed(b.formed) + b.data == taken && Answerable(b)
  }

  lemma TickConserves(env: Env, genesis: ObservationTx, a: Buffer, before: seq<Metadata>)
    requires Chain(env, genesis, a) && Accounts(a, before)
    ensures ObservationOutput(env, a.latest).Some? && Accounts(Ticked(env, a, true), before)
  {
    LatestHasOutput(env, genesis, a);
    if a.data != [] { SealedAppend(a.formed, NextTx(env, a)); }
  }

  lemma ArrivalConserves(a: Buffer, m: Metadata, s: Subscriber, before: seq<Metadata>)
    requires Accounts(a, before)
    ensures Accounts(Arrived(a, m, s), before + if m.observedHash.Some? then [m] else [])
  {
    if m.observedHash.Some? {
      assert AllSealed(a.formed) + (a.data + [m]) == AllSealed(a.formed) + a.data + [m];
    } else {
      assert before + [] == before;
    }
  }

  lemma {:induction false} RunConserves(env: Env, genesis: ObservationTx, events: seq<Event>)
    requires ObservationOutput(env, genesis).Some? && AllStored(events)
    ensures Accounts(After(env, genesis, events), Taken(events))
  {
    if events != [] {
      var front := events[..|events| - 1];
      var a := After(env, genesis, front);
      var e := events[|events| - 1];
      RunConserves(env, genesis, front);
      if e.Tick? {
        TickConserves(env, genesis, a, Taken(front));
        assert Taken(events) == Taken(front) + [] == Taken(front);
      } else {
        ArrivalConserves(a, e.m, e.s, Taken(front));
      }
    }
  }

  /** Over every run: the formed observations, followed by the buffer, hold the accepted arrivals in order,
      nothing lost and nothing repeated; every arrival waiting has a subscriber; the chain is linked; and the
      ancestor list is the unfinished batch. */
  lemma RunLaw(env: Env, genesis: ObservationTx, events: seq<Event>)
    requires ObservationOutput(env, genesis).Some? && AllStored(events)
    ensures var b := After(env, genesis, events);
            && AllSealed(b.formed) + b.data == Taken(events)
            && Answerable(b)
            && (forall k :: 0 <= k < |b.formed| ==> Link(env, genesis, b.formed, k))
            && |b.ancestors| <= ANCESTOR_MERKLE_ROOT_LENGTH
            && b.ancestors == TxHashes(env, b.formed[BatchStart(|b.formed|)..])
  {
    RunConserves(env, genesis, events);
    BatchFull(|After(env, genesis, events).formed|);
  }

  /** A tick the store refuses drops the whole buffer: the arrivals in it are in no observation. */
  lemma FailedTickLoses(env: Env, genesis: ObservationTx, events: seq<Event>)
    requires ObservationOutput(env, genesis).Some? && AllStored(events)
    ensures var b := After(env, genesis, events);
            ObservationOutput(env, b.latest).Some?
            && var c := Ticked(env, b, false);
               AllSealed(c.formed) + c.data == Taken(events) <==> b.data == []
  {
    var b := After(env, genesis, events);
    RunLaw(env, genesis, events);
    LatestHasOutput(env, genesis, b);
    if b.data != [] {
      assert |AllSealed(b.formed) + b.data| > |AllSealed(b.formed)|;
    }
  }
}
