/** The trust-weighted vote of peers on whether an output is still unspent. */
module Votes {
  import opened Common
  import opened Hashes

  type PublicKey = seq<Byte>

  /** The parts of a peer's response the vote looks at; a failed request has none. */
  datatype Response = Response(publicKey: Option<PublicKey>, valid: Option<bool>, child: Option<Hash>,
      childInput: Option<int>)

  /** Trust of the peer behind a key, if one is known. */
  type Trust = PublicKey -> Option<real>

  predicate Counts(trust: Trust, r: Response) {
    r.publicKey.Some? && r.valid.Some? && trust(r.publicKey.value).Some?
  }

  function Ballot(trust: Trust, r: Response): real {
    if !Counts(trust, r) then 0.0
    else if r.valid.value then trust(r.publicKey.value).value else -trust(r.publicKey.value).value
  }

  predicate Names(trust: Trust, r: Response, h: Hash) {
    Counts(trust, r) && r.child == Some(h) && r.childInput.Some?
  }

  function Support(trust: Trust, r: Response, h: Hash): real {
    if Names(trust, r, h) then trust(r.publicKey.value).value else 0.0
  }

  function Sum(rs: seq<Response>, f: Response -> real): real {
    if rs == [] then 0.0 else Sum(rs[..|rs| - 1], f) + f(rs[|rs| - 1])
  }

  /** Trust for the output being valid, less trust against. */
  function Margin(trust: Trust, rs: seq<Response>): real {
    Sum(rs, r => Ballot(trust, r))
  }

  /** Accumulated trust of one named child transaction. */
  function Weight(trust: Trust, rs: seq<Response>, h: Hash): real {
    Sum(rs, r => Support(trust, r, h))
  }

  predicate Named(trust: Trust, rs: seq<Response>, h: Hash) {
    exists i :: 0 <= i < |rs| && Names(trust, rs[i], h)
  }

  /** What the vote may report: nothing when the output is held valid or no child was named, otherwise a
      named child of greatest weight. */
  ghost predicate Outcome(trust: Trust, rs: seq<Response>, o: Option<Hash>) {
    if Margin(trust, rs) > 0.0 then o.None?
    else if o.None? then forall h :: !Named(trust, rs, h)
    else Named(trust, rs, o.value) && forall h :: Named(trust, rs, h) ==>
        Weight(trust, rs, h) <= Weight(trust, rs, o.value)
  }

  lemma NamedStep(trust: Trust, rs: seq<Response>, r: Response, h: Hash)
    ensures Named(trust, rs + [r], h) <==> Named(trust, rs, h) || Names(trust, r, h)
  {
    if Named(trust, rs, h) {
      var i :| 0 <= i < |rs| && Names(trust, rs[i], h);
      assert (rs + [r])[i] == rs[i];
    }
    assert (rs + [r])[|rs|] == r;
  }

  ghost predicate Tallied(trust: Trust, rs: seq<Response>, sum: real, weights: map<Hash, real>) {
    && sum == Margin(trust, rs)
    && (forall h :: h in weights <==> Named(trust, rs, h))
    && (forall h :: h in weights ==> weights[h] == Weight(trust, rs, h))
  }

  lemma {:induction false} UnnamedWeighsNothing(trust: Trust, rs: seq<Response>, h: Hash)
    requires !Named(trust, rs, h)
    ensures Weight(trust, rs, h) == 0.0
  {
    if rs != [] {
      var n := |rs| - 1;
      assert rs == rs[..n] + [rs[n]];
      NamedStep(trust, rs[..n], rs[n], h);
      UnnamedWeighsNothing(trust, rs[..n], h);
    }
  }

  lemma TallyStep(trust: Trust, rs: seq<Response>, r: Response, sum: real, weights: map<Hash, real>)
    requires Tallied(trust, rs, sum, weights)
    ensures var weights' :=
              if r.child.Some? && Names(trust, r, r.child.value)
              then
                var before := if r.child.value in weights then weights[r.child.value] else 0.0;
                weights[r.child.value := before + trust(r.publicKey.value).value]
              else weights;
            Tallied(trust, rs + [r], sum + Ballot(trust, r), weights')
  {
    var more := rs + [r];
    assert more[..|rs|] == rs;
    assert Margin(trust, more) == Margin(trust, rs) + Ballot(trust, r);
    forall h ensures Named(trust, more, h) <==> Named(trust, rs, h) || Names(trust, r, h) {
      NamedStep(trust, rs, r, h);
    }
    forall h ensures Weight(trust, more, h) == Weight(trust, rs, h) + Support(trust, r, h) {}
    if r.child.Some? && r.child.value !in weights { UnnamedWeighsNothing(trust, rs, r.child.value); }
  }

  // ---- The sums over the responses ----

  /** The trust of those among the first `n` peers that are trusted at all and gave the answer `valid`. */
  ghost function Said(trust: Trust, rs: seq<Response>, valid: bool, n: nat): real
    requires n <= |rs|
  {
    if n == 0 then 0.0
    else
      var r := rs[n - 1];
      Said(trust, rs, valid, n - 1) +
        if r.publicKey.Some? && trust(r.publicKey.value).Some? && r.valid == Some(valid)
        then trust(r.publicKey.value).value else 0.0
  }

  /** The response gives an answer, comes from a trusted peer and names `h` with one of its inputs. */
  ghost predicate Backs(trust: Trust, r: Response, h: Hash) {
    && r.publicKey.Some? && trust(r.publicKey.value).Some? && r.valid.Some?
    && r.child == Some(h) && r.childInput.Some?
  }

  /** The trust of those among the first `n` peers that back `h`. */
  ghost function Backing(trust: Trust, rs: seq<Response>, h: Hash, n: nat): real
    requires n <= |rs|
  {
    if n == 0 then 0.0
    else
      var r := rs[n - 1];
      Backing(trust, rs, h, n - 1) + if Backs(trust, r, h) then trust(r.publicKey.value).value else 0.0
  }

  ghost predicate Backed(trust: Trust, rs: seq<Response>, h: Hash) {
    exists i :: 0 <= i < |rs| && Backs(trust, rs[i], h)
  }

  /** The margin is the trust of those that say valid less that of those that say invalid. */
  lemma {:induction false} MarginIs(trust: Trust, rs: seq<Response>, n: nat)
    requires n <= |rs|
    ensures Margin(trust, rs[..n]) == Said(trust, rs, true, n) - Said(trust, rs, false, n)
  {
    if n > 0 {
      MarginIs(trust, rs, n - 1);
      assert rs[..n][..n - 1] == rs[..n - 1];
      assert Margin(trust, rs[..n]) == Margin(trust, rs[..n - 1]) + Ballot(trust, rs[n - 1]);
    }
  }

  lemma {:induction false} WeightIs(trust: Trust, rs: seq<Response>, h: Hash, n: nat)
    requires n <= |rs|
    ensures Weight(trust, rs[..n], h) == Backing(trust, rs, h, n)
  {
    if n > 0 {
      WeightIs(trust, rs, h, n - 1);
      assert rs[..n][..n - 1] == rs[..n - 1];
      assert Weight(trust, rs[..n], h) == Weight(trust, rs[..n - 1], h) + Support(trust, rs[n - 1], h);
    }
  }

  lemma NamedIs(trust: Trust, rs: seq<Response>, h: Hash)
    ensures Named(trust, rs, h) <==> Backed(trust, rs, h)
  {
    if Named(trust, rs, h) {
      var i :| 0 <= i < |rs| && Names(trust, rs[i], h);
      assert Backs(trust, rs[i], h);
    }
    if Backed(trust, rs, h) {
      var i :| 0 <= i < |rs| && Backs(trust, rs[i], h);
      assert Names(trust, rs[i], h);
    }
  }

  /** What a vote reports, by the sums over the responses alone. */
  ghost predicate Verdict(trust: Trust, rs: seq<Response>, o: Option<Hash>) {
    if Said(trust, rs, true, |rs|) > Said(trust, rs, false, |rs|) then o.None?
    else if o.None? then forall h :: !Backed(trust, rs, h)
    else Backed(trust, rs, o.value) && forall h :: Backed(trust, rs, h) ==>
        Backing(trust, rs, h, |rs|) <= Backing(trust, rs, o.value, |rs|)
  }

  lemma OutcomeIsVerdict(trust: Trust, rs: seq<Response>, o: Option<Hash>)
    ensures Outcome(trust, rs, o) <==> Verdict(trust, rs, o)
  {
    assert rs[..|rs|] == rs;
    MarginIs(trust, rs, |rs|);
    forall h ensures Weight(trust, rs, h) == Backing(trust, rs, h, |rs|)
                     && (Named(trust, rs, h) <==> Backed(trust, rs, h)) {
      WeightIs(trust, rs, h, |rs|);
      NamedIs(trust, rs, h);
    }
  }

  /** Every answer there is says `valid`. */
  ghost predicate AllSay(rs: seq<Response>, valid: bool) {
    forall i :: 0 <= i < |rs| && rs[i].valid.Some? ==> rs[i].valid.value == valid
  }

  ghost predicate TrustedPositively(trust: Trust) {
    forall k :: trust(k).Some? ==> trust(k).value > 0.0
  }

  lemma {:induction false} UnanimousSums(trust: Trust, rs: seq<Response>, valid: bool, n: nat)
    requires n <= |rs| && AllSay(rs, valid) && TrustedPositively(trust)
    ensures Said(trust, rs, !valid, n) == 0.0 && Said(trust, rs, valid, n) >= 0.0
    ensures (exists i :: 0 <= i < n && Counts(trust, rs[i])) ==> Said(trust, rs, valid, n) > 0.0
  {
    if n > 0 { UnanimousSums(trust, rs, valid, n - 1); }
  }

  /** A unanimous vote: valid reports nothing, invalid reports a child if one is named. */
  lemma Unanimous(trust: Trust, rs: seq<Response>, o: Option<Hash>, valid: bool)
    requires TrustedPositively(trust) && AllSay(rs, valid) && Outcome(trust, rs, o)
    requires exists i :: 0 <= i < |rs| && Counts(trust, rs[i])
    ensures valid ==> o.None?
    ensures !valid ==> (o.Some? <==> exists h :: Backed(trust, rs, h)) && (o.Some? ==> Backed(trust, rs, o.value))
  {
    OutcomeIsVerdict(trust, rs, o);
    UnanimousSums(trust, rs, valid, |rs|);
  }

  method Tally(trust: Trust, responses: seq<Response>) returns (sum: real, weights: map<Hash, real>)
    ensures Tallied(trust, responses, sum, weights)
    ensures sum == Said(trust, responses, true, |responses|) - Said(trust, responses, false, |responses|)
    ensures forall h :: h in weights <==> Backed(trust, responses, h)
    ensures forall h :: h in weights ==> weights[h] == Backing(trust, responses, h, |responses|)
  {
    sum, weights := 0.0, map[];
    for i := 0 to |responses|
      invariant Tallied(trust, responses[..i], sum, weights)
    {
      var r := responses[i];
      TallyStep(trust, responses[..i], r, sum, weights);
      assert responses[..i + 1] == responses[..i] + [r];
      if r.publicKey.Some? && r.valid.Some? && trust(r.publicKey.value).Some? {
        var t := trust(r.publicKey.value).value;
        if r.valid.value { sum := sum + t; } else { sum := sum - t; }
        if r.child.Some? && r.childInput.Some? {
          var h := r.child.value;
          weights := if h in weights then weights[h := weights[h] + t] else weights[h := 0.0 + t];
        }
      }
    }
    assert responses[..|responses|] == responses;
    MarginIs(trust, responses, |responses|);
    forall h ensures Weight(trust, responses, h) == Backing(trust, responses, h, |responses|)
                     && (Named(trust, responses, h) <==> Backed(trust, responses, h)) {
      WeightIs(trust, responses, h, |responses|);
      NamedIs(trust, responses, h);
    }
  }

  /** A child of greatest weight, the last one met. */
  method Heaviest(weights: map<Hash, real>) returns (best: Option<Hash>)
    ensures best.None? <==> weights == map[]
    ensures best.Some? ==> best.value in weights && forall h :: h in weights ==> weights[h] <= weights[best.value]
  {
    best := None;
    var left := weights.Keys;
    while left != {}
      invariant left <= weights.Keys
      invariant best.None? ==> left == weights.Keys
      invariant best.Some? ==> best.value in weights
                               && forall h :: h in weights && h !in left ==> weights[h] <= weights[best.value]
      decreases |left|
    {
      var h :| h in left;
      if best.None? || weights[h] >= weights[best.value] { best := Some(h); }
      left := left - {h};
    }
  }

  method UtxoIdValidPeers(trust: Trust, responses: seq<Response>) returns (o: Option<Hash>)
    ensures Outcome(trust, responses, o) && Verdict(trust, responses, o)
  {
    var sum, weights := Tally(trust, responses);
    var best := Heaviest(weights);
    o := if sum > 0.0 then None else best;
    OutcomeIsVerdict(trust, responses, o);
  }

  // ---- Order of the responses ----

  lemma {:induction false} SumRemove(rs: seq<Response>, i: nat, f: Response -> real)
    requires i < |rs|
    ensures Sum(rs, f) == Sum(rs[..i] + rs[i + 1..], f) + f(rs[i])
    decreases |rs|
  {
    var n := |rs| - 1;
    if i < n {
      SumRemove(rs[..n], i, f);
      assert rs[..n][..i] == rs[..i];
      assert (rs[..i] + rs[i + 1..])[..n - 1] == rs[..i] + rs[..n][i + 1..];
    } else {
      assert rs[..i] + rs[i + 1..] == rs[..n];
    }
  }

  lemma RemoveOne(rs: seq<Response>, i: nat)
    requires i < |rs|
    ensures multiset(rs[..i] + rs[i + 1..]) == multiset(rs) - multiset{rs[i]}
  {
    assert rs == rs[..i] + [rs[i]] + rs[i + 1..];
  }

  lemma RemoveBoth(a: seq<Response>, b: seq<Response>, i: nat)
    requires multiset(a) == multiset(b) && a != [] && i < |b| && b[i] == a[0]
    ensures multiset(a[..0] + a[1..]) == multiset(b[..i] + b[i + 1..])
  {
    RemoveOne(a, 0);
    RemoveOne(b, i);
  }

  lemma {:induction false} SumPermuted(a: seq<Response>, b: seq<Response>, f: Response -> real)
    requires multiset(a) == multiset(b)
    ensures Sum(a, f) == Sum(b, f)
    decreases |a|
  {
    if a == [] {
      assert |multiset(a)| == |multiset(b)|;
    } else {
      var r := a[0];
      assert r in multiset(b);
      var i :| 0 <= i < |b| && b[i] == r;
      RemoveBoth(a, b, i);
      SumRemove(a, 0, f);
      SumRemove(b, i, f);
      SumPermuted(a[..0] + a[1..], b[..i] + b[i + 1..], f);
    }
  }

  lemma NamedPermuted(trust: Trust, a: seq<Response>, b: seq<Response>, h: Hash)
    requires multiset(a) == multiset(b) && Named(trust, a, h)
    ensures Named(trust, b, h)
  {
    var i :| 0 <= i < |a| && Names(trust, a[i], h);
    assert a[i] in multiset(b);
  }

  /** The order in which the peers answer does not matter. */
  lemma VoteIgnoresOrder(trust: Trust, a: seq<Response>, b: seq<Response>, o: Option<Hash>)
    requires multiset(a) == multiset(b)
    ensures Outcome(trust, a, o) <==> Outcome(trust, b, o)
  {
    SumPermuted(a, b, r => Ballot(trust, r));
    forall h ensures Weight(trust, a, h) == Weight(trust, b, h) && (Named(trust, a, h) <==> Named(trust, b, h)) {
      SumPermuted(a, b, r => Support(trust, r, h));
      if Named(trust, a, h) { NamedPermuted(trust, a, b, h); }
      if Named(trust, b, h) { NamedPermuted(trust, b, a, h); }
    }
  }

  /** With one named child heavier than all others, every order reports that child or none. */
  lemma ClearWinner(trust: Trust, a: seq<Response>, b: seq<Response>, o: Option<Hash>, p: Option<Hash>, w: Hash)
    requires multiset(a) == multiset(b) && Outcome(trust, a, o) && Outcome(trust, b, p)
    requires Named(trust, a, w) && forall h :: Named(trust, a, h) && h != w ==>
              Weight(trust, a, h) < Weight(trust, a, w)
    ensures o == p == if Margin(trust, a) > 0.0 then None else Some(w)
  {
    VoteIgnoresOrder(trust, a, b, p);
  }
}
