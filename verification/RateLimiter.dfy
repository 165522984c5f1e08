/** The faucet rate limiter: per origin, the instant and running count of its last admission. */
module RateLimiter {
  const NANOS: int := 1_000_000_000
  const DAY_SECONDS: int := 3600 * 24
  const MAX_ENTRIES: int := 1_000_000

  datatype Entry = Entry(at: int, count: int)

  type Limits = map<string, Entry>

  /** Whole seconds between two instants, zero when the second is earlier. */
  function SecondsSince(now: int, earlier: int): int {
    if now < earlier then 0 else (now - earlier) / NANOS
  }

  datatype Answer = TooManyEntries | Admitted | Refused

  function Decide(l: Limits, ip: string, now: int): Answer {
    if |l| > MAX_ENTRIES then TooManyEntries
    else if ip !in l || SecondsSince(now, l[ip].at) > DAY_SECONDS || l[ip].count <= 30 then Admitted
    else Refused
  }

  function Updated(l: Limits, ip: string, now: int): Limits {
    if Decide(l, ip, now) != Admitted then l
    else if ip !in l then l[ip := Entry(now, 0)]
    else if SecondsSince(now, l[ip].at) > DAY_SECONDS then l[ip := Entry(now, 1)]
    else l[ip := Entry(now, l[ip].count + 1)]
  }

  class Limiter {
    var limits: Limits

    constructor ()
      ensures limits == map[]
    {
      limits := map[];
    }

    method CheckRateLimit(ip: string, now: int) returns (r: Answer)
      modifies this
      ensures r == Decide(old(limits), ip, now) && limits == Updated(old(limits), ip, now)
      ensures r.TooManyEntries? <==> |old(limits)| > 1_000_000
    {
      if |limits| > MAX_ENTRIES { return TooManyEntries; }
      if ip !in limits {
        limits := limits[ip := Entry(now, 0)];
        return Admitted;
      }
      var entry := limits[ip];
      if SecondsSince(now, entry.at) > DAY_SECONDS {
        limits := limits[ip := Entry(now, 1)];
        r := Admitted;
      } else if entry.count > 30 {
        r := Refused;
      } else {
        limits := limits[ip := Entry(now, entry.count + 1)];
        r := Admitted;
      }
    }
  }

  // ---- Runs ----

  datatype Call = Call(ip: string, now: int)

  function After(calls: seq<Call>): Limits {
    if calls == [] then map[]
    else
      var c := calls[|calls| - 1];
      Updated(After(calls[..|calls| - 1]), c.ip, c.now)
  }

  predicate IsAdmitted(calls: seq<Call>, i: nat)
    requires i < |calls|
  {
    Decide(After(calls[..i]), calls[i].ip, calls[i].now) == Admitted
  }

  ghost predicate Monotone(calls: seq<Call>) {
    forall i, j :: 0 <= i <= j < |calls| ==> calls[i].now <= calls[j].now
  }

  /** Admissions of one origin among the calls from `i` up to `j`. */
  function Admissions(calls: seq<Call>, ip: string, i: nat, j: nat): nat
    requires i <= j <= |calls|
  {
    if i == j then 0
    else Admissions(calls, ip, i, j - 1) + if calls[j - 1].ip == ip && IsAdmitted(calls, j - 1) then 1 else 0
  }

  /** The stored count stays in 0..31. */
  lemma {:induction false} CountBounded(calls: seq<Call>, ip: string)
    requires ip in After(calls)
    ensures 0 <= After(calls)[ip].count <= 31
  {
    var n := |calls| - 1;
    if ip in After(calls[..n]) { CountBounded(calls[..n], ip); }
  }

  lemma AfterStep(calls: seq<Call>, j: nat)
    requires 0 < j <= |calls|
    ensures After(calls[..j]) == Updated(After(calls[..j - 1]), calls[j - 1].ip, calls[j - 1].now)
  {
    assert calls[..j][..j - 1] == calls[..j - 1];
  }

  ghost predicate Tracked(l: Limits, ip: string, since: int, n: nat) {
    n > 0 ==> ip in l && since <= l[ip].at && n <= l[ip].count + 1
  }

  /** One call, less than a day and a second after `since`. */
  lemma CallTracked(l: Limits, ip: string, now: int, since: int, n: nat)
    requires since <= now < since + (DAY_SECONDS + 1) * NANOS && Tracked(l, ip, since, n)
    requires ip in l ==> l[ip].count >= 0
    ensures Tracked(Updated(l, ip, now), ip, since, n + if Decide(l, ip, now) == Admitted then 1 else 0)
  {}

  /** Inside a day nothing is reset, so every admission after the first raises the stored count by one. */
  lemma {:induction false} CountTracksAdmissions(calls: seq<Call>, ip: string, i: nat, j: nat)
    requires Monotone(calls) && i <= j <= |calls|
    requires j > i ==> calls[j - 1].now - calls[i].now < (DAY_SECONDS + 1) * NANOS
    ensures i < |calls| ==> Tracked(After(calls[..j]), ip, calls[i].now, Admissions(calls, ip, i, j))
    decreases j - i
  {
    if i < j {
      var k := j - 1;
      if k > i { assert calls[k - 1].now <= calls[k].now; }
      CountTracksAdmissions(calls, ip, i, k);
      AfterStep(calls, j);
      var before := After(calls[..k]);
      if calls[k].ip == ip {
        if ip in before { CountBounded(calls[..k], ip); }
        assert calls[i].now <= calls[k].now;
        CallTracked(before, ip, calls[k].now, calls[i].now, Admissions(calls, ip, i, k));
      }
    }
  }

  /** At most 32 requests of one origin are admitted in any window in which less than a day and a second
      passes. */
  lemma WindowLimit(calls: seq<Call>, ip: string, i: nat, j: nat)
    requires Monotone(calls) && i < j <= |calls| && calls[j - 1].now - calls[i].now < (DAY_SECONDS + 1) * NANOS
    ensures Admissions(calls, ip, i, j) <= 32
  {
    CountTracksAdmissions(calls, ip, i, j);
    if ip in After(calls[..j]) { CountBounded(calls[..j], ip); }
  }

  /** No call of `ip` from `i` up to `j` is admitted. */
  ghost predicate NoneAdmitted(calls: seq<Call>, ip: string, i: nat, j: nat)
    requires i <= j <= |calls|
  {
    forall k :: i <= k < j && calls[k].ip == ip ==> !IsAdmitted(calls, k)
  }

  /** Whatever other origins do, the entry of an origin changes at its own admissions only. */
  lemma {:induction false} EntryKept(calls: seq<Call>, ip: string, i: nat, j: nat)
    requires i <= j <= |calls| && NoneAdmitted(calls, ip, i, j)
    ensures ip in After(calls[..j]) <==> ip in After(calls[..i])
    ensures ip in After(calls[..i]) ==> After(calls[..j])[ip] == After(calls[..i])[ip]
    decreases j
  {
    if i < j {
      EntryKept(calls, ip, i, j - 1);
      AfterStep(calls, j);
      assert calls[j - 1].ip == ip ==> !IsAdmitted(calls, j - 1);
    }
  }

  lemma AdmissionStamps(calls: seq<Call>, k: nat)
    requires k < |calls| && IsAdmitted(calls, k)
    ensures calls[k].ip in After(calls[..k + 1]) && After(calls[..k + 1])[calls[k].ip].at == calls[k].now
  {
    AfterStep(calls, k + 1);
  }

  /** Over every call sequence: call `k` is the last admission of its origin before call `j`, and call `i` in
      between was refused. Then, unless the table is over its limit, call `j` is admitted exactly when a day
      and a second have passed since call `k`, however many more were refused meanwhile. */
  lemma ReadmittedIff(calls: seq<Call>, ip: string, k: nat, i: nat, j: nat)
    requires k < i < j < |calls| && calls[k].ip == calls[i].ip == calls[j].ip == ip
    requires IsAdmitted(calls, k) && NoneAdmitted(calls, ip, k + 1, j)
    requires Decide(After(calls[..i]), ip, calls[i].now) == Refused && |After(calls[..j])| <= MAX_ENTRIES
    ensures IsAdmitted(calls, j) <==> calls[j].now >= calls[k].now + (DAY_SECONDS + 1) * NANOS
  {
    AdmissionStamps(calls, k);
    EntryKept(calls, ip, k + 1, i);
    EntryKept(calls, ip, k + 1, j);
  }

  function Burst(ip: string, now: int, n: nat): (calls: seq<Call>)
    ensures |calls| == n && forall i :: 0 <= i < n ==> calls[i] == Call(ip, now)
  {
    seq(n, i => Call(ip, now))
  }

  lemma {:induction false} BurstState(ip: string, now: int, n: nat)
    ensures After(Burst(ip, now, n)) == if n == 0 then map[] else map[ip := Entry(now, if n <= 32 then n - 1 else 31)]
  {
    if n > 0 {
      BurstState(ip, now, n - 1);
      assert Burst(ip, now, n)[..n - 1] == Burst(ip, now, n - 1);
    }
  }

  /** The bound is met: of a burst, exactly the first 32 calls are admitted. */
  lemma BurstAdmits(ip: string, now: int, n: nat, i: nat)
    requires i < n
    ensures IsAdmitted(Burst(ip, now, n), i) <==> i < 32
  {
    BurstState(ip, now, i);
    assert Burst(ip, now, n)[..i] == Burst(ip, now, i);
  }

  // ---- The day after a readmission ----

  /** A known origin is admitted because its last admission is more than a day old. */
  ghost predicate Readmits(l: Limits, ip: string, now: int) {
    |l| <= MAX_ENTRIES && ip in l && SecondsSince(now, l[ip].at) > DAY_SECONDS
  }

  ghost predicate Restarted(l: Limits, ip: string, since: int, n: nat) {
    ip in l && since <= l[ip].at && 1 <= n == l[ip].count
  }

  /** From a readmission on the stored count is the number of admissions since, this one included. */
  lemma {:induction false} CountRestarts(calls: seq<Call>, ip: string, i: nat, j: nat)
    requires Monotone(calls) && i < j <= |calls| && calls[i].ip == ip && Readmits(After(calls[..i]), ip, calls[i].now)
    requires calls[j - 1].now - calls[i].now < (DAY_SECONDS + 1) * NANOS
    ensures Restarted(After(calls[..j]), ip, calls[i].now, Admissions(calls, ip, i, j))
    decreases j
  {
    var k := j - 1;
    AfterStep(calls, j);
    if k == i {
      assert Admissions(calls, ip, i, i) == 0;
    } else {
      assert calls[k - 1].now <= calls[k].now && calls[i].now <= calls[k].now;
      CountRestarts(calls, ip, i, k);
    }
  }

  /** In the day from a readmission on 31 requests of the origin are admitted, one less than at first. */
  lemma ReadmittedDayLimit(calls: seq<Call>, ip: string, i: nat, j: nat)
    requires Monotone(calls) && i < j <= |calls| && calls[i].ip == ip && Readmits(After(calls[..i]), ip, calls[i].now)
    requires calls[j - 1].now - calls[i].now < (DAY_SECONDS + 1) * NANOS
    ensures 1 <= Admissions(calls, ip, i, j) <= 31
  {
    CountRestarts(calls, ip, i, j);
    CountBounded(calls[..j], ip);
  }

  /** Inside that day a request of the origin is admitted exactly when fewer than 31 were before it. */
  lemma ReadmittedDayAdmits(calls: seq<Call>, ip: string, i: nat, j: nat)
    requires Monotone(calls) && i < j < |calls| && calls[i].ip == calls[j].ip == ip
    requires Readmits(After(calls[..i]), ip, calls[i].now) && |After(calls[..j])| <= MAX_ENTRIES
    requires calls[j].now - calls[i].now < (DAY_SECONDS + 1) * NANOS
    ensures IsAdmitted(calls, j) <==> Admissions(calls, ip, i, j) < 31
  {
    assert calls[j - 1].now <= calls[j].now;
    CountRestarts(calls, ip, i, j);
  }
}
