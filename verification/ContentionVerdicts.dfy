/** Exactly when a task wins, and exactly when two tasks on one output both do. */
module ContentionVerdicts {
  import opened Hashes
  import opened Ledger
  import opened Contention
  import opened ContentionInvariant
  import opened ContentionSafety

  /** An abort in the channel comes from a conflict already read, or follows the notice of its sender. */
  ghost predicate Foretold(conflicts: seq<Conflict>, channel: seq<Conflict>, i: nat)
    requires i < |channel|
  {
    channel[i].abort ==> Has(conflicts, channel[i].hash) || Notified(channel[..i], channel[i].hash)
  }

  ghost predicate Explained(t: Task) {
    && (forall i :: 0 <= i < |t.channel| ==> Foretold(t.conflicts, t.channel, i))
    && (t.phase.Rejected? && !t.phase.why.Invalid? ==> Has(t.conflicts, t.phase.why.winner))
  }

  ghost predicate AllExplained(s: State) {
    forall h :: h in s.tasks ==> Explained(s.tasks[h])
  }

  lemma AppendForetold(conflicts: seq<Conflict>, channel: seq<Conflict>, c: Conflict)
    requires forall i :: 0 <= i < |channel| ==> Foretold(conflicts, channel, i)
    requires c.abort ==> Has(conflicts, c.hash) || Notified(channel, c.hash)
    ensures forall i :: 0 <= i < |channel| + 1 ==> Foretold(conflicts, channel + [c], i)
  {
    var more := channel + [c];
    assert more[..|channel|] == channel;
    forall i | 0 <= i < |more| ensures Foretold(conflicts, more, i) {
      if i < |channel| {
        assert Foretold(conflicts, channel, i);
        assert more[..i] == channel[..i];
      }
    }
  }

  lemma DeliverExplained(t: Task, c: Conflict)
    requires Explained(t) && (c.abort ==> Has(t.conflicts, c.hash) || Notified(t.channel, c.hash))
    ensures Explained(Deliver(t, c))
  {
    AppendForetold(t.conflicts, t.channel, c);
  }

  lemma MoreConflictsExplained(t: Task, more: seq<Conflict>, t': Task)
    requires Explained(t) && t'.channel == t.channel && t'.conflicts == t.conflicts + more && !t'.phase.Rejected?
    ensures Explained(t')
  {
    forall i | 0 <= i < |t.channel| ensures Foretold(t'.conflicts, t'.channel, i) {
      assert Foretold(t.conflicts, t.channel, i);
      HasConcat(t.conflicts, more, t.channel[i].hash);
    }
  }

  /** Reading the head of the channel: a notice becomes a conflict, so what it foretold stays foretold. */
  lemma TailForetold(t: Task, i: nat)
    requires Explained(t) && i + 1 < |t.channel|
    ensures Foretold(if t.channel[0].abort then t.conflicts else t.conflicts + [t.channel[0]], t.channel[1..], i)
  {
    var c := t.channel[0];
    var x := t.channel[i + 1].hash;
    assert Foretold(t.conflicts, t.channel, i + 1);
    assert t.channel[1..][i] == t.channel[i + 1];
    HasConcat(t.conflicts, [c], x);
    if t.channel[i + 1].abort && !Has(t.conflicts, x) {
      var j :| 0 <= j < |t.channel[..i + 1]| && t.channel[..i + 1][j].hash == x && !t.channel[..i + 1][j].abort;
      if j == 0 {
        assert [c][0].hash == x;
      } else {
        assert t.channel[1..][..i][j - 1] == t.channel[..i + 1][j];
      }
    }
  }

  lemma ReceiveExplained(t: Task)
    requires Explained(t) && t.channel != [] && t.phase.Listening?
    ensures Explained(AfterReceive(t))
  {
    var t' := AfterReceive(t);
    assert Foretold(t.conflicts, t.channel, 0);
    forall i | 0 <= i < |t'.channel| ensures Foretold(t'.conflicts, t'.channel, i) {
      TailForetold(t, i);
    }
  }

  lemma ResolveExplained(t: Task)
    requires Explained(t)
    ensures Explained(t.(phase := AfterResolve(t)))
  {
    if t.conflicts != [] {
      var all := t.conflicts + [Notice(t, true)];
      LeastFacts(all);
      HasConcat(t.conflicts, [Notice(t, true)], Least(all));
      assert Has([Notice(t, true)], Least(all)) ==> Least(all) == t.tx.hash;
    }
  }

  /** Rivals know of each other: each has read the other's notice, or has it waiting. */
  lemma RivalsKnow(s: State, h: Hash, x: Hash)
    requires Inv(s) && Rivals(s.pools, h, x)
    ensures x in s.tasks && (Has(s.tasks[x].conflicts, h) || Notified(s.tasks[x].channel, h))
  {
    var u :| InPool(s.pools, u, h) && InPool(s.pools, u, x);
    var pool := s.pools[u];
    var i :| 0 <= i < |pool| && pool[i].hash == h;
    var j :| 0 <= j < |pool| && pool[j].hash == x;
    if i < j { AwareInPool(s, u, i, j); } else { AwareInPool(s, u, j, i); }
  }

  lemma AnnounceExplained(s: State, h: Hash)
    requires Inv(s) && AllExplained(s) && Enabled(s, Announce(h))
    ensures AllExplained(Announced(s, h))
  {
    var t := s.tasks[h];
    var x := t.conflicts[t.phase.next].hash;
    assert TaskOk(s.pools, h, t);
    assert Rivals(s.pools, h, x);
    RivalsKnow(s, h, x);
    assert t.tx.hash == h;
    DeliverExplained(s.tasks[x], Notice(t, true));
  }

  lemma RegisterExplained(s: State, h: Hash)
    requires AllExplained(s) && Enabled(s, Register(h))
    ensures AllExplained(Registered(s, h))
  {
    var s' := Registered(s, h);
    forall x | x in s'.tasks ensures Explained(s'.tasks[x]) {
      if x == h {
        MoreConflictsExplained(s.tasks[h], Pool(s, Ids(s.tasks[h])[s.tasks[h].phase.next]), s'.tasks[h]);
      } else {
        DeliverExplained(s.tasks[x], Notice(s.tasks[h], false));
      }
    }
  }

  lemma SetExplained(s: State, h: Hash, t: Task)
    requires AllExplained(s) && Explained(t)
    ensures AllExplained(Set(s, h, t))
  {}

  lemma NextExplained(s: State, a: Action)
    requires Inv(s) && AllExplained(s) && Enabled(s, a)
    ensures AllExplained(Next(s, a))
  {
    match a
    case Submit(tx, start) => SetExplained(s, tx.hash, Task(tx, start, Validating({}), [], []));
    case Check(h, k) => SetExplained(s, h, Next(s, a).tasks[h]);
    case Conclude(h) => SetExplained(s, h, Next(s, a).tasks[h]);
    case Register(h) => RegisterExplained(s, h);
    case Receive(h) =>
      ReceiveExplained(s.tasks[h]);
      SetExplained(s, h, AfterReceive(s.tasks[h]));
    case Resolve(h) =>
      ResolveExplained(s.tasks[h]);
      SetExplained(s, h, Next(s, a).tasks[h]);
    case Announce(h) => AnnounceExplained(s, h);
    case Insert(h) => SetExplained(s, h, Next(s, a).tasks[h]);
    case Delete(h) => SetExplained(s, h, Next(s, a).tasks[h]);
  }

  lemma {:induction false} RunExplained(s: State, acts: seq<Action>)
    requires Initial(s) && IsRun(s, acts)
    ensures AllExplained(After(s, acts))
  {
    if acts != [] {
      var front := acts[..|acts| - 1];
      RunExplained(s, front);
      RunKeeps(s, front);
      NextExplained(After(s, front), acts[|acts| - 1]);
    }
  }

  /** Past its resolution, or aborted while it waited for it. */
  predicate Decided(p: Phase) {
    Won(p) || (p.Rejected? && !p.why.Invalid?)
  }

  /** A decided task has won exactly when its hash is smaller than every conflict it has read. */
  lemma WonIff(s: State, acts: seq<Action>, h: Hash)
    requires Initial(s) && IsRun(s, acts) && h in After(s, acts).tasks && Decided(After(s, acts).tasks[h].phase)
    ensures Won(After(s, acts).tasks[h].phase) <==> forall x :: Has(After(s, acts).tasks[h].conflicts, x) ==> Less(h, x)
  {
    RunKeeps(s, acts);
    RunExplained(s, acts);
    WonIffIn(After(s, acts), h);
  }

  lemma WonIffIn(s: State, h: Hash)
    requires Inv(s) && AllExplained(s) && h in s.tasks && Decided(s.tasks[h].phase)
    ensures Won(s.tasks[h].phase) <==> forall x :: Has(s.tasks[h].conflicts, x) ==> Less(h, x)
  {
    var t := s.tasks[h];
    assert TaskOk(s.pools, h, t) && Explained(t);
    if !Won(t.phase) { LessAsymmetric(t.phase.why.winner, h); }
  }

  /** `h` is smaller than every conflict it has read, `rival` aside. */
  ghost predicate LeastBut(s: State, h: Hash, rival: Hash)
    requires h in s.tasks
  {
    forall x :: Has(s.tasks[h].conflicts, x) && x != rival ==> Less(h, x)
  }

  /** The race, exactly: of two decided tasks in one pool both win if and only if the one that registered second
      has the smaller hash, the first has that notice unread, and neither has read of a smaller third. */
  lemma BothWinIff(s: State, acts: seq<Action>, u: UtxoId, i: nat, j: nat)
    requires Initial(s) && IsRun(s, acts) && u in After(s, acts).pools && i < j < |After(s, acts).pools[u]|
    ensures var e := After(s, acts); var a := e.pools[u][i].hash; var b := e.pools[u][j].hash;
            && a in e.tasks && b in e.tasks
            && (Decided(e.tasks[a].phase) && Decided(e.tasks[b].phase) ==>
                 (Won(e.tasks[a].phase) && Won(e.tasks[b].phase) <==>
                   Less(b, a) && Unread(e, a, b) && LeastBut(e, a, b) && LeastBut(e, b, a)))
  {
    RunKeeps(s, acts);
    RunExplained(s, acts);
    var e := After(s, acts);
    AwareInPool(e, u, i, j);
    var a, b := e.pools[u][i].hash, e.pools[u][j].hash;
    if Decided(e.tasks[a].phase) && Decided(e.tasks[b].phase) { BothWinIn(e, a, b); }
  }

  lemma BothWinIn(s: State, a: Hash, b: Hash)
    requires Inv(s) && AllExplained(s) && a in s.tasks && b in s.tasks && Aware(s.tasks[a], a, s.tasks[b], b)
    requires Decided(s.tasks[a].phase) && Decided(s.tasks[b].phase)
    ensures Won(s.tasks[a].phase) && Won(s.tasks[b].phase) <==>
            Less(b, a) && Unread(s, a, b) && LeastBut(s, a, b) && LeastBut(s, b, a)
  {
    WonIffIn(s, a);
    WonIffIn(s, b);
    if Won(s.tasks[a].phase) && Won(s.tasks[b].phase) { WonNotAware(s, a, b); }
  }
}
