/** Who is told to abort, by whom, and why a check rejects. */
module ContentionAborts {
  import opened Hashes
  import opened Contention
  import opened ContentionInvariant
  import opened ContentionTables
  import opened Resolver

  ghost predicate Waiting(channel: seq<Conflict>, h: Hash) {
    exists i :: 0 <= i < |channel| && channel[i].abort && channel[i].hash == h
  }

  /** The abort of `h` waits in the channel, or was read and obeyed. */
  ghost predicate AbortedBy(t: Task, h: Hash) {
    Waiting(t.channel, h) || t.phase == Rejected(Aborted(h))
  }

  ghost predicate Told(s: State, h: Hash, x: Hash) {
    x in s.tasks && AbortedBy(s.tasks[x], h)
  }

  /** How many of its conflicts a task has told. */
  function ToldCount(t: Task): nat {
    if t.phase.Announcing? then t.phase.next else if Won(t.phase) then |t.conflicts| else 0
  }

  ghost predicate TellsAll(s: State, h: Hash)
    requires h in s.tasks
  {
    forall i :: 0 <= i < ToldCount(s.tasks[h]) && i < |s.tasks[h].conflicts| ==>
      Told(s, h, s.tasks[h].conflicts[i].hash)
  }

  ghost predicate WonIn(s: State, h: Hash) {
    h in s.tasks && Won(s.tasks[h].phase)
  }

  /** A winner tells its conflicts one after the other, and nobody else tells anybody. */
  ghost predicate AbortLaw(s: State) {
    && (forall h :: h in s.tasks ==> TellsAll(s, h))
    && (forall h, x :: Told(s, h, x) ==> WonIn(s, h))
  }

  // ---- One task ----

  /** What a step may do to a task: aborts stay known, a winner stays one, and no new conflict is left untold. */
  ghost predicate Goes(t: Task, t': Task) {
    && (forall h :: AbortedBy(t, h) ==> AbortedBy(t', h))
    && (Won(t.phase) ==> Won(t'.phase))
    && (ToldCount(t') > 0 ==> t'.conflicts == t.conflicts && ToldCount(t') <= ToldCount(t))
  }

  ghost predicate NoNewAborts(t: Task, t': Task) {
    forall h :: AbortedBy(t', h) ==> AbortedBy(t, h)
  }

  lemma WaitingAppend(channel: seq<Conflict>, c: Conflict, h: Hash)
    ensures Waiting(channel + [c], h) <==> Waiting(channel, h) || (c.abort && c.hash == h)
  {
    if Waiting(channel, h) {
      var i :| 0 <= i < |channel| && channel[i].abort && channel[i].hash == h;
      assert (channel + [c])[i] == channel[i];
    }
    assert (channel + [c])[|channel|] == c;
  }

  lemma DeliverGoes(t: Task, c: Conflict)
    ensures Goes(t, Deliver(t, c))
    ensures forall h :: AbortedBy(Deliver(t, c), h) <==> AbortedBy(t, h) || (c.abort && c.hash == h)
  {
    forall h ensures Waiting(t.channel + [c], h) <==> Waiting(t.channel, h) || (c.abort && c.hash == h) {
      WaitingAppend(t.channel, c, h);
    }
  }

  lemma WaitingTail(channel: seq<Conflict>, h: Hash)
    requires channel != []
    ensures Waiting(channel, h) <==> Waiting(channel[1..], h) || (channel[0].abort && channel[0].hash == h)
  {
    if Waiting(channel, h) {
      var i :| 0 <= i < |channel| && channel[i].abort && channel[i].hash == h;
      if i > 0 { assert channel[1..][i - 1] == channel[i]; }
    }
    if Waiting(channel[1..], h) {
      var i :| 0 <= i < |channel[1..]| && channel[1..][i].abort && channel[1..][i].hash == h;
      assert channel[i + 1] == channel[1..][i];
    }
  }

  lemma ReceiveGoes(t: Task)
    requires t.phase.Listening? && t.channel != []
    ensures Goes(t, AfterReceive(t)) && NoNewAborts(t, AfterReceive(t))
  {
    forall h ensures AbortedBy(t, h) <==> AbortedBy(AfterReceive(t), h) { WaitingTail(t.channel, h); }
  }

  /** A step that only moves a task on from a phase it has not been rejected in. */
  lemma MoveGoes(t: Task, p: Phase)
    requires !t.phase.Rejected? && (p.Rejected? ==> !p.why.Aborted?) && (Won(t.phase) ==> Won(p))
    requires ToldCount(t.(phase := p)) <= ToldCount(t)
    ensures Goes(t, t.(phase := p)) && NoNewAborts(t, t.(phase := p))
  {}

  // ---- All tasks ----

  lemma GoesTells(s: State, s': State, h: Hash)
    requires h in s.tasks && TellsAll(s, h) && s.tasks.Keys <= s'.tasks.Keys
    requires forall x :: x in s.tasks ==> Goes(s.tasks[x], s'.tasks[x])
    ensures TellsAll(s', h)
  {
    var t, t' := s.tasks[h], s'.tasks[h];
    forall i | 0 <= i < ToldCount(t') && i < |t'.conflicts| ensures Told(s', h, t'.conflicts[i].hash) {
      assert Told(s, h, t.conflicts[i].hash);
    }
  }

  lemma SetKeepsLaw(s: State, h: Hash, t: Task)
    requires AbortLaw(s) && h in s.tasks && Goes(s.tasks[h], t) && NoNewAborts(s.tasks[h], t)
    ensures AbortLaw(Set(s, h, t))
  {
    var s' := Set(s, h, t);
    forall x | x in s'.tasks ensures TellsAll(s', x) { GoesTells(s, s', x); }
    forall y, x | Told(s', y, x) ensures WonIn(s', y) { assert Told(s, y, x); }
  }

  lemma SubmitKeepsLaw(s: State, h: Hash, t: Task)
    requires AbortLaw(s) && h !in s.tasks && t.channel == [] && t.phase.Validating?
    ensures AbortLaw(Set(s, h, t))
  {
    var s' := Set(s, h, t);
    forall x | x in s'.tasks ensures TellsAll(s', x) {
      if x != h { GoesTells(s, s', x); }
    }
    forall y, x | Told(s', y, x) ensures WonIn(s', y) { assert Told(s, y, x); }
  }

  lemma RegisterKeepsLaw(s: State, h: Hash)
    requires AbortLaw(s) && Enabled(s, Register(h))
    ensures AbortLaw(Registered(s, h))
  {
    var s' := Registered(s, h);
    var notice := Notice(s.tasks[h], false);
    forall x | x in s.tasks ensures Goes(s.tasks[x], s'.tasks[x]) && NoNewAborts(s.tasks[x], s'.tasks[x]) {
      DeliverGoes(s.tasks[x], notice);
    }
    forall x | x in s'.tasks ensures TellsAll(s', x) { GoesTells(s, s', x); }
    forall y, x | Told(s', y, x) ensures WonIn(s', y) { assert Told(s, y, x); }
  }

  /** The next conflict is told, and only it. */
  lemma AnnounceTells(s: State, h: Hash)
    requires Inv(s) && AbortLaw(s) && Enabled(s, Announce(h))
    ensures var x := s.tasks[h].conflicts[s.tasks[h].phase.next].hash;
            var s' := Announced(s, h);
            && x != h && s'.tasks[x] == Deliver(s.tasks[x], Notice(s.tasks[h], true)) && s.tasks[h].tx.hash == h
            && Won(s'.tasks[h].phase) && s'.tasks[h].channel == s.tasks[h].channel
            && s'.tasks[h].conflicts == s.tasks[h].conflicts
            && ToldCount(s'.tasks[h]) <= s.tasks[h].phase.next + 1
            && forall y :: y in s.tasks && y != h && y != x ==> s'.tasks[y] == s.tasks[y]
  {
    var t := s.tasks[h];
    assert TaskOk(s.pools, h, t);
    assert Rivals(s.pools, h, t.conflicts[t.phase.next].hash);
  }

  lemma AnnounceGoes(s: State, h: Hash, y: Hash)
    requires Inv(s) && AbortLaw(s) && Enabled(s, Announce(h)) && y in s.tasks
    ensures var x := s.tasks[h].conflicts[s.tasks[h].phase.next].hash; var s' := Announced(s, h);
            && (forall z :: AbortedBy(s'.tasks[y], z) <==> AbortedBy(s.tasks[y], z) || (y == x && z == h))
            && (Won(s.tasks[y].phase) ==> Won(s'.tasks[y].phase))
            && (y != h ==> Goes(s.tasks[y], s'.tasks[y]))
  {
    AnnounceTells(s, h);
    DeliverGoes(s.tasks[s.tasks[h].conflicts[s.tasks[h].phase.next].hash], Notice(s.tasks[h], true));
  }

  lemma OwnTells(s: State, h: Hash)
    requires Inv(s) && AbortLaw(s) && Enabled(s, Announce(h))
    ensures TellsAll(Announced(s, h), h)
  {
    AnnounceTells(s, h);
    var t, s' := s.tasks[h], Announced(s, h);
    forall i | 0 <= i < ToldCount(s'.tasks[h]) && i < |t.conflicts| ensures Told(s', h, t.conflicts[i].hash) {
      OneTold(s, h, i);
    }
  }

  lemma OneTold(s: State, h: Hash, i: nat)
    requires Inv(s) && AbortLaw(s) && Enabled(s, Announce(h))
    requires i <= s.tasks[h].phase.next
    ensures Told(Announced(s, h), h, s.tasks[h].conflicts[i].hash)
  {
    if i < s.tasks[h].phase.next {
      assert TellsAll(s, h);
      assert Told(s, h, s.tasks[h].conflicts[i].hash);
    }
    AnnounceGoes(s, h, s.tasks[h].conflicts[i].hash);
  }

  lemma OthersTell(s: State, h: Hash, y: Hash)
    requires Inv(s) && AbortLaw(s) && Enabled(s, Announce(h)) && y in s.tasks && y != h
    ensures TellsAll(Announced(s, h), y)
  {
    var t, s' := s.tasks[y], Announced(s, h);
    AnnounceGoes(s, h, y);
    assert TellsAll(s, y);
    forall i | 0 <= i < ToldCount(s'.tasks[y]) && i < |s'.tasks[y].conflicts|
      ensures Told(s', y, s'.tasks[y].conflicts[i].hash)
    {
      assert Told(s, y, t.conflicts[i].hash);
      AnnounceGoes(s, h, t.conflicts[i].hash);
    }
  }

  lemma AnnounceKeepsLaw(s: State, h: Hash)
    requires Inv(s) && AbortLaw(s) && Enabled(s, Announce(h))
    ensures AbortLaw(Announced(s, h))
  {
    var s' := Announced(s, h);
    forall y | y in s'.tasks ensures TellsAll(s', y) {
      if y == h { OwnTells(s, h); } else { OthersTell(s, h, y); }
    }
    forall z, y | Told(s', z, y) ensures WonIn(s', z) {
      AnnounceGoes(s, h, y);
      if z != h {
        assert Told(s, z, y);
        AnnounceGoes(s, h, z);
      }
      AnnounceTells(s, h);
    }
  }

  lemma MoveKeepsLaw(s: State, s': State, h: Hash, p: Phase)
    requires AbortLaw(s) && h in s.tasks && s'.tasks == s.tasks[h := s.tasks[h].(phase := p)]
    requires !s.tasks[h].phase.Rejected? && (p.Rejected? ==> !p.why.Aborted?) && (Won(s.tasks[h].phase) ==> Won(p))
    requires ToldCount(s.tasks[h].(phase := p)) <= ToldCount(s.tasks[h])
    ensures AbortLaw(s')
  {
    MoveGoes(s.tasks[h], p);
    SetKeepsLaw(s, h, s.tasks[h].(phase := p));
    var set' := Set(s, h, s.tasks[h].(phase := p));
    forall x | x in s'.tasks ensures TellsAll(s', x) {
      assert TellsAll(set', x);
      forall i | 0 <= i < ToldCount(s'.tasks[x]) && i < |s'.tasks[x].conflicts|
        ensures Told(s', x, s'.tasks[x].conflicts[i].hash)
      {
        assert Told(set', x, s'.tasks[x].conflicts[i].hash);
      }
    }
    forall y, x | Told(s', y, x) ensures WonIn(s', y) { assert Told(set', y, x); }
  }

  lemma ValidationKeepsLaw(s: State, a: Action)
    requires AbortLaw(s) && (a.Check? || a.Conclude?) && Enabled(s, a)
    ensures AbortLaw(Next(s, a))
  {
    MoveKeepsLaw(s, Next(s, a), a.h, Next(s, a).tasks[a.h].phase);
  }

  lemma ResolveKeepsLaw(s: State, h: Hash)
    requires AbortLaw(s) && Enabled(s, Resolve(h))
    ensures AbortLaw(Next(s, Resolve(h)))
  {
    MoveKeepsLaw(s, Next(s, Resolve(h)), h, AfterResolve(s.tasks[h]));
  }

  lemma CommitKeepsLaw(s: State, a: Action)
    requires AbortLaw(s) && (a.Insert? || a.Delete?) && Enabled(s, a)
    ensures AbortLaw(Next(s, a))
  {
    MoveKeepsLaw(s, Next(s, a), a.h, Next(s, a).tasks[a.h].phase);
  }

  lemma ReceiveKeepsLaw(s: State, h: Hash)
    requires AbortLaw(s) && Enabled(s, Receive(h))
    ensures AbortLaw(Next(s, Receive(h)))
  {
    ReceiveGoes(s.tasks[h]);
    SetKeepsLaw(s, h, AfterReceive(s.tasks[h]));
  }

  lemma NextAborts(s: State, a: Action)
    requires Inv(s) && AbortLaw(s) && Enabled(s, a)
    ensures AbortLaw(Next(s, a))
  {
    match a
    case Submit(tx, start) => SubmitKeepsLaw(s, tx.hash, Task(tx, start, Validating({}), [], []));
    case Check(h, k) => ValidationKeepsLaw(s, a);
    case Conclude(h) => ValidationKeepsLaw(s, a);
    case Register(h) => RegisterKeepsLaw(s, h);
    case Receive(h) => ReceiveKeepsLaw(s, h);
    case Resolve(h) => ResolveKeepsLaw(s, h);
    case Announce(h) => AnnounceKeepsLaw(s, h);
    case Insert(h) => CommitKeepsLaw(s, a);
    case Delete(h) => CommitKeepsLaw(s, a);
  }

  lemma {:induction false} RunAborts(s: State, acts: seq<Action>)
    requires Initial(s) && IsRun(s, acts)
    ensures AbortLaw(After(s, acts))
  {
    if acts != [] {
      var front := acts[..|acts| - 1];
      RunAborts(s, front);
      RunKeeps(s, front);
      NextAborts(After(s, front), acts[|acts| - 1]);
    }
  }

  /** In every reachable state: whoever has an abort got it from a winner, and a winner that has come to its
      insertion has told every conflict it read, which has the abort waiting or was rejected by it. */
  lemma WinnersTell(s: State, acts: seq<Action>, h: Hash, x: Hash)
    requires Initial(s) && IsRun(s, acts)
    ensures var e := After(s, acts);
            && (x in e.tasks && AbortedBy(e.tasks[x], h) ==> h in e.tasks && Won(e.tasks[h].phase))
            && (h in e.tasks && Won(e.tasks[h].phase) && !e.tasks[h].phase.Announcing?
                && Has(e.tasks[h].conflicts, x) ==>
                  x in e.tasks && AbortedBy(e.tasks[x], h))
  {
    RunAborts(s, acts);
    var e := After(s, acts);
    assert Told(e, h, x) ==> WonIn(e, h);
    if h in e.tasks && Won(e.tasks[h].phase) && !e.tasks[h].phase.Announcing? && Has(e.tasks[h].conflicts, x) {
      var i :| 0 <= i < |e.tasks[h].conflicts| && e.tasks[h].conflicts[i].hash == x;
      assert TellsAll(e, h);
      assert Told(e, h, e.tasks[h].conflicts[i].hash);
    }
  }

  /** In every reachable state a check passes exactly the inputs that name a row of their owner and are signed,
      and rejects any other with the error that fits it. */
  lemma ChecksExactly(s: State, acts: seq<Action>, h: Hash, k: nat)
    requires Initial(s) && IsRun(s, acts) && Enabled(After(s, acts), Check(h, k))
    ensures var e := After(s, acts);
            match AfterCheck(e.tables, e.tasks[h], k)
            case Rejected(Invalid(error)) => FailsWith(e.tables, e.tasks[h].tx.inputs[k], error)
            case _ => Spendable(e.tables, e.tasks[h].tx.inputs[k])
  {
    RunTables(s, acts);
    OneResolution(After(s, acts).tables, After(s, acts).tasks[h].tx.inputs[k]);
  }
  /** Balance is settled by the first validation: the second can fail only on a row that has gone. */
  lemma SecondBalances(s: State, acts: seq<Action>, h: Hash)
    requires Initial(s) && IsRun(s, acts) && Enabled(After(s, acts), Conclude(h))
    requires After(s, acts).tasks[h].phase.Revalidating?
    ensures AfterConclude(After(s, acts).tables, After(s, acts).tasks[h]).Listening?
  {
    RunTables(s, acts);
    assert TaskInTables(After(s, acts).tables, h, After(s, acts).tasks[h]);
  }
}
