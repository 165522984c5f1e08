/** The double-spend protocol: every transaction task registers on the pools of the outputs it consumes,
    revalidates, listens for conflicts, lets the least hash win, and commits. One action is one step of one
    task; any interleaving of actions is a run. */
module Contention {
  import opened Hashes
  import opened Ledger

  datatype Conflict = Conflict(hash: Hash, abort: bool, start: int)

  datatype Verdict = Invalid(why: Rejection) | Lost(winner: Hash) | Aborted(winner: Hash)

  datatype Phase =
    | Validating(checked: set<nat>)    // first resolution of the inputs, in any order
    | Registering(next: nat)           // pushing onto the pool of consumed output `next`
    | Revalidating(checked: set<nat>)  // second resolution
    | Listening                        // the receive window
    | Announcing(next: nat)            // won; telling the conflicting tasks to abort
    | Inserting
    | Deleting(next: nat)              // stored; deleting the consumed rows
    | Accepted
    | Failed                           // the insertion failed half way; nothing is deleted
    | Rejected(why: Verdict)

  datatype Task = Task(tx: Tx, start: int, phase: Phase, conflicts: seq<Conflict>, channel: seq<Conflict>)

  /** `history` lists the stored transactions in the order of their insertion. */
  datatype State = State(tables: Tables, pools: map<UtxoId, seq<Conflict>>, tasks: map<Hash, Task>, history: seq<Tx>)

  datatype Action =
    | Submit(tx: Tx, start: int)
    | Check(h: Hash, k: nat)
    | Conclude(h: Hash)
    | Register(h: Hash)
    | Receive(h: Hash)
    | Resolve(h: Hash)
    | Announce(h: Hash)
    | Insert(h: Hash)
    | Delete(h: Hash)

  /** The least hash of a list: what sorting by hash and taking the first gives. */
  function Least(list: seq<Conflict>): Hash
    requires list != []
  {
    if |list| == 1 then list[0].hash
    else
      var rest := Least(list[1..]);
      if Less(list[0].hash, rest) then list[0].hash else rest
  }

  function Ids(t: Task): seq<UtxoId> {
    FixedIds(t.tx)
  }

  predicate Has(list: seq<Conflict>, h: Hash) {
    exists i :: 0 <= i < |list| && list[i].hash == h
  }

  function ToRegister(t: Task, n: nat): Phase {
    if n < |Ids(t)| then Registering(n) else Revalidating({})
  }

  function Notice(t: Task, abort: bool): Conflict {
    Conflict(t.tx.hash, abort, t.start)
  }

  function Set(s: State, h: Hash, t: Task): State {
    s.(tasks := s.tasks[h := t])
  }

  function Deliver(t: Task, c: Conflict): Task {
    t.(channel := t.channel + [c])
  }

  /** Every task in the pool is sent the notice. */
  function Broadcast(tasks: map<Hash, Task>, pool: seq<Conflict>, c: Conflict): map<Hash, Task> {
    map h | h in tasks :: if Has(pool, h) then Deliver(tasks[h], c) else tasks[h]
  }

  function Pool(s: State, u: UtxoId): seq<Conflict> {
    if u in s.pools then s.pools[u] else []
  }

  // ---- Steps ----

  ghost predicate AllChecked(t: Task, checked: set<nat>) {
    forall k :: 0 <= k < |t.tx.inputs| && !t.tx.inputs[k].floating ==> k in checked
  }

  ghost predicate Enabled(s: State, a: Action) {
    match a
    case Submit(tx, _) =>
      tx.hash !in s.tasks && tx.hash !in s.tables.txs && Prevalidated(tx) && SingleReference(tx)
    case Check(h, k) =>
      && h in s.tasks
      && var t := s.tasks[h];
      && (t.phase.Validating? || t.phase.Revalidating?) && k !in t.phase.checked
      && k < |t.tx.inputs| && !t.tx.inputs[k].floating
    case Conclude(h) =>
      && h in s.tasks
      && var t := s.tasks[h];
      && (t.phase.Validating? || t.phase.Revalidating?) && AllChecked(t, t.phase.checked)
    case Register(h) => h in s.tasks && s.tasks[h].phase.Registering? && s.tasks[h].phase.next < |Ids(s.tasks[h])|
    case Receive(h) => h in s.tasks && s.tasks[h].phase.Listening? && s.tasks[h].channel != []
    case Resolve(h) => h in s.tasks && s.tasks[h].phase.Listening?
    case Announce(h) =>
      && h in s.tasks && s.tasks[h].phase.Announcing? && s.tasks[h].phase.next < |s.tasks[h].conflicts|
      && s.tasks[h].conflicts[s.tasks[h].phase.next].hash in s.tasks
    case Insert(h) => h in s.tasks && s.tasks[h].phase.Inserting? && Fits(s.tables, s.tasks[h].tx)
    case Delete(h) => h in s.tasks && s.tasks[h].phase.Deleting? && s.tasks[h].phase.next < |Ids(s.tasks[h])|
  }

  function AfterCheck(tables: Tables, t: Task, k: nat): Phase
    requires (t.phase.Validating? || t.phase.Revalidating?) && k < |t.tx.inputs|
  {
    match ResolveInput(tables, t.tx.inputs[k])
    case Err(e) => Rejected(Invalid(e))
    case Ok(_) =>
      if t.phase.Validating? then Validating(t.phase.checked + {k}) else Revalidating(t.phase.checked + {k})
  }

  ghost function AfterConclude(tables: Tables, t: Task): Phase {
    if !Balanced(tables.txs, t.tx) then Rejected(Invalid(BalanceMismatch))
    else if t.phase.Validating? then ToRegister(t, 0) else Listening
  }

  function AfterReceive(t: Task): Task
    requires t.channel != []
  {
    var c := t.channel[0];
    if c.abort then t.(channel := t.channel[1..], phase := Rejected(Aborted(c.hash)))
    else t.(channel := t.channel[1..], conflicts := t.conflicts + [c])
  }

  function AfterResolve(t: Task): Phase {
    if t.conflicts == [] then Inserting
    else
      var winner := Least(t.conflicts + [Notice(t, true)]);
      if winner != t.tx.hash then Rejected(Lost(winner)) else Announcing(0)
  }

  /** Registration on one pool: the tasks already there become conflicts and are told. */
  function Registered(s: State, h: Hash): State
    requires h in s.tasks && s.tasks[h].phase.Registering? && s.tasks[h].phase.next < |Ids(s.tasks[h])|
  {
    var t := s.tasks[h];
    var u := Ids(t)[t.phase.next];
    var pool := Pool(s, u);
    var told := Broadcast(s.tasks, pool, Notice(t, false));
    var t' := t.(conflicts := t.conflicts + pool, phase := ToRegister(t, t.phase.next + 1));
    s.(pools := s.pools[u := pool + [Notice(t, false)]], tasks := told[h := t'])
  }

  function Announced(s: State, h: Hash): State
    requires h in s.tasks && s.tasks[h].phase.Announcing? && s.tasks[h].phase.next < |s.tasks[h].conflicts|
    requires s.tasks[h].conflicts[s.tasks[h].phase.next].hash in s.tasks
  {
    var t := s.tasks[h];
    var n := t.phase.next;
    var told := Set(s, t.conflicts[n].hash, Deliver(s.tasks[t.conflicts[n].hash], Notice(t, true)));
    Set(told, h, told.tasks[h].(phase := if n + 1 < |t.conflicts| then Announcing(n + 1) else Inserting))
  }

  function ToDelete(t: Task, n: nat): Phase {
    if n < |Ids(t)| then Deleting(n) else Accepted
  }

  function AfterInsert(t: Task): Phase {
    if Complete(t.tx) then ToDelete(t, 0) else Failed
  }

  ghost function InsertedBy(s: State, h: Hash): State
    requires h in s.tasks
  {
    var t := s.tasks[h];
    Set(s.(tables := Inserted(s.tables, t.tx), history := s.history + [t.tx]), h, t.(phase := AfterInsert(t)))
  }

  ghost function DeletedBy(s: State, h: Hash): State
    requires h in s.tasks && s.tasks[h].phase.Deleting? && s.tasks[h].phase.next < |Ids(s.tasks[h])|
  {
    var t := s.tasks[h];
    Set(s.(tables := Deleted(s.tables, [Ids(t)[t.phase.next]])), h, t.(phase := ToDelete(t, t.phase.next + 1)))
  }

  ghost function Next(s: State, a: Action): State
    requires Enabled(s, a)
  {
    match a
    case Submit(tx, start) => Set(s, tx.hash, Task(tx, start, Validating({}), [], []))
    case Check(h, k) => Set(s, h, s.tasks[h].(phase := AfterCheck(s.tables, s.tasks[h], k)))
    case Conclude(h) => Set(s, h, s.tasks[h].(phase := AfterConclude(s.tables, s.tasks[h])))
    case Register(h) => Registered(s, h)
    case Receive(h) => Set(s, h, AfterReceive(s.tasks[h]))
    case Resolve(h) => Set(s, h, s.tasks[h].(phase := AfterResolve(s.tasks[h])))
    case Announce(h) => Announced(s, h)
    case Insert(h) => InsertedBy(s, h)
    case Delete(h) => DeletedBy(s, h)
  }

  // ---- Runs ----

  ghost predicate Initial(s: State) {
    && |s.history| == 1 && IsGenesis(s.history[0])
    && s.tables == Tables(map[s.history[0].hash := s.history[0]], Rows(s.history[0]), map[])
    && s.pools == map[] && s.tasks == map[]
  }

  ghost predicate IsRun(s: State, acts: seq<Action>)
    decreases |acts|, 0
  {
    acts != [] ==> IsRun(s, acts[..|acts| - 1]) && Enabled(After(s, acts[..|acts| - 1]), acts[|acts| - 1])
  }

  ghost function After(s: State, acts: seq<Action>): State
    requires IsRun(s, acts)
    decreases |acts|, 1
  {
    if acts == [] then s else Next(After(s, acts[..|acts| - 1]), acts[|acts| - 1])
  }

  // ---- What every interleaving keeps ----

  ghost predicate InPool(pools: map<UtxoId, seq<Conflict>>, u: UtxoId, h: Hash) {
    u in pools && Has(pools[u], h)
  }

  /** Both registered on a common output. */
  ghost predicate Rivals(pools: map<UtxoId, seq<Conflict>>, a: Hash, b: Hash) {
    a != b && exists u :: InPool(pools, u, a) && InPool(pools, u, b)
  }

  ghost predicate Notified(channel: seq<Conflict>, h: Hash) {
    exists i :: 0 <= i < |channel| && channel[i].hash == h && !channel[i].abort
  }

  /** Past its resolution and not rejected. */
  predicate Won(p: Phase) {
    p.Announcing? || p.Inserting? || p.Deleting? || p.Accepted? || p.Failed?
  }

  /** Registered on exactly the first `n` consumed outputs. */
  ghost predicate RegisteredUpTo(pools: map<UtxoId, seq<Conflict>>, tx: Tx, h: Hash, n: nat) {
    forall k :: 0 <= k < |FixedIds(tx)| ==> (InPool(pools, FixedIds(tx)[k], h) <==> k < n)
  }

  ghost predicate Registration(pools: map<UtxoId, seq<Conflict>>, h: Hash, t: Task) {
    match t.phase
    case Validating(_) => t.conflicts == [] && forall u :: !InPool(pools, u, h)
    case Registering(n) => n < |Ids(t)| && RegisteredUpTo(pools, t.tx, h, n)
    case Rejected(_) => true
    case _ => RegisteredUpTo(pools, t.tx, h, |Ids(t)|)
  }

  ghost predicate Messages(pools: map<UtxoId, seq<Conflict>>, h: Hash, t: Task) {
    && (forall i :: 0 <= i < |t.conflicts| ==> !t.conflicts[i].abort && Rivals(pools, h, t.conflicts[i].hash))
    && (forall i :: 0 <= i < |t.channel| ==>
         Rivals(pools, h, t.channel[i].hash) && (t.channel[i].abort ==> Less(t.channel[i].hash, h)))
  }

  ghost predicate Judged(pools: map<UtxoId, seq<Conflict>>, h: Hash, t: Task) {
    && (Won(t.phase) ==> forall i :: 0 <= i < |t.conflicts| ==> Less(h, t.conflicts[i].hash))
    && (t.phase.Rejected? && !t.phase.why.Invalid? ==>
         Rivals(pools, h, t.phase.why.winner) && Less(t.phase.why.winner, h))
  }

  ghost predicate TaskOk(pools: map<UtxoId, seq<Conflict>>, h: Hash, t: Task) {
    && t.tx.hash == h && Prevalidated(t.tx) && SingleReference(t.tx)
    && Registration(pools, h, t) && Messages(pools, h, t) && Judged(pools, h, t)
  }

  /** In a pool the later task has the earlier one among its conflicts, and the earlier one has the later
      one among its conflicts or waiting in its channel. */
  ghost predicate Aware(earlier: Task, a: Hash, later: Task, b: Hash) {
    && a != b && Has(later.conflicts, a)
    && (Has(earlier.conflicts, b) || Notified(earlier.channel, b))
  }

  ghost predicate Member(s: State, u: UtxoId, c: Conflict) {
    !c.abort && c.hash in s.tasks && u in Ids(s.tasks[c.hash])
  }

  ghost predicate PoolOk(s: State, u: UtxoId, pool: seq<Conflict>) {
    && (forall i :: 0 <= i < |pool| ==> Member(s, u, pool[i]))
    && (forall i, j :: 0 <= i < j < |pool| ==>
         Aware(s.tasks[pool[i].hash], pool[i].hash, s.tasks[pool[j].hash], pool[j].hash))
  }

  ghost predicate Inv(s: State) {
    && (forall h :: h in s.tasks ==> TaskOk(s.pools, h, s.tasks[h]))
    && (forall u :: u in s.pools ==> PoolOk(s, u, s.pools[u]))
  }
}
