/**
 The per-key lock with its cleaner (pkg/keylock/keylock.go) as a protocol: any number of sessions run
 Lock(k) .. Unlock(k) or Clean(), one atomic action at a time. The global RWMutex guards the map of
 inner locks; `count` is the atomic reference count; the inner mutex is the lock the caller wants.
 */
module KeyLock {
  import opened Options

  type Key(==, !new)
  type Id = nat        // an inner lock object
  type Session = nat   // one Lock..Unlock pair, or one Clean, of some goroutine

  /** Where a session is. A state whose name ends in a wait has not got the mutex it names yet. */
  datatype PC =
    | Idle
    // Lock(k)
    | LockRWait(k: Key)
    | LockLookup(k: Key)
    | LockRAdd(k: Key, id: Id)
    | LockRDone(k: Key, found: Option<Id>)
    | LockWWait(k: Key)
    | LockWLookup(k: Key)
    | LockWAdd(k: Key, id: Id)
    | LockWDone(k: Key, id: Id)
    | Acquiring(k: Key, id: Id)
    | Holding(k: Key, id: Id)
    // Unlock(k); `own` is the lock this session acquired, which the code looks up again
    | UnlockRWait(k: Key, own: Id)
    | UnlockLookup(k: Key, own: Id)
    | UnlockSub(k: Key, own: Id, lock: Id)
    | UnlockRDone(k: Key, own: Id, found: Option<Id>)
    | Releasing(k: Key, own: Id, lock: Id)
    // Clean()
    | CleanWait
    | Cleaning(todo: set<Key>)
    | CleanDone

  datatype State = State(
    pcs: map<Session, PC>,
    readers: set<Session>,
    writer: Option<Session>,
    locks: map<Key, Id>,
    count: map<Id, int>,
    owner: map<Id, Option<Session>>,
    nextId: Id)

  function Start(sessions: set<Session>): State {
    State(map t <- sessions :: Idle, {}, None, map[], map[], map[], 0)
  }

  /** What a session does next: the three `Call` moves are the client's, `Scan` chooses Clean's next key. */
  datatype Move = Step | CallLock(k: Key) | CallUnlock | CallClean | Scan(k: Key)

  predicate Enabled(s: State, t: Session, m: Move) {
    t in s.pcs &&
    match m
    case CallLock(_) => s.pcs[t].Idle?
    case CallUnlock => s.pcs[t].Holding?
    case CallClean => s.pcs[t].Idle?
    case Scan(k) => s.pcs[t].Cleaning? && k in s.pcs[t].todo
    case Step =>
      match s.pcs[t]
      case Idle => false
      case Holding(_, _) => false
      case LockRWait(_) => s.writer.None?
      case UnlockRWait(_, _) => s.writer.None?
      case LockWWait(_) => s.writer.None? && s.readers == {}
      case CleanWait => s.writer.None? && s.readers == {}
      case Acquiring(_, id) => id in s.owner && s.owner[id].None?
      case Cleaning(todo) => todo == {}
      case _ => true
  }

  // One atomic action, part by part: where the session goes, and what it does to the global
  // RWMutex, to the map and to the inner locks.

  /** The control flow of Lock, Unlock and Clean. */
  function Goto(s: State, pc: PC, m: Move): PC {
    match m
    case CallLock(k) => LockRWait(k)
    case CallUnlock => if pc.Holding? then UnlockRWait(pc.k, pc.id) else pc
    case CallClean => CleanWait
    case Scan(k) => if pc.Cleaning? then Cleaning(pc.todo - {k}) else pc
    case Step =>
      match pc
      case LockRWait(k) => LockLookup(k)
      case LockLookup(k) => if k in s.locks then LockRAdd(k, s.locks[k]) else LockRDone(k, None)
      case LockRAdd(k, id) => LockRDone(k, Some(id))
      case LockRDone(k, found) => if found.Some? then Acquiring(k, found.value) else LockWWait(k)
      case LockWWait(k) => LockWLookup(k)
      case LockWLookup(k) => LockWAdd(k, if k in s.locks then s.locks[k] else s.nextId)
      case LockWAdd(k, id) => LockWDone(k, id)
      case LockWDone(k, id) => Acquiring(k, id)
      case Acquiring(k, id) => Holding(k, id)
      case UnlockRWait(k, own) => UnlockLookup(k, own)
      case UnlockLookup(k, own) => if k in s.locks then UnlockSub(k, own, s.locks[k]) else UnlockRDone(k, own, None)
      case UnlockSub(k, own, lock) => UnlockRDone(k, own, Some(lock))
      case UnlockRDone(k, own, found) => if found.Some? then Releasing(k, own, found.value) else Idle
      case Releasing(_, _, _) => Idle
      case CleanWait => Cleaning(s.locks.Keys)
      case Cleaning(_) => CleanDone
      case CleanDone => Idle
      case Idle => Idle
      case Holding(_, _) => pc
  }

  function ReadersAfter(s: State, t: Session, pc: PC, m: Move): set<Session> {
    if !m.Step? then s.readers
    else if pc.LockRWait? || pc.UnlockRWait? then s.readers + {t}
    else if pc.LockRDone? || pc.UnlockRDone? then s.readers - {t}
    else s.readers
  }

  function WriterAfter(s: State, t: Session, pc: PC, m: Move): Option<Session> {
    if !m.Step? then s.writer
    else if pc.LockWWait? || pc.CleanWait? then Some(t)
    else if pc.LockWDone? || pc.CleanDone? then None
    else s.writer
  }

  /** The second lookup of Lock found nothing, so it makes a new inner lock. */
  predicate Creates(s: State, pc: PC, m: Move) {
    m.Step? && pc.LockWLookup? && pc.k !in s.locks
  }

  /** Clean visits key `k` and finds that nobody counts on its lock. */
  predicate Deletes(s: State, m: Move) {
    m.Scan? && m.k in s.locks && s.locks[m.k] in s.count && s.count[s.locks[m.k]] == 0
  }

  function LocksAfter(s: State, pc: PC, m: Move): map<Key, Id> {
    if Creates(s, pc, m) then s.locks[pc.k := s.nextId]
    else if Deletes(s, m) then s.locks - {m.k}
    else s.locks
  }

  function Add(count: map<Id, int>, id: Id, d: int): map<Id, int> {
    if id in count then count[id := count[id] + d] else count
  }

  function CountAfter(s: State, pc: PC, m: Move): map<Id, int> {
    if Creates(s, pc, m) then s.count[s.nextId := 0]
    else if !m.Step? then s.count
    else if pc.LockRAdd? || pc.LockWAdd? then Add(s.count, pc.id, 1)
    else if pc.UnlockSub? then Add(s.count, pc.lock, -1)
    else s.count
  }

  function OwnerAfter(s: State, t: Session, pc: PC, m: Move): map<Id, Option<Session>> {
    if Creates(s, pc, m) then s.owner[s.nextId := None]
    else if !m.Step? then s.owner
    else if pc.Acquiring? then s.owner[pc.id := Some(t)]
    else if pc.Releasing? then s.owner[pc.lock := None]
    else s.owner
  }

  function Next(s: State, t: Session, m: Move): State
    requires Enabled(s, t, m)
  {
    var pc := s.pcs[t];
    State(s.pcs[t := Goto(s, pc, m)], ReadersAfter(s, t, pc, m), WriterAfter(s, t, pc, m), LocksAfter(s, pc, m),
          CountAfter(s, pc, m), OwnerAfter(s, t, pc, m), if Creates(s, pc, m) then s.nextId + 1 else s.nextId)
  }

  // ---------------------------------------------------------------- the invariant

  /** The key and inner lock a session relies on finding in the map. */
  datatype Use = NoUse | Use(k: Key, id: Id)

  function Uses(pc: PC): Use {
    match pc
    case LockRAdd(k, id) => Use(k, id)
    case LockRDone(k, Some(id)) => Use(k, id)
    case LockWAdd(k, id) => Use(k, id)
    case LockWDone(k, id) => Use(k, id)
    case Acquiring(k, id) => Use(k, id)
    case Holding(k, id) => Use(k, id)
    case UnlockRWait(k, own) => Use(k, own)
    case UnlockLookup(k, own) => Use(k, own)
    case UnlockSub(k, own, _) => Use(k, own)
    case _ => NoUse
  }

  /** The session is between its add() and its done() on `id`. */
  predicate CountsOn(pc: PC, id: Id) {
    Uses(pc).Use? && Uses(pc).id == id && !pc.LockRAdd? && !pc.LockWAdd?
  }

  /** The inner mutex the session has locked and not unlocked yet. */
  function Owned(pc: PC): Option<Id> {
    match pc
    case Holding(_, id) => Some(id)
    case UnlockRWait(_, own) => Some(own)
    case UnlockLookup(_, own) => Some(own)
    case UnlockSub(_, own, _) => Some(own)
    case UnlockRDone(_, own, _) => Some(own)
    case Releasing(_, own, _) => Some(own)
    case _ => None
  }

  predicate Reads(pc: PC) {
    pc.LockLookup? || pc.LockRAdd? || pc.LockRDone? || pc.UnlockLookup? || pc.UnlockSub? || pc.UnlockRDone?
  }

  predicate Writes(pc: PC) {
    pc.LockWLookup? || pc.LockWAdd? || pc.LockWDone? || pc.Cleaning? || pc.CleanDone?
  }

  /** Unlock found the very lock the session acquired. */
  predicate FoundOwn(pc: PC) {
    match pc
    case UnlockSub(_, own, lock) => lock == own
    case UnlockRDone(_, own, found) => found == Some(own)
    case Releasing(_, own, lock) => lock == own
    case _ => true
  }

  function Counting(s: State, id: Id): set<Session> {
    set t <- s.pcs | CountsOn(s.pcs[t], id)
  }

  /** What a session's position promises about the map and the inner locks. */
  predicate Placed(s: State, t: Session, pc: PC) {
    && FoundOwn(pc)
    && (Uses(pc).Use? ==> Uses(pc).k in s.locks && s.locks[Uses(pc).k] == Uses(pc).id)
    && (Owned(pc).Some? ==> Owned(pc).value in s.owner && s.owner[Owned(pc).value] == Some(t))
  }

  predicate LocksInv(s: State) {
    && s.count.Keys == s.owner.Keys
    && (forall id <- s.count :: id < s.nextId)
    && (forall k <- s.locks :: s.locks[k] in s.count)
    && (forall j, k :: j in s.locks && k in s.locks && s.locks[j] == s.locks[k] ==> j == k)
  }

  predicate CountInv(s: State) {
    forall id <- s.count :: s.count[id] == |Counting(s, id)|
  }

  /** A locked inner mutex is held by a session that knows it. */
  predicate Owner(s: State, id: Id)
    requires id in s.owner
  {
    s.owner[id].Some? ==> s.owner[id].value in s.pcs && Owned(s.pcs[s.owner[id].value]) == Some(id)
  }

  predicate OwnerInv(s: State) {
    forall id <- s.owner :: Owner(s, id)
  }

  predicate MutexInv(s: State) {
    && (forall t <- s.pcs :: (t in s.readers) == Reads(s.pcs[t]) && (s.writer == Some(t)) == Writes(s.pcs[t]))
    && (forall t <- s.readers :: t in s.pcs && s.writer.None?)
    && (s.writer.Some? ==> s.writer.value in s.pcs)
  }

  predicate Inv(s: State) {
    && MutexInv(s) && LocksInv(s) && CountInv(s) && OwnerInv(s)
    && forall t <- s.pcs :: Placed(s, t, s.pcs[t])
  }

  // ---------------------------------------------------------------- every action keeps it

  lemma MutexKept(s: State, t: Session, m: Move)
    requires MutexInv(s) && Enabled(s, t, m)
    ensures MutexInv(Next(s, t, m))
  {
    var s' := Next(s, t, m);
    MoverMutex(s, t, m);
    forall u | u in s.pcs && u != t
      ensures (u in s'.readers) == Reads(s'.pcs[u]) && (s'.writer == Some(u)) == Writes(s'.pcs[u])
    {
      assert Enabled(s, t, m);
    }
  }

  lemma MoverMutex(s: State, t: Session, m: Move)
    requires MutexInv(s) && Enabled(s, t, m)
    ensures var pc := s.pcs[t]; var pc' := Goto(s, pc, m);
      && (t in ReadersAfter(s, t, pc, m)) == Reads(pc')
      && (WriterAfter(s, t, pc, m) == Some(t)) == Writes(pc')
  {
  }

  lemma LocksKept(s: State, t: Session, m: Move)
    requires Inv(s) && Enabled(s, t, m)
    ensures LocksInv(Next(s, t, m))
  {
  }

  function Weight(pc: PC, id: Id): int { if CountsOn(pc, id) then 1 else 0 }

  /** A session that moves changes the reference counts by what it itself counts on. */
  lemma CountsFollow(s: State, t: Session, m: Move, id: Id)
    requires LocksInv(s) && t in s.pcs && Placed(s, t, s.pcs[t]) && Enabled(s, t, m)
    ensures var s' := Next(s, t, m);
      id in s'.count ==>
        s'.count[id] == (if id in s.count then s.count[id] else 0) - Weight(s.pcs[t], id) + Weight(s'.pcs[t], id)
  {
    assert Placed(s, t, s.pcs[t]);
  }

  lemma CountingMoves(s: State, s': State, t: Session, id: Id)
    requires t in s.pcs && t in s'.pcs && s'.pcs == s.pcs[t := s'.pcs[t]]
    ensures |Counting(s', id)| == |Counting(s, id)| - Weight(s.pcs[t], id) + Weight(s'.pcs[t], id)
  {
    var rest := Counting(s, id) - {t};
    assert Counting(s, id) == if CountsOn(s.pcs[t], id) then rest + {t} else rest;
    assert Counting(s', id) == if CountsOn(s'.pcs[t], id) then rest + {t} else rest;
  }

  lemma CountsKept(s: State, t: Session, m: Move)
    requires Inv(s) && Enabled(s, t, m)
    ensures CountInv(Next(s, t, m))
  {
    var s' := Next(s, t, m);
    forall id | id in s'.count ensures s'.count[id] == |Counting(s', id)| {
      CountsFollow(s, t, m, id);
      CountingMoves(s, s', t, id);
      if id !in s.count {
        // nobody counts on a lock that did not exist
        forall u | u in s.pcs ensures !CountsOn(s.pcs[u], id) { assert Placed(s, u, s.pcs[u]); }
        assert Counting(s, id) == {};
      }
    }
  }

  lemma OwnersKept(s: State, t: Session, m: Move)
    requires Inv(s) && Enabled(s, t, m)
    ensures OwnerInv(Next(s, t, m))
  {
    assert Placed(s, t, s.pcs[t]);
    forall id | id in Next(s, t, m).owner ensures Owner(Next(s, t, m), id) { OwnerKept(s, t, m, id); }
  }

  lemma OwnerKept(s: State, t: Session, m: Move, id: Id)
    requires Enabled(s, t, m) && Placed(s, t, s.pcs[t])
    requires id in s.owner ==> Owner(s, id)
    ensures id in Next(s, t, m).owner ==> Owner(Next(s, t, m), id)
  {
    assert id in s.owner && s.owner[id].Some? ==> s.owner[id].value in s.pcs;
  }

  /** Clean deletes no entry that somebody relies on: whoever looked it up holds the global lock or counts on it. */
  lemma UsesStay(s: State, t: Session, m: Move, u: Session)
    requires Inv(s) && Enabled(s, t, m) && u in s.pcs && u != t
    ensures var use := Uses(s.pcs[u]);
      use.Use? ==> use.k in s.locks && use.k in Next(s, t, m).locks && Next(s, t, m).locks[use.k] == s.locks[use.k]
  {
    assert Placed(s, u, s.pcs[u]);
    var use := Uses(s.pcs[u]);
    if use.Use? && m.Scan? && CountsOn(s.pcs[u], use.id) { assert u in Counting(s, use.id); }
  }

  lemma OthersStayPlaced(s: State, t: Session, m: Move, u: Session)
    requires Inv(s) && Enabled(s, t, m) && u in s.pcs && u != t
    ensures Placed(Next(s, t, m), u, Next(s, t, m).pcs[u])
  {
    assert Placed(s, t, s.pcs[t]) && Placed(s, u, s.pcs[u]);
    UsesStay(s, t, m, u);
  }

  lemma MoverIsPlaced(s: State, t: Session, m: Move)
    requires LocksInv(s) && Enabled(s, t, m) && Placed(s, t, s.pcs[t])
    ensures Placed(Next(s, t, m), t, Next(s, t, m).pcs[t])
  {
  }

  lemma StepKeeps(s: State, t: Session, m: Move)
    requires Inv(s) && Enabled(s, t, m)
    ensures Inv(Next(s, t, m))
  {
    MutexKept(s, t, m);
    LocksKept(s, t, m);
    CountsKept(s, t, m);
    OwnersKept(s, t, m);
    MoverIsPlaced(s, t, m);
    forall u | u in s.pcs && u != t ensures Placed(Next(s, t, m), u, Next(s, t, m).pcs[u]) { OthersStayPlaced(s, t, m, u); }
  }

  // ---------------------------------------------------------------- what holds in every run

  ghost predicate IsStep(s: State, s': State) {
    exists t: Session, m: Move :: Enabled(s, t, m) && s' == Next(s, t, m)
  }

  /** Any interleaving of the sessions' actions, from an empty map. */
  ghost predicate IsRun(run: seq<State>) {
    && |run| > 0
    && run[0] == Start(run[0].pcs.Keys)
    && forall i :: 0 <= i < |run| - 1 ==> IsStep(run[i], run[i + 1])
  }

  lemma {:induction false} RunInv(run: seq<State>, i: nat)
    requires IsRun(run) && i < |run|
    ensures Inv(run[i])
  {
    if i > 0 {
      RunInv(run, i - 1);
      assert IsStep(run[i - 1], run[i - 1 + 1]);
      var t: Session, m: Move :| Enabled(run[i - 1], t, m) && run[i] == Next(run[i - 1], t, m);
      StepKeeps(run[i - 1], t, m);
    }
  }

  /** Two sessions are never both between the end of Lock(k) and the call of Unlock(k). */
  lemma MutualExclusion(run: seq<State>, i: nat, t: Session, u: Session)
    requires IsRun(run) && i < |run|
    requires t in run[i].pcs && run[i].pcs[t].Holding?
    requires u in run[i].pcs && run[i].pcs[u].Holding?
    requires run[i].pcs[t].k == run[i].pcs[u].k
    ensures t == u
  {
    RunInv(run, i);
    assert Placed(run[i], t, run[i].pcs[t]) && Placed(run[i], u, run[i].pcs[u]);
  }

  /** The reference count of a lock in the map is the number of sessions between add() and done() on it. */
  lemma CountIsExact(run: seq<State>, i: nat, k: Key)
    requires IsRun(run) && i < |run| && k in run[i].locks
    ensures run[i].locks[k] in run[i].count
    ensures run[i].count[run[i].locks[k]] == |set t <- run[i].pcs | CountsOn(run[i].pcs[t], run[i].locks[k])|
  {
    RunInv(run, i);
    assert Counting(run[i], run[i].locks[k]) == set t <- run[i].pcs | CountsOn(run[i].pcs[t], run[i].locks[k]);
  }

  /** When Clean visits a key it deletes the entry exactly if no session counts on its lock. */
  lemma CleanDeletesExactlyTheUnused(run: seq<State>, i: nat, t: Session, k: Key)
    requires IsRun(run) && i < |run| && Enabled(run[i], t, Scan(k)) && k in run[i].locks
    ensures k in Next(run[i], t, Scan(k)).locks <==> exists u :: u in run[i].pcs && CountsOn(run[i].pcs[u], run[i].locks[k])
  {
    RunInv(run, i);
    InUseIff(run[i], k);
  }

  // ---------------------------------------------------------------- what a whole Clean leaves

  /** Some session counts on the lock of this entry. */
  ghost predicate InUse(s: State, k: Key)
    requires k in s.locks
  {
    exists u :: u in s.pcs && CountsOn(s.pcs[u], s.locks[k])
  }

  /** Behind a Clean under way there are only entries in use; at its end there are no others at all. */
  ghost predicate CleanedBehind(s: State, t: Session)
    requires t in s.pcs
  {
    && (s.pcs[t].Cleaning? ==> forall k <- s.locks.Keys - s.pcs[t].todo :: InUse(s, k))
    && (s.pcs[t].CleanDone? ==> forall k <- s.locks :: InUse(s, k))
  }

  lemma InUseIff(s: State, k: Key)
    requires Inv(s) && k in s.locks
    ensures s.locks[k] in s.count && (InUse(s, k) <==> s.count[s.locks[k]] > 0)
  {
    var id := s.locks[k];
    var users := Counting(s, id);
    assert s.count[id] == |users|;
    if u :| u in s.pcs && CountsOn(s.pcs[u], id) { assert u in users; }
    if |users| > 0 { var u :| u in users; }
  }

  /** What the session that cleans leaves behind it is in use. */
  lemma MoverCleans(s: State, t: Session, m: Move)
    requires Inv(s) && Enabled(s, t, m) && CleanedBehind(s, t)
    ensures CleanedBehind(Next(s, t, m), t)
  {
    var s' := Next(s, t, m);
    StepKeeps(s, t, m);
    if m.Scan? || (m.Step? && s.pcs[t].Cleaning?) {
      forall k | k in s'.locks && (m.Scan? ==> k !in s.pcs[t].todo - {m.k}) ensures InUse(s', k) {
        StaysInUse(s, t, m, k);
      }
    }
  }

  lemma StaysInUse(s: State, t: Session, m: Move, k: Key)
    requires Inv(s) && Enabled(s, t, m) && Inv(Next(s, t, m)) && s.pcs[t].Cleaning? && k in Next(s, t, m).locks
    requires k in s.locks && (InUse(s, k) || m == Scan(k))
    ensures InUse(Next(s, t, m), k)
  {
    InUseIff(s, k);
    InUseIff(Next(s, t, m), k);
  }

  /** While one session holds the global lock to clean, no other creates an entry or takes back a count. */
  lemma OthersDoNotSpoil(s: State, t: Session, m: Move, u: Session)
    requires Inv(s) && Enabled(s, t, m) && u in s.pcs && u != t && CleanedBehind(s, u)
    ensures CleanedBehind(Next(s, t, m), u)
  {
    var s' := Next(s, t, m);
    StepKeeps(s, t, m);
    if s.pcs[u].Cleaning? || s.pcs[u].CleanDone? {
      assert s.writer == Some(u) && !Reads(s.pcs[t]) && !Writes(s.pcs[t]) && s'.locks == s.locks;
      forall k | k in s.locks && InUse(s, k) ensures InUse(s', k) {
        InUseIff(s, k);
        InUseIff(s', k);
      }
    }
  }

  lemma {:induction false} RunCleans(run: seq<State>, i: nat, u: Session)
    requires IsRun(run) && i < |run| && u in run[i].pcs
    ensures CleanedBehind(run[i], u)
  {
    if i > 0 {
      assert IsStep(run[i - 1], run[i - 1 + 1]);
      var t: Session, m: Move :| Enabled(run[i - 1], t, m) && run[i] == Next(run[i - 1], t, m);
      RunInv(run, i - 1);
      RunCleans(run, i - 1, u);
      if u == t { MoverCleans(run[i - 1], t, m); } else { OthersDoNotSpoil(run[i - 1], t, m, u); }
    }
  }

  /** When Clean has been over the map, every entry left is counted on by some session; with nobody else at work it is empty. */
  lemma CleanLeavesOnlyTheUsed(run: seq<State>, i: nat, t: Session)
    requires IsRun(run) && i < |run| && t in run[i].pcs && run[i].pcs[t].CleanDone?
    ensures forall k <- run[i].locks :: exists u :: u in run[i].pcs && CountsOn(run[i].pcs[u], run[i].locks[k])
    ensures (forall u <- run[i].pcs :: u != t ==> run[i].pcs[u].Idle?) ==> run[i].locks == map[]
  {
    RunCleans(run, i, t);
    forall k | k in run[i].locks ensures exists u :: u in run[i].pcs && CountsOn(run[i].pcs[u], run[i].locks[k]) { assert InUse(run[i], k); }
  }

  // ---------------------------------------------------------------- what a call does from beginning to end

  /** The call that a session is in, or what it holds in between. */
  datatype Phase = Away | Locking(k: Key) | Has(k: Key) | Unlocking(k: Key) | InClean

  function PhaseOf(pc: PC): Phase {
    match pc
    case Idle => Away
    case Holding(k, _) => Has(k)
    case CleanWait => InClean
    case Cleaning(_) => InClean
    case CleanDone => InClean
    case UnlockRWait(k, _) => Unlocking(k)
    case UnlockLookup(k, _) => Unlocking(k)
    case UnlockSub(k, _, _) => Unlocking(k)
    case UnlockRDone(k, _, _) => Unlocking(k)
    case Releasing(k, _, _) => Unlocking(k)
    case _ => Locking(pc.k)
  }

  /** How many actions of its own a call has left at most. */
  function Remaining(s: State, pc: PC): nat {
    match pc
    case LockRWait(_) => 8
    case LockLookup(_) => 7
    case LockRAdd(_, _) => 6
    case LockRDone(_, _) => 5
    case LockWWait(_) => 4
    case LockWLookup(_) => 3
    case LockWAdd(_, _) => 2
    case LockWDone(_, _) => 1
    case Acquiring(_, _) => 0
    case UnlockRWait(_, _) => 4
    case UnlockLookup(_, _) => 3
    case UnlockSub(_, _, _) => 2
    case UnlockRDone(_, _, _) => 1
    case Releasing(_, _, _) => 0
    case CleanWait => |s.locks| + 2
    case Cleaning(todo) => |todo| + 1
    case _ => 0
  }

  /**
   Lock(k) returns holding k and only so, Unlock(k) comes after it and returns with nothing, Clean() comes back; and
   no call goes on for ever by its own actions.
   */
  lemma CallsComplete(s: State, t: Session, m: Move)
    requires Inv(s) && Enabled(s, t, m)
    ensures var p, p' := PhaseOf(s.pcs[t]), PhaseOf(Next(s, t, m).pcs[t]);
      match m
      case CallLock(k) => p == Away && p' == Locking(k)
      case CallUnlock => p.Has? && p' == Unlocking(p.k)
      case CallClean => p == Away && p' == InClean
      case _ =>
        if p' == p then Remaining(Next(s, t, m), Next(s, t, m).pcs[t]) < Remaining(s, s.pcs[t])
        else (p.Locking? && p' == Has(p.k)) || (p.Unlocking? && p' == Away) || (p == InClean && p' == Away)
  {
    assert Placed(s, t, s.pcs[t]);
    PhaseMoves(s, t, m);
    if PhaseOf(Next(s, t, m).pcs[t]) == PhaseOf(s.pcs[t]) { RemainingDrops(s, t, m); }
  }

  lemma PhaseMoves(s: State, t: Session, m: Move)
    requires Enabled(s, t, m) && FoundOwn(s.pcs[t])
    ensures var p, p' := PhaseOf(s.pcs[t]), PhaseOf(Goto(s, s.pcs[t], m));
      match m
      case CallLock(k) => p == Away && p' == Locking(k)
      case CallUnlock => p.Has? && p' == Unlocking(p.k)
      case CallClean => p == Away && p' == InClean
      case _ => p' == p || (p.Locking? && p' == Has(p.k)) || (p.Unlocking? && p' == Away) || (p == InClean && p' == Away)
  {
  }

  lemma RemainingDrops(s: State, t: Session, m: Move)
    requires Enabled(s, t, m) && (m.Step? || m.Scan?) && PhaseOf(Goto(s, s.pcs[t], m)) == PhaseOf(s.pcs[t])
    ensures Remaining(Next(s, t, m), Goto(s, s.pcs[t], m)) < Remaining(s, s.pcs[t])
  {
    if m.Scan? {
      assert s.pcs[t].todo == (s.pcs[t].todo - {m.k}) + {m.k};
    } else if s.pcs[t].CleanWait? {
      assert |s.locks.Keys| == |s.locks|;
    }
  }

  /** No entry that a session still relies on disappears or changes, whoever moves. */
  lemma NoEntryInUseIsLost(run: seq<State>, i: nat, u: Session)
    requires IsRun(run) && i < |run| && u in run[i].pcs
    requires Uses(run[i].pcs[u]).Use?
    ensures var use := Uses(run[i].pcs[u]); use.k in run[i].locks && run[i].locks[use.k] == use.id
  {
    RunInv(run, i);
    assert Placed(run[i], u, run[i].pcs[u]);
  }

  /**
   Unlock(k) always finds the entry, it is the lock its own session acquired, and the mutex it
   unlocks is locked by that session: Unlock never returns without unlocking, and never unlocks
   somebody else's lock or an unlocked one.
   */
  lemma UnlockFindsItsOwnLock(run: seq<State>, i: nat, t: Session)
    requires IsRun(run) && i < |run| && t in run[i].pcs
    ensures var s := run[i]; var pc := s.pcs[t];
      && (pc.UnlockLookup? ==> pc.k in s.locks && s.locks[pc.k] == pc.own)
      && (pc.UnlockSub? ==> pc.lock == pc.own && pc.lock in s.count && s.count[pc.lock] > 0)
      && (pc.UnlockRDone? ==> pc.found == Some(pc.own))
      && (pc.Releasing? ==> pc.lock == pc.own && pc.lock in s.owner && s.owner[pc.lock] == Some(t))
  {
    RunInv(run, i);
    var pc := run[i].pcs[t];
    assert Placed(run[i], t, pc);
    if pc.UnlockSub? { assert t in Counting(run[i], pc.own); }
  }

  /** Only a session that has finished Lock and not yet called Unlock can hold up the others. */
  predicate WaitsForAClient(s: State, t: Session)
    requires t in s.pcs
  {
    s.pcs[t].Acquiring? && s.pcs[t].id in s.owner && s.owner[s.pcs[t].id].Some? &&
    var o := s.owner[s.pcs[t].id].value; o in s.pcs && s.pcs[o].Holding? && s.pcs[o].k == s.pcs[t].k
  }

  ghost predicate CanMove(s: State, t: Session) {
    Enabled(s, t, Step) || exists k: Key :: Enabled(s, t, Scan(k))
  }

  /** A session inside the global lock or past every mutex can always move. */
  lemma InsidersMove(s: State, t: Session)
    ensures t in s.pcs && (Reads(s.pcs[t]) || Writes(s.pcs[t]) || s.pcs[t].Releasing?) ==> CanMove(s, t)
  {
    if t in s.pcs && s.pcs[t].Cleaning? {
      if k :| k in s.pcs[t].todo { assert Enabled(s, t, Scan(k)); }
    }
  }

  lemma GlobalLockIsFree(s: State)
    requires Inv(s) && forall u <- s.pcs :: !CanMove(s, u)
    ensures s.writer.None? && s.readers == {}
  {
    forall u ensures u !in s.readers { InsidersMove(s, u); }
    if s.writer.Some? { InsidersMove(s, s.writer.value); }
  }

  /** No deadlock: if nothing inside Lock, Unlock and Clean can move, every call in progress waits for a holder of its key. */
  lemma NoDeadlock(run: seq<State>, i: nat, t: Session)
    requires IsRun(run) && i < |run| && t in run[i].pcs
    requires forall u <- run[i].pcs :: !CanMove(run[i], u)
    ensures run[i].pcs[t].Idle? || run[i].pcs[t].Holding? || WaitsForAClient(run[i], t)
  {
    var s := run[i];
    RunInv(run, i);
    GlobalLockIsFree(s);
    InsidersMove(s, t);
    if s.pcs[t].Acquiring? { OwnerIsAClient(s, t); }
  }

  lemma OwnerIsAClient(s: State, t: Session)
    requires Inv(s) && t in s.pcs && s.pcs[t].Acquiring? && s.writer.None?
    requires forall u <- s.pcs :: !CanMove(s, u)
    ensures WaitsForAClient(s, t)
  {
    var id := s.pcs[t].id;
    assert Placed(s, t, s.pcs[t]);
    assert id in s.owner && !Enabled(s, t, Step) by { assert !CanMove(s, t); }
    assert Owner(s, id);
    var o := s.owner[id].value;
    assert Placed(s, o, s.pcs[o]);
    InsidersMove(s, o);
    assert !Enabled(s, o, Step) by { assert !CanMove(s, o); }
  }

  /** Once every session is done, no lock is counted or locked, so a full Clean may empty the map. */
  lemma QuietLeavesNothingHeld(run: seq<State>, i: nat, id: Id)
    requires IsRun(run) && i < |run| && id in run[i].count
    requires forall t <- run[i].pcs :: run[i].pcs[t].Idle?
    ensures run[i].count[id] == 0 && id in run[i].owner && run[i].owner[id].None?
  {
    RunInv(run, i);
    assert Counting(run[i], id) == {};
    assert Owner(run[i], id);
  }

  // ---------------------------------------------------------------- one session alone

  predicate Alone(s: State, t: Session) {
    t in s.pcs && forall u <- s.pcs :: u != t ==> s.pcs[u].Idle?
  }

  /** Session `t` alone makes the moves `ms`, which lead from `s` to `z`. */
  ghost predicate Leads(s: State, t: Session, ms: seq<Move>, z: State)
    decreases |ms|
  {
    if ms == [] then s == z else Enabled(s, t, ms[0]) && Leads(Next(s, t, ms[0]), t, ms[1..], z)
  }

  lemma {:induction false} LeadsOn(s: State, t: Session, a: seq<Move>, y: State, b: seq<Move>, z: State)
    requires Leads(s, t, a, y) && Leads(y, t, b, z)
    ensures Leads(s, t, a + b, z)
    decreases |a|
  {
    if a == [] {
      assert a + b == b;
    } else {
      assert (a + b)[1..] == a[1..] + b;
      LeadsOn(Next(s, t, a[0]), t, a[1..], y, b, z);
    }
  }

  /** In the middle of a call, with nobody else at work, a session can move. */
  lemma AloneMoves(s: State, t: Session) returns (m: Move)
    requires Inv(s) && Alone(s, t) && !s.pcs[t].Idle? && !s.pcs[t].Holding?
    ensures Enabled(s, t, m) && (m.Step? || m.Scan?)
  {
    m := Step;
    if s.pcs[t].Cleaning? && s.pcs[t].todo != {} {
      var k :| k in s.pcs[t].todo;
      m := Scan(k);
    } else if s.pcs[t].Acquiring? {
      assert Placed(s, t, s.pcs[t]) && Owner(s, s.pcs[t].id);
    } else {
      forall u ensures u in s.readers ==> u == t { }
    }
  }

  /** Alone at the end of Clean, no entry is in use. */
  lemma AloneLeavesNothing(s: State, t: Session)
    requires Inv(s) && Alone(s, t) && s.pcs[t].CleanDone? && CleanedBehind(s, t)
    ensures s.locks == map[]
  {
    assert forall u <- s.pcs :: !Uses(s.pcs[u]).Use?;
  }

  /** So it gets to the end of its call: holding the key, or with nothing; and after a Clean the map is empty. */
  lemma {:induction false} AloneCompletes(s: State, t: Session) returns (ms: seq<Move>, z: State)
    requires Inv(s) && Alone(s, t) && !s.pcs[t].Idle? && !s.pcs[t].Holding? && CleanedBehind(s, t)
    ensures Leads(s, t, ms, z) && Inv(z) && Alone(z, t)
    ensures PhaseOf(z.pcs[t]) == if PhaseOf(s.pcs[t]).Locking? then Has(PhaseOf(s.pcs[t]).k) else Away
    ensures PhaseOf(s.pcs[t]).InClean? ==> z.locks == map[]
    decreases Remaining(s, s.pcs[t])
  {
    var m := AloneMoves(s, t);
    StepKeeps(s, t, m);
    CallsComplete(s, t, m);
    MoverCleans(s, t, m);
    if s.pcs[t].CleanDone? { AloneLeavesNothing(s, t); }
    var s' := Next(s, t, m);
    if PhaseOf(s'.pcs[t]) == PhaseOf(s.pcs[t]) {
      var rest;
      rest, z := AloneCompletes(s', t);
      ms := [m] + rest;
      assert ms[1..] == rest;
    } else {
      ms, z := [m], s';
      assert ms[1..] == [];
    }
  }

  /** A session calls, and is alone until the call is over. */
  lemma AloneCalls(s: State, t: Session, m: Move) returns (ms: seq<Move>, z: State)
    requires Inv(s) && Alone(s, t) && Enabled(s, t, m) && (m.CallLock? || m.CallUnlock? || m.CallClean?)
    ensures Leads(s, t, ms, z) && Inv(z) && Alone(z, t)
    ensures PhaseOf(z.pcs[t]) == if m.CallLock? then Has(m.k) else Away
    ensures m.CallClean? ==> z.locks == map[]
  {
    StepKeeps(s, t, m);
    CallsComplete(s, t, m);
    var rest;
    rest, z := AloneCompletes(Next(s, t, m), t);
    ms := [m] + rest;
    assert ms[1..] == rest;
  }

  /** A run in which one session locks a key and holds it, and one in which it goes on to unlock it and clean up: nothing is left. */
  lemma LockUnlockClean(t: Session, k: Key) returns (a: seq<Move>, held: State, b: seq<Move>, z: State)
    ensures Leads(Start({t}), t, a, held) && t in held.pcs && PhaseOf(held.pcs[t]) == Has(k)
    ensures Leads(held, t, b, z) && t in z.pcs && PhaseOf(z.pcs[t]) == Away && z.locks == map[]
  {
    a, held := AloneCalls(Start({t}), t, CallLock(k));
    b, z := UnlockAndClean(held, t);
  }

  lemma UnlockAndClean(s: State, t: Session) returns (ms: seq<Move>, z: State)
    requires Inv(s) && Alone(s, t) && s.pcs[t].Holding?
    ensures Leads(s, t, ms, z) && t in z.pcs && PhaseOf(z.pcs[t]) == Away && z.locks == map[]
  {
    var a, b, y;
    a, y := AloneCalls(s, t, CallUnlock);
    b, z := AloneCalls(y, t, CallClean);
    LeadsOn(s, t, a, y, b, z);
    ms := a + b;
  }
}
