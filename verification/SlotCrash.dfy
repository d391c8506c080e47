/**
 Recovery of a run slot over whole runs: which directories crashes can leave behind.

 A run is smooth when no call fails and no inode number is recycled; processes may
 interleave and die anywhere, and the liveness oracle may call the dead live. In every
 smooth run a lone contender recovers the slot unless the crash fell between the create
 and the write of claim.json (`SmoothCrashIsRecovered`).
 */
module SlotCrash {
  import opened SlotModel
  import opened Wrappers
  import opened SlotSafety
  import opened SlotRecovery

  /** A step whose call succeeds and that compares inodes truthfully. */
  ghost predicate Smooth(s: State, p: Pid, e: Env) { Enabled(s, p, e) && e.ok && !e.same }

  // ---- the directory stays once it is made, and one process at most found it missing

  /** The run directory exists at this point. */
  predicate InDir(pc: Pc) { !pc.Idle? && pc != Slot(TryMkdir) && pc != Slot(LockMkdir) }

  /** reclaim.lock exists at this point. */
  predicate Entered(pc: Pc) { InDir(pc) && pc != Slot(FreshLock) && pc != Slot(LockOpen) }

  /** Between making the directory and holding the fresh claim. */
  predicate Making(pc: Pc) { pc == Slot(FreshLock) || (pc.Write? && pc.c == Fresh) }

  /** claim.json may still be created from here without the lock. */
  predicate MayCreate(pc: Pc) { pc == Slot(FreshLock) || pc == Write(Create, Fresh) }

  /** The points that only a failed call leads to. */
  predicate Failing(pc: Pc) { (pc.Write? && pc.w == Undo) || (pc.Put? && pc.b == FromTake) }

  predicate Placed(fs: Fs, pc: Pc) {
    (InDir(pc) ==> fs.dir) && (Entered(pc) ==> LockFile in fs.names) && !Failing(pc)
  }

  ghost predicate Dirs(s: State) {
    && (forall p :: Alive(s, p) ==> Placed(s.fs, s.procs[p].pc))
    && (forall p, q :: Alive(s, p) && Alive(s, q) && Making(s.procs[p].pc) && Making(s.procs[q].pc) ==> p == q)
  }

  /** Only a process that makes the directory starts a fresh claim, and no point of a failed call is reached. */
  lemma NextPoint(fs: Fs, p: Pid, pr: Proc, e: Env)
    requires Placed(fs, pr.pc) && e.ok
    ensures var pc := Next(fs, p, pr, e).1.pc;
            !Failing(pc) && (Making(pc) && !Making(pr.pc) ==> !fs.dir) && (MayCreate(pc) && !MayCreate(pr.pc) ==> !fs.dir)
  {
    match pr.pc
    case Slot(at) => NextSlotPoint(fs, p, pr, e, at);
    case Write(w, c) =>
    case Repair(r, k) => NextRepairPoint(fs, p, pr, e, r, k);
    case Decide(d) => NextDecidePoint(fs, p, pr, e, d);
    case Swap(sw, info, prev) => NextSwapPoint(fs, p, pr, e, sw, info, prev);
    case _ =>
  }

  lemma NextSlotPoint(fs: Fs, p: Pid, pr: Proc, e: Env, at: SlotPoint)
    requires Placed(fs, Slot(at))
    ensures var pc := NextSlot(fs, p, pr, e, at).1.pc;
            !Failing(pc) && (Making(pc) && at != FreshLock ==> !fs.dir) && (MayCreate(pc) && at != FreshLock ==> !fs.dir)
  {
  }

  lemma NextRepairPoint(fs: Fs, p: Pid, pr: Proc, e: Env, r: RepairPoint, k: Then)
    ensures var pc := NextRepair(fs, p, pr, e, r, k).1.pc; !Failing(pc) && !Making(pc) && !Early(pc) && Locked(pc)
  {
  }

  lemma NextDecidePoint(fs: Fs, p: Pid, pr: Proc, e: Env, d: DecidePoint)
    ensures var pc := NextDecide(fs, p, pr, e, d); !Failing(pc) && !Making(pc) && !Early(pc) && Locked(pc)
  {
  }

  lemma NextSwapPoint(fs: Fs, p: Pid, pr: Proc, e: Env, sw: SwapPoint, info: Inode, prev: Token)
    ensures var pc := NextSwap(fs, p, pr, e, sw, info, prev).1; !Failing(pc) && !Making(pc) && !Early(pc) && Locked(pc)
  {
  }

  /** The directory outlives every step: its removal finds reclaim.lock in it. */
  lemma NextInDir(fs: Fs, p: Pid, pr: Proc, e: Env)
    requires Placed(fs, pr.pc) && e.ok
    ensures var (op, pr') := Next(fs, p, pr, e);
            (fs.dir || InDir(pr'.pc) ==> Apply(fs, p, op).dir) && (Entered(pr'.pc) ==> LockFile in fs.names || (op.Make? && op.n == LockFile))
  {
  }

  /** In a smooth run reclaim.lock is never removed. */
  lemma LockFileStays(s: State, p: Pid, op: Op)
    requires Alive(s, p) && Permitted(s, p, op)
    ensures LockFile in s.fs.names ==> LockFile in Apply(s.fs, p, op).names
  {
  }

  /** The next point of p is placed in the directory it leaves. */
  lemma NextPlaced(s: State, p: Pid, e: Env)
    requires Inv(s) && Dirs(s) && Smooth(s, p, e)
    ensures var (op, pr) := Next(s.fs, p, s.procs[p], e); var fs := Apply(s.fs, p, op);
            && Placed(fs, pr.pc) && (s.fs.dir ==> fs.dir) && (LockFile in s.fs.names ==> LockFile in fs.names)
            && (Making(pr.pc) && !Making(s.procs[p].pc) ==> !s.fs.dir)
  {
    assert Placed(s.fs, s.procs[p].pc);
    NextPoint(s.fs, p, s.procs[p], e);
    NextInDir(s.fs, p, s.procs[p], e);
    if !s.procs[p].pc.Idle? {
      var (op, pr) := Next(s.fs, p, s.procs[p], e);
      StepIsGood(s, p, e, op, pr);
      LockFileStays(s, p, op);
    }
  }

  lemma DirsMoved(s: State, p: Pid, op: Op, pr: Proc, issued: map<Token, Pid>)
    requires Dirs(s) && Alive(s, p)
    requires var fs := Apply(s.fs, p, op);
             Placed(fs, pr.pc) && (s.fs.dir ==> fs.dir) && (LockFile in s.fs.names ==> LockFile in fs.names)
    requires Making(pr.pc) && !Making(s.procs[p].pc) ==> !s.fs.dir
    ensures Dirs(Called(s, p, op, pr, issued))
  {
    var s' := Called(s, p, op, pr, issued);
    forall q | Alive(s', q) ensures Placed(s'.fs, s'.procs[q].pc) {
      if q != p { assert Alive(s, q) && Placed(s.fs, s.procs[q].pc); }
    }
    forall q, r | Alive(s', q) && Alive(s', r) && Making(s'.procs[q].pc) && Making(s'.procs[r].pc) ensures q == r {
      assert Alive(s, q) && Alive(s, r);
      assert Placed(s.fs, s.procs[q].pc) && Placed(s.fs, s.procs[r].pc);
    }
  }

  lemma DirsKept(s: State, p: Pid, e: Env)
    requires Inv(s) && Dirs(s) && Smooth(s, p, e)
    ensures Dirs(Act(s, p, e))
  {
    NextPlaced(s, p, e);
    var (op, pr) := Next(s.fs, p, s.procs[p], e);
    DirsMoved(s, p, op, pr, Act(s, p, e).issued);
  }

  // ---- what a process knows in a smooth run, besides `Knows`

  /** Nobody can create claim.json without the lock any more. */
  ghost predicate NoFresh(s: State) { forall q :: Alive(s, q) ==> !MayCreate(s.procs[q].pc) }

  /** The writer of claim.json is dead, so only the holder of the lock can touch it. */
  predicate ClaimDead(s: State) {
    Claim in s.fs.names && s.fs.names[Claim] in s.fs.files && var d := s.fs.files[s.fs.names[Claim]].who; d in s.procs && !s.procs[d].alive
  }

  /** If there is a claim, no other one can take its place behind the lock holder's back. */
  ghost predicate Decided(s: State) { Claim in s.fs.names ==> NoFresh(s) || ClaimDead(s) }

  /** claim.json is gone for good or is a complete claim with token prev. */
  ghost predicate Settled(s: State, prev: Token) {
    && (Claim in s.fs.names ==> Carries(s.fs, prev))
    && (NoFresh(s) || (Claim in s.fs.names && Dead(s, prev)))
  }

  /** What the lock holder's locals mean. */
  ghost predicate KnowsTake(s: State, pc: Pc) {
    match pc
    case Repair(r, k) =>
      && (k == ToTake ==> Decided(s))
      && (r.Judge? || r.Compare? ==> Stale(r.tok) in s.fs.names ==> ClaimDead(s))
      && (r.Unquarantine? ==> ClaimDead(s))
    case Put(put, _, b) => (b.FromList? && b.k == ToTake ==> Decided(s)) && (put == PutDrop ==> ClaimDead(s))
    case Decide(d) =>
      && (d == OwnerCard || d == TakeStat0 || d == TakeStat || d.TakeParse? ==> Decided(s))
      && (d.OwnerAsk? ==> Decided(s) || ClaimBy(s.fs, d.who))
      && (d.TakeAsk? ==> Settled(s, d.prev))
    case Elect(_, _, prev) => Settled(s, prev)
    case Swap(sw, _, prev) =>
      (sw == Quarantine ==> Settled(s, prev)) && (sw == Unlink ==> Stale(prev) in s.fs.names) && (sw == Withdraw ==> ClaimDead(s))
    case _ => true
  }

  ghost predicate HasStale(fs: Fs) { exists t :: Stale(t) in fs.names }

  /** A card that is not the owner's own lies beside the quarantine of the claim it belonged to. */
  ghost predicate KnowsCover(fs: Fs, pr: Proc) {
    && (Owning(pr.pc) && Card in fs.names ==> pr.ownedCard || HasStale(fs))
    && (pr.pc.Clear? && pr.pc.cl != ClearCard ==> Card !in fs.names)
  }

  /** The points at which claim.taking may be p's. */
  predicate Leasing(pc: Pc) {
    match pc
    case Elect(l, _, _) => l == Tidy || l == ReadBack
    case Swap(_, _, _) => true
    case Write(_, c) => c.Take?
    case Clear(cl, _) => cl == ClearCard || cl == ClearLease
    case LeaseDrop(_) => true
    case _ => false
  }

  predicate By(fs: Fs, n: Name, p: Pid) { n in fs.names && fs.names[n] in fs.files && fs.files[fs.names[n]].who == p }

  /** A living process has left no claim, card or lease behind. */
  predicate KnowsOwn(fs: Fs, p: Pid, pr: Proc) {
    && (By(fs, Claim, p) ==> Owning(pr.pc))
    && (By(fs, Card, p) ==> pr.ownedCard)
    && (By(fs, Taking, p) ==> Leasing(pr.pc) && fs.files[fs.names[Taking]] == File(p, pr.tok, true, false))
    && (pr.pc.Elect? && pr.pc.l == Publish && TakingTmp(pr.tok) in fs.names ==>
          fs.names[TakingTmp(pr.tok)] in fs.files && fs.files[fs.names[TakingTmp(pr.tok)]] == File(p, pr.tok, true, false))
  }

  ghost predicate KnowsMore(s: State, p: Pid)
    requires p in s.procs
  {
    KnowsTake(s, s.procs[p].pc) && KnowsCover(s.fs, s.procs[p]) && KnowsOwn(s.fs, p, s.procs[p])
  }

  /** Every quarantine parses and is named after its own token. */
  ghost predicate TrueNames(fs: Fs) {
    forall t :: Stale(t) in fs.names ==> Read(fs, Stale(t)).Some? && Read(fs, Stale(t)).value.tok == t
  }

  /** No card outlives both its claim and every quarantine. */
  ghost predicate CardCovered(fs: Fs) { Card in fs.names ==> Claim in fs.names || HasStale(fs) }

  ghost predicate SmoothInv(s: State) {
    Inv(s) && Dirs(s) && TrueNames(s.fs) && CardCovered(s.fs) && forall p :: Alive(s, p) ==> KnowsMore(s, p)
  }

  /** What a call of a smooth run keeps to, besides `Permitted`. */
  ghost predicate Careful(s: State, p: Pid, op: Op)
    requires p in s.procs
  {
    var fs, pr := s.fs, s.procs[p];
    match op
    case Make(n, _, _) => n == Claim ==> pr.pc == Write(Create, Fresh) || Locked(pr.pc)
    case Drop(n) =>
      && (n.Stale? ==> ClaimDead(s) || (Owning(pr.pc) && Card !in fs.names))
      && (n == Claim && Card in fs.names ==> HasStale(fs))
    case Link(i, n) =>
      && (n == Claim ==> exists t :: Stale(t) in fs.names && fs.names[Stale(t)] == i)
      && (n.Stale? ==> i in fs.files && fs.files[i].complete && fs.files[i].tok == n.tok)
      && (n == Card || n == Taking ==> i in fs.files && fs.files[i].who == p)
    case _ => true
  }

  // ---- a careful call keeps what the others know

  lemma NoFreshKept(s: State, p: Pid, e: Env)
    requires Dirs(s) && Smooth(s, p, e) && s.fs.dir && NoFresh(s)
    ensures NoFresh(Act(s, p, e))
  {
    var s' := Act(s, p, e);
    assert Placed(s.fs, s.procs[p].pc);
    NextPoint(s.fs, p, s.procs[p], e);
    forall q | Alive(s', q) ensures !MayCreate(s'.procs[q].pc) { assert Alive(s, q); }
  }

  lemma TrueNamesKept(s: State, p: Pid, op: Op)
    requires Inv(s) && Alive(s, p) && Permitted(s, p, op) && Careful(s, p, op) && TrueNames(s.fs)
    ensures TrueNames(Apply(s.fs, p, op))
  {
    BodiesKept(s, p, op);
  }

  lemma CardCoveredKept(s: State, p: Pid, op: Op)
    requires Inv(s) && Alive(s, p) && Permitted(s, p, op) && Careful(s, p, op) && CardCovered(s.fs)
    ensures CardCovered(Apply(s.fs, p, op))
  {
    assert Knows(s, p);
  }

  lemma CoverKept(s: State, p: Pid, op: Op, q: Pid)
    requires Inv(s) && Alive(s, p) && Permitted(s, p, op) && Careful(s, p, op) && q != p && Alive(s, q)
    requires KnowsCover(s.fs, s.procs[q])
    ensures KnowsCover(Apply(s.fs, p, op), s.procs[q])
  {
    assert Knows(s, q) && Knows(s, p);
  }

  lemma OwnKept(s: State, p: Pid, op: Op, q: Pid)
    requires Inv(s) && Alive(s, p) && Permitted(s, p, op) && Careful(s, p, op) && q != p && Alive(s, q)
    requires TrueNames(s.fs) && KnowsOwn(s.fs, q, s.procs[q])
    ensures KnowsOwn(Apply(s.fs, p, op), q, s.procs[q])
  {
    assert Knows(s, q) && Knows(s, p);
    BodiesKept(s, p, op);
  }

  /** A step of a process without the lock leaves a dead claim alone. */
  lemma ClaimDeadKept(s: State, p: Pid, op: Op, pr: Proc, issued: map<Token, Pid>)
    requires Inv(s) && Alive(s, p) && Permitted(s, p, op) && !Locked(s.procs[p].pc) && pr.alive && ClaimDead(s)
    ensures ClaimDead(Called(s, p, op, pr, issued))
    ensures Apply(s.fs, p, op).names[Claim] == s.fs.names[Claim]
  {
    ClaimKept(s, p, op, s.fs.files[s.fs.names[Claim]].who);
  }

  /** After a create without the lock, nobody else can create without the lock. */
  lemma FreshIsUsedUp(s: State, p: Pid, e: Env)
    requires Dirs(s) && Smooth(s, p, e) && s.procs[p].pc == Write(Create, Fresh) && Next(s.fs, p, s.procs[p], e).0.Make?
    ensures NoFresh(Act(s, p, e))
  {
    var s' := Act(s, p, e);
    forall q | Alive(s', q) ensures !MayCreate(s'.procs[q].pc) {
      assert Alive(s, q);
      assert Making(s.procs[p].pc) && (MayCreate(s.procs[q].pc) ==> Making(s.procs[q].pc));
    }
  }

  /** Where a claim comes from when the acting process has no lock. */
  lemma ClaimChanges(s: State, p: Pid, op: Op)
    requires Inv(s) && Alive(s, p) && Permitted(s, p, op) && Careful(s, p, op) && !Locked(s.procs[p].pc)
    requires Claim in Apply(s.fs, p, op).names
    ensures Claim in s.fs.names || (op.Make? && op.n == Claim && s.procs[p].pc == Write(Create, Fresh))
    ensures Claim in s.fs.names ==> forall t :: Carries(s.fs, t) ==> Carries(Apply(s.fs, p, op), t)
  {
    assert Knows(s, p);
    BodiesKept(s, p, op);
  }

  lemma DecidedKept(s: State, p: Pid, e: Env)
    requires Inv(s) && Dirs(s) && Smooth(s, p, e) && s.fs.dir && !Locked(s.procs[p].pc) && Decided(s)
    requires var op := Next(s.fs, p, s.procs[p], e).0; Permitted(s, p, op) && Careful(s, p, op) && Next(s.fs, p, s.procs[p], e).1.alive
    ensures Decided(Act(s, p, e))
  {
    var (op, pr) := Next(s.fs, p, s.procs[p], e);
    var s' := Act(s, p, e);
    if Claim in s'.fs.names {
      ClaimChanges(s, p, op);
      if Claim !in s.fs.names { FreshIsUsedUp(s, p, e); }
      else if NoFresh(s) { NoFreshKept(s, p, e); }
      else { ClaimDeadKept(s, p, op, pr, s'.issued); }
    }
  }

  lemma SettledKept(s: State, p: Pid, e: Env, prev: Token)
    requires Inv(s) && Dirs(s) && Smooth(s, p, e) && s.fs.dir && !Locked(s.procs[p].pc) && Settled(s, prev)
    requires var op := Next(s.fs, p, s.procs[p], e).0; Permitted(s, p, op) && Careful(s, p, op) && Next(s.fs, p, s.procs[p], e).1.alive
    ensures Settled(Act(s, p, e), prev)
  {
    var (op, pr) := Next(s.fs, p, s.procs[p], e);
    var s' := Act(s, p, e);
    if NoFresh(s) { NoFreshKept(s, p, e); assert !MayCreate(s.procs[p].pc); }
    else { ClaimDeadKept(s, p, op, pr, s'.issued); }
    if Claim in s'.fs.names { ClaimChanges(s, p, op); }
  }

  /** A smooth step of p keeps what another process knows about a takeover. */
  lemma TakeKept(s: State, p: Pid, e: Env, q: Pid)
    requires Inv(s) && Dirs(s) && Smooth(s, p, e) && q != p && Alive(s, q) && KnowsTake(s, s.procs[q].pc)
    requires var op := Next(s.fs, p, s.procs[p], e).0; Permitted(s, p, op) && Careful(s, p, op) && Next(s.fs, p, s.procs[p], e).1.alive
    ensures KnowsTake(Act(s, p, e), s.procs[q].pc)
  {
    var (op, pr) := Next(s.fs, p, s.procs[p], e);
    var s', pc := Act(s, p, e), s.procs[q].pc;
    if Locked(pc) {
      if Locked(s.procs[p].pc) { LockExcludes(s, p, q); }
      assert Placed(s.fs, pc);
      if ClaimDead(s) { ClaimDeadKept(s, p, op, pr, s'.issued); }
      if Decided(s) { DecidedKept(s, p, e); }
      forall t ensures (Stale(t) in s'.fs.names <==> Stale(t) in s.fs.names) { StaleKept(s, p, op, t); }
      forall t | Settled(s, t) ensures Settled(s', t) { SettledKept(s, p, e, t); }
      forall d | ClaimBy(s.fs, d) ensures Decided(s') || ClaimBy(s'.fs, d) { AskedKept(s, p, e, d); }
    }
  }

  lemma AskedKept(s: State, p: Pid, e: Env, d: Pid)
    requires Inv(s) && Dirs(s) && Smooth(s, p, e) && s.fs.dir && !Locked(s.procs[p].pc) && ClaimBy(s.fs, d)
    requires var op := Next(s.fs, p, s.procs[p], e).0; Permitted(s, p, op) && Careful(s, p, op) && Next(s.fs, p, s.procs[p], e).1.alive
    ensures Decided(Act(s, p, e)) || ClaimBy(Act(s, p, e).fs, d)
  {
    assert Knows(s, p);
    var (op, pr) := Next(s.fs, p, s.procs[p], e);
    if d != p { ClaimKept(s, p, op, d); } else { BodiesKept(s, p, op); }
  }

  // ---- every step of a smooth run is careful and leaves the caller with what its next point needs

  ghost predicate CarefulStep(s: State, p: Pid, op: Op, pr: Proc)
    requires p in s.procs
  {
    Careful(s, p, op) && KnowsTake(Moved(s, p, op, pr), pr.pc) && KnowsCover(Apply(s.fs, p, op), pr) && KnowsOwn(Apply(s.fs, p, op), p, pr)
  }

  lemma NoFreshMoved(s: State, p: Pid, op: Op, pr: Proc)
    requires NoFresh(s) && !MayCreate(pr.pc)
    ensures NoFresh(Moved(s, p, op, pr))
  {
    var s' := Moved(s, p, op, pr);
    forall q | Alive(s', q) ensures !MayCreate(s'.procs[q].pc) { if q != p { assert Alive(s, q); } }
  }

  /** A process that owns nothing and makes nothing of its own still owns nothing. */
  lemma NothingLeft(s: State, p: Pid, op: Op, pr: Proc)
    requires Inv(s) && Alive(s, p) && Permitted(s, p, op) && Careful(s, p, op) && TrueNames(s.fs) && KnowsOwn(s.fs, p, s.procs[p])
    requires !Owning(s.procs[p].pc) && !Leasing(s.procs[p].pc) && !op.Make? && !(op.Link? && (op.n == Taking || op.n == Card))
    requires !Owning(pr.pc) && !(pr.pc.Elect? && pr.pc.l == Publish)
    ensures KnowsCover(Apply(s.fs, p, op), pr) && KnowsOwn(Apply(s.fs, p, op), p, pr)
  {
    assert Knows(s, p);
    BodiesKept(s, p, op);
  }

  lemma SlotIsCareful(s: State, p: Pid, e: Env, at: SlotPoint)
    requires SmoothInv(s) && Smooth(s, p, e) && s.procs[p].pc == Slot(at)
    ensures var (op, pr) := NextSlot(s.fs, p, s.procs[p], e, at); CarefulStep(s, p, op, pr)
  {
    assert Knows(s, p) && KnowsMore(s, p);
  }

  lemma WriteIsCareful(s: State, p: Pid, e: Env, w: WritePoint, c: Ctx)
    requires SmoothInv(s) && Smooth(s, p, e) && s.procs[p].pc == Write(w, c)
    ensures var (op, pr) := NextWrite(s.fs, p, s.procs[p], e, w, c); CarefulStep(s, p, op, pr)
  {
    assert Knows(s, p) && KnowsMore(s, p) && Placed(s.fs, s.procs[p].pc);
  }

  lemma RepairCalls(s: State, p: Pid, e: Env, r: RepairPoint, k: Then)
    requires p in s.procs && s.procs[p].pc == Repair(r, k) && KnowsTake(s, Repair(r, k))
    ensures Careful(s, p, NextRepair(s.fs, p, s.procs[p], e, r, k).0)
  {
  }

  /** The repair changes neither claim.json nor, before it drops one, a quarantine. */
  lemma RepairMoves(fs: Fs, p: Pid, pr: Proc, e: Env, r: RepairPoint, k: Then)
    ensures var op := NextRepair(fs, p, pr, e, r, k).0; op == Nop || op == Drop(Taking) || (r.Unquarantine? && op == Drop(Stale(r.tok)))
  {
  }

  lemma DecidedMoved(s: State, p: Pid, op: Op, pr: Proc)
    requires Decided(s) && !MayCreate(pr.pc) && pr.alive && Alive(s, p) && (op == Nop || (op.Drop? && op.n != Claim))
    ensures Decided(Moved(s, p, op, pr))
  {
    if NoFresh(s) { NoFreshMoved(s, p, op, pr); }
  }

  lemma RepairTakes(s: State, p: Pid, e: Env, r: RepairPoint, k: Then)
    requires Sound(s) && Smooth(s, p, e) && s.procs[p].pc == Repair(r, k) && KnowsTake(s, Repair(r, k))
    ensures var (op, pr) := NextRepair(s.fs, p, s.procs[p], e, r, k); KnowsTake(Moved(s, p, op, pr), pr.pc)
  {
    var (op, pr) := NextRepair(s.fs, p, s.procs[p], e, r, k);
    NextRepairPoint(s.fs, p, s.procs[p], e, r, k);
    RepairMoves(s.fs, p, s.procs[p], e, r, k);
    if k == ToTake { DecidedMoved(s, p, op, pr); }
  }

  lemma RepairIsCareful(s: State, p: Pid, e: Env, r: RepairPoint, k: Then)
    requires SmoothInv(s) && Smooth(s, p, e) && s.procs[p].pc == Repair(r, k)
    ensures var (op, pr) := NextRepair(s.fs, p, s.procs[p], e, r, k); CarefulStep(s, p, op, pr)
  {
    assert KnowsMore(s, p);
    var (op, pr) := NextRepair(s.fs, p, s.procs[p], e, r, k);
    RepairCalls(s, p, e, r, k);
    RepairTakes(s, p, e, r, k);
    RepairStepIsGood(s, p, e, r, k);
    NothingLeft(s, p, op, pr);
  }

  lemma PutTakes(s: State, p: Pid, e: Env, put: PutPoint, t: Token, b: Restoring)
    requires Sound(s) && TrueNames(s.fs) && Smooth(s, p, e) && s.procs[p].pc == Put(put, t, b) && b.FromList? && KnowsTake(s, Put(put, t, b))
    ensures var (op, pr) := NextPut(s.fs, p, s.procs[p], e, put, t, b); Careful(s, p, op) && KnowsTake(Moved(s, p, op, pr), pr.pc)
  {
    var (op, pr) := NextPut(s.fs, p, s.procs[p], e, put, t, b);
    if NoFresh(s) { NoFreshMoved(s, p, op, pr); }
  }

  lemma PutIsCareful(s: State, p: Pid, e: Env, put: PutPoint, t: Token, b: Restoring)
    requires SmoothInv(s) && Smooth(s, p, e) && s.procs[p].pc == Put(put, t, b)
    ensures var (op, pr) := NextPut(s.fs, p, s.procs[p], e, put, t, b); CarefulStep(s, p, op, pr)
  {
    assert KnowsMore(s, p) && Placed(s.fs, s.procs[p].pc);
    var (op, pr) := NextPut(s.fs, p, s.procs[p], e, put, t, b);
    PutTakes(s, p, e, put, t, b);
    PutStepIsGood(s, p, e, put, t, b);
    NothingLeft(s, p, op, pr);
  }

  /** An incomplete claim is a dead one, or it is the fresh one. */
  lemma PartialIsDecided(s: State, p: Pid)
    requires Inv(s) && Dirs(s) && Alive(s, p) && Locked(s.procs[p].pc) && !Owning(s.procs[p].pc) && KnowsOwnAll(s) && Read(s.fs, Claim).None?
    ensures Decided(s)
  {
    if Claim in s.fs.names && !ClaimDead(s) {
      var d := s.fs.files[s.fs.names[Claim]].who;
      assert Alive(s, d) && KnowsOwn(s.fs, d, s.procs[d]) && Knows(s, d);
      if s.procs[d].pc.c != Fresh { LockExcludes(s, p, d); }
      forall q | Alive(s, q) ensures !MayCreate(s.procs[q].pc) {
        if MayCreate(s.procs[q].pc) { assert Making(s.procs[q].pc) && Making(s.procs[d].pc); }
      }
    }
  }

  ghost predicate KnowsOwnAll(s: State) { forall q :: Alive(s, q) ==> KnowsOwn(s.fs, q, s.procs[q]) }

  lemma DecideTakes(s: State, p: Pid, e: Env, d: DecidePoint)
    requires Sound(s) && Smooth(s, p, e) && s.procs[p].pc == Decide(d) && KnowsTake(s, Decide(d))
    requires Read(s.fs, Claim).None? ==> Decided(s)
    ensures var pr := s.procs[p].(pc := NextDecide(s.fs, p, s.procs[p], e, d)); KnowsTake(Moved(s, p, Nop, pr), pr.pc)
  {
    var pr := s.procs[p].(pc := NextDecide(s.fs, p, s.procs[p], e, d));
    NextDecidePoint(s.fs, p, s.procs[p], e, d);
    if NoFresh(s) { NoFreshMoved(s, p, Nop, pr); }
  }

  lemma DecideIsCareful(s: State, p: Pid, e: Env, d: DecidePoint)
    requires SmoothInv(s) && Smooth(s, p, e) && s.procs[p].pc == Decide(d)
    ensures CarefulStep(s, p, Nop, s.procs[p].(pc := NextDecide(s.fs, p, s.procs[p], e, d)))
  {
    assert KnowsMore(s, p);
    assert KnowsOwnAll(s);
    var pr := s.procs[p].(pc := NextDecide(s.fs, p, s.procs[p], e, d));
    if Read(s.fs, Claim).None? { PartialIsDecided(s, p); }
    DecideTakes(s, p, e, d);
    NothingLeft(s, p, Nop, pr);
  }

  /** A call that leaves claim.json alone. */
  predicate Aside(fs: Fs, op: Op) {
    op == Nop || ((op.Drop? || op.Link?) && op.n != Claim) || (op.Make? && op.n != Claim && op.i !in fs.files)
  }

  lemma SettledMoved(s: State, p: Pid, op: Op, pr: Proc, prev: Token)
    requires Settled(s, prev) && Aside(s.fs, op) && Alive(s, p) && pr.alive && !MayCreate(pr.pc)
    ensures Settled(Moved(s, p, op, pr), prev)
  {
    if NoFresh(s) { NoFreshMoved(s, p, op, pr); }
  }

  lemma ElectTakes(s: State, p: Pid, e: Env, l: LeasePoint, info: Inode, prev: Token)
    requires Smooth(s, p, e) && s.procs[p].pc == Elect(l, info, prev) && Settled(s, prev)
    ensures var (op, pc) := NextElect(s.fs, p, s.procs[p], e, l, info, prev); KnowsTake(Moved(s, p, op, s.procs[p].(pc := pc)), pc)
  {
    var (op, pc) := NextElect(s.fs, p, s.procs[p], e, l, info, prev);
    assert Aside(s.fs, op) && !MayCreate(pc);
    SettledMoved(s, p, op, s.procs[p].(pc := pc), prev);
  }

  lemma ElectOwns(s: State, p: Pid, e: Env, l: LeasePoint, info: Inode, prev: Token)
    requires Knows(s, p) && Smooth(s, p, e) && s.procs[p].pc == Elect(l, info, prev) && KnowsOwn(s.fs, p, s.procs[p])
    requires forall n :: n in s.fs.names ==> s.fs.names[n] in s.fs.files
    ensures var (op, pc) := NextElect(s.fs, p, s.procs[p], e, l, info, prev);
            Careful(s, p, op) && KnowsOwn(Apply(s.fs, p, op), p, s.procs[p].(pc := pc))
  {
  }

  lemma ElectIsCareful(s: State, p: Pid, e: Env, l: LeasePoint, info: Inode, prev: Token)
    requires SmoothInv(s) && Smooth(s, p, e) && s.procs[p].pc == Elect(l, info, prev)
    ensures var (op, pc) := NextElect(s.fs, p, s.procs[p], e, l, info, prev); CarefulStep(s, p, op, s.procs[p].(pc := pc))
  {
    assert Knows(s, p) && KnowsMore(s, p);
    ElectTakes(s, p, e, l, info, prev);
    ElectOwns(s, p, e, l, info, prev);
  }

  lemma SwapTakes(s: State, p: Pid, e: Env, sw: SwapPoint, info: Inode, prev: Token)
    requires Sound(s) && Knows(s, p) && TrueNames(s.fs) && Smooth(s, p, e) && s.procs[p].pc == Swap(sw, info, prev)
    requires KnowsTake(s, Swap(sw, info, prev))
    ensures var (op, pc) := NextSwap(s.fs, p, s.procs[p], e, sw, info, prev);
            Careful(s, p, op) && KnowsTake(Moved(s, p, op, s.procs[p].(pc := pc)), pc)
  {
  }

  lemma SwapOwns(s: State, p: Pid, e: Env, sw: SwapPoint, info: Inode, prev: Token)
    requires Knows(s, p) && s.procs[p].pc == Swap(sw, info, prev) && KnowsOwn(s.fs, p, s.procs[p])
    ensures var (op, pc) := NextSwap(s.fs, p, s.procs[p], e, sw, info, prev);
            !Owning(pc) && !pc.Clear? && Leasing(pc) && KnowsOwn(Apply(s.fs, p, op), p, s.procs[p].(pc := pc))
  {
  }

  lemma SwapIsCareful(s: State, p: Pid, e: Env, sw: SwapPoint, info: Inode, prev: Token)
    requires SmoothInv(s) && Smooth(s, p, e) && s.procs[p].pc == Swap(sw, info, prev)
    ensures var (op, pc) := NextSwap(s.fs, p, s.procs[p], e, sw, info, prev); CarefulStep(s, p, op, s.procs[p].(pc := pc))
  {
    assert Knows(s, p) && KnowsMore(s, p);
    SwapTakes(s, p, e, sw, info, prev);
    SwapOwns(s, p, e, sw, info, prev);
  }

  lemma ClearIsCareful(s: State, p: Pid, e: Env, cl: ClearPoint, prev: Token)
    requires SmoothInv(s) && Smooth(s, p, e) && s.procs[p].pc == Clear(cl, prev)
    ensures var (op, pc) := NextClear(s.fs, p, s.procs[p], e, cl, prev); CarefulStep(s, p, op, s.procs[p].(pc := pc))
  {
    assert Knows(s, p) && KnowsMore(s, p);
  }

  lemma OwnerCovers(s: State, p: Pid, e: Env, o: OwnerPoint)
    requires Knows(s, p) && Smooth(s, p, e) && s.procs[p].pc == Owner(o) && KnowsCover(s.fs, s.procs[p])
    ensures var (op, pr) := NextOwner(s.fs, p, s.procs[p], e, o); Careful(s, p, op) && KnowsCover(Apply(s.fs, p, op), pr)
  {
  }

  lemma OwnerOwns(s: State, p: Pid, e: Env, o: OwnerPoint)
    requires Knows(s, p) && Smooth(s, p, e) && s.procs[p].pc == Owner(o) && KnowsOwn(s.fs, p, s.procs[p])
    requires forall n :: n in s.fs.names ==> s.fs.names[n] in s.fs.files
    ensures var (op, pr) := NextOwner(s.fs, p, s.procs[p], e, o); KnowsOwn(Apply(s.fs, p, op), p, pr)
  {
  }

  lemma OwnerIsCareful(s: State, p: Pid, e: Env, o: OwnerPoint)
    requires SmoothInv(s) && Smooth(s, p, e) && s.procs[p].pc == Owner(o)
    ensures var (op, pr) := NextOwner(s.fs, p, s.procs[p], e, o); CarefulStep(s, p, op, pr)
  {
    assert Knows(s, p) && KnowsMore(s, p);
    OwnerCovers(s, p, e, o);
    OwnerOwns(s, p, e, o);
  }

  lemma SweepOwns(s: State, p: Pid, e: Env, sw: SweepPoint)
    requires Knows(s, p) && Smooth(s, p, e) && s.procs[p].pc == Sweeping(sw) && KnowsOwn(s.fs, p, s.procs[p]) && KnowsCover(s.fs, s.procs[p])
    requires forall n :: n in s.fs.names ==> s.fs.names[n] in s.fs.files
    ensures var (op, pr) := NextSweep(s.fs, p, s.procs[p], e, sw);
            Careful(s, p, op) && KnowsCover(Apply(s.fs, p, op), pr) && KnowsOwn(Apply(s.fs, p, op), p, pr)
  {
  }

  lemma SweepIsCareful(s: State, p: Pid, e: Env, sw: SweepPoint)
    requires SmoothInv(s) && Smooth(s, p, e) && s.procs[p].pc == Sweeping(sw)
    ensures var (op, pr) := NextSweep(s.fs, p, s.procs[p], e, sw); CarefulStep(s, p, op, pr)
  {
    assert Knows(s, p) && KnowsMore(s, p);
    SweepOwns(s, p, e, sw);
  }

  lemma EndIsCareful(s: State, p: Pid, e: Env)
    requires Knows(s, p) && Smooth(s, p, e) && KnowsOwn(s.fs, p, s.procs[p]) && KnowsCover(s.fs, s.procs[p])
    requires s.procs[p].pc.LeaseDrop? || s.procs[p].pc.ElectUndo? || s.procs[p].pc.Unlock? || s.procs[p].pc == Leaving
    ensures var (op, pr) := Next(s.fs, p, s.procs[p], e); CarefulStep(s, p, op, pr)
  {
  }

  lemma StepIsCareful(s: State, p: Pid, e: Env)
    requires SmoothInv(s) && Smooth(s, p, e) && !s.procs[p].pc.Idle?
    ensures var (op, pr) := Next(s.fs, p, s.procs[p], e); CarefulStep(s, p, op, pr)
  {
    match s.procs[p].pc
    case Slot(at) => SlotIsCareful(s, p, e, at);
    case Write(w, c) => WriteIsCareful(s, p, e, w, c);
    case Repair(r, k) => RepairIsCareful(s, p, e, r, k);
    case Put(put, t, b) => PutIsCareful(s, p, e, put, t, b);
    case Decide(d) => DecideIsCareful(s, p, e, d);
    case Elect(l, info, prev) => ElectIsCareful(s, p, e, l, info, prev);
    case Swap(sw, info, prev) => SwapIsCareful(s, p, e, sw, info, prev);
    case Clear(cl, prev) => ClearIsCareful(s, p, e, cl, prev);
    case Owner(o) => OwnerIsCareful(s, p, e, o);
    case Sweeping(sw) => SweepIsCareful(s, p, e, sw);
    case LeaseDrop(_) | ElectUndo(_) | Unlock(_) | Leaving => EndCase(s, p, e);
  }

  lemma EndCase(s: State, p: Pid, e: Env)
    requires SmoothInv(s) && Smooth(s, p, e)
    requires s.procs[p].pc.LeaseDrop? || s.procs[p].pc.ElectUndo? || s.procs[p].pc.Unlock? || s.procs[p].pc == Leaving
    ensures var (op, pr) := Next(s.fs, p, s.procs[p], e); CarefulStep(s, p, op, pr)
  {
    assert Knows(s, p) && KnowsMore(s, p);
    EndIsCareful(s, p, e);
  }

  /** A new attempt starts with nothing but a new token. */
  lemma IdleIsCareful(s: State, p: Pid, e: Env)
    requires SmoothInv(s) && Smooth(s, p, e) && s.procs[p].pc.Idle?
    ensures Next(s.fs, p, s.procs[p], e).0 == Nop && KnowsMore(Act(s, p, e), p)
  {
    assert Knows(s, p) && KnowsMore(s, p);
  }

  /** One smooth step: the guarantee of p meets the rely of everybody else. */
  lemma SmoothStepKeeps(s: State, p: Pid, e: Env)
    requires SmoothInv(s) && Smooth(s, p, e)
    ensures SmoothInv(Act(s, p, e))
  {
    var (op, pr) := Next(s.fs, p, s.procs[p], e);
    var s' := Act(s, p, e);
    StepKeepsInv(s, p, e);
    DirsKept(s, p, e);
    if s.procs[p].pc.Idle? { IdleIsCareful(s, p, e); }
    else { StepIsGood(s, p, e, op, pr); StepIsCareful(s, p, e); }
    assert Permitted(s, p, op) && Careful(s, p, op) && pr.alive && KnowsMore(s', p);
    TrueNamesKept(s, p, op);
    CardCoveredKept(s, p, op);
    forall q | Alive(s', q) ensures KnowsMore(s', q) {
      if q != p { OthersKnowMore(s, p, e, q); }
    }
  }

  lemma OthersKnowMore(s: State, p: Pid, e: Env, q: Pid)
    requires SmoothInv(s) && Smooth(s, p, e) && q != p && Alive(s, q)
    requires var op := Next(s.fs, p, s.procs[p], e).0; Permitted(s, p, op) && Careful(s, p, op) && Next(s.fs, p, s.procs[p], e).1.alive
    ensures KnowsMore(Act(s, p, e), q)
  {
    var op := Next(s.fs, p, s.procs[p], e).0;
    assert KnowsMore(s, q);
    TakeKept(s, p, e, q);
    CoverKept(s, p, op, q);
    OwnKept(s, p, op, q);
  }

  lemma DeathKeepsDirs(s: State, p: Pid)
    requires Dirs(s) && Alive(s, p)
    ensures Dirs(Die(s, p))
  {
    var s' := Die(s, p);
    forall q | Alive(s', q) ensures Alive(s, q) && Placed(s'.fs, s'.procs[q].pc) { assert Alive(s, q) && Placed(s.fs, s.procs[q].pc); }
  }

  lemma DeathKeepsTake(s: State, p: Pid, q: Pid)
    requires Alive(s, p) && Alive(Die(s, p), q) && KnowsMore(s, q)
    ensures KnowsMore(Die(s, p), q)
  {
    assert NoFresh(s) ==> NoFresh(Die(s, p));
  }

  lemma SmoothDeathKeeps(s: State, p: Pid)
    requires SmoothInv(s) && Alive(s, p)
    ensures SmoothInv(Die(s, p))
  {
    DeathKeepsInv(s, p);
    DeathKeepsDirs(s, p);
    forall q | Alive(Die(s, p), q) ensures KnowsMore(Die(s, p), q) {
      assert Alive(s, q) && KnowsMore(s, q);
      DeathKeepsTake(s, p, q);
    }
  }

  lemma SpawnKeepsDirs(s: State, p: Pid)
    requires Dirs(s) && p !in s.procs
    ensures Dirs(After(s, Spawn(p)))
  {
    var s' := After(s, Spawn(p));
    forall q | Alive(s', q) ensures q == p || (Alive(s, q) && Placed(s'.fs, s'.procs[q].pc)) { if q != p { assert Alive(s, q) && Placed(s.fs, s.procs[q].pc); } }
  }

  lemma SpawnKeepsTake(s: State, p: Pid, q: Pid)
    requires p !in s.procs && Alive(s, q) && KnowsMore(s, q)
    ensures KnowsMore(After(s, Spawn(p)), q)
  {
    assert NoFresh(s) ==> NoFresh(After(s, Spawn(p)));
  }

  lemma SmoothSpawnKeeps(s: State, p: Pid)
    requires SmoothInv(s) && Written(s) && p !in s.procs
    ensures SmoothInv(After(s, Spawn(p)))
  {
    var s' := After(s, Spawn(p));
    SpawnKeepsInv(s, p);
    SpawnKeepsDirs(s, p);
    forall q | Alive(s', q) ensures KnowsMore(s', q) {
      if q != p { assert Alive(s, q) && KnowsMore(s, q); SpawnKeepsTake(s, p, q); }
    }
  }

  // ---- facts about every run, smooth or not

  /** Before the election of a lease. */
  predicate Early(pc: Pc) { pc.Slot? || (pc.Write? && pc.c == Fresh) || pc == Repair(Lease, ToOwner) }

  /** Every body has a writer. */
  ghost predicate Written(s: State) { forall i :: i in s.fs.files ==> s.fs.files[i].who in s.procs }

  /** Lease temporaries carry issued tokens, and not that of a process that has made none. */
  ghost predicate LeaseNames(s: State) {
    && (forall t :: TakingTmp(t) in s.fs.names ==> t in s.issued)
    && (forall p :: Alive(s, p) && Early(s.procs[p].pc) ==> TakingTmp(s.procs[p].tok) !in s.fs.names)
  }

  /** The kernel's locks belong to living processes that are at a locked point. */
  ghost predicate LocksHeld(s: State) {
    forall i :: i in s.fs.locks ==>
      var p := s.fs.locks[i]; Alive(s, p) && Locked(s.procs[p].pc) && s.procs[p].fd == i
  }

  lemma WrittenKept(s: State, p: Pid, op: Op, pr: Proc, issued: map<Token, Pid>)
    requires Written(s) && Alive(s, p) && Permitted(s, p, op)
    ensures Written(Called(s, p, op, pr, issued))
  {
  }

  /** An attempt is early from its start on, with one token, and makes no lease temporary. */
  predicate StaysEarly(before: Pc, tok: Token, op: Op, pr: Proc) {
    Early(pr.pc) ==> before.Idle? || (Early(before) && pr.tok == tok && !(op.Make? && op.n.TakingTmp?))
  }

  lemma EarlyInSlot(fs: Fs, p: Pid, pr: Proc, e: Env)
    requires pr.pc.Slot? || pr.pc.Write?
    ensures StaysEarly(pr.pc, pr.tok, Next(fs, p, pr, e).0, Next(fs, p, pr, e).1)
  {
  }

  lemma EarlyBefore(fs: Fs, p: Pid, pr: Proc, e: Env)
    ensures StaysEarly(pr.pc, pr.tok, Next(fs, p, pr, e).0, Next(fs, p, pr, e).1)
  {
    match pr.pc
    case Slot(_) | Write(_, _) => EarlyInSlot(fs, p, pr, e);
    case Repair(r, k) => NextRepairPoint(fs, p, pr, e, r, k);
    case Decide(d) => NextDecidePoint(fs, p, pr, e, d);
    case Swap(sw, info, prev) => NextSwapPoint(fs, p, pr, e, sw, info, prev);
    case Owner(_) | Sweeping(_) => NotEarlyAgain(fs, p, pr, e);
    case _ =>
  }

  lemma NotEarlyAgain(fs: Fs, p: Pid, pr: Proc, e: Env)
    requires pr.pc.Owner? || pr.pc.Sweeping?
    ensures !Early(Next(fs, p, pr, e).1.pc)
  {
  }

  lemma LeaseNamesKept(s: State, p: Pid, op: Op, pr: Proc, issued: map<Token, Pid>)
    requires Inv(s) && LeaseNames(s) && Alive(s, p) && Permitted(s, p, op) && Extends(s.issued, issued)
    requires s.procs[p].pc.Idle? ==> op == Nop && pr.tok !in s.issued
    requires StaysEarly(s.procs[p].pc, s.procs[p].tok, op, pr)
    ensures LeaseNames(Called(s, p, op, pr, issued))
  {
    var s' := Called(s, p, op, pr, issued);
    assert Knows(s, p);
    forall q | Alive(s', q) && Early(s'.procs[q].pc) ensures TakingTmp(s'.procs[q].tok) !in s'.fs.names {
      if q != p { assert Knows(s, q); }
    }
  }

  /** A lock is taken at Flock and released at Unlock. */
  predicate LockPoint(before: Proc, op: Op, pr: Proc) {
    && (Locked(before.pc) ==> pr.fd == before.fd && (Locked(pr.pc) || op == Release(before.fd)))
    && (op.Acquire? ==> op.i == pr.fd && Locked(pr.pc)) && (op.Release? ==> op.i == before.fd && Locked(before.pc))
  }

  lemma LockPoints(fs: Fs, p: Pid, pr: Proc, e: Env)
    ensures LockPoint(pr, Next(fs, p, pr, e).0, Next(fs, p, pr, e).1)
  {
    match pr.pc
    case Write(w, c) => WriteLocked(fs, p, pr, e, w, c);
    case Repair(r, k) => NextRepairPoint(fs, p, pr, e, r, k); RepairMoves(fs, p, pr, e, r, k);
    case Decide(d) => NextDecidePoint(fs, p, pr, e, d);
    case Swap(sw, info, prev) => NextSwapPoint(fs, p, pr, e, sw, info, prev);
    case _ =>
  }

  lemma WriteLocked(fs: Fs, p: Pid, pr: Proc, e: Env, w: WritePoint, c: Ctx)
    ensures var (op, pr') := NextWrite(fs, p, pr, e, w, c);
            pr'.fd == pr.fd && !op.Acquire? && !op.Release? && (c != Fresh ==> Locked(pr'.pc))
  {
  }

  lemma LocksHeldKept(s: State, p: Pid, op: Op, pr: Proc, issued: map<Token, Pid>)
    requires LocksHeld(s) && Alive(s, p) && pr.alive && Permitted(s, p, op) && LockPoint(s.procs[p], op, pr)
    ensures LocksHeld(Called(s, p, op, pr, issued))
  {
  }

  ghost predicate Traced(s: State) { Written(s) && LeaseNames(s) && LocksHeld(s) }

  lemma TracedKept(s: State, p: Pid, e: Env)
    requires Inv(s) && Traced(s) && Enabled(s, p, e)
    ensures Traced(Act(s, p, e))
  {
    var (op, pr) := Next(s.fs, p, s.procs[p], e);
    var s' := Act(s, p, e);
    if !s.procs[p].pc.Idle? { StepIsGood(s, p, e, op, pr); }
    WrittenKept(s, p, op, pr, s'.issued);
    EarlyBefore(s.fs, p, s.procs[p], e);
    LeaseNamesKept(s, p, op, pr, s'.issued);
    LockPoints(s.fs, p, s.procs[p], e);
    LocksHeldKept(s, p, op, pr, s'.issued);
  }

  lemma {:induction false} RunIsTraced(states: seq<State>, events: seq<Event>, i: nat)
    requires Run(states, events) && i <= |events|
    ensures Traced(states[i])
  {
    if i == 0 {
    } else {
      RunIsTraced(states, events, i - 1);
      RunKeepsInv(states, events, i - 1);
      var s, ev := states[i - 1], events[i - 1];
      assert Possible(s, ev) && states[i] == After(s, ev);
      match ev
      case Spawn(p) => SpawnKeepsTraced(s, p);
      case Death(p) => DeathKeepsTraced(s, p);
      case Step(p, e) => TracedKept(s, p, e);
    }
  }

  lemma SpawnKeepsTraced(s: State, p: Pid)
    requires Traced(s) && p !in s.procs
    ensures Traced(After(s, Spawn(p)))
  {
  }

  lemma DeathKeepsTraced(s: State, p: Pid)
    requires Traced(s) && Alive(s, p)
    ensures Traced(Die(s, p))
  {
  }

  /** No call of the run fails before state i. */
  ghost predicate SmoothUntil(events: seq<Event>, i: nat) {
    i <= |events| && forall j :: 0 <= j < i && events[j].Step? ==> events[j].e.ok && !events[j].e.same
  }

  lemma {:induction false} RunIsSmooth(states: seq<State>, events: seq<Event>, i: nat)
    requires Run(states, events) && SmoothUntil(events, i)
    ensures SmoothInv(states[i])
  {
    if i == 0 {
    } else {
      RunIsSmooth(states, events, i - 1);
      RunIsTraced(states, events, i - 1);
      var s, ev := states[i - 1], events[i - 1];
      assert Possible(s, ev) && states[i] == After(s, ev);
      match ev
      case Spawn(p) => SmoothSpawnKeeps(s, p);
      case Death(p) => SmoothDeathKeeps(s, p);
      case Step(p, e) => SmoothStepKeeps(s, p, e);
    }
  }

  // ---- what decides recovery while every quarantine is named after its own token

  /** claim.json agrees with the quarantine of its own token. */
  predicate ClaimAgrees(fs: Fs) { Claim in fs.names ==> Consistent(fs, fs.names[Claim]) }

  /** A claim is put back from a quarantine; a quarantine is made of the claim. */
  ghost predicate LinkedFrom(fs: Fs, op: Op) {
    op.Link? ==>
      && (op.n == Claim ==> exists t :: Stale(t) in fs.names && fs.names[Stale(t)] == op.i)
      && (op.n.Stale? ==> Claim in fs.names && fs.names[Claim] == op.i)
      && exists m: Name :: m != LockFile && m in fs.names && fs.names[m] == op.i
  }

  lemma LinksComeFrom(fs: Fs, p: Pid, pr: Proc, e: Env)
    ensures LinkedFrom(fs, Next(fs, p, pr, e).0)
  {
    match pr.pc
    case Repair(r, k) => RepairMoves(fs, p, pr, e, r, k);
    case _ =>
  }

  lemma ClaimAgreesKept(s: State, p: Pid, op: Op)
    requires Inv(s) && Alive(s, p) && Permitted(s, p, op) && LinkedFrom(s.fs, op) && TrueNames(s.fs) && ClaimAgrees(s.fs)
    ensures ClaimAgrees(Apply(s.fs, p, op))
  {
    assert Knows(s, p);
    BodiesKept(s, p, op);
  }

  lemma {:induction false} RunAgrees(states: seq<State>, events: seq<Event>, i: nat)
    requires Run(states, events) && i <= |events| && forall j :: 0 <= j < i ==> TrueNames(states[j].fs)
    ensures ClaimAgrees(states[i].fs)
  {
    if i == 0 {
    } else {
      RunAgrees(states, events, i - 1);
      RunKeepsInv(states, events, i - 1);
      var s, ev := states[i - 1], events[i - 1];
      assert Possible(s, ev) && states[i] == After(s, ev) && TrueNames(s.fs);
      if ev.Step? {
        var (op, pr) := Next(s.fs, ev.p, s.procs[ev.p], ev.e);
        if !s.procs[ev.p].pc.Idle? { StepIsGood(s, ev.p, ev.e, op, pr); }
        LinksComeFrom(s.fs, ev.p, s.procs[ev.p], ev.e);
        ClaimAgreesKept(s, ev.p, op);
      }
    }
  }

  /** claim.json is complete, or it is absent and a quarantine or no card is there. */
  ghost predicate Restorable(fs: Fs) {
    if Claim in fs.names then Read(fs, Claim).Some? else HasStale(fs) || Read(fs, Card).None?
  }

  lemma TrueNamesDecide(fs: Fs)
    requires TrueNames(fs) && ClaimAgrees(fs)
    ensures (Recoverable(fs) <==> Restorable(fs)) && (Stuck(fs) <==> !Restorable(fs))
  {
    if Claim !in fs.names && HasStale(fs) {
      var t :| Stale(t) in fs.names;
      FirstExists(fs, t);
    }
  }

  /**
   In every run, with failing calls or not: while every quarantine has been named after
   the token inside it, the slot is recoverable exactly when claim.json is complete, or it
   is absent and no card stands alone.
   */
  lemma TrueNamesRecover(states: seq<State>, events: seq<Event>, i: nat)
    requires Run(states, events) && i <= |events| && forall j :: 0 <= j <= i ==> TrueNames(states[j].fs)
    ensures Recoverable(states[i].fs) <==> Restorable(states[i].fs)
    ensures Stuck(states[i].fs) <==> !Restorable(states[i].fs)
  {
    RunAgrees(states, events, i);
    TrueNamesDecide(states[i].fs);
  }

  // ---- the contender arrives

  /** Only p is alive, and it has found the run directory there. */
  ghost predicate Arrives(s: State, p: Pid) {
    Alive(s, p) && (forall q :: Alive(s, q) ==> q == p) && s.procs[p].pc == Slot(TryMkdir) && s.fs.dir
  }

  /** The two directories differ in reclaim.lock at most. */
  ghost predicate SameButLock(fs: Fs, fs': Fs) {
    && (forall n: Name :: n != LockFile ==> (n in fs'.names <==> n in fs.names) && (n in fs.names ==> fs'.names[n] == fs.names[n]))
    && (forall i :: i in fs.files ==> i in fs'.files && fs'.files[i] == fs.files[i])
    && (forall n :: n in fs.names ==> fs.names[n] in fs.files)
  }

  lemma SameReads(fs: Fs, fs': Fs, n: Name)
    requires SameButLock(fs, fs') && n != LockFile
    ensures Read(fs', n) == Read(fs, n)
    ensures n in fs.names ==> (Consistent(fs', fs.names[n]) <==> Consistent(fs, fs.names[n]))
  {
  }

  lemma SameFirst(fs: Fs, fs': Fs, t: Token)
    requires SameButLock(fs, fs')
    ensures First(fs', t) <==> First(fs, t)
  {
    SameReads(fs, fs', Stale(t));
    forall u: Token ensures Read(fs', Stale(u)) == Read(fs, Stale(u)) { SameReads(fs, fs', Stale(u)); }
  }

  /** Without a claim the first quarantine that parses decides alone. */
  lemma FirstDecides(fs: Fs, t: Token)
    requires Claim !in fs.names && First(fs, t)
    ensures Recoverable(fs) <==> Consistent(fs, fs.names[Stale(t)])
    ensures Stuck(fs) <==> !Consistent(fs, fs.names[Stale(t)])
  {
    assert forall u :: First(fs, u) ==> u == t;
  }

  /** reclaim.lock has no part in what is recoverable. */
  lemma RecoverableWithLock(fs: Fs, fs': Fs)
    requires SameButLock(fs, fs')
    ensures (Recoverable(fs') <==> Recoverable(fs)) && (Stuck(fs') <==> Stuck(fs))
  {
    if Claim in fs.names {
      SameReads(fs, fs', Claim);
    } else if t :| First(fs, t) {
      SameFirst(fs, fs', t);
      SameReads(fs, fs', Stale(t));
      FirstDecides(fs, t);
      FirstDecides(fs', t);
    } else {
      forall t ensures !First(fs', t) { SameFirst(fs, fs', t); }
      SameReads(fs, fs', Card);
      assert NoStale(fs') <==> NoStale(fs);
    }
  }

  /** What p needs to recover, at any point before the lock is taken. */
  ghost predicate Outside(s: State, p: Pid) {
    && Lone(s, p) && DeadNames(s, p) && TakingTmp(s.procs[p].tok) !in s.fs.names && !By(s.fs, Taking, p) && s.fs.locks == map[]
  }

  lemma LockTaken(s: State, p: Pid, e: Env)
    requires Outside(s, p) && s.procs[p].pc == Slot(Flock) && Calm(s, p, e)
    ensures var s' := Act(s, p, e);
            && Lone(s', p) && DeadNames(s', p) && TakingTmp(s'.procs[p].tok) !in s'.fs.names && !By(s'.fs, Taking, p)
            && s'.procs[p].pc == Repair(Lease, ToOwner) && SameButLock(s.fs, s'.fs)
  {
  }

  lemma FlockEnds(s: State, p: Pid)
    requires Outside(s, p) && s.procs[p].pc == Slot(Flock)
    ensures Ends(s, p, Recoverable(s.fs), !Stuck(s.fs))
  {
    forall e | Calm(s, p, e) ensures Ends(Act(s, p, e), p, Recoverable(s.fs), !Stuck(s.fs)) {
      var s' := Act(s, p, e);
      LockTaken(s, p, e);
      RecoverableWithLock(s.fs, s'.fs);
      LoneContenderRecovers(s', p);
    }
  }

  lemma OpenEnds(s: State, p: Pid)
    requires Outside(s, p) && s.procs[p].pc == Slot(LockOpen)
    ensures Ends(s, p, Recoverable(s.fs), !Stuck(s.fs))
  {
    forall e | Calm(s, p, e) ensures Ends(Act(s, p, e), p, Recoverable(s.fs), !Stuck(s.fs)) {
      var s' := Act(s, p, e);
      if LockFile in s.fs.names { assert s'.fs == s.fs; } else { LockMade(s, p, e); }
      FlockEnds(s', p);
    }
  }

  lemma LockMade(s: State, p: Pid, e: Env)
    requires Outside(s, p) && s.procs[p].pc == Slot(LockOpen) && Calm(s, p, e) && LockFile !in s.fs.names
    ensures Outside(Act(s, p, e), p) && (Recoverable(Act(s, p, e).fs) <==> Recoverable(s.fs)) && (Stuck(Act(s, p, e).fs) <==> Stuck(s.fs))
  {
    var s' := Act(s, p, e);
    assert s'.fs.names == s.fs.names[LockFile := e.ino];
    RecoverableWithLock(s.fs, s'.fs);
  }

  lemma ArrivalEnds(s: State, p: Pid)
    requires Outside(s, p) && (s.procs[p].pc == Slot(TryMkdir) || s.procs[p].pc == Slot(LockMkdir))
    ensures Ends(s, p, Recoverable(s.fs), !Stuck(s.fs))
    decreases s.procs[p].pc == Slot(TryMkdir)
  {
    forall e | Calm(s, p, e) ensures Ends(Act(s, p, e), p, Recoverable(s.fs), !Stuck(s.fs)) {
      var s' := Act(s, p, e);
      assert s'.fs == s.fs;
      if s.procs[p].pc == Slot(TryMkdir) { ArrivalEnds(s', p); } else { OpenEnds(s', p); }
    }
  }

  /** The contender's own claims, cards and leases are none. */
  predicate LeftNothing(fs: Fs, p: Pid) { !By(fs, Claim, p) && !By(fs, Card, p) && !By(fs, Taking, p) }

  lemma ArrivalIsOutside(s: State, p: Pid)
    requires Inv(s) && Traced(s) && Arrives(s, p) && LeftNothing(s.fs, p)
    requires forall t :: !By(s.fs, Stale(t), p)
    ensures Outside(s, p)
  {
    assert Knows(s, p);
    forall q | q in s.procs && q != p ensures !s.procs[q].alive { assert Alive(s, q) <==> s.procs[q].alive; }
  }

  /**
   The recovery theorem over runs. In every smooth run, whoever died wherever and whatever
   the oracle said of the dead: a contender that finds the directory and nobody else alive
   takes reclaim.lock and ends as owner of its own live claim, with no quarantine and no
   claim.taking left, if and only if claim.json is not an incomplete file.
   */
  lemma SmoothCrashIsRecovered(states: seq<State>, events: seq<Event>, i: nat, p: Pid)
    requires Run(states, events) && SmoothUntil(events, i) && Arrives(states[i], p)
    ensures var whole := Claim in states[i].fs.names ==> Read(states[i].fs, Claim).Some?; Ends(states[i], p, whole, whole)
  {
    var s := states[i];
    RunIsTraced(states, events, i);
    forall j | 0 <= j <= i ensures TrueNames(states[j].fs) { RunIsSmooth(states, events, j); }
    RunIsSmooth(states, events, i);
    assert Knows(s, p) && KnowsMore(s, p);
    ArrivalIsOutside(s, p);
    TrueNamesRecover(states, events, i);
    ArrivalEnds(s, p);
  }

  // ---- a contender that has owned nothing, in any run

  /** Up to state i, p has neither written a claim nor tried to elect a lease. */
  ghost predicate Outsider(states: seq<State>, i: nat, p: Pid)
    requires i < |states|
  {
    forall j :: 0 <= j <= i && p in states[j].procs ==> !Owning(states[j].procs[p].pc) && !states[j].procs[p].pc.Elect?
  }

  /** Such a process writes no file but reclaim.lock. */
  lemma OutsiderMakes(fs: Fs, p: Pid, pr: Proc, e: Env)
    requires !Owning(pr.pc) && !pr.pc.Elect? && !Owning(Next(fs, p, pr, e).1.pc)
    ensures var op := Next(fs, p, pr, e).0; op.Make? ==> op.n == LockFile
  {
    match pr.pc
    case Repair(r, k) => RepairMoves(fs, p, pr, e, r, k);
    case _ =>
  }

  ghost predicate Strange(fs: Fs, p: Pid) {
    forall n :: n in fs.names && n != LockFile && fs.names[n] in fs.files ==> fs.files[fs.names[n]].who != p
  }

  lemma StrangeKept(s: State, q: Pid, op: Op, p: Pid)
    requires Sound(s) && Alive(s, q) && Permitted(s, q, op) && LinkedFrom(s.fs, op) && Strange(s.fs, p)
    requires op.Make? ==> q != p || op.n == LockFile
    ensures Strange(Apply(s.fs, q, op), p)
  {
  }

  lemma {:induction false} OutsiderIsStrange(states: seq<State>, events: seq<Event>, i: nat, p: Pid)
    requires Run(states, events) && i <= |events| && Outsider(states, i, p)
    ensures Strange(states[i].fs, p)
  {
    if i == 0 {
    } else {
      OutsiderIsStrange(states, events, i - 1, p);
      RunKeepsInv(states, events, i - 1);
      var s, ev := states[i - 1], events[i - 1];
      assert Possible(s, ev) && states[i] == After(s, ev);
      if ev.Step? {
        var (op, pr) := Next(s.fs, ev.p, s.procs[ev.p], ev.e);
        if !s.procs[ev.p].pc.Idle? { StepIsGood(s, ev.p, ev.e, op, pr); }
        LinksComeFrom(s.fs, ev.p, s.procs[ev.p], ev.e);
        if ev.p == p { OutsiderMakes(s.fs, p, s.procs[p], ev.e); }
        StrangeKept(s, ev.p, op, p);
      }
    }
  }

  /**
   In every run, whatever failed before: a contender that has owned nothing, finds the
   directory and nobody else alive recovers the slot exactly when the directory is
   recoverable; and while every quarantine has been named after its own token, exactly
   when claim.json is complete, or it is absent and no card stands alone.
   */
  lemma CrashIsRecoveredIff(states: seq<State>, events: seq<Event>, i: nat, p: Pid)
    requires Run(states, events) && i <= |events| && Arrives(states[i], p) && Outsider(states, i, p)
    ensures Ends(states[i], p, Recoverable(states[i].fs), !Stuck(states[i].fs))
    ensures (forall j :: 0 <= j <= i ==> TrueNames(states[j].fs)) ==> Ends(states[i], p, Restorable(states[i].fs), Restorable(states[i].fs))
  {
    RunKeepsInv(states, events, i);
    RunIsTraced(states, events, i);
    OutsiderIsStrange(states, events, i, p);
    ArrivalIsOutside(states[i], p);
    ArrivalEnds(states[i], p);
    if forall j :: 0 <= j <= i ==> TrueNames(states[j].fs) { TrueNamesRecover(states, events, i); }
  }
}
