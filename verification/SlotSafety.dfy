/**
 Safety of the run-slot protocol over every run: a living process that was given the
 slot and has not abandoned it keeps claim.json, and nobody else is given the slot.

 The argument is rely-guarantee. `Permitted` says what one system call of a process
 may do to the shared directory; every program point only makes permitted calls
 (`CallsArePermitted`), and a permitted call of one process keeps what every other
 process knows (`OthersKept`).
 */
module SlotSafety {
  import opened SlotModel
  import opened Wrappers

  /** p has created claim.json and has neither removed it nor given it up. */
  predicate Owning(pc: Pc) {
    match pc
    case Write(w, _) => w != Create
    case Clear(_, _) => true
    case LeaseDrop(res) => res == Owned
    case Unlock(res) => res == Owned
    case Owner(_) => true
    case Sweeping(_) => true
    case _ => false
  }

  /** claimRunSlot has returned a token and abandonSetup has not removed the claim. */
  predicate Returned(pc: Pc) { pc.Owner? || pc.Sweeping? }

  /** reclaim.lock is held at this point. */
  predicate Locked(pc: Pc) {
    match pc
    case Idle | Slot(_) | Owner(_) | Sweeping(_) | Leaving => false
    case Write(_, c) => c != Fresh
    case _ => true
  }

  predicate HasFd(pc: Pc) { Locked(pc) || pc == Slot(Flock) }

  /** The body that claim.json names was written by d. */
  predicate ClaimBy(fs: Fs, d: Pid) { Claim in fs.names && fs.names[Claim] in fs.files && fs.files[fs.names[Claim]].who == d }

  predicate Dead(s: State, t: Token) { t != NO_TOKEN && t in s.issued && s.issued[t] in s.procs && !s.procs[s.issued[t]].alive }

  /** prev's writer is dead; if prev is already quarantined, claim.json is still that writer's. */
  predicate BeforeLink(s: State, prev: Token) {
    Dead(s, prev) && (Stale(prev) in s.fs.names ==> ClaimBy(s.fs, s.issued[prev]))
  }

  /** What the locals of a takeover are known to mean. */
  predicate TakeInv(s: State, pc: Pc) {
    match pc
    case Decide(d) =>
      d.TakeAsk? ==>
        && d.prev != NO_TOKEN && d.prev in s.issued && s.issued[d.prev] == d.who && d.who in s.procs
        && (Stale(d.prev) in s.fs.names ==> ClaimBy(s.fs, d.who))
    case Elect(_, _, prev) => BeforeLink(s, prev)
    case ElectUndo(res) => res != Owned
    case Swap(sw, _, prev) =>
      (match sw
       case Quarantine | Existing => BeforeLink(s, prev)
       case Verify =>
         && Dead(s, prev) && Stale(prev) in s.fs.names && s.fs.names[Stale(prev)] in s.fs.files
         && (s.fs.files[s.fs.names[Stale(prev)]].tok == prev ==> ClaimBy(s.fs, s.issued[prev]))
       case SameInode | Unlink => Dead(s, prev) && ClaimBy(s.fs, s.issued[prev])
       case Withdraw => true)
    case _ => true
  }

  predicate HasTok(pc: Pc) { !pc.Idle? }

  /** Points at which a published card is still in place. */
  predicate CardPoint(pc: Pc) {
    match pc
    case Owner(o) => o == Held || o == PubTidy(true) || o == AbRead || o == AbCard
    case Sweeping(sw) => true
    case _ => false
  }

  predicate KnowsToken(s: State, p: Pid, pr: Proc) {
    HasTok(pr.pc) ==> pr.tok != NO_TOKEN && pr.tok in s.issued && s.issued[pr.tok] == p
  }

  /** The claim body is known to be written in full. */
  predicate Filled(pc: Pc) { pc.Write? ==> pc.w == Finish }

  predicate KnowsClaim(fs: Fs, p: Pid, pr: Proc) {
    Owning(pr.pc) ==>
      && Claim in fs.names && fs.names[Claim] == pr.ino && pr.ino in fs.files
      && fs.files[pr.ino].who == p && fs.files[pr.ino].tok == pr.tok
      && (Filled(pr.pc) ==> fs.files[pr.ino].complete)
  }

  predicate KnowsLock(fs: Fs, p: Pid, pr: Proc) {
    && (HasFd(pr.pc) ==> LockFile in fs.names && fs.names[LockFile] == pr.fd)
    && (Locked(pr.pc) ==> pr.fd in fs.locks && fs.locks[pr.fd] == p)
  }

  predicate KnowsCard(fs: Fs, p: Pid, pr: Proc) {
    pr.ownedCard ==> CardPoint(pr.pc) && Card in fs.names && fs.names[Card] in fs.files && fs.files[fs.names[Card]].who == p
  }

  predicate KnowsTmp(fs: Fs, p: Pid, pr: Proc) {
    && (pr.pc == Sweeping(SwReread) || pr.pc == Sweeping(SwMove) ==> ClaimTmp(pr.tok) in fs.names ==>
          fs.names[ClaimTmp(pr.tok)] in fs.files && fs.files[fs.names[ClaimTmp(pr.tok)]] == File(p, pr.tok, true, true))
    && (pr.pc == Owner(PubLink) ==> CardTmp(pr.tok) in fs.names ==>
          fs.names[CardTmp(pr.tok)] in fs.files && fs.files[fs.names[CardTmp(pr.tok)]].who == p)
  }

  /** What a living process knows at its program point. */
  predicate Knows(s: State, p: Pid) {
    p in s.procs &&
    var fs, pr := s.fs, s.procs[p];
    KnowsToken(s, p, pr) && KnowsClaim(fs, p, pr) && KnowsLock(fs, p, pr) && KnowsCard(fs, p, pr) && KnowsTmp(fs, p, pr)
    && TakeInv(s, pr.pc)
  }

  /** Names whose bodies carry a token that was issued. */
  predicate ClaimLike(n: Name) { n.Claim? || n.Stale? }

  /** Facts about the directory alone. */
  ghost predicate Sound(s: State) {
    && (!s.fs.dir ==> s.fs.names == map[])
    && (forall n :: n in s.fs.names ==> s.fs.names[n] in s.fs.files)
    && (forall i :: i in s.fs.files && s.fs.files[i].tok != NO_TOKEN ==>
          s.fs.files[i].tok in s.issued && s.issued[s.fs.files[i].tok] == s.fs.files[i].who)
    && (forall n :: n in s.fs.names && ClaimLike(n) ==> s.fs.files[s.fs.names[n]].tok != NO_TOKEN)
    && (forall t :: t in s.issued ==> t != NO_TOKEN && s.issued[t] in s.procs)
    && (forall t :: Stale(t) in s.fs.names ==> Dead(s, t))
  }

  ghost predicate Inv(s: State) { Sound(s) && forall p :: Alive(s, p) ==> Knows(s, p) }

  /** The guarantee: what one call of p may do to the directory. */
  ghost predicate Permitted(s: State, p: Pid, op: Op)
    requires p in s.procs
  {
    var fs, pr := s.fs, s.procs[p];
    match op
    case Nop => true
    case MakeDir => true
    case RemoveDir => true
    case Make(n, i, f) =>
      && fs.dir && n !in fs.names && i !in fs.files && f.who == p
      && (f.tok != NO_TOKEN ==> f.tok in s.issued && s.issued[f.tok] == p)
      && (n == Claim || n == LockFile || (pr.tok != NO_TOKEN && pr.tok in s.issued && s.issued[pr.tok] == p
                                          && (n == CardTmp(pr.tok) || n == ClaimTmp(pr.tok) || n == TakingTmp(pr.tok))))
      && (n == Claim ==> f.tok != NO_TOKEN)
    case Fill(i) => i in fs.files && fs.files[i].who == p
    case Drop(n) =>
      (match n
       case Claim => Claim in fs.names ==> Owning(pr.pc) || (Locked(pr.pc) && exists d :: ClaimBy(fs, d) && d in s.procs && !s.procs[d].alive)
       case Card => Owning(pr.pc)
       case LockFile => false
       case Stale(_) => Locked(pr.pc)
       case CardTmp(t) => t == pr.tok || Owning(pr.pc)
       case ClaimTmp(t) => t == pr.tok
       case _ => true)
    case Link(i, n) =>
      && i in fs.files && n !in fs.names && fs.dir
      && (match n
          case Claim => Locked(pr.pc) && fs.files[i].tok != NO_TOKEN
          case Stale(t) => Locked(pr.pc) && fs.files[i].tok != NO_TOKEN && Dead(s, t)
          case Taking => true
          case Card => Owning(pr.pc)
          case _ => false)
    case Move(src, n) =>
      && n == Claim && src == ClaimTmp(pr.tok) && src in fs.names && Owning(pr.pc)
      && fs.names[src] in fs.files && fs.files[fs.names[src]].who == p && fs.files[fs.names[src]].tok == pr.tok
      && fs.files[fs.names[src]].complete
    case Acquire(i) => i !in fs.locks
    case Release(i) => i in fs.locks && fs.locks[i] == p
  }

  /** The lock has one holder: all holders opened the one inode that is never unlinked. */
  lemma LockExcludes(s: State, p: Pid, q: Pid)
    requires Inv(s) && Alive(s, p) && Alive(s, q)
    requires Locked(s.procs[p].pc) && Locked(s.procs[q].pc)
    ensures p == q
  {
    assert Knows(s, p) && Knows(s, q);
  }

  /** Two owners would have written the same body. */
  lemma OwnerIsUnique(s: State, p: Pid, q: Pid)
    requires Inv(s) && Alive(s, p) && Alive(s, q)
    requires Owning(s.procs[p].pc) && Owning(s.procs[q].pc)
    ensures p == q
  {
    assert Knows(s, p) && Knows(s, q);
  }

  /** The state after call `op` of p, whatever p then remembers. */
  function Called(s: State, p: Pid, op: Op, pr: Proc, issued: map<Token, Pid>): State {
    State(Apply(s.fs, p, op), s.procs[p := pr], issued)
  }

  function Moved(s: State, p: Pid, op: Op, pr: Proc): State { Called(s, p, op, pr, s.issued) }

  ghost predicate Extends(before: map<Token, Pid>, after: map<Token, Pid>) {
    forall t :: t in before ==> t in after && after[t] == before[t]
  }

  /** A permitted call keeps the directory sound. */
  lemma SoundKept(s: State, p: Pid, op: Op, pr: Proc, issued: map<Token, Pid>)
    requires Inv(s) && Alive(s, p) && Permitted(s, p, op) && pr.alive
    requires Extends(s.issued, issued) && (forall t :: t in issued ==> t != NO_TOKEN && issued[t] in s.procs)
    ensures Sound(Called(s, p, op, pr, issued))
  {
    assert Knows(s, p);
  }

  /** A permitted call of p does not move a claim that another living owner or a dead process wrote,
      unless p holds the lock and the writer is dead. */
  lemma ClaimKept(s: State, p: Pid, op: Op, d: Pid)
    requires Inv(s) && Alive(s, p) && Permitted(s, p, op)
    requires ClaimBy(s.fs, d) && d != p && (Alive(s, d) || !Locked(s.procs[p].pc))
    ensures ClaimBy(Apply(s.fs, p, op), d) && Apply(s.fs, p, op).names[Claim] == s.fs.names[Claim]
  {
    assert Knows(s, p);
  }

  /** Only the holder of the lock changes quarantine names. */
  lemma StaleKept(s: State, p: Pid, op: Op, t: Token)
    requires Inv(s) && Alive(s, p) && Permitted(s, p, op) && !Locked(s.procs[p].pc)
    ensures Stale(t) in Apply(s.fs, p, op).names <==> Stale(t) in s.fs.names
    ensures Stale(t) in s.fs.names ==> Apply(s.fs, p, op).names[Stale(t)] == s.fs.names[Stale(t)]
  {
  }

  predicate SameBody(before: File, after: File) {
    after.who == before.who && after.tok == before.tok && (before.complete ==> after == before)
  }

  /** Bodies keep their writer and token; a completed body stays as it is. */
  lemma BodiesKept(s: State, p: Pid, op: Op)
    requires Alive(s, p) && Permitted(s, p, op)
    ensures var files := Apply(s.fs, p, op).files;
            forall i :: i in s.fs.files ==> i in files && SameBody(s.fs.files[i], files[i])
  {
  }

  lemma OwnClaimKept(s: State, p: Pid, op: Op, q: Pid)
    requires Inv(s) && Alive(s, p) && Permitted(s, p, op) && q != p && Alive(s, q)
    ensures KnowsClaim(Apply(s.fs, p, op), q, s.procs[q])
  {
    assert Knows(s, q);
    if Owning(s.procs[q].pc) {
      ClaimKept(s, p, op, q);
      BodiesKept(s, p, op);
    }
  }

  lemma LockKept(s: State, p: Pid, op: Op, q: Pid)
    requires Inv(s) && Alive(s, p) && Permitted(s, p, op) && q != p && Alive(s, q)
    ensures KnowsLock(Apply(s.fs, p, op), q, s.procs[q])
  {
    assert Knows(s, q);
  }

  lemma CardKept(s: State, p: Pid, op: Op, q: Pid)
    requires Inv(s) && Alive(s, p) && Permitted(s, p, op) && q != p && Alive(s, q)
    ensures KnowsCard(Apply(s.fs, p, op), q, s.procs[q])
  {
    assert Knows(s, q);
    if s.procs[q].ownedCard {
      if Owning(s.procs[p].pc) { OwnerIsUnique(s, p, q); }
      BodiesKept(s, p, op);
    }
  }

  lemma TmpKept(s: State, p: Pid, op: Op, q: Pid)
    requires Inv(s) && Alive(s, p) && Permitted(s, p, op) && q != p && Alive(s, q)
    requires HasTok(s.procs[p].pc) || op == Nop
    ensures KnowsTmp(Apply(s.fs, p, op), q, s.procs[q])
  {
    assert Knows(s, q) && Knows(s, p);
    BodiesKept(s, p, op);
  }

  lemma TakeInvKept(s: State, p: Pid, op: Op, pr: Proc, issued: map<Token, Pid>, q: Pid)
    requires Inv(s) && Alive(s, p) && Permitted(s, p, op) && q != p && Alive(s, q)
    requires pr.alive && Extends(s.issued, issued)
    ensures TakeInv(Called(s, p, op, pr, issued), s.procs[q].pc)
  {
    var pc := s.procs[q].pc;
    assert Knows(s, q);
    if Locked(pc) {
      if Locked(s.procs[p].pc) { LockExcludes(s, p, q); }
      BodiesKept(s, p, op);
      forall t ensures (Stale(t) in Apply(s.fs, p, op).names <==> Stale(t) in s.fs.names)
                    && (Stale(t) in s.fs.names ==> Apply(s.fs, p, op).names[Stale(t)] == s.fs.names[Stale(t)]) {
        StaleKept(s, p, op, t);
      }
      forall d | ClaimBy(s.fs, d) && d in s.procs && !s.procs[d].alive
        ensures ClaimBy(Apply(s.fs, p, op), d) {
        ClaimKept(s, p, op, d);
      }
    }
  }

  /** A permitted call of p keeps what any other process knows. */
  lemma OthersKept(s: State, p: Pid, op: Op, pr: Proc, issued: map<Token, Pid>, q: Pid)
    requires Inv(s) && Alive(s, p) && Permitted(s, p, op) && q != p && Alive(s, q)
    requires pr.alive && Extends(s.issued, issued) && (HasTok(s.procs[p].pc) || op == Nop)
    ensures Knows(Called(s, p, op, pr, issued), q)
  {
    assert Knows(s, q);
    TakeInvKept(s, p, op, pr, issued, q);
    LockKept(s, p, op, q);
    CardKept(s, p, op, q);
    OwnClaimKept(s, p, op, q);
    TmpKept(s, p, op, q);
  }

  /** A permitted call that leaves the caller with what its next program point needs. */
  ghost predicate GoodStep(s: State, p: Pid, op: Op, pr: Proc)
    requires p in s.procs
  {
    Permitted(s, p, op) && pr.alive && Knows(Moved(s, p, op, pr), p)
  }

  /** A call of the lock holder that leaves it holding the lock and not owning the claim. */
  lemma QuietPoint(s: State, p: Pid, op: Op, pr: Proc)
    requires Inv(s) && Alive(s, p) && Locked(s.procs[p].pc) && Permitted(s, p, op) && !op.Acquire? && !op.Release?
    requires pr == s.procs[p].(pc := pr.pc) && Locked(pr.pc) && !Owning(pr.pc) && TakeInv(Moved(s, p, op, pr), pr.pc)
    ensures GoodStep(s, p, op, pr)
  {
    assert Knows(s, p);
  }

  lemma SlotStepIsGood(s: State, p: Pid, e: Env, at: SlotPoint)
    requires Inv(s) && Enabled(s, p, e) && s.procs[p].pc == Slot(at)
    ensures var (op, pr) := NextSlot(s.fs, p, s.procs[p], e, at); GoodStep(s, p, op, pr)
  {
    assert Knows(s, p);
  }

  lemma CreateStepIsGood(s: State, p: Pid, e: Env, c: Ctx)
    requires Inv(s) && Enabled(s, p, e) && s.procs[p].pc == Write(Create, c)
    ensures var (op, pr) := NextWrite(s.fs, p, s.procs[p], e, Create, c); GoodStep(s, p, op, pr)
  {
    assert Knows(s, p);
    if Claim in s.fs.names || !s.fs.dir || !e.ok {
      if c != Fresh { QuietPoint(s, p, Nop, NextWrite(s.fs, p, s.procs[p], e, Create, c).1); }
    }
  }

  lemma WriteStepIsGood(s: State, p: Pid, e: Env, w: WritePoint, c: Ctx)
    requires Inv(s) && Enabled(s, p, e) && s.procs[p].pc == Write(w, c)
    ensures var (op, pr) := NextWrite(s.fs, p, s.procs[p], e, w, c); GoodStep(s, p, op, pr)
  {
    assert Knows(s, p);
    if w == Create {
      CreateStepIsGood(s, p, e, c);
    } else if w == Undo && c != Fresh {
      QuietPoint(s, p, if e.ok then Drop(Claim) else Nop, NextWrite(s.fs, p, s.procs[p], e, w, c).1);
    }
  }

  lemma RepairStepIsGood(s: State, p: Pid, e: Env, r: RepairPoint, k: Then)
    requires Inv(s) && Enabled(s, p, e) && s.procs[p].pc == Repair(r, k)
    ensures var (op, pr) := NextRepair(s.fs, p, s.procs[p], e, r, k); GoodStep(s, p, op, pr)
  {
    assert Knows(s, p);
    var (op, pr) := NextRepair(s.fs, p, s.procs[p], e, r, k);
    QuietPoint(s, p, op, pr);
  }

  lemma PutStepIsGood(s: State, p: Pid, e: Env, put: PutPoint, t: Token, b: Restoring)
    requires Inv(s) && Enabled(s, p, e) && s.procs[p].pc == Put(put, t, b)
    ensures var (op, pr) := NextPut(s.fs, p, s.procs[p], e, put, t, b); GoodStep(s, p, op, pr)
  {
    assert Knows(s, p);
    var (op, pr) := NextPut(s.fs, p, s.procs[p], e, put, t, b);
    QuietPoint(s, p, op, pr);
  }

  lemma DecideStepIsGood(s: State, p: Pid, e: Env, d: DecidePoint)
    requires Inv(s) && Enabled(s, p, e) && s.procs[p].pc == Decide(d)
    ensures GoodStep(s, p, Nop, s.procs[p].(pc := NextDecide(s.fs, p, s.procs[p], e, d)))
  {
    assert Knows(s, p);
    var op, pr := Nop, s.procs[p].(pc := NextDecide(s.fs, p, s.procs[p], e, d));
    QuietPoint(s, p, op, pr);
  }

  lemma ElectStepIsGood(s: State, p: Pid, e: Env, l: LeasePoint, info: Inode, prev: Token)
    requires Inv(s) && Enabled(s, p, e) && s.procs[p].pc == Elect(l, info, prev)
    ensures var (op, pc) := NextElect(s.fs, p, s.procs[p], e, l, info, prev); GoodStep(s, p, op, s.procs[p].(pc := pc))
  {
    assert Knows(s, p);
    var (op, pc) := NextElect(s.fs, p, s.procs[p], e, l, info, prev);
    var pr := s.procs[p].(pc := pc);
    QuietPoint(s, p, op, pr);
  }

  lemma SwapStepIsGood(s: State, p: Pid, e: Env, sw: SwapPoint, info: Inode, prev: Token)
    requires Inv(s) && Enabled(s, p, e) && s.procs[p].pc == Swap(sw, info, prev)
    ensures var (op, pc) := NextSwap(s.fs, p, s.procs[p], e, sw, info, prev); GoodStep(s, p, op, s.procs[p].(pc := pc))
  {
    assert Knows(s, p);
    var (op, pc) := NextSwap(s.fs, p, s.procs[p], e, sw, info, prev);
    var pr := s.procs[p].(pc := pc);
    QuietPoint(s, p, op, pr);
  }

  /** A call of an owner that leaves claim.json alone keeps its claim. */
  lemma OwnClaimStays(s: State, p: Pid, op: Op, pr: Proc)
    requires Alive(s, p) && Knows(s, p) && Permitted(s, p, op) && Owning(s.procs[p].pc) && Filled(s.procs[p].pc)
    requires op != Drop(Claim) && !op.Move? && pr.ino == s.procs[p].ino && pr.tok == s.procs[p].tok && Filled(pr.pc)
    ensures KnowsClaim(Apply(s.fs, p, op), p, pr)
  {
  }

  lemma ClearCalls(s: State, p: Pid, e: Env, cl: ClearPoint, prev: Token)
    requires Inv(s) && Enabled(s, p, e) && s.procs[p].pc == Clear(cl, prev)
    ensures Permitted(s, p, NextClear(s.fs, p, s.procs[p], e, cl, prev).0)
  {
    assert Knows(s, p);
  }

  lemma ClearStepIsGood(s: State, p: Pid, e: Env, cl: ClearPoint, prev: Token)
    requires Inv(s) && Enabled(s, p, e) && s.procs[p].pc == Clear(cl, prev)
    ensures var (op, pc) := NextClear(s.fs, p, s.procs[p], e, cl, prev); GoodStep(s, p, op, s.procs[p].(pc := pc))
  {
    ClearCalls(s, p, e, cl, prev);
    assert Knows(s, p);
    var (op, pc) := NextClear(s.fs, p, s.procs[p], e, cl, prev);
    OwnClaimStays(s, p, op, s.procs[p].(pc := pc));
  }

  /** A good step put together from its parts, for an owner that holds no lock. */
  lemma OwnerPointHolds(s: State, p: Pid, op: Op, pr: Proc)
    requires Alive(s, p) && Knows(s, p) && Returned(s.procs[p].pc) && Permitted(s, p, op) && pr.alive && pr.tok == s.procs[p].tok
    requires Returned(pr.pc) || pr.pc == Leaving || pr.pc == Idle
    requires KnowsClaim(Apply(s.fs, p, op), p, pr) && KnowsCard(Apply(s.fs, p, op), p, pr) && KnowsTmp(Apply(s.fs, p, op), p, pr)
    ensures GoodStep(s, p, op, pr)
  {
    var t := Moved(s, p, op, pr);
    assert t.fs == Apply(s.fs, p, op) && t.procs[p] == pr && t.issued == s.issued;
    assert KnowsToken(t, p, pr) && !HasFd(pr.pc);
    assert TakeInv(t, pr.pc);
  }

  /** What an owner's step does to its own record. */
  lemma OwnerMoves(s: State, p: Pid, e: Env, o: OwnerPoint)
    requires Alive(s, p) && s.procs[p].pc == Owner(o)
    ensures var (op, pr) := NextOwner(s.fs, p, s.procs[p], e, o);
            && pr.alive && pr.tok == s.procs[p].tok && pr.ino == s.procs[p].ino && !op.Move?
            && !HasFd(pr.pc) && (op == Drop(Claim) ==> pr.pc == Leaving)
            && (pr.pc.Idle? || pr.pc == Leaving || pr.pc.Owner? || pr.pc == Sweeping(SwRead))
  {
  }

  lemma OwnerCalls(s: State, p: Pid, e: Env, o: OwnerPoint)
    requires Alive(s, p) && Knows(s, p) && e.ino !in s.fs.files && s.procs[p].pc == Owner(o) && Sound(s)
    ensures Permitted(s, p, NextOwner(s.fs, p, s.procs[p], e, o).0)
  {
  }

  lemma OwnerCards(s: State, p: Pid, e: Env, o: OwnerPoint)
    requires Alive(s, p) && Knows(s, p) && e.ino !in s.fs.files && s.procs[p].pc == Owner(o)
    requires forall n :: n in s.fs.names ==> s.fs.names[n] in s.fs.files
    ensures var (op, pr) := NextOwner(s.fs, p, s.procs[p], e, o);
            KnowsCard(Apply(s.fs, p, op), p, pr) && KnowsTmp(Apply(s.fs, p, op), p, pr)
  {
  }

  lemma OwnerStepIsGood(s: State, p: Pid, e: Env, o: OwnerPoint)
    requires Inv(s) && Enabled(s, p, e) && s.procs[p].pc == Owner(o)
    ensures var (op, pr) := NextOwner(s.fs, p, s.procs[p], e, o); GoodStep(s, p, op, pr)
  {
    assert Knows(s, p);
    OwnerMoves(s, p, e, o);
    OwnerCalls(s, p, e, o);
    OwnerCards(s, p, e, o);
    var (op, pr) := NextOwner(s.fs, p, s.procs[p], e, o);
    if Owning(pr.pc) { OwnClaimStays(s, p, op, pr); }
    OwnerPointHolds(s, p, op, pr);
  }

  lemma SweepCalls(s: State, p: Pid, e: Env, sw: SweepPoint)
    requires Alive(s, p) && Knows(s, p) && e.ino !in s.fs.files && s.procs[p].pc == Sweeping(sw)
    ensures var (op, pr) := NextSweep(s.fs, p, s.procs[p], e, sw);
            && Permitted(s, p, op) && pr.alive && pr.tok == s.procs[p].tok && op != Drop(Claim)
            && (!op.Move? ==> pr.ino == s.procs[p].ino)
            && (pr.pc.Sweeping? || pr.pc == Owner(AbRead))
  {
  }

  lemma SweepMoves(s: State, p: Pid, e: Env)
    requires Alive(s, p) && Knows(s, p) && s.procs[p].pc == Sweeping(SwMove)
    ensures var (op, pr) := NextSweep(s.fs, p, s.procs[p], e, SwMove);
            KnowsClaim(Apply(s.fs, p, op), p, pr) && KnowsCard(Apply(s.fs, p, op), p, pr) && KnowsTmp(Apply(s.fs, p, op), p, pr)
  {
  }

  lemma SweepCards(s: State, p: Pid, e: Env, sw: SweepPoint)
    requires Alive(s, p) && Knows(s, p) && e.ino !in s.fs.files && s.procs[p].pc == Sweeping(sw) && sw != SwMove
    ensures var (op, pr) := NextSweep(s.fs, p, s.procs[p], e, sw);
            KnowsCard(Apply(s.fs, p, op), p, pr) && KnowsTmp(Apply(s.fs, p, op), p, pr) && !op.Move?
  {
  }

  lemma SweepStepIsGood(s: State, p: Pid, e: Env, sw: SweepPoint)
    requires Inv(s) && Enabled(s, p, e) && s.procs[p].pc == Sweeping(sw)
    ensures var (op, pr) := NextSweep(s.fs, p, s.procs[p], e, sw); GoodStep(s, p, op, pr)
  {
    assert Knows(s, p);
    SweepCalls(s, p, e, sw);
    var (op, pr) := NextSweep(s.fs, p, s.procs[p], e, sw);
    if sw == SwMove {
      SweepMoves(s, p, e);
    } else {
      SweepCards(s, p, e, sw);
      OwnClaimStays(s, p, op, pr);
    }
    OwnerPointHolds(s, p, op, pr);
  }

  lemma LeaseDropIsGood(s: State, p: Pid, e: Env)
    requires Inv(s) && Enabled(s, p, e) && s.procs[p].pc.LeaseDrop?
    ensures GoodStep(s, p, Next(s.fs, p, s.procs[p], e).0, Next(s.fs, p, s.procs[p], e).1)
  {
    assert Knows(s, p);
  }

  lemma EndStepIsGood(s: State, p: Pid, e: Env)
    requires Inv(s) && Enabled(s, p, e) && (s.procs[p].pc.ElectUndo? || s.procs[p].pc.Unlock? || s.procs[p].pc == Leaving)
    ensures GoodStep(s, p, Next(s.fs, p, s.procs[p], e).0, Next(s.fs, p, s.procs[p], e).1)
  {
    assert Knows(s, p);
  }

  /** Each step makes a permitted call and leaves the acting process with what its next point needs. */
  lemma StepIsGood(s: State, p: Pid, e: Env, op: Op, pr: Proc)
    requires Inv(s) && Enabled(s, p, e) && !s.procs[p].pc.Idle? && (op, pr) == Next(s.fs, p, s.procs[p], e)
    ensures GoodStep(s, p, op, pr)
  {
    match s.procs[p].pc
    case Slot(at) => SlotStepIsGood(s, p, e, at);
    case Write(w, c) => WriteStepIsGood(s, p, e, w, c);
    case Repair(r, k) => RepairStepIsGood(s, p, e, r, k);
    case Put(put, t, b) => PutStepIsGood(s, p, e, put, t, b);
    case Decide(d) => DecideStepIsGood(s, p, e, d);
    case Elect(l, info, prev) => ElectStepIsGood(s, p, e, l, info, prev);
    case Swap(sw, info, prev) => SwapStepIsGood(s, p, e, sw, info, prev);
    case Clear(cl, prev) => ClearStepIsGood(s, p, e, cl, prev);
    case Owner(o) => OwnerStepIsGood(s, p, e, o);
    case Sweeping(sw) => SweepStepIsGood(s, p, e, sw);
    case LeaseDrop(_) => LeaseDropIsGood(s, p, e);
    case ElectUndo(_) | Unlock(_) | Leaving => EndStepIsGood(s, p, e);
  }

  /** Guarantee and rely meet: a good step of one process keeps the whole invariant. */
  lemma GoodStepKeepsInv(s: State, p: Pid, op: Op, pr: Proc, issued: map<Token, Pid>)
    requires Inv(s) && Alive(s, p) && Permitted(s, p, op) && pr.alive
    requires Extends(s.issued, issued) && (forall t :: t in issued ==> t != NO_TOKEN && issued[t] in s.procs)
    requires HasTok(s.procs[p].pc) || op == Nop
    requires Knows(Called(s, p, op, pr, issued), p)
    ensures Inv(Called(s, p, op, pr, issued))
  {
    var s' := Called(s, p, op, pr, issued);
    SoundKept(s, p, op, pr, issued);
    forall q | Alive(s', q) ensures Knows(s', q) {
      if q != p { OthersKept(s, p, op, pr, issued, q); }
    }
  }

  lemma StepKeepsInv(s: State, p: Pid, e: Env)
    requires Inv(s) && Enabled(s, p, e)
    ensures Inv(Act(s, p, e))
  {
    var (op, pr) := Next(s.fs, p, s.procs[p], e);
    if s.procs[p].pc.Idle? {
      assert Knows(s, p);
      GoodStepKeepsInv(s, p, op, pr, s.issued[e.newTok := p]);
    } else {
      StepIsGood(s, p, e, op, pr);
      GoodStepKeepsInv(s, p, op, pr, s.issued);
    }
  }

  /** Death releases the locks of the dead process and nothing else. */
  lemma DeathKeepsInv(s: State, p: Pid)
    requires Inv(s) && Alive(s, p)
    ensures Inv(Die(s, p))
  {
    forall q | Alive(Die(s, p), q) ensures Knows(Die(s, p), q) {
      assert Knows(s, q);
    }
  }

  lemma SpawnKeepsInv(s: State, p: Pid)
    requires Inv(s) && p !in s.procs
    ensures Inv(After(s, Spawn(p)))
  {
    forall q | Alive(After(s, Spawn(p)), q) ensures Knows(After(s, Spawn(p)), q) {
      if q != p { assert Knows(s, q); }
    }
  }

  lemma {:induction false} RunKeepsInv(states: seq<State>, events: seq<Event>, i: nat)
    requires Run(states, events) && i <= |events|
    ensures Inv(states[i])
  {
    if i == 0 {
    } else {
      RunKeepsInv(states, events, i - 1);
      var s, ev := states[i - 1], events[i - 1];
      assert Possible(s, ev) && states[i] == After(s, ev);
      match ev
      case Spawn(p) => SpawnKeepsInv(s, p);
      case Death(p) => DeathKeepsInv(s, p);
      case Step(p, e) => StepKeepsInv(s, p, e);
    }
  }

  /**
   The slot theorem. In every state of every run: a living process that claimRunSlot
   gave a token and that has not abandoned it finds its own complete claim, with that
   token, under claim.json.
   */
  lemma OwnerKeepsClaim(states: seq<State>, events: seq<Event>, i: nat, p: Pid)
    requires Run(states, events) && i <= |events|
    requires Alive(states[i], p) && Returned(states[i].procs[p].pc)
    ensures Carries(states[i].fs, states[i].procs[p].tok) && Read(states[i].fs, Claim).value.who == p
  {
    RunKeepsInv(states, events, i);
    assert Knows(states[i], p);
  }

  /** At most one living process owns the slot in any state of any run. */
  lemma AtMostOneOwner(states: seq<State>, events: seq<Event>, i: nat, p: Pid, q: Pid)
    requires Run(states, events) && i <= |events|
    requires Alive(states[i], p) && Returned(states[i].procs[p].pc)
    requires Alive(states[i], q) && Returned(states[i].procs[q].pc)
    ensures p == q
  {
    RunKeepsInv(states, events, i);
    OwnerIsUnique(states[i], p, q);
  }

  /**
   No step of another process and no death of another process removes or replaces the
   claim of a living owner, or the card it published.
   */
  lemma NoOneElseReplaces(states: seq<State>, events: seq<Event>, i: nat, p: Pid)
    requires Run(states, events) && i < |events| && events[i].p != p
    requires Alive(states[i], p) && Returned(states[i].procs[p].pc)
    ensures Alive(states[i + 1], p) && Claim in states[i].fs.names && Claim in states[i + 1].fs.names
    ensures states[i + 1].fs.names[Claim] == states[i].fs.names[Claim]
    ensures states[i].procs[p].ownedCard ==> KnowsCard(states[i + 1].fs, p, states[i].procs[p])
  {
    RunKeepsInv(states, events, i);
    RunKeepsInv(states, events, i + 1);
    assert Possible(states[i], events[i]) && states[i + 1] == After(states[i], events[i]);
    assert Knows(states[i], p) && Knows(states[i + 1], p);
  }
}
