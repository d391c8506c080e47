/**
 The run-slot protocol of `internal/processrun` as a labelled transition system.

 Many processes compete for one `<runtime>/proc/<run_id>` directory. A process is
 a program counter plus the locals the code carries between two system calls; one
 step of the system is one system call (or one question to the liveness oracle) of
 one process, so every interleaving at system-call granularity is a run, and a
 process may die between any two of its steps.

 Outcomes the code does not control are in `Env`: whether a call fails, what the
 liveness oracle answers, which token and inode are handed out, what a directory
 listing returns and what the owner decides to do next.
 */
module SlotModel {
  import opened Wrappers

  /** One process instance, standing for the pair (pid, started_at). */
  type Pid = nat
  type Token = nat
  type Inode = nat

  /** The token read from a file that carries none (card.json). Never issued. */
  const NO_TOKEN: Token := 0

  /** The entries of a run directory. */
  datatype Name =
    | Claim                    // claim.json
    | Card                     // card.json
    | LockFile                 // reclaim.lock
    | Taking                   // claim.taking
    | Stale(tok: Token)        // claim.stale.<tok>
    | TakingTmp(tok: Token)    // claim.taking.<tok>.tmp
    | CardTmp(tok: Token)      // card.<tok>.tmp
    | ClaimTmp(tok: Token)     // claim.json.tmp.<tok>

  /** A file body: who wrote it and the token inside. An incomplete body does not parse. */
  datatype File = File(who: Pid, tok: Token, complete: bool, exited: bool)

  /** A run directory: its entries, the file bodies, and the kernel's lock table. */
  datatype Fs = Fs(dir: bool, names: map<Name, Inode>, files: map<Inode, File>, locks: map<Inode, Pid>)

  /** What one system call did to the directory. */
  datatype Op =
    | Nop
    | MakeDir
    | RemoveDir
    | Make(n: Name, i: Inode, f: File)   // exclusive create
    | Fill(i: Inode)                     // the write that completes a body
    | Drop(n: Name)                      // unlink
    | Link(i: Inode, n: Name)            // hard link to a free name
    | Move(src: Name, n: Name)           // rename over n
    | Acquire(i: Inode)                  // advisory lock
    | Release(i: Inode)

  function Apply(fs: Fs, p: Pid, op: Op): Fs {
    match op
    case Nop => fs
    case MakeDir => fs.(dir := true)
    case RemoveDir => if fs.names == map[] then fs.(dir := false) else fs
    case Make(n, i, f) => fs.(names := fs.names[n := i], files := fs.files[i := f])
    case Fill(i) => if i in fs.files then fs.(files := fs.files[i := fs.files[i].(complete := true)]) else fs
    case Drop(n) => fs.(names := fs.names - {n})
    case Link(i, n) => fs.(names := fs.names[n := i])
    case Move(src, n) => if src in fs.names then fs.(names := fs.names[n := fs.names[src]] - {src}) else fs
    case Acquire(i) => fs.(locks := fs.locks[i := p])
    case Release(i) => fs.(locks := fs.locks - {i})
  }

  /** The outcome of one claim attempt. */
  datatype Outcome = Owned | Exists | Again | Setup

  /** From where the exclusive write of claim.json was called. */
  datatype Ctx = Fresh | Install | Take(prev: Token)

  /** From where the crash repair was called. */
  datatype Then = ToOwner | ToInstall | ToTake

  /** From where a quarantine is put back. */
  datatype Restoring = FromList(k: Then, queue: seq<Token>) | FromTake

  // The program points, grouped as the code's functions are.

  datatype SlotPoint = TryMkdir | FreshLock | FreshStat | FreshRmdir | LockMkdir | LockOpen | Flock

  datatype WritePoint = Create | Body | Finish | Undo

  datatype RepairPoint =
    | Lease | Stat | Parse(info: Inode) | Judge(info: Inode, who: Pid, tok: Token) | Compare(info: Inode, tok: Token)
    | Unquarantine(tok: Token) | List | Each(queue: seq<Token>) | Ask(t: Token, who: Pid, queue: seq<Token>) | Check(queue: seq<Token>)

  datatype PutPoint = PutStat | PutLink | PutDrop

  datatype DecidePoint =
    | OwnerClaim | OwnerCard | OwnerAsk(who: Pid) | InstallStat | TakeStat0 | TakeStat | TakeParse(info: Inode)
    | TakeAsk(info: Inode, who: Pid, prev: Token)

  datatype LeasePoint = ClearTaking | MakeTmp | Publish | Tidy | ReadBack

  datatype SwapPoint = Quarantine | Existing | Verify | SameInode | Unlink | Withdraw

  datatype ClearPoint = ClearCard | ClearLease | Listing | Entry(entries: seq<Name>) | ClearStale

  datatype OwnerPoint = Held | PubRead | PubTmp | PubLink | PubTidy(linked: bool) | AbRead | AbCard | AbClaim

  datatype SweepPoint = SwRead | SwCard | SwRead2 | SwTmp | SwReread | SwMove | SwTidy | Swept

  datatype Pc =
    | Idle
    | Slot(at: SlotPoint)                                 // fresh slot, and taking reclaim.lock
    | Write(w: WritePoint, c: Ctx)                        // exclusive write of claim.json
    | Repair(r: RepairPoint, k: Then)                     // crash repair, lock held
    | Put(put: PutPoint, t: Token, b: Restoring)          // putting a quarantine back, lock held
    | Decide(d: DecidePoint)                              // who owns the slot, lock held
    | Elect(l: LeasePoint, info: Inode, prev: Token)      // claim.taking, lock held
    | ElectUndo(res: Outcome)
    | Swap(s: SwapPoint, info: Inode, prev: Token)        // quarantine and removal of the stale claim, lock held
    | Clear(cl: ClearPoint, prev: Token)                  // residue of the dead owner, lock held
    | LeaseDrop(res: Outcome)
    | Unlock(res: Outcome)
    | Owner(o: OwnerPoint)
    | Sweeping(sw: SweepPoint)
    | Leaving                                             // rmdir after an abandoned setup

  /**
   A process. `ino` is the inode of the claim body it wrote last, `fd` the inode of
   the lock file it opened.
   */
  datatype Proc = Proc(alive: bool, tok: Token, ino: Inode, fd: Inode, ownedCard: bool, pc: Pc)

  datatype Want = DoPublish | DoSweep | DoAbandon

  /**
   The answers of the outside world to one step: `ok` false makes the call fail with
   an I/O error, `live` is the set of identities the oracle calls live, `same` lets
   two different files compare equal (a recycled inode number).
   */
  datatype Env = Env(ok: bool, live: set<Pid>, same: bool, newTok: Token, ino: Inode,
                     stale: seq<Token>, entries: seq<Name>, want: Want)

  datatype State = State(fs: Fs, procs: map<Pid, Proc>, issued: map<Token, Pid>)

  predicate Alive(s: State, p: Pid) { p in s.procs && s.procs[p].alive }

  predicate StrictlyIncreasing(ts: seq<Token>) { forall i, j :: 0 <= i < j < |ts| ==> ts[i] < ts[j] }

  /**
   The oracle never calls a living process dead; tokens and inodes are new; a
   directory listing is exact, and sorted as os.ReadDir sorts it.
   */
  ghost predicate Enabled(s: State, p: Pid, e: Env) {
    && Alive(s, p)
    && (forall q :: q in s.procs && s.procs[q].alive ==> q in e.live)
    && e.newTok != NO_TOKEN && e.newTok !in s.issued
    && e.ino !in s.fs.files
    && (forall t :: t in e.stale <==> Stale(t) in s.fs.names) && StrictlyIncreasing(e.stale)
    && (forall n :: n in e.entries <==> n in s.fs.names)
  }

  /** readClaimFile: the body under a name, if it is there and parses. */
  function Read(fs: Fs, n: Name): (r: Option<File>) {
    if n in fs.names && fs.names[n] in fs.files && fs.files[fs.names[n]].complete
    then Some(fs.files[fs.names[n]])
    else None
  }

  /** stillOwnClaim: claim.json parses and carries the token. */
  predicate Carries(fs: Fs, tok: Token) { Read(fs, Claim).Some? && Read(fs, Claim).value.tok == tok }

  predicate Same(e: Env, i: Inode, j: Inode) { i == j || e.same }

  function AfterRepair(k: Then, changed: bool): Pc {
    match k
    case ToOwner => Decide(OwnerClaim)
    case ToInstall => if changed then Unlock(Again) else Write(Create, Install)
    case ToTake => Decide(TakeStat)
  }

  function AfterPut(b: Restoring): Pc {
    match b
    case FromList(k, queue) => Repair(Check(queue), k)
    case FromTake => LeaseDrop(Setup)
  }

  function AfterCollision(c: Ctx): Pc {
    match c case Fresh => Slot(FreshStat) case Install => Unlock(Again) case Take(_) => LeaseDrop(Again)
  }

  function AfterFailure(c: Ctx): Pc {
    match c case Fresh => Slot(FreshStat) case Install => Unlock(Setup) case Take(prev) => Put(PutStat, prev, FromTake)
  }

  function AfterWrite(c: Ctx): Pc {
    match c case Fresh => Owner(Held) case Install => Unlock(Owned) case Take(prev) => Clear(ClearCard, prev)
  }

  /** clearSlotOwnedResidue's filter; reclaim.lock is never in it. */
  predicate Residue(n: Name) { n.Taking? || n.Stale? || n.TakingTmp? || n.CardTmp? }

  /** The fresh-slot path and the lock acquisition of claimRunSlot. */
  function NextSlot(fs: Fs, p: Pid, pr: Proc, e: Env, at: SlotPoint): (Op, Proc) {
    match at
    case TryMkdir =>
      if !fs.dir && e.ok then (MakeDir, pr.(pc := Slot(FreshLock)))
      else (Nop, pr.(pc := if fs.dir then Slot(LockMkdir) else Idle))
    case FreshLock =>
      (if fs.dir && LockFile !in fs.names && e.ok then Make(LockFile, e.ino, File(p, NO_TOKEN, true, false)) else Nop,
       pr.(pc := Write(Create, Fresh)))
    case FreshStat => (Nop, pr.(pc := if Claim !in fs.names then Slot(FreshRmdir) else Idle))
    case FreshRmdir => (if e.ok then RemoveDir else Nop, pr.(pc := Idle))
    case LockMkdir => if e.ok then (MakeDir, pr.(pc := Slot(LockOpen))) else (Nop, pr.(pc := Idle))
    case LockOpen =>
      if !fs.dir || !e.ok then (Nop, pr.(pc := Idle))
      else if LockFile in fs.names then (Nop, pr.(pc := Slot(Flock), fd := fs.names[LockFile]))
      else (Make(LockFile, e.ino, File(p, NO_TOKEN, true, false)), pr.(pc := Slot(Flock), fd := e.ino))
    case Flock =>
      if pr.fd !in fs.locks && e.ok then (Acquire(pr.fd), pr.(pc := Repair(Lease, ToOwner)))
      else (Nop, pr.(pc := Idle))
  }

  /** writeClaimExclusive. */
  function NextWrite(fs: Fs, p: Pid, pr: Proc, e: Env, w: WritePoint, c: Ctx): (Op, Proc) {
    match w
    case Create =>
      if Claim in fs.names then (Nop, pr.(pc := AfterCollision(c)))
      else if !fs.dir || !e.ok then (Nop, pr.(pc := AfterFailure(c)))
      else (Make(Claim, e.ino, File(p, pr.tok, false, false)), pr.(pc := Write(Body, c), ino := e.ino))
    case Body => if e.ok then (Fill(pr.ino), pr.(pc := Write(Finish, c))) else (Nop, pr.(pc := Write(Undo, c)))
    case Finish => (Nop, pr.(pc := if e.ok then AfterWrite(c) else Write(Undo, c)))
    case Undo => (if e.ok then Drop(Claim) else Nop, pr.(pc := AfterFailure(c)))
  }

  /** recoverOrphanTakeoverState. */
  function NextRepair(fs: Fs, p: Pid, pr: Proc, e: Env, r: RepairPoint, k: Then): (Op, Proc) {
    match r
    case Lease =>
      var dead := match Read(fs, Taking) case Some(f) => f.who !in e.live case None => true;
      (if Taking in fs.names && dead && e.ok then Drop(Taking) else Nop, pr.(pc := Repair(Stat, k)))
    case Stat =>
      if !e.ok then (Nop, pr.(pc := AfterRepair(k, false)))
      else (Nop, pr.(pc := Repair(if Claim in fs.names then Parse(fs.names[Claim]) else List, k)))
    case Parse(info) =>
      (Nop, pr.(pc := match Read(fs, Claim)
                      case Some(f) => if e.ok then Repair(Judge(info, f.who, f.tok), k) else AfterRepair(k, false)
                      case None => AfterRepair(k, false)))
    case Judge(info, who, tok) =>
      (Nop, pr.(pc := if who in e.live then AfterRepair(k, false) else Repair(Compare(info, tok), k)))
    case Compare(info, tok) =>
      (Nop, pr.(pc := if Stale(tok) in fs.names && e.ok && Same(e, info, fs.names[Stale(tok)])
                      then Repair(Unquarantine(tok), k) else AfterRepair(k, false)))
    case Unquarantine(tok) => (if e.ok then Drop(Stale(tok)) else Nop, pr.(pc := AfterRepair(k, true)))
    case List => (Nop, pr.(pc := if e.ok then Repair(Each(e.stale), k) else AfterRepair(k, false)))
    case Each(queue) =>
      (Nop, pr.(pc := if queue == [] then AfterRepair(k, false)
                      else match Read(fs, Stale(queue[0]))
                           case Some(f) => Repair(if e.ok then Ask(queue[0], f.who, queue[1..]) else Each(queue[1..]), k)
                           case None => Repair(Each(queue[1..]), k)))
    case Ask(t, who, queue) =>
      (Nop, pr.(pc := if who in e.live then Repair(Each(queue), k) else Put(PutStat, t, FromList(k, queue))))
    case Check(queue) =>
      (Nop, pr.(pc := if Claim in fs.names && e.ok then AfterRepair(k, true) else Repair(Each(queue), k)))
  }

  /** restoreClaimFromQuarantine. */
  function NextPut(fs: Fs, p: Pid, pr: Proc, e: Env, put: PutPoint, t: Token, b: Restoring): (Op, Proc) {
    match put
    case PutStat => (Nop, pr.(pc := if Claim !in fs.names && e.ok then Put(PutLink, t, b) else AfterPut(b)))
    case PutLink =>
      if Stale(t) in fs.names && Claim !in fs.names && e.ok
      then (Link(fs.names[Stale(t)], Claim), pr.(pc := Put(PutDrop, t, b)))
      else (Nop, pr.(pc := AfterPut(b)))
    case PutDrop => (if e.ok then Drop(Stale(t)) else Nop, pr.(pc := AfterPut(b)))
  }

  /** Who owns the slot: claimExistingUnderLock and the re-read of staleTakeoverLocked. */
  function NextDecide(fs: Fs, p: Pid, pr: Proc, e: Env, d: DecidePoint): Pc {
    match d
    case OwnerClaim =>
      (match Read(fs, Claim)
       case Some(f) => if e.ok then Decide(OwnerAsk(f.who)) else Decide(OwnerCard)
       case None => Decide(OwnerCard))
    case OwnerCard =>
      if !e.ok then Unlock(Setup)
      else (match Read(fs, Card) case Some(f) => Decide(OwnerAsk(f.who)) case None => Decide(InstallStat))
    case OwnerAsk(who) => if who in e.live then Unlock(Exists) else Decide(TakeStat0)
    case InstallStat => if Claim !in fs.names && e.ok then Repair(Lease, ToInstall) else Unlock(Again)
    case TakeStat0 => if Claim !in fs.names && e.ok then Repair(Lease, ToTake) else Decide(TakeStat)
    case TakeStat =>
      if !e.ok then Unlock(Setup)
      else if Claim in fs.names then Decide(TakeParse(fs.names[Claim])) else Unlock(Again)
    case TakeParse(info) =>
      if !e.ok then Unlock(Setup)
      else (match Read(fs, Claim) case Some(f) => Decide(TakeAsk(info, f.who, f.tok)) case None => Unlock(Again))
    case TakeAsk(info, who, prev) => if who in e.live then Unlock(Exists) else Elect(ClearTaking, info, prev)
  }

  /** electReclaimLease: the diagnostic claim.taking file. */
  function NextElect(fs: Fs, p: Pid, pr: Proc, e: Env, l: LeasePoint, info: Inode, prev: Token): (Op, Pc) {
    match l
    case ClearTaking => (if e.ok then Drop(Taking) else Nop, Elect(MakeTmp, info, prev))
    case MakeTmp =>
      if fs.dir && TakingTmp(pr.tok) !in fs.names && e.ok
      then (Make(TakingTmp(pr.tok), e.ino, File(p, pr.tok, true, false)), Elect(Publish, info, prev))
      else (Nop, Unlock(Setup))
    case Publish =>
      if Taking in fs.names then (Nop, ElectUndo(Again))
      else if TakingTmp(pr.tok) in fs.names && e.ok
      then (Link(fs.names[TakingTmp(pr.tok)], Taking), Elect(Tidy, info, prev))
      else (Nop, ElectUndo(Setup))
    case Tidy => (if e.ok then Drop(TakingTmp(pr.tok)) else Nop, Elect(ReadBack, info, prev))
    case ReadBack =>
      if e.ok && Read(fs, Taking).Some? && Read(fs, Taking).value.tok == pr.tok
      then (Nop, Swap(Quarantine, info, prev)) else (Nop, Unlock(Setup))
  }

  /** staleTakeoverLocked: quarantine the stale claim and remove it. */
  function NextSwap(fs: Fs, p: Pid, pr: Proc, e: Env, s: SwapPoint, info: Inode, prev: Token): (Op, Pc) {
    match s
    case Quarantine =>
      if Claim in fs.names && Stale(prev) !in fs.names && e.ok
      then (Link(fs.names[Claim], Stale(prev)), Swap(Verify, info, prev))
      else (Nop, Swap(Existing, info, prev))
    case Existing =>
      (Nop, match Read(fs, Stale(prev))
            case Some(f) =>
              if e.ok && f.tok == prev && Same(e, info, fs.names[Stale(prev)])
              then (if f.who in e.live then LeaseDrop(Exists) else Swap(Unlink, info, prev))
              else LeaseDrop(Setup)
            case None => LeaseDrop(Setup))
    case Verify =>
      (Nop, match Read(fs, Stale(prev))
            case Some(f) => Swap(if e.ok && f.tok == prev then SameInode else Withdraw, info, prev)
            case None => Swap(Withdraw, info, prev))
    case SameInode =>
      if e.ok && Claim in fs.names && Stale(prev) in fs.names && Same(e, info, fs.names[Claim]) && Same(e, info, fs.names[Stale(prev)])
      then (Nop, Swap(Unlink, info, prev))
      else if e.ok && Claim in fs.names && !Same(e, info, fs.names[Claim]) then (Nop, Swap(Withdraw, info, prev))
      else (Nop, LeaseDrop(Again))
    case Withdraw => (if e.ok then Drop(Stale(prev)) else Nop, LeaseDrop(Again))
    case Unlink =>
      if e.ok || Claim !in fs.names then (Drop(Claim), Write(Create, Take(prev)))
      else (Nop, if Stale(prev) in fs.names then Write(Create, Take(prev)) else LeaseDrop(Setup))
  }

  /** clearSlotOwnedResidue and the removal of the quarantine; the new claim is in place. */
  function NextClear(fs: Fs, p: Pid, pr: Proc, e: Env, cl: ClearPoint, prev: Token): (Op, Pc) {
    match cl
    case ClearCard => (if e.ok then Drop(Card) else Nop, Clear(ClearLease, prev))
    case ClearLease => (if e.ok then Drop(Taking) else Nop, Clear(Listing, prev))
    case Listing => (Nop, Clear(if e.ok then Entry(e.entries) else ClearStale, prev))
    case Entry(entries) =>
      if entries == [] then (Nop, Clear(ClearStale, prev))
      else (if Residue(entries[0]) && e.ok then Drop(entries[0]) else Nop, Clear(Entry(entries[1..]), prev))
    case ClearStale => (if e.ok then Drop(Stale(prev)) else Nop, LeaseDrop(Owned))
  }

  /** publish and abandonSetup of a process whose claimRunSlot returned a token. */
  function NextOwner(fs: Fs, p: Pid, pr: Proc, e: Env, o: OwnerPoint): (Op, Proc) {
    match o
    case Held =>
      (Nop, pr.(pc := match e.want
                      case DoPublish => Owner(if pr.ownedCard then Held else PubRead)
                      case DoSweep => Sweeping(SwRead)
                      case DoAbandon => Owner(if pr.ownedCard then Held else AbRead)))
    case PubRead => (Nop, pr.(pc := Owner(if e.ok && Carries(fs, pr.tok) then PubTmp else AbRead)))
    case PubTmp =>
      if fs.dir && CardTmp(pr.tok) !in fs.names && e.ok
      then (Make(CardTmp(pr.tok), e.ino, File(p, NO_TOKEN, true, false)), pr.(pc := Owner(PubLink)))
      else (Nop, pr.(pc := Owner(AbRead)))
    case PubLink =>
      if CardTmp(pr.tok) in fs.names && Card !in fs.names && e.ok
      then (Link(fs.names[CardTmp(pr.tok)], Card), pr.(pc := Owner(PubTidy(true)), ownedCard := true))
      else (Nop, pr.(pc := Owner(PubTidy(false))))
    case PubTidy(linked) =>
      (if e.ok then Drop(CardTmp(pr.tok)) else Nop, pr.(pc := Owner(if linked then Held else AbRead)))
    case AbRead =>
      (Nop, if e.ok && Carries(fs, pr.tok) then pr.(pc := Owner(AbCard)) else pr.(pc := Idle, ownedCard := false))
    case AbCard => (if pr.ownedCard && e.ok then Drop(Card) else Nop, pr.(pc := Owner(AbClaim), ownedCard := false))
    case AbClaim => (if e.ok then Drop(Claim) else Nop, pr.(pc := Leaving))
  }

  /** Sweep: withdraw the card, then replace the claim by an exited tombstone. */
  function NextSweep(fs: Fs, p: Pid, pr: Proc, e: Env, sw: SweepPoint): (Op, Proc) {
    match sw
    case SwRead => (Nop, pr.(pc := Sweeping(if e.ok && Carries(fs, pr.tok) then SwCard else Swept)))
    case SwCard => (if pr.ownedCard && e.ok then Drop(Card) else Nop, pr.(pc := Sweeping(SwRead2), ownedCard := false))
    case SwRead2 => (Nop, pr.(pc := Sweeping(if e.ok && Carries(fs, pr.tok) then SwTmp else Swept)))
    case SwTmp =>
      if fs.dir && ClaimTmp(pr.tok) !in fs.names && e.ok
      then (Make(ClaimTmp(pr.tok), e.ino, File(p, pr.tok, true, true)), pr.(pc := Sweeping(SwReread)))
      else (Nop, pr.(pc := Sweeping(Swept)))
    case SwReread => (Nop, pr.(pc := Sweeping(if e.ok && Carries(fs, pr.tok) then SwMove else SwTidy)))
    case SwMove =>
      if ClaimTmp(pr.tok) in fs.names && e.ok
      then (Move(ClaimTmp(pr.tok), Claim), pr.(pc := Sweeping(Swept), ino := fs.names[ClaimTmp(pr.tok)]))
      else (Nop, pr.(pc := Sweeping(SwTidy)))
    case SwTidy => (if e.ok then Drop(ClaimTmp(pr.tok)) else Nop, pr.(pc := Sweeping(Swept)))
    case Swept => (Nop, pr.(pc := if e.want == DoAbandon then Owner(AbRead) else Sweeping(Swept)))
  }

  /** The call process p makes next and what it then remembers. */
  function Next(fs: Fs, p: Pid, pr: Proc, e: Env): (Op, Proc) {
    match pr.pc
    case Idle => (Nop, pr.(pc := Slot(TryMkdir), tok := e.newTok, ownedCard := false))
    case Slot(at) => NextSlot(fs, p, pr, e, at)
    case Write(w, c) => NextWrite(fs, p, pr, e, w, c)
    case Repair(r, k) => NextRepair(fs, p, pr, e, r, k)
    case Put(put, t, b) => NextPut(fs, p, pr, e, put, t, b)
    case Decide(d) => (Nop, pr.(pc := NextDecide(fs, p, pr, e, d)))
    case Elect(l, info, prev) => var (op, pc) := NextElect(fs, p, pr, e, l, info, prev); (op, pr.(pc := pc))
    case ElectUndo(res) => (if e.ok then Drop(TakingTmp(pr.tok)) else Nop, pr.(pc := Unlock(res)))
    case Swap(s, info, prev) => var (op, pc) := NextSwap(fs, p, pr, e, s, info, prev); (op, pr.(pc := pc))
    case Clear(cl, prev) => var (op, pc) := NextClear(fs, p, pr, e, cl, prev); (op, pr.(pc := pc))
    case LeaseDrop(res) =>
      var mine := Read(fs, Taking).Some? && Read(fs, Taking).value.tok == pr.tok;
      (if mine && e.ok then Drop(Taking) else Nop, pr.(pc := Unlock(res)))
    case Unlock(res) => (Release(pr.fd), pr.(pc := if res == Owned then Owner(Held) else Idle))
    case Owner(o) => NextOwner(fs, p, pr, e, o)
    case Sweeping(sw) => NextSweep(fs, p, pr, e, sw)
    case Leaving => (if e.ok then RemoveDir else Nop, pr.(pc := Idle))
  }

  /** One system call of p; an idle process starts a new attempt with a new token. */
  function Act(s: State, p: Pid, e: Env): State
    requires p in s.procs
  {
    var (op, pr) := Next(s.fs, p, s.procs[p], e);
    State(Apply(s.fs, p, op), s.procs[p := pr], if s.procs[p].pc.Idle? then s.issued[e.newTok := p] else s.issued)
  }

  /** Death of a process: the kernel drops its locks, every file stays. */
  function Die(s: State, p: Pid): State
    requires p in s.procs
  {
    State(s.fs.(locks := map i | i in s.fs.locks && s.fs.locks[i] != p :: s.fs.locks[i]),
          s.procs[p := s.procs[p].(alive := false)], s.issued)
  }

  datatype Event = Spawn(p: Pid) | Death(p: Pid) | Step(p: Pid, e: Env)

  ghost predicate Possible(s: State, ev: Event) {
    match ev
    case Spawn(p) => p !in s.procs
    case Death(p) => Alive(s, p)
    case Step(p, e) => Enabled(s, p, e)
  }

  function After(s: State, ev: Event): State
    requires ev.Spawn? || ev.p in s.procs
  {
    match ev
    case Spawn(p) => s.(procs := s.procs[p := Proc(true, NO_TOKEN, 0, 0, false, Idle)])
    case Death(p) => Die(s, p)
    case Step(p, e) => Act(s, p, e)
  }

  /** No directory and no process yet: everything else is reached by events. */
  const START := State(Fs(false, map[], map[], map[]), map[], map[])

  /** `states` is a run: it starts empty and every step is a possible event. */
  ghost predicate Run(states: seq<State>, events: seq<Event>) {
    && |states| == |events| + 1
    && states[0] == START
    && forall i :: 0 <= i < |events| ==> Possible(states[i], events[i]) && states[i + 1] == After(states[i], events[i])
  }
}
