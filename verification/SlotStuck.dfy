/**
 A slot that is stuck stays stuck: however many contenders come, one after the other and with
 every call succeeding, none of them is given the slot, and each finds the directory as stuck
 as the one before. They may give up, try again, or die at any point.
 */
module SlotStuck {
  import opened SlotModel
  import opened Wrappers
  import opened SlotSafety
  import opened SlotRecovery
  import opened SlotCrash

  /** claim.json is the file `info`; it parses with token tok, whose quarantine is another file. */
  predicate Torn(fs: Fs, info: Inode, tok: Token) {
    Carries(fs, tok) && fs.names[Claim] == info && Stale(tok) in fs.names && fs.names[Stale(tok)] != info
  }

  /** There is nothing left that the repair would put back. */
  ghost predicate Repaired(fs: Fs) { Claim in fs.names || Unreadable(fs) }

  ghost predicate PinnedRepair(fs: Fs, r: RepairPoint) {
    match r
    case Lease | Stat => true
    case Parse(info) => Claim in fs.names && fs.names[Claim] == info
    case Judge(info, _, tok) => Torn(fs, info, tok)
    case Compare(info, tok) => Torn(fs, info, tok)
    case Unquarantine(_) => false
    case List => Claim !in fs.names
    case Each(queue) => Claim !in fs.names && StrictlyIncreasing(queue) && forall t :: First(fs, t) ==> t in queue
    case Ask(t, who, _) => Claim !in fs.names && First(fs, t) && Read(fs, Stale(t)).value.who == who
    case Check(_) => Claim in fs.names
  }

  ghost predicate PinnedDecide(fs: Fs, d: DecidePoint) {
    match d
    case OwnerCard => Read(fs, Claim).None?
    case InstallStat => Claim in fs.names
    case TakeParse(info) => Claim in fs.names && fs.names[Claim] == info
    case TakeAsk(info, _, prev) => Torn(fs, info, prev)
    case _ => true
  }

  /** Where a contender can be in a stuck slot, and what it then knows. */
  ghost predicate Pinned(fs: Fs, pc: Pc) {
    match pc
    case Idle => true
    case Slot(at) => at == TryMkdir || at == LockMkdir || at == LockOpen || at == Flock
    case Repair(r, k) => k != ToInstall && (k == ToTake ==> Repaired(fs)) && PinnedRepair(fs, r)
    case Put(put, t, b) =>
      && b.FromList? && b.k == ToOwner
      && (if put == PutDrop
          then Read(fs, Claim).Some? && Read(fs, Claim).value.tok != t && Torn(fs, fs.names[Claim], Read(fs, Claim).value.tok)
          else Claim !in fs.names && First(fs, t))
    case Decide(d) => Repaired(fs) && PinnedDecide(fs, d)
    case Elect(_, info, prev) => Torn(fs, info, prev)
    case Swap(sw, info, prev) => (sw == Quarantine || sw == Existing) && Torn(fs, info, prev)
    case ElectUndo(res) => res != Owned
    case LeaseDrop(res) => res != Owned
    case Unlock(res) => res != Owned
    case _ => false
  }

  ghost predicate Named(fs: Fs) { forall n :: n in fs.names ==> fs.names[n] in fs.files }

  // ---- calls beside claim, quarantines and card

  predicate Beside(fs: Fs, op: Op) {
    match op
    case Nop | MakeDir | Acquire(_) | Release(_) => true
    case Drop(n) => n.Taking? || n.TakingTmp?
    case Make(n, i, _) => (n.LockFile? || n.TakingTmp?) && i !in fs.files
    case Link(_, n) => n.Taking?
    case _ => false
  }

  predicate SlotName(n: Name) { n.Claim? || n.Stale? || n.Card? }

  ghost predicate SameSlot(fs: Fs, fs': Fs) {
    forall n: Name :: SlotName(n) ==>
      && (n in fs'.names <==> n in fs.names)
      && (n in fs.names ==> fs'.names[n] == fs.names[n] && fs.names[n] in fs.files && fs.names[n] in fs'.files && fs'.files[fs.names[n]] == fs.files[fs.names[n]])
  }

  lemma BesideIsSame(fs: Fs, p: Pid, op: Op)
    requires Beside(fs, op) && Named(fs)
    ensures SameSlot(fs, Apply(fs, p, op))
  {
  }

  lemma SameRead(fs: Fs, fs': Fs, n: Name)
    requires SameSlot(fs, fs') && SlotName(n)
    ensures Read(fs', n) == Read(fs, n) && (n in fs.names ==> (Consistent(fs', fs.names[n]) <==> Consistent(fs, fs.names[n])))
  {
    if n in fs.names { assert SlotName(Stale(fs.files[fs.names[n]].tok)); }
  }

  lemma SameParsing(fs: Fs, fs': Fs)
    requires SameSlot(fs, fs')
    ensures forall t :: First(fs', t) <==> First(fs, t)
    ensures Unreadable(fs') <==> Unreadable(fs)
  {
    forall t: Token ensures Read(fs', Stale(t)) == Read(fs, Stale(t)) { SameRead(fs, fs', Stale(t)); }
  }

  lemma SameStuck(fs: Fs, fs': Fs)
    requires SameSlot(fs, fs')
    ensures Stuck(fs') <==> Stuck(fs)
  {
    SameParsing(fs, fs');
    SameRead(fs, fs', Claim);
    SameRead(fs, fs', Card);
    assert SlotName(Claim);
    if Claim !in fs.names {
      if t :| First(fs, t) {
        assert SlotName(Stale(t));
        SameRead(fs, fs', Stale(t));
        FirstDecides(fs, t);
        FirstDecides(fs', t);
      }
    }
  }

  lemma SameTorn(fs: Fs, fs': Fs, info: Inode, tok: Token)
    requires SameSlot(fs, fs') && Torn(fs, info, tok)
    ensures Torn(fs', info, tok)
  {
    assert SlotName(Claim) && SlotName(Stale(tok));
  }

  lemma SamePinned(fs: Fs, fs': Fs, pc: Pc)
    requires SameSlot(fs, fs') && Pinned(fs, pc)
    ensures Pinned(fs', pc)
  {
    SameParsing(fs, fs');
    SameRead(fs, fs', Claim);
    assert SlotName(Claim);
    match pc
    case Repair(r, k) => SamePinnedRepair(fs, fs', r);
    case Put(put, t, b) => assert SlotName(Stale(t));
    case Decide(d) => if d.TakeAsk? { SameTorn(fs, fs', d.info, d.prev); }
    case Elect(_, info, prev) => SameTorn(fs, fs', info, prev);
    case Swap(_, info, prev) => SameTorn(fs, fs', info, prev);
    case _ =>
  }

  lemma SamePinnedRepair(fs: Fs, fs': Fs, r: RepairPoint)
    requires SameSlot(fs, fs') && PinnedRepair(fs, r)
    ensures PinnedRepair(fs', r)
  {
    SameParsing(fs, fs');
    assert SlotName(Claim);
    match r
    case Judge(info, _, tok) => SameTorn(fs, fs', info, tok);
    case Compare(info, tok) => SameTorn(fs, fs', info, tok);
    case Ask(t, _, _) => SameRead(fs, fs', Stale(t));
    case _ =>
  }

  // ---- one step of a lone contender in a stuck slot

  /** No claim, quarantine or card is p's. */
  ghost predicate Alien(fs: Fs, p: Pid) { forall n :: n in fs.names && SlotName(n) ==> !By(fs, n, p) }

  /** A claim that parses in a stuck slot is torn. */
  lemma StuckClaimIsTorn(fs: Fs)
    requires Stuck(fs) && Read(fs, Claim).Some?
    ensures Torn(fs, fs.names[Claim], Read(fs, Claim).value.tok)
  {
  }

  lemma RepairPins(s: State, p: Pid, e: Env, r: RepairPoint, k: Then)
    requires Calm(s, p, e) && (forall q :: Alive(s, q) ==> q == p) && Named(s.fs) && Alien(s.fs, p)
    requires Stuck(s.fs) && s.procs[p].pc == Repair(r, k) && Pinned(s.fs, Repair(r, k)) && !r.Each?
    ensures var (op, pr) := NextRepair(s.fs, p, s.procs[p], e, r, k); Beside(s.fs, op) && Pinned(s.fs, pr.pc)
  {
    if r.Parse? && Read(s.fs, Claim).Some? { StuckClaimIsTorn(s.fs); }
    if r.Ask? { assert By(s.fs, Stale(r.t), r.who); }
  }

  lemma EachPins(s: State, p: Pid, e: Env, queue: seq<Token>, k: Then)
    requires Calm(s, p, e) && s.procs[p].pc == Repair(Each(queue), k) && Pinned(s.fs, Repair(Each(queue), k))
    ensures var (op, pr) := NextRepair(s.fs, p, s.procs[p], e, Each(queue), k); op == Nop && Pinned(s.fs, pr.pc)
  {
    var fs := s.fs;
    if queue == [] {
      forall t ensures Read(fs, Stale(t)).None? { if Read(fs, Stale(t)).Some? { FirstExists(fs, t); } }
    } else {
      assert queue == [queue[0]] + queue[1..];
      if Read(fs, Stale(queue[0])).Some? {
        FirstExists(fs, queue[0]);
        var t :| First(fs, t);
        var i :| 0 <= i < |queue| && queue[i] == t;
        assert i == 0;
      }
    }
  }

  lemma DecidePins(s: State, p: Pid, e: Env, d: DecidePoint)
    requires Calm(s, p, e) && Stuck(s.fs) && s.procs[p].pc == Decide(d) && Pinned(s.fs, Decide(d))
    ensures Pinned(s.fs, NextDecide(s.fs, p, s.procs[p], e, d))
  {
    if Read(s.fs, Claim).Some? { StuckClaimIsTorn(s.fs); }
    if Claim !in s.fs.names { assert forall t :: !First(s.fs, t); }
  }

  lemma ElectPins(s: State, p: Pid, e: Env, l: LeasePoint, info: Inode, prev: Token)
    requires Calm(s, p, e) && s.procs[p].pc == Elect(l, info, prev) && Torn(s.fs, info, prev)
    ensures var (op, pc) := NextElect(s.fs, p, s.procs[p], e, l, info, prev); Beside(s.fs, op) && Pinned(s.fs, pc)
  {
  }

  lemma SwapPins(s: State, p: Pid, e: Env, sw: SwapPoint, info: Inode, prev: Token)
    requires Calm(s, p, e) && s.procs[p].pc == Swap(sw, info, prev) && Pinned(s.fs, Swap(sw, info, prev))
    ensures var (op, pc) := NextSwap(s.fs, p, s.procs[p], e, sw, info, prev); op == Nop && Pinned(s.fs, pc)
  {
  }

  lemma SlotPins(s: State, p: Pid, e: Env, at: SlotPoint)
    requires Calm(s, p, e) && s.fs.dir && s.procs[p].pc == Slot(at) && Pinned(s.fs, Slot(at))
    ensures var (op, pr) := NextSlot(s.fs, p, s.procs[p], e, at); Beside(s.fs, op) && Pinned(s.fs, pr.pc)
  {
  }

  /** Putting the first quarantine back moves the disagreement to claim.json. */
  lemma PutPins(s: State, p: Pid, e: Env, put: PutPoint, t: Token, b: Restoring)
    requires Calm(s, p, e) && Stuck(s.fs) && Named(s.fs) && s.procs[p].pc == Put(put, t, b) && Pinned(s.fs, Put(put, t, b))
    ensures var (op, pr) := NextPut(s.fs, p, s.procs[p], e, put, t, b); var fs := Apply(s.fs, p, op); Stuck(fs) && Pinned(fs, pr.pc)
  {
    if put != PutDrop { FirstDecides(s.fs, t); }
  }

  /** The points whose step leaves claim, quarantines and card alone. */
  lemma StepPins(s: State, p: Pid, e: Env)
    requires Calm(s, p, e) && (forall q :: Alive(s, q) ==> q == p) && Named(s.fs) && Alien(s.fs, p) && s.fs.dir
    requires Stuck(s.fs) && Pinned(s.fs, s.procs[p].pc)
    ensures var (op, pr) := Next(s.fs, p, s.procs[p], e); var fs := Apply(s.fs, p, op);
            Stuck(fs) && Pinned(fs, pr.pc) && (Beside(s.fs, op) || s.procs[p].pc.Put?)
  {
    var (op, pr) := Next(s.fs, p, s.procs[p], e);
    var pc := s.procs[p].pc;
    if pc.Put? {
      PutPins(s, p, e, pc.put, pc.t, pc.b);
    } else {
      QuietPins(s, p, e);
      BesideIsSame(s.fs, p, op);
      SameStuck(s.fs, Apply(s.fs, p, op));
      SamePinned(s.fs, Apply(s.fs, p, op), pr.pc);
    }
  }

  lemma QuietPins(s: State, p: Pid, e: Env)
    requires Calm(s, p, e) && (forall q :: Alive(s, q) ==> q == p) && Named(s.fs) && Alien(s.fs, p) && s.fs.dir
    requires Stuck(s.fs) && Pinned(s.fs, s.procs[p].pc) && !s.procs[p].pc.Put?
    ensures var (op, pr) := Next(s.fs, p, s.procs[p], e); Beside(s.fs, op) && Pinned(s.fs, pr.pc)
  {
    match s.procs[p].pc
    case Slot(at) => SlotPins(s, p, e, at);
    case Repair(r, k) => if r.Each? { EachPins(s, p, e, r.queue, k); } else { RepairPins(s, p, e, r, k); }
    case Decide(d) => DecidePins(s, p, e, d);
    case Elect(l, info, prev) => ElectPins(s, p, e, l, info, prev);
    case Swap(sw, info, prev) => SwapPins(s, p, e, sw, info, prev);
    case _ =>
  }

  // ---- p leaves nothing of its own behind

  lemma AlienBeside(fs: Fs, p: Pid, op: Op)
    requires Named(fs) && Alien(fs, p) && Beside(fs, op)
    ensures Alien(Apply(fs, p, op), p)
  {
    BesideIsSame(fs, p, op);
  }

  lemma AlienPut(fs: Fs, p: Pid, pr: Proc, e: Env, put: PutPoint, t: Token, b: Restoring)
    requires Named(fs) && Alien(fs, p)
    ensures Alien(Apply(fs, p, NextPut(fs, p, pr, e, put, t, b).0), p)
  {
  }

  /** A step outside the election and the swap takes claim.taking away or leaves it. */
  lemma QuietOwn(fs: Fs, p: Pid, pr: Proc, op: Op, pr': Proc)
    requires Named(fs) && KnowsOwn(fs, p, pr) && !Leasing(pr.pc) && Alien(Apply(fs, p, op), p)
    requires Beside(fs, op) || op == Drop(Claim) || (op.Drop? && op.n.Stale?) || (op.Link? && op.n == Claim)
    requires !(op.Link? && op.n == Taking) && !(pr'.pc.Elect? && pr'.pc.l == Publish)
    ensures KnowsOwn(Apply(fs, p, op), p, pr')
  {
  }

  lemma OwnPins(s: State, p: Pid, e: Env)
    requires Calm(s, p, e) && Knows(s, p) && Named(s.fs) && KnowsOwn(s.fs, p, s.procs[p]) && Pinned(s.fs, s.procs[p].pc)
    requires var (op, pr) := Next(s.fs, p, s.procs[p], e);
             (Beside(s.fs, op) || s.procs[p].pc.Put?) && Alien(Apply(s.fs, p, op), p) && Pinned(Apply(s.fs, p, op), pr.pc)
    ensures var (op, pr) := Next(s.fs, p, s.procs[p], e); KnowsOwn(Apply(s.fs, p, op), p, pr)
  {
    var (op, pr) := Next(s.fs, p, s.procs[p], e);
    var pc := s.procs[p].pc;
    if pc.Elect? { ElectOwns(s, p, e, pc.l, pc.info, pc.prev); }
    else if pc.Swap? { SwapOwns(s, p, e, pc.s, pc.info, pc.prev); }
    else if pc.LeaseDrop? || pc.ElectUndo? || pc.Unlock? { EndIsCareful(s, p, e); }
    else {
      if pc.Repair? {
        RepairMoves(s.fs, p, s.procs[p], e, pc.r, pc.k);
        NextRepairQuiet(s.fs, p, s.procs[p], e, pc.r, pc.k);
      }
      QuietOwn(s.fs, p, s.procs[p], op, pr);
    }
  }

  lemma NextRepairQuiet(fs: Fs, p: Pid, pr: Proc, e: Env, r: RepairPoint, k: Then)
    ensures !NextRepair(fs, p, pr, e, r, k).1.pc.Elect?
  {
  }

  // ---- over runs

  /** The slot is stuck, at most one process is alive, and it is pinned. */
  ghost predicate StuckAlone(s: State) {
    && Stuck(s.fs) && (forall p, q :: Alive(s, p) && Alive(s, q) ==> p == q)
    && forall p :: Alive(s, p) ==> Pinned(s.fs, s.procs[p].pc) && Alien(s.fs, p) && KnowsOwn(s.fs, p, s.procs[p])
  }

  lemma StuckHasDir(s: State)
    requires Sound(s) && Stuck(s.fs)
    ensures s.fs.dir
  {
  }

  lemma StepStaysStuck(s: State, p: Pid, e: Env)
    requires Inv(s) && StuckAlone(s) && Calm(s, p, e)
    ensures StuckAlone(Act(s, p, e))
  {
    var (op, pr) := Next(s.fs, p, s.procs[p], e);
    assert Knows(s, p);
    StuckHasDir(s);
    StepPins(s, p, e);
    if s.procs[p].pc.Put? { AlienPut(s.fs, p, s.procs[p], e, s.procs[p].pc.put, s.procs[p].pc.t, s.procs[p].pc.b); } else { AlienBeside(s.fs, p, op); }
    OwnPins(s, p, e);
    forall q | Alive(Act(s, p, e), q) ensures q == p { if q != p { assert Alive(s, q); } }
  }

  lemma DeathStaysStuck(s: State, p: Pid)
    requires StuckAlone(s) && Alive(s, p)
    ensures StuckAlone(Die(s, p))
  {
    forall q ensures !Alive(Die(s, p), q) { assert Alive(Die(s, p), q) ==> Alive(s, q) && q != p; }
    assert SameSlotNames(s.fs, Die(s, p).fs);
    SameNamesStuck(s.fs, Die(s, p).fs);
  }

  predicate SameSlotNames(fs: Fs, fs': Fs) { fs'.names == fs.names && fs'.files == fs.files }

  /** Locks have no part in what is stuck. */
  lemma SameNamesStuck(fs: Fs, fs': Fs)
    requires SameSlotNames(fs, fs')
    ensures Stuck(fs') <==> Stuck(fs)
  {
    assert forall n :: Read(fs', n) == Read(fs, n);
    assert forall t :: First(fs', t) <==> First(fs, t);
    assert forall i :: Consistent(fs', i) <==> Consistent(fs, i);
  }

  lemma SpawnStaysStuck(s: State, p: Pid)
    requires StuckAlone(s) && Written(s) && p !in s.procs && forall q :: !Alive(s, q)
    ensures StuckAlone(After(s, Spawn(p)))
  {
    var s' := After(s, Spawn(p));
    forall q ensures Alive(s', q) ==> q == p { assert Alive(s, q) <==> Alive(s', q) && q != p; }
  }

  /** A contender comes only when nobody is alive, its calls succeed and the oracle is right. */
  ghost predicate Orderly(s: State, ev: Event) {
    match ev
    case Spawn(_) => forall q :: !Alive(s, q)
    case Death(_) => true
    case Step(p, e) => Calm(s, p, e)
  }

  /** From state k on contenders come one at a time. */
  ghost predicate OneByOne(states: seq<State>, events: seq<Event>, k: nat)
    requires |states| == |events| + 1
  {
    forall j :: k <= j < |events| ==> Orderly(states[j], events[j])
  }

  lemma EventStaysStuck(s: State, ev: Event)
    requires Inv(s) && Written(s) && StuckAlone(s) && Possible(s, ev) && Orderly(s, ev)
    ensures StuckAlone(After(s, ev))
  {
    match ev
    case Spawn(p) => SpawnStaysStuck(s, p);
    case Death(p) => DeathStaysStuck(s, p);
    case Step(p, e) => StepStaysStuck(s, p, e);
  }

  lemma {:induction false} RunStaysStuck(states: seq<State>, events: seq<Event>, k: nat, i: nat)
    requires Run(states, events) && k <= i <= |events| && OneByOne(states, events, k) && StuckAlone(states[k])
    ensures StuckAlone(states[i])
  {
    if i == k {
    } else {
      RunStaysStuck(states, events, k, i - 1);
      RunEventStaysStuck(states, events, k, i - 1);
    }
  }

  lemma RunEventStaysStuck(states: seq<State>, events: seq<Event>, k: nat, j: nat)
    requires Run(states, events) && k <= j < |events| && OneByOne(states, events, k) && StuckAlone(states[j])
    ensures StuckAlone(states[j + 1])
  {
    RunKeepsInv(states, events, j);
    RunIsTraced(states, events, j);
    var s, ev := states[j], events[j];
    assert Orderly(s, ev) && Possible(s, ev) && states[j + 1] == After(s, ev);
    EventStaysStuck(s, ev);
  }

  /**
   A stuck slot is lost. In every run: from a state in which everybody is dead and the slot is
   stuck, while contenders come one after the other and every call succeeds, the slot is stuck
   in every later state and nobody owns it; and each attempt ends without being given the slot.
   */
  lemma LostStaysLost(states: seq<State>, events: seq<Event>, k: nat, i: nat)
    requires Run(states, events) && k <= i <= |events| && OneByOne(states, events, k)
    requires Stuck(states[k].fs) && forall q :: !Alive(states[k], q)
    ensures Stuck(states[i].fs) && forall p :: Alive(states[i], p) ==> !Owning(states[i].procs[p].pc)
    ensures forall p :: Alive(states[i], p) && states[i].procs[p].pc == Slot(TryMkdir) ==> Ends(states[i], p, false, false)
  {
    var s := states[i];
    RunStaysStuck(states, events, k, i);
    RunKeepsInv(states, events, i);
    RunIsTraced(states, events, i);
    StuckHasDir(s);
    NeitherIsUnreadable(s.fs);
    forall p | Alive(s, p) && s.procs[p].pc == Slot(TryMkdir) ensures Ends(s, p, false, false) {
      assert Arrives(s, p) && KnowsOwn(s.fs, p, s.procs[p]);
      forall t ensures !By(s.fs, Stale(t), p) { assert Stale(t) in s.fs.names ==> !By(s.fs, Stale(t), p); }
      assert Knows(s, p);
      ArrivalIsOutside(s, p);
      ArrivalEnds(s, p);
    }
  }
}
