/**
 Recovery of a run slot left by crashes: what a lone contender that holds
 reclaim.lock achieves from any directory the dead left behind, when no call fails
 and the liveness oracle is right.

 `Recoverable` is decided by looking at the directory before the call. It is exact:
 the contender ends as owner of a live claim with no quarantine and no lease file
 left if and only if it holds. `Stuck` is just as exact for being given the slot at all.
 */
module SlotRecovery {
  import opened SlotModel
  import opened Wrappers
  import opened SlotSafety

  /** Everything works, and the oracle calls exactly the living live. */
  ghost predicate Calm(s: State, p: Pid, e: Env) {
    Enabled(s, p, e) && e.ok && !e.same && (forall q :: q in e.live ==> Alive(s, q))
  }

  ghost predicate NoStale(fs: Fs) { forall t :: Stale(t) !in fs.names }

  /** claim.json parses, was written by p and carries its token. */
  predicate Mine(fs: Fs, p: Pid, tok: Token) { Carries(fs, tok) && Read(fs, Claim).value.who == p }

  /** p owns a parsing claim under its own token, and no takeover residue is left. */
  ghost predicate Clean(fs: Fs, p: Pid, tok: Token) { Mine(fs, p, tok) && NoStale(fs) && Taking !in fs.names }

  /**
   Every calm run of p alone reaches the release of the lock. p is then given the slot
   exactly when `given` says so, and it has won, with no residue left, exactly when `won` does.
   */
  least predicate Ends(s: State, p: Pid, won: bool, given: bool) {
    p in s.procs
    && (match s.procs[p].pc
        case Unlock(res) => (given <==> res == Owned) && (won <==> res == Owned && Clean(s.fs, p, s.procs[p].tok))
        case _ => forall e :: Calm(s, p, e) ==> Ends(Act(s, p, e), p, won, given))
  }

  /** The only living process is p. */
  ghost predicate Lone(s: State, p: Pid) {
    && Alive(s, p) && (forall q :: q in s.procs && q != p ==> !s.procs[q].alive)
    && s.fs.dir && (forall n :: n in s.fs.names ==> s.fs.names[n] in s.fs.files)
  }

  /** Every claim, quarantine and card was written by the dead, and p's token is in none of them. */
  ghost predicate DeadNames(s: State, p: Pid)
    requires p in s.procs
  {
    forall n :: n in s.fs.names && (n.Claim? || n.Stale? || n.Card?) && s.fs.names[n] in s.fs.files ==>
      s.fs.files[s.fs.names[n]].who != p && s.fs.files[s.fs.names[n]].tok != s.procs[p].tok
  }

  /** The quarantine name of the claim's own token is free or is a second name of the claim. */
  predicate Consistent(fs: Fs, i: Inode) {
    i in fs.files && (Stale(fs.files[i].tok) in fs.names ==> fs.names[Stale(fs.files[i].tok)] == i)
  }

  /** The quarantine a sorted listing finds first among those that parse. */
  ghost predicate First(fs: Fs, t: Token) {
    Read(fs, Stale(t)).Some? && forall u: Token :: u < t ==> Read(fs, Stale(u)).None?
  }

  /**
   A claim.json must parse and agree with its own quarantine name; without one, the
   first quarantine that parses must; without either there must be no quarantine at
   all and no card that still names an owner.
   */
  ghost predicate Recoverable(fs: Fs) {
    if Claim in fs.names then Read(fs, Claim).Some? && Consistent(fs, fs.names[Claim])
    else if exists t :: First(fs, t) then exists t :: First(fs, t) && Consistent(fs, fs.names[Stale(t)])
    else NoStale(fs) && Read(fs, Card).None?
  }

  /**
   Nobody is given the slot: claim.json does not parse or disagrees with its own quarantine
   name; without one the first quarantine that parses does; without either a card names an owner.
   */
  ghost predicate Stuck(fs: Fs) {
    if Claim in fs.names then Read(fs, Claim).None? || !Consistent(fs, fs.names[Claim])
    else if exists t :: First(fs, t) then exists t :: First(fs, t) && !Consistent(fs, fs.names[Stale(t)])
    else Read(fs, Card).Some?
  }

  // ---- the tail: the new claim is in place and the residue goes

  lemma LeaseDropEnds(s: State, p: Pid, res: Outcome, won: bool)
    requires Alive(s, p) && s.procs[p].pc == LeaseDrop(res)
    requires won <==> (res == Owned && Clean(s.fs, p, s.procs[p].tok))
    requires Taking in s.fs.names ==> res != Owned
    ensures Ends(s, p, won, res == Owned)
  {
    forall e | Calm(s, p, e) ensures Ends(Act(s, p, e), p, won, res == Owned) { }
  }

  lemma ClearStaleEnds(s: State, p: Pid, prev: Token)
    requires Alive(s, p) && s.procs[p].pc == Clear(ClearStale, prev) && Clean(s.fs, p, s.procs[p].tok)
    ensures Ends(s, p, true, true)
  {
    forall e | Calm(s, p, e) ensures Ends(Act(s, p, e), p, true, true) {
      LeaseDropEnds(Act(s, p, e), p, Owned, true);
    }
  }

  lemma {:induction false} EntryEnds(s: State, p: Pid, entries: seq<Name>, prev: Token)
    requires Alive(s, p) && s.procs[p].pc == Clear(Entry(entries), prev)
    requires Mine(s.fs, p, s.procs[p].tok)
    requires forall n :: n in s.fs.names && Residue(n) ==> n in entries
    ensures Ends(s, p, true, true)
    decreases |entries|
  {
    forall e | Calm(s, p, e) ensures Ends(Act(s, p, e), p, true, true) {
      var s' := Act(s, p, e);
      if entries == [] {
        assert forall t :: Residue(Stale(t));
        assert Residue(Taking);
        ClearStaleEnds(s', p, prev);
      } else {
        assert entries == [entries[0]] + entries[1..];
        EntryEnds(s', p, entries[1..], prev);
      }
    }
  }

  lemma ListingEnds(s: State, p: Pid, prev: Token)
    requires Alive(s, p) && s.procs[p].pc == Clear(Listing, prev)
    requires Mine(s.fs, p, s.procs[p].tok)
    ensures Ends(s, p, true, true)
  {
    forall e | Calm(s, p, e) ensures Ends(Act(s, p, e), p, true, true) {
      EntryEnds(Act(s, p, e), p, e.entries, prev);
    }
  }

  lemma ClearEnds(s: State, p: Pid, cl: ClearPoint, prev: Token)
    requires Alive(s, p) && s.procs[p].pc == Clear(cl, prev) && (cl == ClearCard || cl == ClearLease)
    requires Mine(s.fs, p, s.procs[p].tok)
    ensures Ends(s, p, true, true)
    decreases cl == ClearCard
  {
    forall e | Calm(s, p, e) ensures Ends(Act(s, p, e), p, true, true) {
      if cl == ClearCard { ClearEnds(Act(s, p, e), p, ClearLease, prev); } else { ListingEnds(Act(s, p, e), p, prev); }
    }
  }

  // ---- writing the new claim

  /** The body of claim.json is p's own. */
  predicate MyBody(s: State, p: Pid)
    requires p in s.procs
  {
    && Claim in s.fs.names && s.fs.names[Claim] == s.procs[p].ino && s.procs[p].ino in s.fs.files
    && s.fs.files[s.procs[p].ino].who == p && s.fs.files[s.procs[p].ino].tok == s.procs[p].tok
  }

  lemma FinishTakeEnds(s: State, p: Pid, prev: Token)
    requires Alive(s, p) && s.procs[p].pc == Write(Finish, Take(prev)) && Mine(s.fs, p, s.procs[p].tok)
    ensures Ends(s, p, true, true)
  {
    forall e | Calm(s, p, e) ensures Ends(Act(s, p, e), p, true, true) {
      ClearEnds(Act(s, p, e), p, ClearCard, prev);
    }
  }

  lemma BodyTakeEnds(s: State, p: Pid, prev: Token)
    requires Alive(s, p) && s.procs[p].pc == Write(Body, Take(prev)) && MyBody(s, p)
    ensures Ends(s, p, true, true)
  {
    forall e | Calm(s, p, e) ensures Ends(Act(s, p, e), p, true, true) {
      FinishTakeEnds(Act(s, p, e), p, prev);
    }
  }

  lemma CreateTakeEnds(s: State, p: Pid, prev: Token)
    requires Alive(s, p) && s.procs[p].pc == Write(Create, Take(prev)) && s.fs.dir && Claim !in s.fs.names
    ensures Ends(s, p, true, true)
  {
    forall e | Calm(s, p, e) ensures Ends(Act(s, p, e), p, true, true) {
      BodyTakeEnds(Act(s, p, e), p, prev);
    }
  }

  lemma FinishInstallEnds(s: State, p: Pid, won: bool)
    requires Alive(s, p) && s.procs[p].pc == Write(Finish, Install) && (won <==> Clean(s.fs, p, s.procs[p].tok))
    ensures Ends(s, p, won, true)
  {
    forall e | Calm(s, p, e) ensures Ends(Act(s, p, e), p, won, true) { }
  }

  lemma BodyInstallEnds(s: State, p: Pid, won: bool)
    requires Alive(s, p) && s.procs[p].pc == Write(Body, Install) && MyBody(s, p) && Taking !in s.fs.names
    requires won <==> NoStale(s.fs)
    ensures Ends(s, p, won, true)
  {
    forall e | Calm(s, p, e) ensures Ends(Act(s, p, e), p, won, true) {
      var s' := Act(s, p, e);
      assert s'.fs.names == s.fs.names;
      assert NoStale(s'.fs) <==> NoStale(s.fs);
      FinishInstallEnds(s', p, won);
    }
  }

  lemma CreateInstallEnds(s: State, p: Pid, won: bool)
    requires Alive(s, p) && s.procs[p].pc == Write(Create, Install) && s.fs.dir && Claim !in s.fs.names && Taking !in s.fs.names
    requires won <==> NoStale(s.fs)
    ensures Ends(s, p, won, true)
  {
    forall e | Calm(s, p, e) ensures Ends(Act(s, p, e), p, won, true) {
      var s' := Act(s, p, e);
      assert s'.fs.names == s.fs.names[Claim := e.ino];
      assert NoStale(s'.fs) <==> NoStale(s.fs);
      BodyInstallEnds(s', p, won);
    }
  }

  // ---- the takeover of a claim that parses

  /** The claim i, with token prev, is in place, parses, and its writer is dead. */
  ghost predicate DeadClaim(s: State, p: Pid, i: Inode, prev: Token) {
    && Lone(s, p) && DeadNames(s, p) && Claim in s.fs.names && s.fs.names[Claim] == i && i in s.fs.files
    && s.fs.files[i].complete && s.fs.files[i].tok == prev
  }

  lemma UnlinkEnds(s: State, p: Pid, i: Inode, prev: Token)
    requires Lone(s, p) && s.procs[p].pc == Swap(Unlink, i, prev)
    ensures Ends(s, p, true, true)
  {
    forall e | Calm(s, p, e) ensures Ends(Act(s, p, e), p, true, true) {
      CreateTakeEnds(Act(s, p, e), p, prev);
    }
  }

  lemma ExistingEnds(s: State, p: Pid, i: Inode, prev: Token, won: bool)
    requires DeadClaim(s, p, i, prev) && s.procs[p].pc == Swap(Existing, i, prev) && Stale(prev) in s.fs.names
    requires won <==> Consistent(s.fs, i)
    ensures Ends(s, p, won, won)
  {
    forall e | Calm(s, p, e) ensures Ends(Act(s, p, e), p, won, won) {
      if won { UnlinkEnds(Act(s, p, e), p, i, prev); } else { LeaseDropEnds(Act(s, p, e), p, Setup, false); }
    }
  }

  lemma SameInodeEnds(s: State, p: Pid, i: Inode, prev: Token)
    requires DeadClaim(s, p, i, prev) && s.procs[p].pc == Swap(SameInode, i, prev)
    requires Stale(prev) in s.fs.names && s.fs.names[Stale(prev)] == i
    ensures Ends(s, p, true, true)
  {
    forall e | Calm(s, p, e) ensures Ends(Act(s, p, e), p, true, true) {
      UnlinkEnds(Act(s, p, e), p, i, prev);
    }
  }

  lemma VerifyEnds(s: State, p: Pid, i: Inode, prev: Token)
    requires DeadClaim(s, p, i, prev) && s.procs[p].pc == Swap(Verify, i, prev)
    requires Stale(prev) in s.fs.names && s.fs.names[Stale(prev)] == i
    ensures Ends(s, p, true, true)
  {
    forall e | Calm(s, p, e) ensures Ends(Act(s, p, e), p, true, true) {
      SameInodeEnds(Act(s, p, e), p, i, prev);
    }
  }

  /** The quarantine succeeds exactly when its name is free or a second name of the claim. */
  lemma QuarantineEnds(s: State, p: Pid, i: Inode, prev: Token, won: bool)
    requires DeadClaim(s, p, i, prev) && s.procs[p].pc == Swap(Quarantine, i, prev) && (won <==> Consistent(s.fs, i))
    ensures Ends(s, p, won, won)
  {
    forall e | Calm(s, p, e) ensures Ends(Act(s, p, e), p, won, won) {
      if Stale(prev) in s.fs.names { ExistingEnds(Act(s, p, e), p, i, prev, won); } else { VerifyEnds(Act(s, p, e), p, i, prev); }
    }
  }

  lemma ReadBackEnds(s: State, p: Pid, i: Inode, prev: Token, won: bool)
    requires DeadClaim(s, p, i, prev) && s.procs[p].pc == Elect(ReadBack, i, prev) && (won <==> Consistent(s.fs, i))
    requires Read(s.fs, Taking).Some? && Read(s.fs, Taking).value.tok == s.procs[p].tok
    ensures Ends(s, p, won, won)
  {
    forall e | Calm(s, p, e) ensures Ends(Act(s, p, e), p, won, won) {
      QuarantineEnds(Act(s, p, e), p, i, prev, won);
    }
  }

  lemma TidyEnds(s: State, p: Pid, i: Inode, prev: Token, won: bool)
    requires DeadClaim(s, p, i, prev) && s.procs[p].pc == Elect(Tidy, i, prev) && (won <==> Consistent(s.fs, i))
    requires Read(s.fs, Taking).Some? && Read(s.fs, Taking).value.tok == s.procs[p].tok
    ensures Ends(s, p, won, won)
  {
    forall e | Calm(s, p, e) ensures Ends(Act(s, p, e), p, won, won) {
      ReadBackEnds(Act(s, p, e), p, i, prev, won);
    }
  }

  lemma PublishEnds(s: State, p: Pid, i: Inode, prev: Token, won: bool)
    requires DeadClaim(s, p, i, prev) && s.procs[p].pc == Elect(Publish, i, prev) && (won <==> Consistent(s.fs, i))
    requires Taking !in s.fs.names && Read(s.fs, TakingTmp(s.procs[p].tok)).Some? && Read(s.fs, TakingTmp(s.procs[p].tok)).value.tok == s.procs[p].tok
    ensures Ends(s, p, won, won)
  {
    forall e | Calm(s, p, e) ensures Ends(Act(s, p, e), p, won, won) {
      TidyEnds(Act(s, p, e), p, i, prev, won);
    }
  }

  lemma MakeTmpEnds(s: State, p: Pid, i: Inode, prev: Token, won: bool)
    requires DeadClaim(s, p, i, prev) && s.procs[p].pc == Elect(MakeTmp, i, prev) && (won <==> Consistent(s.fs, i))
    requires Taking !in s.fs.names && TakingTmp(s.procs[p].tok) !in s.fs.names
    ensures Ends(s, p, won, won)
  {
    forall e | Calm(s, p, e) ensures Ends(Act(s, p, e), p, won, won) {
      PublishEnds(Act(s, p, e), p, i, prev, won);
    }
  }

  lemma ElectEnds(s: State, p: Pid, i: Inode, prev: Token, won: bool)
    requires DeadClaim(s, p, i, prev) && s.procs[p].pc == Elect(ClearTaking, i, prev) && (won <==> Consistent(s.fs, i)) && TakingTmp(s.procs[p].tok) !in s.fs.names
    ensures Ends(s, p, won, won)
  {
    forall e | Calm(s, p, e) ensures Ends(Act(s, p, e), p, won, won) {
      MakeTmpEnds(Act(s, p, e), p, i, prev, won);
    }
  }

  /** From the first stat of the takeover to the end, for a claim that parses. */
  lemma TakeEnds(s: State, p: Pid, d: DecidePoint, i: Inode, prev: Token, won: bool)
    requires DeadClaim(s, p, i, prev) && s.procs[p].pc == Decide(d) && (won <==> Consistent(s.fs, i)) && TakingTmp(s.procs[p].tok) !in s.fs.names
    requires d == TakeStat0 || d == TakeStat || d == TakeParse(i) || d == TakeAsk(i, s.fs.files[i].who, prev)
    ensures Ends(s, p, won, won)
    decreases d == TakeStat0, d == TakeStat, d == TakeParse(i)
  {
    forall e | Calm(s, p, e) ensures Ends(Act(s, p, e), p, won, won) {
      var s' := Act(s, p, e);
      match d
      case TakeStat0 => TakeEnds(s', p, TakeStat, i, prev, won);
      case TakeStat => TakeEnds(s', p, TakeParse(i), i, prev, won);
      case TakeParse(_) => TakeEnds(s', p, TakeAsk(i, s.fs.files[i].who, prev), i, prev, won);
      case TakeAsk(_, _, _) => ElectEnds(s', p, i, prev, won);
    }
  }

  lemma OwnerEnds(s: State, p: Pid, d: DecidePoint, i: Inode, prev: Token, won: bool)
    requires DeadClaim(s, p, i, prev) && s.procs[p].pc == Decide(d) && (won <==> Consistent(s.fs, i)) && TakingTmp(s.procs[p].tok) !in s.fs.names
    requires d == OwnerClaim || d == OwnerAsk(s.fs.files[i].who)
    ensures Ends(s, p, won, won)
    decreases d == OwnerClaim
  {
    forall e | Calm(s, p, e) ensures Ends(Act(s, p, e), p, won, won) {
      if d == OwnerClaim { OwnerEnds(Act(s, p, e), p, OwnerAsk(s.fs.files[i].who), i, prev, won); }
      else { TakeEnds(Act(s, p, e), p, TakeStat0, i, prev, won); }
    }
  }

  // ---- a claim that does not parse

  lemma PartialTakeEnds(s: State, p: Pid, d: DecidePoint)
    requires Lone(s, p) && s.procs[p].pc == Decide(d) && Claim in s.fs.names && Read(s.fs, Claim).None?
    requires d == TakeStat0 || d == TakeStat || d.TakeParse? || d == InstallStat
    ensures Ends(s, p, false, false)
    decreases d == TakeStat0, d == TakeStat
  {
    forall e | Calm(s, p, e) ensures Ends(Act(s, p, e), p, false, false) {
      match d
      case TakeStat0 => PartialTakeEnds(Act(s, p, e), p, TakeStat);
      case TakeStat => PartialTakeEnds(Act(s, p, e), p, TakeParse(s.fs.names[Claim]));
      case _ =>
    }
  }

  /** A claim left by a crash between its create and its write is contention for ever. */
  lemma PartialOwnerEnds(s: State, p: Pid, d: DecidePoint)
    requires Lone(s, p) && DeadNames(s, p) && s.procs[p].pc == Decide(d) && Claim in s.fs.names && Read(s.fs, Claim).None?
    requires d == OwnerClaim || d == OwnerCard || (d.OwnerAsk? && d.who != p)
    ensures Ends(s, p, false, false)
    decreases d == OwnerClaim, d == OwnerCard
  {
    forall e | Calm(s, p, e) ensures Ends(Act(s, p, e), p, false, false) {
      var s' := Act(s, p, e);
      match d
      case OwnerClaim => PartialOwnerEnds(s', p, OwnerCard);
      case OwnerCard => if Read(s.fs, Card).Some? { PartialOwnerEnds(s', p, OwnerAsk(Read(s.fs, Card).value.who)); } else { PartialTakeEnds(s', p, InstallStat); }
      case OwnerAsk(_) => PartialTakeEnds(s', p, TakeStat0);
    }
  }

  // ---- neither a claim nor a quarantine that parses

  ghost predicate Unreadable(fs: Fs) { forall t :: Read(fs, Stale(t)).None? }

  /** What is left to win: only an install into a slot without quarantines and without a card succeeds. */
  ghost predicate Installs(fs: Fs, k: Then) {
    match k
    case ToOwner => NoStale(fs) && Read(fs, Card).None?
    case ToInstall => NoStale(fs)
    case ToTake => false
  }

  /** An install is reached exactly without a card, whether or not it is clean. */
  predicate Given(fs: Fs, k: Then) { k == ToInstall || (k == ToOwner && Read(fs, Card).None?) }

  ghost predicate Nothing(s: State, p: Pid) {
    Lone(s, p) && DeadNames(s, p) && Claim !in s.fs.names && Unreadable(s.fs) && Taking !in s.fs.names
  }

  lemma {:induction false} NothingListedEnds(s: State, p: Pid, queue: seq<Token>, k: Then, won: bool, given: bool)
    requires Nothing(s, p) && s.procs[p].pc == Repair(Each(queue), k) && (won <==> Installs(s.fs, k)) && (given <==> Given(s.fs, k))
    ensures Ends(s, p, won, given)
    decreases k == ToOwner, 5, |queue|
  {
    forall e | Calm(s, p, e) ensures Ends(Act(s, p, e), p, won, given) {
      var s' := Act(s, p, e);
      if queue != [] { NothingListedEnds(s', p, queue[1..], k, won, given); }
      else {
        match k
        case ToOwner => NothingOwnerEnds(s', p, OwnerClaim, won, given);
        case ToInstall => CreateInstallEnds(s', p, won);
        case ToTake => NoClaimLeft(s', p);
      }
    }
  }

  lemma UnlockEnds(s: State, p: Pid, res: Outcome)
    requires p in s.procs && s.procs[p].pc == Unlock(res) && res != Owned
    ensures Ends(s, p, false, false)
  {
  }

  lemma NoClaimLeft(s: State, p: Pid)
    requires Alive(s, p) && s.procs[p].pc == Decide(TakeStat) && Claim !in s.fs.names
    ensures Ends(s, p, false, false)
  {
    forall e | Calm(s, p, e) ensures Ends(Act(s, p, e), p, false, false) {
      UnlockEnds(Act(s, p, e), p, Again);
    }
  }

  lemma {:induction false} NothingRepairEnds(s: State, p: Pid, r: RepairPoint, k: Then, won: bool, given: bool)
    requires Nothing(s, p) && s.procs[p].pc == Repair(r, k) && (won <==> Installs(s.fs, k)) && (given <==> Given(s.fs, k))
    requires r == Lease || r == Stat || r == List
    ensures Ends(s, p, won, given)
    decreases k == ToOwner, if r == Lease then 8 else if r == Stat then 7 else 6, 0
  {
    forall e | Calm(s, p, e) ensures Ends(Act(s, p, e), p, won, given) {
      match r
      case Lease => NothingRepairEnds(Act(s, p, e), p, Stat, k, won, given);
      case Stat => NothingRepairEnds(Act(s, p, e), p, List, k, won, given);
      case List => NothingListedEnds(Act(s, p, e), p, e.stale, k, won, given);
    }
  }

  lemma {:induction false} NothingOwnerEnds(s: State, p: Pid, d: DecidePoint, won: bool, given: bool)
    requires Nothing(s, p) && s.procs[p].pc == Decide(d)
    requires d == OwnerClaim || d == OwnerCard || (d.OwnerAsk? && d.who != p) || d == TakeStat0 || d == InstallStat
    requires won <==> if d == InstallStat then NoStale(s.fs) else if d.OwnerAsk? || d == TakeStat0 then false else Installs(s.fs, ToOwner)
    requires given <==> d == InstallStat || (!d.OwnerAsk? && d != TakeStat0 && Read(s.fs, Card).None?)
    ensures Ends(s, p, won, given)
    decreases true, if d == OwnerClaim then 4 else if d == OwnerCard then 3 else if d.OwnerAsk? then 2 else 1, 0
  {
    forall e | Calm(s, p, e) ensures Ends(Act(s, p, e), p, won, given) {
      var s' := Act(s, p, e);
      match d
      case OwnerClaim => NothingOwnerEnds(s', p, OwnerCard, won, given);
      case OwnerCard =>
        if Read(s.fs, Card).Some? { NothingOwnerEnds(s', p, OwnerAsk(Read(s.fs, Card).value.who), won, given); }
        else { NothingOwnerEnds(s', p, InstallStat, won, given); }
      case OwnerAsk(_) => NothingOwnerEnds(s', p, TakeStat0, won, given);
      case TakeStat0 => NothingRepairEnds(s', p, Lease, ToTake, won, given);
      case InstallStat => NothingRepairEnds(s', p, Lease, ToInstall, won, given);
    }
  }

  // ---- a claim that parses: the repair drops its second name

  lemma ClaimRepairEnds(s: State, p: Pid, r: RepairPoint, i: Inode, prev: Token, won: bool)
    requires DeadClaim(s, p, i, prev) && s.procs[p].pc == Repair(r, ToOwner) && (won <==> Consistent(s.fs, i)) && TakingTmp(s.procs[p].tok) !in s.fs.names
    requires r == Stat || r == Parse(i) || r == Judge(i, s.fs.files[i].who, prev) || r == Compare(i, prev)
             || (r == Unquarantine(prev) && won)
    ensures Ends(s, p, won, won)
    decreases r == Stat, r == Parse(i), r.Judge?, r.Compare?
  {
    forall e | Calm(s, p, e) ensures Ends(Act(s, p, e), p, won, won) {
      var s' := Act(s, p, e);
      match r
      case Stat => ClaimRepairEnds(s', p, Parse(i), i, prev, won);
      case Parse(_) => ClaimRepairEnds(s', p, Judge(i, s.fs.files[i].who, prev), i, prev, won);
      case Judge(_, _, _) => ClaimRepairEnds(s', p, Compare(i, prev), i, prev, won);
      case Compare(_, _) =>
        if Stale(prev) in s.fs.names && s.fs.names[Stale(prev)] == i { ClaimRepairEnds(s', p, Unquarantine(prev), i, prev, won); }
        else { OwnerEnds(s', p, OwnerClaim, i, prev, won); }
      case Unquarantine(_) => OwnerEnds(s', p, OwnerClaim, i, prev, won);
    }
  }

  lemma PartialRepairEnds(s: State, p: Pid, r: RepairPoint)
    requires Lone(s, p) && DeadNames(s, p) && s.procs[p].pc == Repair(r, ToOwner) && Claim in s.fs.names && Read(s.fs, Claim).None?
    requires r == Stat || r.Parse?
    ensures Ends(s, p, false, false)
    decreases r == Stat
  {
    forall e | Calm(s, p, e) ensures Ends(Act(s, p, e), p, false, false) {
      if r == Stat { PartialRepairEnds(Act(s, p, e), p, Parse(s.fs.names[Claim])); } else { PartialOwnerEnds(Act(s, p, e), p, OwnerClaim); }
    }
  }

  // ---- no claim, but a quarantine that parses: it is put back

  /** Quarantine t parses and names i, whose token is prev; there is no claim.json. */
  ghost predicate Quarantined(s: State, p: Pid, t: Token, i: Inode, prev: Token) {
    && Lone(s, p) && DeadNames(s, p) && Claim !in s.fs.names && Stale(t) in s.fs.names && s.fs.names[Stale(t)] == i
    && i in s.fs.files && s.fs.files[i].complete && s.fs.files[i].tok == prev && TakingTmp(s.procs[p].tok) !in s.fs.names
  }

  lemma CheckEnds(s: State, p: Pid, queue: seq<Token>, i: Inode, prev: Token, won: bool)
    requires DeadClaim(s, p, i, prev) && s.procs[p].pc == Repair(Check(queue), ToOwner) && (won <==> Consistent(s.fs, i)) && TakingTmp(s.procs[p].tok) !in s.fs.names
    ensures Ends(s, p, won, won)
  {
    forall e | Calm(s, p, e) ensures Ends(Act(s, p, e), p, won, won) {
      OwnerEnds(Act(s, p, e), p, OwnerClaim, i, prev, won);
    }
  }

  lemma PutDropEnds(s: State, p: Pid, t: Token, queue: seq<Token>, i: Inode, prev: Token, won: bool)
    requires DeadClaim(s, p, i, prev) && s.procs[p].pc == Put(PutDrop, t, FromList(ToOwner, queue)) && TakingTmp(s.procs[p].tok) !in s.fs.names
    requires Stale(t) in s.fs.names && s.fs.names[Stale(t)] == i && (won <==> Consistent(s.fs, i))
    ensures Ends(s, p, won, won)
  {
    forall e | Calm(s, p, e) ensures Ends(Act(s, p, e), p, won, won) {
      CheckEnds(Act(s, p, e), p, queue, i, prev, won);
    }
  }

  lemma PutEnds(s: State, p: Pid, put: PutPoint, t: Token, queue: seq<Token>, i: Inode, prev: Token, won: bool)
    requires Quarantined(s, p, t, i, prev) && s.procs[p].pc == Put(put, t, FromList(ToOwner, queue)) && put != PutDrop
    requires won <==> Consistent(s.fs, i)
    ensures Ends(s, p, won, won)
    decreases put == PutStat
  {
    forall e | Calm(s, p, e) ensures Ends(Act(s, p, e), p, won, won) {
      if put == PutStat { PutEnds(Act(s, p, e), p, PutLink, t, queue, i, prev, won); }
      else { PutDropEnds(Act(s, p, e), p, t, queue, i, prev, won); }
    }
  }

  lemma AskEnds(s: State, p: Pid, t: Token, queue: seq<Token>, i: Inode, prev: Token, won: bool)
    requires Quarantined(s, p, t, i, prev) && s.procs[p].pc == Repair(Ask(t, s.fs.files[i].who, queue), ToOwner)
    requires won <==> Consistent(s.fs, i)
    ensures Ends(s, p, won, won)
  {
    forall e | Calm(s, p, e) ensures Ends(Act(s, p, e), p, won, won) {
      PutEnds(Act(s, p, e), p, PutStat, t, queue, i, prev, won);
    }
  }

  /** The loop skips every quarantine that does not parse and puts the first one that does back. */
  lemma {:induction false} EachEnds(s: State, p: Pid, t: Token, queue: seq<Token>, i: Inode, prev: Token, won: bool)
    requires Quarantined(s, p, t, i, prev) && s.procs[p].pc == Repair(Each(queue), ToOwner) && (won <==> Consistent(s.fs, i))
    requires First(s.fs, t) && t in queue && StrictlyIncreasing(queue)
    ensures Ends(s, p, won, won)
    decreases |queue|
  {
    forall e | Calm(s, p, e) ensures Ends(Act(s, p, e), p, won, won) {
      if queue[0] == t { AskEnds(Act(s, p, e), p, t, queue[1..], i, prev, won); }
      else {
        assert queue[0] < t;
        EachEnds(Act(s, p, e), p, t, queue[1..], i, prev, won);
      }
    }
  }

  lemma ListEnds(s: State, p: Pid, r: RepairPoint, t: Token, i: Inode, prev: Token, won: bool)
    requires Quarantined(s, p, t, i, prev) && s.procs[p].pc == Repair(r, ToOwner) && (won <==> Consistent(s.fs, i))
    requires First(s.fs, t) && (r == Stat || r == List)
    ensures Ends(s, p, won, won)
    decreases r == Stat
  {
    forall e | Calm(s, p, e) ensures Ends(Act(s, p, e), p, won, won) {
      if r == Stat { ListEnds(Act(s, p, e), p, List, t, i, prev, won); }
      else { EachEnds(Act(s, p, e), p, t, e.stale, i, prev, won); }
    }
  }

  // ---- the theorem

  lemma {:induction false} FirstExists(fs: Fs, t: Token)
    requires Read(fs, Stale(t)).Some?
    ensures exists u :: First(fs, u)
    decreases t
  {
    if First(fs, t) {
    } else {
      var u: Token :| u < t && Read(fs, Stale(u)).Some?;
      FirstExists(fs, u);
    }
  }

  /** From the stat of claim.json on, with the dead lease gone. */
  lemma StatEnds(s: State, p: Pid)
    requires Lone(s, p) && DeadNames(s, p) && Taking !in s.fs.names && TakingTmp(s.procs[p].tok) !in s.fs.names
    requires s.procs[p].pc == Repair(Stat, ToOwner)
    ensures Ends(s, p, Recoverable(s.fs), !Stuck(s.fs))
  {
    var fs := s.fs;
    if Claim in fs.names {
      if Read(fs, Claim).Some? { ClaimRepairEnds(s, p, Stat, fs.names[Claim], fs.files[fs.names[Claim]].tok, Recoverable(fs)); }
      else { PartialRepairEnds(s, p, Stat); }
    } else if exists t :: First(fs, t) {
      var t :| First(fs, t);
      assert forall u :: First(fs, u) ==> u == t;
      var i := fs.names[Stale(t)];
      ListEnds(s, p, Stat, t, i, fs.files[i].tok, Recoverable(fs));
    } else {
      forall t ensures Read(fs, Stale(t)).None? {
        if Read(fs, Stale(t)).Some? { FirstExists(fs, t); }
      }
      NothingRepairEnds(s, p, Stat, ToOwner, Recoverable(fs), !Stuck(fs));
    }
  }

  /**
   The recovery theorem. A lone contender p that has just taken reclaim.lock, in a
   directory that only dead processes wrote to, is given the slot if and only if the
   directory is not stuck, and ends as owner of its own live claim with no quarantine and
   no claim.taking left if and only if the directory is recoverable.
   */
  lemma LoneContenderRecovers(s: State, p: Pid)
    requires Lone(s, p) && DeadNames(s, p) && TakingTmp(s.procs[p].tok) !in s.fs.names
    requires Taking in s.fs.names ==> s.fs.files[s.fs.names[Taking]].who != p
    requires s.procs[p].pc == Repair(Lease, ToOwner)
    ensures Ends(s, p, Recoverable(s.fs), !Stuck(s.fs))
  {
    forall e | Calm(s, p, e) ensures Ends(Act(s, p, e), p, Recoverable(s.fs), !Stuck(s.fs)) {
      var s' := Act(s, p, e);
      assert s'.fs == s.fs.(names := s.fs.names - {Taking});
      RecoverableWithoutLease(s.fs);
      StatEnds(s', p);
    }
  }

  /** claim.taking is diagnostic: whether a slot is recoverable, or stuck, does not depend on it. */
  lemma RecoverableWithoutLease(fs: Fs)
    ensures Recoverable(fs.(names := fs.names - {Taking})) <==> Recoverable(fs)
    ensures Stuck(fs.(names := fs.names - {Taking})) <==> Stuck(fs)
  {
    var fs' := fs.(names := fs.names - {Taking});
    assert forall n: Name :: n != Taking ==> (n in fs'.names <==> n in fs.names) && Read(fs', n) == Read(fs, n);
    assert forall t :: First(fs', t) <==> First(fs, t);
    assert forall i :: Consistent(fs', i) <==> Consistent(fs, i);
    assert NoStale(fs') <==> NoStale(fs);
  }

  /** A slot that is neither recoverable nor stuck holds unreadable quarantines and nothing else: it is given, uncleanly. */
  lemma NeitherIsUnreadable(fs: Fs)
    ensures !(Recoverable(fs) && Stuck(fs))
    ensures !Recoverable(fs) && !Stuck(fs) <==> Claim !in fs.names && Unreadable(fs) && !NoStale(fs) && Read(fs, Card).None?
  {
    if t :| First(fs, t) {
      assert forall u :: First(fs, u) ==> u == t;
    } else {
      forall t ensures Read(fs, Stale(t)).None? { if Read(fs, Stale(t)).Some? { FirstExists(fs, t); } }
    }
  }
}
