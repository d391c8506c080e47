/**
 What a run slot's failure and cleanup paths leave in the directory: a takeover leaves no
 residue of the dead, a write that fails is undone, and a process that gives up takes its
 own names, and an empty directory, with it. The calls of the process succeed, and the
 oracle calls exactly the living live, from the point named on.
 */
module SlotCleanup {
  import opened SlotModel
  import opened SlotRecovery
  import opened Wrappers

  // ---- a takeover

  /** The names that takeovers and publications leave behind when they are cut off. */
  predicate LeftOver(n: Name) { n == Card || n == Taking || n.Stale? || n.TakingTmp? || n.CardTmp? }

  ghost predicate Tidy(fs: Fs) { forall n :: n in fs.names ==> !LeftOver(n) }

  /** Every calm run of p alone reaches the release of the lock as owner, with nothing left over. */
  least predicate Tidies(s: State, p: Pid) {
    p in s.procs
    && (match s.procs[p].pc
        case Unlock(res) => res == Owned && Tidy(s.fs)
        case _ => forall e :: Calm(s, p, e) ==> Tidies(Act(s, p, e), p))
  }

  lemma DropTidies(s: State, p: Pid)
    requires Alive(s, p) && s.procs[p].pc == LeaseDrop(Owned) && Tidy(s.fs)
    ensures Tidies(s, p)
  {
    forall e | Calm(s, p, e) ensures Tidies(Act(s, p, e), p) { }
  }

  lemma TailTidies(s: State, p: Pid, prev: Token)
    requires Alive(s, p) && s.procs[p].pc == Clear(ClearStale, prev) && Tidy(s.fs)
    ensures Tidies(s, p)
  {
    forall e | Calm(s, p, e) ensures Tidies(Act(s, p, e), p) {
      DropTidies(Act(s, p, e), p);
    }
  }

  lemma {:induction false} EntryTidies(s: State, p: Pid, entries: seq<Name>, prev: Token)
    requires Alive(s, p) && s.procs[p].pc == Clear(Entry(entries), prev)
    requires forall n :: n in s.fs.names && LeftOver(n) ==> n in entries
    requires Card !in s.fs.names
    ensures Tidies(s, p)
    decreases |entries|
  {
    forall e | Calm(s, p, e) ensures Tidies(Act(s, p, e), p) {
      var s' := Act(s, p, e);
      if entries == [] {
        TailTidies(s', p, prev);
      } else {
        assert entries == [entries[0]] + entries[1..];
        EntryTidies(s', p, entries[1..], prev);
      }
    }
  }

  /**
   A contender that has written its claim over a dead one ends as owner, and no card, lease,
   quarantine or temporary file of anyone is left in the slot.
   */
  lemma TakeoverTidies(s: State, p: Pid, prev: Token)
    requires Alive(s, p) && s.procs[p].pc == Clear(ClearCard, prev)
    ensures Tidies(s, p)
  {
    forall e | Calm(s, p, e) ensures Tidies(Act(s, p, e), p) {
      var s1 := Act(s, p, e);
      forall e1 | Calm(s1, p, e1) ensures Tidies(Act(s1, p, e1), p) {
        var s2 := Act(s1, p, e1);
        forall e2 | Calm(s2, p, e2) ensures Tidies(Act(s2, p, e2), p) {
          EntryTidies(Act(s2, p, e2), p, e2.entries, prev);
        }
      }
    }
  }

  // ---- a write that fails

  lemma UndoesWrite(s: State, p: Pid, prev: Token, e: Env, e1: Env)
    requires Calm(s, p, e) && s.procs[p].pc == Write(Undo, Take(prev)) && Calm(Act(s, p, e), p, e1)
    ensures var t := Act(Act(s, p, e), p, e1); t.procs[p].pc == Put(PutLink, prev, FromTake) && t.fs.names == s.fs.names - {Claim}
  {
  }

  lemma PutsBack(s: State, p: Pid, prev: Token, e: Env, e1: Env)
    requires Calm(s, p, e) && s.procs[p].pc == Put(PutLink, prev, FromTake) && Stale(prev) in s.fs.names && Claim !in s.fs.names
    requires Calm(Act(s, p, e), p, e1)
    ensures var t := Act(Act(s, p, e), p, e1);
      t.procs[p].pc == LeaseDrop(Setup) && t.fs.names == s.fs.names[Claim := s.fs.names[Stale(prev)]] - {Stale(prev)}
  {
  }

  /**
   A takeover whose claim could not be written puts the dead claim back under its name: after
   its next four calls the slot is as before the quarantine.
   */
  lemma FailedTakeoverRestores(s: State, p: Pid, prev: Token, e: Env, e1: Env, e2: Env, e3: Env)
    requires Calm(s, p, e) && s.procs[p].pc == Write(Undo, Take(prev)) && Stale(prev) in s.fs.names
    requires var s1 := Act(s, p, e); var s2 := Act(s1, p, e1); var s3 := Act(s2, p, e2); Calm(s1, p, e1) && Calm(s2, p, e2) && Calm(s3, p, e3)
    ensures var t := Act(Act(Act(Act(s, p, e), p, e1), p, e2), p, e3);
      t.procs[p].pc == LeaseDrop(Setup) && t.fs.names == s.fs.names[Claim := s.fs.names[Stale(prev)]] - {Stale(prev)}
  {
    UndoesWrite(s, p, prev, e, e1);
    var s2 := Act(Act(s, p, e), p, e1);
    PutsBack(s2, p, prev, e2, e3);
  }

  /** A fresh claim that could not be written is removed again, and so is the directory unless something else is in it. */
  lemma FailedFreshIsUndone(s: State, p: Pid, e: Env, e1: Env, e2: Env)
    requires Calm(s, p, e) && s.procs[p].pc == Write(Undo, Fresh) && s.fs.dir
    requires var s1 := Act(s, p, e); var s2 := Act(s1, p, e1); Calm(s1, p, e1) && Calm(s2, p, e2)
    ensures var t := Act(Act(Act(s, p, e), p, e1), p, e2);
      t.procs[p].pc == Idle && t.fs.names == s.fs.names - {Claim} && (t.fs.dir <==> exists n :: n in s.fs.names && n != Claim)
  {
    var s1 := Act(s, p, e);
    assert s1.procs[p].pc == Slot(FreshStat) && s1.fs.names == s.fs.names - {Claim} && s1.fs.dir;
    var s2 := Act(s1, p, e1);
    assert s2.procs[p].pc == Slot(FreshRmdir) && s2.fs == s1.fs;
    EmptyIff(s.fs.names, Claim);
  }

  lemma EmptyIff(names: map<Name, Inode>, n: Name)
    ensures names - {n} == map[] <==> forall m :: m in names ==> m == n
  {
    var rest := names - {n};
    assert forall m :: m in rest <==> m in names && m != n;
    assert rest == map[] <==> forall m :: m !in rest;
  }

  // ---- leaving

  /** abandonSetup's last call: the directory goes if nothing is left in it. */
  lemma LeavingRemovesEmpty(s: State, p: Pid, e: Env)
    requires Enabled(s, p, e) && e.ok && s.procs[p].pc == Leaving && s.fs.dir
    ensures var t := Act(s, p, e); t.procs[p].pc == Idle && t.fs.names == s.fs.names && (t.fs.dir <==> s.fs.names.Keys != {})
  {
    assert s.fs.names.Keys == {} <==> s.fs.names == map[];
  }

  /** A sweep that finds its claim replaced, or cannot move the tombstone, removes its temporary file and nothing else. */
  lemma FailedSweepTidies(s: State, p: Pid, e: Env, e1: Env)
    requires Enabled(s, p, e) && s.procs[p].pc in {Sweeping(SwReread), Sweeping(SwMove)}
    requires Act(s, p, e).procs[p].pc == Sweeping(SwTidy) && Enabled(Act(s, p, e), p, e1) && e1.ok
    ensures var t := Act(Act(s, p, e), p, e1);
      t.procs[p].pc == Sweeping(Swept) && t.fs.names == s.fs.names - {ClaimTmp(s.procs[p].tok)}
  {
  }
}
