/**
 Two runs of the slot protocol, with failing calls, that end in a directory no contender
 recovers: a card that outlives its claim, and two quarantines that hold the same token.
 Each is built system call by system call.
 */
module SlotFailures {
  import opened SlotModel
  import opened Wrappers
  import opened SlotSafety
  import opened SlotRecovery
  import opened SlotCrash
  import opened SlotStuck

  ghost predicate Reached(s: State) {
    exists states, events :: Run(states, events) && states[|events|] == s
  }

  lemma StartIsReached()
    ensures Reached(START)
  {
    assert Run([START], []);
  }

  lemma RunExtends(states: seq<State>, events: seq<Event>, ev: Event)
    requires Run(states, events) && Possible(states[|events|], ev)
    ensures Run(states + [After(states[|events|], ev)], events + [ev])
  {
    var s := After(states[|events|], ev);
    forall i | 0 <= i < |events| + 1
      ensures Possible((states + [s])[i], (events + [ev])[i]) && (states + [s])[i + 1] == After((states + [s])[i], (events + [ev])[i]) {
      if i < |events| { assert Possible(states[i], events[i]) && states[i + 1] == After(states[i], events[i]); }
    }
  }

  lemma ReachedExtends(s: State, ev: Event)
    requires Reached(s) && Possible(s, ev)
    ensures Reached(After(s, ev))
  {
    var states, events :| Run(states, events) && states[|events|] == s;
    RunExtends(states, events, ev);
  }

  lemma ReachedHolds(s: State)
    requires Reached(s)
    ensures Inv(s) && Traced(s)
  {
    var states, events :| Run(states, events) && states[|events|] == s;
    RunKeepsInv(states, events, |events|);
    RunIsTraced(states, events, |events|);
  }

  // ---- the outside world can always answer

  lemma {:induction false} Listed(ns: set<Name>) returns (l: seq<Name>)
    ensures forall n :: n in l <==> n in ns
  {
    if ns == {} {
      l := [];
    } else {
      var n :| n in ns;
      l := Listed(ns - {n});
      l := [n] + l;
    }
  }

  lemma {:induction false} Highest(ts: set<Token>) returns (t: Token)
    requires ts != {}
    ensures t in ts && forall u :: u in ts ==> u <= t
    decreases ts
  {
    t :| t in ts;
    if ts - {t} == {} { assert ts == {t}; }
    if ts - {t} != {} {
      var u := Highest(ts - {t});
      assert forall v :: v in ts ==> v == t || v in ts - {t};
      t := if t < u then u else t;
    }
  }

  lemma {:induction false} Sorted(ts: set<Token>) returns (l: seq<Token>)
    ensures StrictlyIncreasing(l) && forall t :: t in l <==> t in ts
    decreases ts
  {
    if ts == {} {
      l := [];
    } else {
      var t := Highest(ts);
      l := Sorted(ts - {t});
      assert forall i :: 0 <= i < |l| ==> l[i] in l && l[i] in ts - {t};
      l := l + [t];
    }
  }

  /** The answers that matter here; the rest of an answer only has to be possible. */
  predicate Answers(e: Env, s: State, ok: bool, tok: Token, ino: Inode, want: Want) {
    e.ok == ok && !e.same && e.newTok == tok && e.ino == ino && e.want == want && e.live == set q | q in s.procs && s.procs[q].alive
  }

  lemma SomeAnswer(s: State, p: Pid, ok: bool, tok: Token, ino: Inode, want: Want) returns (e: Env)
    requires Alive(s, p) && tok != NO_TOKEN && tok !in s.issued && ino !in s.fs.files
    ensures Enabled(s, p, e) && Answers(e, s, ok, tok, ino, want)
  {
    var stale := Sorted(set n | n in s.fs.names && n.Stale? :: n.tok);
    var entries := Listed(s.fs.names.Keys);
    forall t ensures t in stale <==> Stale(t) in s.fs.names {
      if Stale(t) in s.fs.names { assert Stale(t).tok == t; }
    }
    e := Env(ok, set q | q in s.procs && s.procs[q].alive, false, tok, ino, stale, entries, want);
  }

  /** A calm answer exists for every living process in every state: `Ends` is never about no run. */
  lemma CalmExists(s: State, p: Pid)
    requires Alive(s, p)
    ensures exists e :: Calm(s, p, e)
  {
    var tok := UpperBound(s.issued.Keys);
    var ino := UpperBound(s.fs.files.Keys);
    var e := SomeAnswer(s, p, true, if tok == NO_TOKEN then 1 else tok, ino, DoSweep);
    assert Calm(s, p, e);
  }

  // ---- one call at a time

  /** The world s in which process p, with record pr, sees the directory fs. */
  function With(s: State, p: Pid, fs: Fs, pr: Proc): State { State(fs, s.procs[p := pr], s.issued) }

  /** An answer to p, as far as it is fixed here. */
  ghost predicate Says(e: Env, s: State, p: Pid, ok: bool, ino: Inode, want: Want) {
    e.ok == ok && !e.same && e.ino == ino && e.want == want && forall q :: q in e.live <==> q == p || Alive(s, q)
  }

  /** p makes the call op, whatever the rest of the answer. */
  lemma Go(s: State, p: Pid, fs: Fs, pr: Proc, ok: bool, ino: Inode, want: Want, op: Op, pr': Proc)
    requires Reached(With(s, p, fs, pr)) && pr.alive && !pr.pc.Idle? && ino !in fs.files
    requires forall e :: Says(e, s, p, ok, ino, want) ==> Next(fs, p, pr, e) == (op, pr')
    ensures Reached(With(s, p, Apply(fs, p, op), pr'))
  {
    var w := With(s, p, fs, pr);
    var tok := UpperBound(w.issued.Keys);
    var e := SomeAnswer(w, p, ok, if tok == NO_TOKEN then 1 else tok, ino, want);
    assert Says(e, s, p, ok, ino, want);
    ReachedExtends(w, Step(p, e));
    assert s.procs[p := pr][p := pr'] == s.procs[p := pr'];
  }

  /** A step that changes nothing but the program point. */
  lemma Glide(s: State, p: Pid, fs: Fs, pr: Proc, ok: bool, want: Want, pc: Pc)
    requires Reached(With(s, p, fs, pr)) && pr.alive && !pr.pc.Idle?
    requires forall e: Env :: Says(e, s, p, ok, e.ino, want) ==> Next(fs, p, pr, e) == (Nop, pr.(pc := pc))
    ensures Reached(With(s, p, fs, pr.(pc := pc)))
  {
    var ino := UpperBound(fs.files.Keys);
    forall e | Says(e, s, p, ok, ino, want) ensures Next(fs, p, pr, e) == (Nop, pr.(pc := pc)) { assert Says(e, s, p, ok, e.ino, want); }
    Go(s, p, fs, pr, ok, ino, want, Nop, pr.(pc := pc));
  }

  function Newcomer(tok: Token, pc: Pc): Proc { Proc(true, tok, 0, 0, false, pc) }

  /** A new process starts an attempt with token tok. */
  lemma Starts(s: State, p: Pid, tok: Token)
    requires Reached(s) && p !in s.procs && tok != NO_TOKEN && tok !in s.issued
    ensures Reached(With(s.(issued := s.issued[tok := p]), p, s.fs, Newcomer(tok, Slot(TryMkdir))))
  {
    ReachedExtends(s, Spawn(p));
    var s1 := After(s, Spawn(p));
    var ino := UpperBound(s.fs.files.Keys);
    var e := SomeAnswer(s1, p, true, tok, ino, DoSweep);
    ReachedExtends(s1, Step(p, e));
    assert Act(s1, p, e).procs == s.procs[p := Newcomer(tok, Slot(TryMkdir))];
  }

  lemma Dies(s: State, p: Pid, fs: Fs, pr: Proc, locks: map<Inode, Pid>)
    requires Reached(With(s, p, fs, pr)) && pr.alive && locks == map i | i in fs.locks && fs.locks[i] != p :: fs.locks[i]
    ensures Reached(With(s, p, fs.(locks := locks), pr.(alive := false)))
  {
    ReachedExtends(With(s, p, fs, pr), Death(p));
    assert s.procs[p := pr][p := pr.(alive := false)] == s.procs[p := pr.(alive := false)];
  }

  lemma SameWorld(s: State, p: Pid)
    requires p in s.procs
    ensures With(s, p, s.fs, s.procs[p]) == s
  {
    assert s.procs[p := s.procs[p]] == s.procs;
  }

  // ---- the pieces of a run

  const LOCK_BODY := File(1, NO_TOKEN, true, false)

  /** Process 1 made the directory and reclaim.lock, and is about to create claim.json with token 20. */
  const A := With(START.(issued := map[20 := 1]), 1, Fs(true, map[LockFile := 1], map[1 := LOCK_BODY], map[]), Newcomer(20, Write(Create, Fresh)))

  lemma ReachesA()
    ensures Reached(A)
  {
    StartIsReached();
    Starts(START, 1, 20);
    var s := START.(issued := START.issued[20 := 1]);
    Go(s, 1, START.fs, Newcomer(20, Slot(TryMkdir)), true, 1, DoSweep, MakeDir, Newcomer(20, Slot(FreshLock)));
    var fs := Fs(true, map[], map[], map[]);
    Go(s, 1, fs, Newcomer(20, Slot(FreshLock)), true, 1, DoSweep, Make(LockFile, 1, LOCK_BODY), Newcomer(20, Write(Create, Fresh)));
  }

  /** The exclusive write of claim.json succeeds. */
  lemma Writes(s: State, p: Pid, fs: Fs, pr: Proc, c: Ctx, i: Inode)
    requires Reached(With(s, p, fs, pr)) && pr.alive && pr.pc == Write(Create, c) && fs.dir && Claim !in fs.names && i !in fs.files
    ensures Reached(With(s, p, fs.(names := fs.names[Claim := i], files := fs.files[i := File(p, pr.tok, true, false)]), pr.(ino := i, pc := AfterWrite(c))))
  {
    var f := File(p, pr.tok, false, false);
    var pr1 := pr.(ino := i, pc := Write(Body, c));
    Go(s, p, fs, pr, true, i, DoSweep, Make(Claim, i, f), pr1);
    var fs1 := fs.(names := fs.names[Claim := i], files := fs.files[i := f]);
    var j := UpperBound(fs1.files.Keys);
    Go(s, p, fs1, pr1, true, j, DoSweep, Fill(i), pr1.(pc := Write(Finish, c)));
    var fs2 := fs.(names := fs.names[Claim := i], files := fs.files[i := File(p, pr.tok, true, false)]);
    assert Apply(fs1, p, Fill(i)) == fs2;
    Glide(s, p, fs2, pr1.(pc := Write(Finish, c)), true, DoSweep, AfterWrite(c));
  }

  /** An owner publishes its card, up to the removal of the temporary. */
  lemma Publishes(s: State, p: Pid, fs: Fs, pr: Proc, i: Inode)
    requires Reached(With(s, p, fs, pr)) && pr.alive && pr.pc == Owner(Held) && !pr.ownedCard && fs.dir && Carries(fs, pr.tok)
    requires i !in fs.files && CardTmp(pr.tok) !in fs.names && Card !in fs.names && fs.names[Claim] in fs.files
    ensures Reached(With(s, p, fs.(names := fs.names[CardTmp(pr.tok) := i][Card := i], files := fs.files[i := File(p, NO_TOKEN, true, false)]), pr.(ownedCard := true, pc := Owner(PubTidy(true)))))
  {
    Glide(s, p, fs, pr, true, DoPublish, Owner(PubRead));
    Glide(s, p, fs, pr.(pc := Owner(PubRead)), true, DoPublish, Owner(PubTmp));
    Go(s, p, fs, pr.(pc := Owner(PubTmp)), true, i, DoPublish, Make(CardTmp(pr.tok), i, File(p, NO_TOKEN, true, false)), pr.(pc := Owner(PubLink)));
    var fs1 := fs.(names := fs.names[CardTmp(pr.tok) := i], files := fs.files[i := File(p, NO_TOKEN, true, false)]);
    var j := UpperBound(fs1.files.Keys);
    Go(s, p, fs1, pr.(pc := Owner(PubLink)), true, j, DoPublish, SlotModel.Link(i, Card), pr.(ownedCard := true, pc := Owner(PubTidy(true))));
  }

  /** An owner whose stream could not be opened, or whose card could not be published, abandons its setup. */
  lemma Abandons(s: State, p: Pid, fs: Fs, pr: Proc)
    requires Reached(With(s, p, fs, pr)) && pr.alive && pr.pc == Owner(Held) && !pr.ownedCard && Carries(fs, pr.tok)
    ensures Reached(With(s, p, fs.(names := fs.names - {Claim}), pr.(pc := Leaving)))
  {
    Glide(s, p, fs, pr, true, DoAbandon, Owner(AbRead));
    Glide(s, p, fs, pr.(pc := Owner(AbRead)), true, DoAbandon, Owner(AbCard));
    var j := UpperBound(fs.files.Keys);
    Go(s, p, fs, pr.(pc := Owner(AbCard)), true, j, DoAbandon, Nop, pr.(pc := Owner(AbClaim)));
    Go(s, p, fs, pr.(pc := Owner(AbClaim)), true, j, DoAbandon, Drop(Claim), pr.(pc := Leaving));
  }

  /** The start of an attempt in an existing slot. */
  lemma Opens(s: State, p: Pid, tok: Token)
    requires Reached(s) && p !in s.procs && tok != NO_TOKEN && tok !in s.issued && s.fs.dir
    ensures Reached(With(s.(issued := s.issued[tok := p]), p, s.fs, Newcomer(tok, Slot(LockOpen))))
  {
    Starts(s, p, tok);
    var s1, fs, pr := s.(issued := s.issued[tok := p]), s.fs, Newcomer(tok, Slot(TryMkdir));
    var j := UpperBound(fs.files.Keys);
    Glide(s1, p, fs, pr, true, DoSweep, Slot(LockMkdir));
    Go(s1, p, fs, pr.(pc := Slot(LockMkdir)), true, j, DoSweep, MakeDir, pr.(pc := Slot(LockOpen)));
    assert fs.(dir := true) == fs;
  }

  /** As `Opens`, up to the lock. */
  lemma Locks(s: State, p: Pid, tok: Token, l: Inode)
    requires Reached(s) && p !in s.procs && tok != NO_TOKEN && tok !in s.issued
    requires s.fs.dir && LockFile in s.fs.names && s.fs.names[LockFile] == l && l !in s.fs.locks
    ensures Reached(With(s.(issued := s.issued[tok := p]), p, s.fs.(locks := s.fs.locks[l := p]), Newcomer(tok, Repair(Lease, ToOwner)).(fd := l)))
  {
    Opens(s, p, tok);
    var s1, fs, pr := s.(issued := s.issued[tok := p]), s.fs, Newcomer(tok, Slot(LockOpen));
    var j := UpperBound(fs.files.Keys);
    Go(s1, p, fs, pr, true, j, DoSweep, Nop, pr.(fd := l, pc := Slot(Flock)));
    Go(s1, p, fs, pr.(fd := l, pc := Slot(Flock)), true, j, DoSweep, Acquire(l), pr.(fd := l, pc := Repair(Lease, ToOwner)));
  }

  /** As `Locks`, and then past a repair whose first stat fails. */
  lemma Enters(s: State, p: Pid, tok: Token, l: Inode)
    requires Reached(s) && p !in s.procs && tok != NO_TOKEN && tok !in s.issued
    requires s.fs.dir && LockFile in s.fs.names && s.fs.names[LockFile] == l && l !in s.fs.locks
    ensures Reached(With(s.(issued := s.issued[tok := p]), p, s.fs.(locks := s.fs.locks[l := p]), Newcomer(tok, Decide(OwnerClaim)).(fd := l)))
  {
    Locks(s, p, tok, l);
    var s1, fs := s.(issued := s.issued[tok := p]), s.fs.(locks := s.fs.locks[l := p]);
    var pr := Newcomer(tok, Repair(Lease, ToOwner)).(fd := l);
    Glide(s1, p, fs, pr, false, DoSweep, Repair(Stat, ToOwner));
    Glide(s1, p, fs, pr.(pc := Repair(Stat, ToOwner)), false, DoSweep, Decide(OwnerClaim));
  }

  /** The re-read of staleTakeoverLocked, up to the question whether the owner f.who is dead. */
  lemma Rereads(s: State, p: Pid, fs: Fs, pr: Proc, c: Inode, f: File)
    requires Reached(With(s, p, fs, pr)) && pr.alive && pr.pc == Decide(TakeStat0)
    requires Claim in fs.names && fs.names[Claim] == c && c in fs.files && fs.files[c] == f && f.complete
    ensures Reached(With(s, p, fs, pr.(pc := Decide(TakeAsk(c, f.who, f.tok)))))
  {
    Glide(s, p, fs, pr, true, DoSweep, Decide(TakeStat));
    Glide(s, p, fs, pr.(pc := Decide(TakeStat)), true, DoSweep, Decide(TakeParse(c)));
    Glide(s, p, fs, pr.(pc := Decide(TakeParse(c))), true, DoSweep, Decide(TakeAsk(c, f.who, f.tok)));
  }

  /** The claim of a dead owner is found and read again. */
  lemma Finds(s: State, p: Pid, fs: Fs, pr: Proc, c: Inode, f: File)
    requires Reached(With(s, p, fs, pr)) && pr.alive && pr.pc == Decide(OwnerClaim) && f.who != p && !Alive(s, f.who)
    requires Claim in fs.names && fs.names[Claim] == c && c in fs.files && fs.files[c] == f && f.complete
    ensures Reached(With(s, p, fs, pr.(pc := Elect(ClearTaking, c, f.tok))))
  {
    Glide(s, p, fs, pr, true, DoSweep, Decide(OwnerAsk(f.who)));
    Glide(s, p, fs, pr.(pc := Decide(OwnerAsk(f.who))), true, DoSweep, Decide(TakeStat0));
    Rereads(s, p, fs, pr.(pc := Decide(TakeStat0)), c, f);
    Glide(s, p, fs, pr.(pc := Decide(TakeAsk(c, f.who, f.tok))), true, DoSweep, Elect(ClearTaking, c, f.tok));
  }

  function LeaseBody(p: Pid, pr: Proc): File { File(p, pr.tok, true, false) }

  /** The lease temporary is written. */
  lemma Drafts(s: State, p: Pid, fs: Fs, pr: Proc, c: Inode, t: Token, i: Inode)
    requires Reached(With(s, p, fs, pr)) && pr.alive && pr.pc == Elect(ClearTaking, c, t) && fs.dir
    requires TakingTmp(pr.tok) !in fs.names && i !in fs.files
    ensures var fs' := fs.(names := (fs.names - {Taking})[TakingTmp(pr.tok) := i], files := fs.files[i := LeaseBody(p, pr)]);
            Reached(With(s, p, fs', pr.(pc := Elect(Publish, c, t))))
  {
    Go(s, p, fs, pr, true, i, DoSweep, Drop(Taking), pr.(pc := Elect(MakeTmp, c, t)));
    var fs1 := fs.(names := fs.names - {Taking});
    Go(s, p, fs1, pr.(pc := Elect(MakeTmp, c, t)), true, i, DoSweep, Make(TakingTmp(pr.tok), i, LeaseBody(p, pr)), pr.(pc := Elect(Publish, c, t)));
  }

  /** The temporary becomes claim.taking. */
  lemma Announces(s: State, p: Pid, fs: Fs, pr: Proc, c: Inode, t: Token, i: Inode)
    requires Reached(With(s, p, fs, pr)) && pr.alive && pr.pc == Elect(Publish, c, t) && Taking !in fs.names
    requires TakingTmp(pr.tok) in fs.names && fs.names[TakingTmp(pr.tok)] == i
    ensures Reached(With(s, p, fs.(names := fs.names[Taking := i] - {TakingTmp(pr.tok)}), pr.(pc := Elect(ReadBack, c, t))))
  {
    var j := UpperBound(fs.files.Keys);
    Go(s, p, fs, pr, true, j, DoSweep, SlotModel.Link(i, Taking), pr.(pc := Elect(Tidy, c, t)));
    var fs1 := fs.(names := fs.names[Taking := i]);
    Go(s, p, fs1, pr.(pc := Elect(Tidy, c, t)), true, j, DoSweep, Drop(TakingTmp(pr.tok)), pr.(pc := Elect(ReadBack, c, t)));
  }

  /** p elects itself: claim.taking is its own. */
  lemma Elects(s: State, p: Pid, fs: Fs, pr: Proc, c: Inode, t: Token, i: Inode)
    requires Reached(With(s, p, fs, pr)) && pr.alive && pr.pc == Elect(ClearTaking, c, t) && fs.dir
    requires TakingTmp(pr.tok) !in fs.names && i !in fs.files
    ensures Reached(With(s, p, fs.(names := fs.names[Taking := i], files := fs.files[i := LeaseBody(p, pr)]), pr.(pc := Swap(Quarantine, c, t))))
  {
    Drafts(s, p, fs, pr, c, t, i);
    var fs1 := fs.(names := (fs.names - {Taking})[TakingTmp(pr.tok) := i], files := fs.files[i := LeaseBody(p, pr)]);
    Announces(s, p, fs1, pr.(pc := Elect(Publish, c, t)), c, t, i);
    var fs2 := fs1.(names := fs.names[Taking := i]);
    assert fs1.names[Taking := i] - {TakingTmp(pr.tok)} == fs2.names;
    Glide(s, p, fs2, pr.(pc := Elect(ReadBack, c, t)), true, DoSweep, Swap(Quarantine, c, t));
  }

  /** The claim c with token t is quarantined and removed. */
  lemma Removes(s: State, p: Pid, fs: Fs, pr: Proc, c: Inode, t: Token)
    requires Reached(With(s, p, fs, pr)) && pr.alive && pr.pc == Swap(Quarantine, c, t)
    requires Claim in fs.names && fs.names[Claim] == c && c in fs.files && fs.files[c].complete && fs.files[c].tok == t && Stale(t) !in fs.names
    ensures Reached(With(s, p, fs.(names := fs.names[Stale(t) := c] - {Claim}), pr.(pc := Write(Create, Take(t)))))
  {
    var j := UpperBound(fs.files.Keys);
    Go(s, p, fs, pr, true, j, DoSweep, SlotModel.Link(c, Stale(t)), pr.(pc := Swap(Verify, c, t)));
    var fs1 := fs.(names := fs.names[Stale(t) := c]);
    Glide(s, p, fs1, pr.(pc := Swap(Verify, c, t)), true, DoSweep, Swap(SameInode, c, t));
    Glide(s, p, fs1, pr.(pc := Swap(SameInode, c, t)), true, DoSweep, Swap(Unlink, c, t));
    Go(s, p, fs1, pr.(pc := Swap(Unlink, c, t)), true, j, DoSweep, Drop(Claim), pr.(pc := Write(Create, Take(t))));
  }

  /** A takeover of the dead claim c up to the point where claim.json is gone and its quarantine stays. */
  lemma TakesOver(s: State, p: Pid, tok: Token, l: Inode, c: Inode, i: Inode)
    requires Reached(s) && p !in s.procs && tok != NO_TOKEN && tok !in s.issued
    requires s.fs.dir && LockFile in s.fs.names && s.fs.names[LockFile] == l && l !in s.fs.locks
    requires Claim in s.fs.names && s.fs.names[Claim] == c && c in s.fs.files && s.fs.files[c].complete
    requires s.fs.files[c].who != p && !Alive(s, s.fs.files[c].who)
    requires Stale(s.fs.files[c].tok) !in s.fs.names && TakingTmp(tok) !in s.fs.names && i !in s.fs.files
    ensures var t := s.fs.files[c].tok;
            var fs := s.fs.(names := s.fs.names[Taking := i][Stale(t) := c] - {Claim}, files := s.fs.files[i := File(p, tok, true, false)], locks := s.fs.locks[l := p]);
            Reached(With(s.(issued := s.issued[tok := p]), p, fs, Newcomer(tok, Write(Create, Take(t))).(fd := l)))
  {
    Enters(s, p, tok, l);
    var s1, fs, f, pr := s.(issued := s.issued[tok := p]), s.fs.(locks := s.fs.locks[l := p]), s.fs.files[c], Newcomer(tok, Decide(OwnerClaim)).(fd := l);
    Finds(s1, p, fs, pr, c, f);
    Elects(s1, p, fs, pr.(pc := Elect(ClearTaking, c, f.tok)), c, f.tok, i);
    var fs1 := fs.(names := fs.names[Taking := i], files := fs.files[i := File(p, tok, true, false)]);
    Removes(s1, p, fs1, pr.(pc := Swap(Quarantine, c, f.tok)), c, f.tok);
  }

  /** The tail of a takeover in which only claim.taking and the quarantine are removed. */
  lemma Clears(s: State, p: Pid, fs: Fs, pr: Proc, t: Token)
    requires Reached(With(s, p, fs, pr)) && pr.alive && pr.pc == Clear(ClearCard, t)
    ensures Reached(With(s, p, fs.(names := fs.names - {Taking} - {Stale(t)}), pr.(pc := LeaseDrop(Owned))))
  {
    var j := UpperBound(fs.files.Keys);
    Glide(s, p, fs, pr, false, DoSweep, Clear(ClearLease, t));
    Go(s, p, fs, pr.(pc := Clear(ClearLease, t)), true, j, DoSweep, Drop(Taking), pr.(pc := Clear(Listing, t)));
    var fs1 := fs.(names := fs.names - {Taking});
    Glide(s, p, fs1, pr.(pc := Clear(Listing, t)), false, DoSweep, Clear(ClearStale, t));
    Go(s, p, fs1, pr.(pc := Clear(ClearStale, t)), true, j, DoSweep, Drop(Stale(t)), pr.(pc := LeaseDrop(Owned)));
  }

  /** An owner lets the lock go. */
  lemma Unlocks(s: State, p: Pid, fs: Fs, pr: Proc)
    requires Reached(With(s, p, fs, pr)) && pr.alive && pr.pc == Unlock(Owned)
    ensures Reached(With(s, p, fs.(locks := fs.locks - {pr.fd}), pr.(pc := Owner(Held))))
  {
    var j := UpperBound(fs.files.Keys);
    Go(s, p, fs, pr, true, j, DoSweep, Release(pr.fd), pr.(pc := Owner(Held)));
  }

  /** A takeover from the write of the new claim on, with the failures of `Clears`. */
  lemma Succeeds(s: State, p: Pid, fs: Fs, pr: Proc, t: Token, i: Inode)
    requires Reached(With(s, p, fs, pr)) && pr.alive && pr.pc == Write(Create, Take(t)) && fs.dir && Claim !in fs.names && i !in fs.files
    ensures var fs' := fs.(names := fs.names[Claim := i] - {Taking} - {Stale(t)}, files := fs.files[i := File(p, pr.tok, true, false)], locks := fs.locks - {pr.fd});
            Reached(With(s, p, fs', pr.(ino := i, pc := Owner(Held))))
  {
    Writes(s, p, fs, pr, Take(t), i);
    var fs1 := fs.(names := fs.names[Claim := i], files := fs.files[i := File(p, pr.tok, true, false)]);
    var pr1 := pr.(ino := i, pc := Clear(ClearCard, t));
    Clears(s, p, fs1, pr1, t);
    var fs2 := fs1.(names := fs1.names - {Taking} - {Stale(t)});
    Glide(s, p, fs2, pr1.(pc := LeaseDrop(Owned)), true, DoSweep, Unlock(Owned));
    Unlocks(s, p, fs2, pr1.(pc := Unlock(Owned)));
  }

  /** A takeover links whatever claim.json names, here inode k. */
  lemma Links(s: State, p: Pid, fs: Fs, pr: Proc, c: Inode, t: Token, k: Inode)
    requires Reached(With(s, p, fs, pr)) && pr.alive && pr.pc == Swap(Quarantine, c, t)
    requires Claim in fs.names && fs.names[Claim] == k && Stale(t) !in fs.names
    ensures Reached(With(s, p, fs.(names := fs.names[Stale(t) := k]), pr.(pc := Swap(Verify, c, t))))
  {
    var j := UpperBound(fs.files.Keys);
    Go(s, p, fs, pr, true, j, DoSweep, SlotModel.Link(k, Stale(t)), pr.(pc := Swap(Verify, c, t)));
  }

  /** The first half of a sweep; the process has published no card. */
  lemma StartsSweep(s: State, p: Pid, fs: Fs, pr: Proc)
    requires Reached(With(s, p, fs, pr)) && pr.alive && pr.pc == Owner(Held) && !pr.ownedCard && Carries(fs, pr.tok)
    ensures Reached(With(s, p, fs, pr.(pc := Sweeping(SwRead2))))
  {
    Glide(s, p, fs, pr, true, DoSweep, Sweeping(SwRead));
    Glide(s, p, fs, pr.(pc := Sweeping(SwRead)), true, DoSweep, Sweeping(SwCard));
    Glide(s, p, fs, pr.(pc := Sweeping(SwCard)), true, DoSweep, Sweeping(SwRead2));
  }

  /** The sweep goes on to the tombstone's temporary. */
  lemma Sweeps(s: State, p: Pid, fs: Fs, pr: Proc, i: Inode)
    requires Reached(With(s, p, fs, pr)) && pr.alive && pr.pc == Owner(Held) && !pr.ownedCard && Carries(fs, pr.tok) && fs.dir
    requires ClaimTmp(pr.tok) !in fs.names && i !in fs.files
    ensures var fs' := fs.(names := fs.names[ClaimTmp(pr.tok) := i], files := fs.files[i := File(p, pr.tok, true, true)]);
            Reached(With(s, p, fs', pr.(pc := Sweeping(SwReread))))
  {
    StartsSweep(s, p, fs, pr);
    Glide(s, p, fs, pr.(pc := Sweeping(SwRead2)), true, DoSweep, Sweeping(SwTmp));
    Go(s, p, fs, pr.(pc := Sweeping(SwTmp)), true, i, DoSweep, Make(ClaimTmp(pr.tok), i, File(p, pr.tok, true, true)), pr.(pc := Sweeping(SwReread)));
  }

  /** The temporary replaces claim.json. */
  lemma Buries(s: State, p: Pid, fs: Fs, pr: Proc, i: Inode)
    requires Reached(With(s, p, fs, pr)) && pr.alive && pr.pc == Sweeping(SwReread) && Carries(fs, pr.tok)
    requires ClaimTmp(pr.tok) in fs.names && fs.names[ClaimTmp(pr.tok)] == i
    ensures Reached(With(s, p, fs.(names := fs.names[Claim := i] - {ClaimTmp(pr.tok)}), pr.(ino := i, pc := Sweeping(Swept))))
  {
    var j := UpperBound(fs.files.Keys);
    Glide(s, p, fs, pr, true, DoSweep, Sweeping(SwMove));
    Go(s, p, fs, pr.(pc := Sweeping(SwMove)), true, j, DoSweep, SlotModel.Move(ClaimTmp(pr.tok), Claim), pr.(ino := i, pc := Sweeping(Swept)));
  }

  // ---- the stages both lost slots go through

  const WAITING := Newcomer(20, Write(Create, Fresh))
  const CLAIM_40 := File(2, 40, true, false)
  const CARD_40 := File(2, NO_TOKEN, true, false)
  const BODY_10 := File(3, 10, true, false)
  const BODY_20 := File(1, 20, true, false)
  const TOMB_20 := File(1, 20, true, true)

  lemma Installs2()
    ensures Reached(With(A.(issued := A.issued[40 := 2]), 2, A.fs.(locks := map[1 := 2]), Newcomer(40, Write(Create, Install)).(fd := 1)))
  {
    ReachesA();
    Enters(A, 2, 40, 1);
    var s, fs, pr := A.(issued := A.issued[40 := 2]), A.fs.(locks := A.fs.locks[1 := 2]), Newcomer(40, Decide(OwnerClaim)).(fd := 1);
    Glide(s, 2, fs, pr, true, DoSweep, Decide(OwnerCard));
    Glide(s, 2, fs, pr.(pc := Decide(OwnerCard)), true, DoSweep, Decide(InstallStat));
    Glide(s, 2, fs, pr.(pc := Decide(InstallStat)), true, DoSweep, Repair(Lease, ToInstall));
    Glide(s, 2, fs, pr.(pc := Repair(Lease, ToInstall)), false, DoSweep, Repair(Stat, ToInstall));
    Glide(s, 2, fs, pr.(pc := Repair(Stat, ToInstall)), false, DoSweep, Write(Create, Install));
  }

  const FS_B := Fs(true, map[LockFile := 1, Claim := 2, CardTmp(40) := 3, Card := 3], map[1 := LOCK_BODY, 2 := CLAIM_40, 3 := CARD_40], map[])
  const FS_INSTALLED := Fs(true, map[LockFile := 1, Claim := 2], map[1 := LOCK_BODY, 2 := CLAIM_40], map[])
  const OWNER_40 := Proc(true, 40, 2, 1, false, Owner(Held))

  lemma Owns2()
    ensures Reached(With(A.(issued := A.issued[40 := 2]), 2, FS_INSTALLED, OWNER_40))
  {
    Installs2();
    var s, fs, pr := A.(issued := A.issued[40 := 2]), A.fs.(locks := map[1 := 2]), Newcomer(40, Write(Create, Install)).(fd := 1);
    Writes(s, 2, fs, pr, Install, 2);
    var fs1 := FS_INSTALLED.(locks := map[1 := 2]);
    assert fs.names[Claim := 2] == fs1.names && fs.files[2 := CLAIM_40] == fs1.files;
    Unlocks(s, 2, fs1, OWNER_40.(pc := Unlock(Owned)));
    assert fs1.locks - {1} == map[];
  }

  /** Process 1 waits; process 2 installed a claim with token 40, published its card and died. */
  lemma StageB() returns (s: State)
    ensures Reached(s) && s.fs == FS_B && s.procs.Keys == {1, 2} && s.issued.Keys == {20, 40} && s.procs[1] == WAITING && !s.procs[2].alive
  {
    Owns2();
    var s0 := A.(issued := A.issued[40 := 2]);
    Publishes(s0, 2, FS_INSTALLED, OWNER_40, 3);
    assert FS_INSTALLED.names[CardTmp(40) := 3][Card := 3] == FS_B.names && FS_INSTALLED.files[3 := CARD_40] == FS_B.files;
    var pr := OWNER_40.(ownedCard := true, pc := Owner(PubTidy(true)));
    Dies(s0, 2, FS_B, pr, map[]);
    s := With(s0, 2, FS_B, pr.(alive := false));
  }

  const FILES_C := map[1 := LOCK_BODY, 2 := CLAIM_40, 3 := CARD_40, 4 := BODY_10, 5 := BODY_10]
  const FS_C := Fs(true, map[LockFile := 1, Claim := 5, CardTmp(40) := 3, Card := 3], FILES_C, map[])
  const OWNER_10 := Proc(true, 10, 5, 1, false, Owner(Held))

  /** Process 3 takes the slot over with token 10; the removals of the card and of the listed residue fail. */
  lemma StageC() returns (s: State)
    ensures Reached(s) && s.fs == FS_C && s.procs.Keys == {1, 2, 3} && s.issued.Keys == {20, 40, 10}
    ensures s.procs[1] == WAITING && !s.procs[2].alive && s.procs[3] == OWNER_10
  {
    var b := StageB();
    TakesOver(b, 3, 10, 1, 2, 4);
    var s1, pr := b.(issued := b.issued[10 := 3]), Newcomer(10, Write(Create, Take(40))).(fd := 1);
    var fs := Fs(true, map[LockFile := 1, CardTmp(40) := 3, Card := 3, Taking := 4, Stale(40) := 2], FS_B.files[4 := BODY_10], map[1 := 3]);
    assert FS_B.names[Taking := 4][Stale(40) := 2] - {Claim} == fs.names && FS_B.locks[1 := 3] == fs.locks;
    Finishes3(s1, fs, pr);
    s := With(s1, 3, FS_C, OWNER_10);
  }

  lemma Finishes3(s: State, fs: Fs, pr: Proc)
    requires fs == Fs(true, map[LockFile := 1, CardTmp(40) := 3, Card := 3, Taking := 4, Stale(40) := 2], FS_B.files[4 := BODY_10], map[1 := 3])
    requires pr == Newcomer(10, Write(Create, Take(40))).(fd := 1) && Reached(With(s, 3, fs, pr))
    ensures Reached(With(s, 3, FS_C, OWNER_10))
  {
    Succeeds(s, 3, fs, pr, 40, 5);
    ClearedToC(fs);
  }

  lemma ClearedToC(fs: Fs)
    requires fs == Fs(true, map[LockFile := 1, CardTmp(40) := 3, Card := 3, Taking := 4, Stale(40) := 2], FS_B.files[4 := BODY_10], map[1 := 3])
    ensures fs.(names := fs.names[Claim := 5] - {Taking} - {Stale(40)}, files := fs.files[5 := BODY_10], locks := fs.locks - {1}) == FS_C
  {
    assert fs.names[Claim := 5] - {Taking} - {Stale(40)} == FS_C.names;
    assert fs.files[5 := BODY_10] == FILES_C;
    assert fs.locks - {1} == map[];
  }

  // ---- a card that outlives its claim

  const NAMES_CARD := map[LockFile := 1, CardTmp(40) := 3, Card := 3]

  /** Process 3 abandons its setup and dies, and so does process 1; the card of process 2 is left. */
  lemma CardAlone() returns (s: State)
    ensures Reached(s) && s.fs == Fs(true, NAMES_CARD, FILES_C, map[]) && forall q :: !Alive(s, q)
  {
    var c := StageC();
    SameWorld(c, 3);
    Abandons(c, 3, FS_C, OWNER_10);
    var fs := Fs(true, NAMES_CARD, FILES_C, map[]);
    assert FS_C.names - {Claim} == NAMES_CARD;
    Dies(c, 3, fs, OWNER_10.(pc := Leaving), map[]);
    var d := With(c, 3, fs, OWNER_10.(pc := Leaving, alive := false));
    SameWorld(d, 1);
    Dies(d, 1, fs, WAITING, map[]);
    s := With(d, 1, fs, WAITING.(alive := false));
  }

  // ---- two quarantines with one token

  const ASKING := Newcomer(30, Decide(TakeAsk(5, 3, 10))).(fd := 1)

  /** Process 4 holds the lock. It fails to read the claim, finds the card of dead process 2, and reads the claim of process 3. */
  lemma StageD() returns (s: State)
    ensures Reached(s) && s.fs == FS_C.(locks := map[1 := 4]) && s.procs.Keys == {1, 2, 3, 4} && s.issued.Keys == {20, 40, 10, 30}
    ensures s.procs[1] == WAITING && !s.procs[2].alive && s.procs[3] == OWNER_10 && s.procs[4] == ASKING
  {
    var c := StageC();
    Enters(c, 4, 30, 1);
    var s1, fs, pr := c.(issued := c.issued[30 := 4]), FS_C.(locks := map[1 := 4]), Newcomer(30, Decide(OwnerClaim)).(fd := 1);
    assert FS_C.locks[1 := 4] == fs.locks;
    Misreads(s1, fs, pr);
    s := With(s1, 4, fs, ASKING);
  }

  lemma Misreads(s: State, fs: Fs, pr: Proc)
    requires fs == FS_C.(locks := map[1 := 4]) && pr == Newcomer(30, Decide(OwnerClaim)).(fd := 1) && !Alive(s, 2) && Reached(With(s, 4, fs, pr))
    ensures Reached(With(s, 4, fs, ASKING))
  {
    Glide(s, 4, fs, pr, false, DoSweep, Decide(OwnerCard));
    Glide(s, 4, fs, pr.(pc := Decide(OwnerCard)), true, DoSweep, Decide(OwnerAsk(2)));
    Glide(s, 4, fs, pr.(pc := Decide(OwnerAsk(2))), true, DoSweep, Decide(TakeStat0));
    Rereads(s, 4, fs, pr.(pc := Decide(TakeStat0)), 5, BODY_10);
  }

  const FS_E := Fs(true, map[LockFile := 1, CardTmp(40) := 3, Card := 3], FILES_C, map[1 := 4])

  /** Process 3 abandons and dies. */
  lemma StageE() returns (s: State)
    ensures Reached(s) && s.fs == FS_E && s.procs.Keys == {1, 2, 3, 4} && s.issued.Keys == {20, 40, 10, 30}
    ensures s.procs[1] == WAITING && !s.procs[2].alive && !s.procs[3].alive && s.procs[4] == ASKING
  {
    var d := StageD();
    SameWorld(d, 3);
    Abandons(d, 3, d.fs, OWNER_10);
    assert d.fs.names - {Claim} == FS_E.names;
    Dies(d, 3, FS_E, OWNER_10.(pc := Leaving), map[1 := 4]);
    s := With(d, 3, FS_E, OWNER_10.(pc := Leaving, alive := false));
  }

  const FILES_F := map[1 := LOCK_BODY, 2 := CLAIM_40, 3 := CARD_40, 4 := BODY_10, 5 := BODY_10, 6 := BODY_20]
  const FS_F := Fs(true, map[LockFile := 1, CardTmp(40) := 3, Card := 3, Claim := 6], FILES_F, map[1 := 4])
  const OWNER_20 := Proc(true, 20, 6, 0, false, Owner(Held))

  /** Process 1 creates its claim, inode 6, with token 20. */
  lemma StageF() returns (s: State)
    ensures Reached(s) && s.fs == FS_F && s.procs.Keys == {1, 2, 3, 4} && s.issued.Keys == {20, 40, 10, 30}
    ensures s.procs[1] == OWNER_20 && !s.procs[2].alive && !s.procs[3].alive && s.procs[4] == ASKING
  {
    var d := StageE();
    SameWorld(d, 1);
    Writes(d, 1, FS_E, WAITING, Fresh, 6);
    assert FS_E.names[Claim := 6] == FS_F.names && FS_E.files[6 := BODY_20] == FILES_F;
    s := With(d, 1, FS_F, OWNER_20);
  }

  const FILES_G := map[1 := LOCK_BODY, 2 := CLAIM_40, 3 := CARD_40, 4 := BODY_10, 5 := BODY_10, 6 := BODY_20, 7 := File(4, 30, true, false)]
  const FS_G := Fs(true, map[LockFile := 1, CardTmp(40) := 3, Card := 3, Claim := 6, Taking := 7, Stale(10) := 6], FILES_G, map[])

  /** Process 4 quarantines inode 6 under token 10 and dies before it looks inside. */
  lemma StageG() returns (s: State)
    ensures Reached(s) && s.fs == FS_G && s.procs.Keys == {1, 2, 3, 4} && s.issued.Keys == {20, 40, 10, 30}
    ensures s.procs[1] == OWNER_20 && !s.procs[2].alive && !s.procs[3].alive && !s.procs[4].alive
  {
    var f := StageF();
    SameWorld(f, 4);
    Misnames(f);
    s := With(f, 4, FS_G, ASKING.(pc := Swap(Verify, 5, 10), alive := false));
  }

  lemma Misnames(s: State)
    requires Reached(With(s, 4, FS_F, ASKING)) && !Alive(s, 3)
    ensures Reached(With(s, 4, FS_G, ASKING.(pc := Swap(Verify, 5, 10), alive := false)))
  {
    Glide(s, 4, FS_F, ASKING, true, DoSweep, Elect(ClearTaking, 5, 10));
    Elects(s, 4, FS_F, ASKING.(pc := Elect(ClearTaking, 5, 10)), 5, 10, 7);
    var fs0 := FS_F.(names := FS_F.names[Taking := 7], files := FS_F.files[7 := File(4, 30, true, false)]);
    Links(s, 4, fs0, ASKING.(pc := Swap(Quarantine, 5, 10)), 5, 10, 6);
    var fs := FS_G.(locks := map[1 := 4]);
    assert FS_F.names[Taking := 7][Stale(10) := 6] == FS_G.names;
    assert FILES_F[7 := File(4, 30, true, false)] == FILES_G;
    Dies(s, 4, fs, ASKING.(pc := Swap(Verify, 5, 10)), map[]);
  }

  const FILES_H := map[1 := LOCK_BODY, 2 := CLAIM_40, 3 := CARD_40, 4 := BODY_10, 5 := BODY_10, 6 := BODY_20, 7 := File(4, 30, true, false), 8 := TOMB_20]
  const FS_H := Fs(true, map[LockFile := 1, CardTmp(40) := 3, Card := 3, Claim := 8, Taking := 7, Stale(10) := 6], FILES_H, map[])

  /** Process 1 replaces its claim by a tombstone, inode 8, and dies. */
  lemma StageH() returns (s: State)
    ensures Reached(s) && s.fs == FS_H && s.procs.Keys == {1, 2, 3, 4} && s.issued.Keys == {20, 40, 10, 30}
    ensures forall q :: !Alive(s, q)
  {
    var g := StageG();
    SameWorld(g, 1);
    Entombs(g);
    s := With(g, 1, FS_H, OWNER_20.(ino := 8, pc := Sweeping(Swept), alive := false));
  }

  lemma Entombs(s: State)
    requires Reached(With(s, 1, FS_G, OWNER_20))
    ensures Reached(With(s, 1, FS_H, OWNER_20.(ino := 8, pc := Sweeping(Swept), alive := false)))
  {
    Sweeps(s, 1, FS_G, OWNER_20, 8);
    var fs := Fs(true, FS_G.names[ClaimTmp(20) := 8], FILES_H, map[]);
    assert FILES_G[8 := TOMB_20] == FILES_H;
    Buries(s, 1, fs, OWNER_20.(pc := Sweeping(SwReread)), 8);
    assert fs.names[Claim := 8] - {ClaimTmp(20)} == FS_H.names;
    Dies(s, 1, FS_H, OWNER_20.(ino := 8, pc := Sweeping(Swept)), map[]);
  }

  const NAMES_TWICE := map[LockFile := 1, CardTmp(40) := 3, Card := 3, Taking := 9, Stale(10) := 6, Stale(20) := 8]
  const FILES_TWICE := FILES_H[9 := File(5, 50, true, false)]

  /** Process 5 takes the tombstone over and dies before it writes its own claim. */
  lemma TwiceQuarantined() returns (s: State)
    ensures Reached(s) && s.fs == Fs(true, NAMES_TWICE, FILES_TWICE, map[]) && forall q :: !Alive(s, q)
  {
    var h := StageH();
    TakesOver(h, 5, 50, 1, 8, 9);
    var s1, fs, pr := h.(issued := h.issued[50 := 5]), Fs(true, NAMES_TWICE, FILES_TWICE, map[1 := 5]), Newcomer(50, Write(Create, Take(20))).(fd := 1);
    assert FS_H.names[Taking := 9][Stale(20) := 8] - {Claim} == NAMES_TWICE && FS_H.locks[1 := 5] == fs.locks;
    Dies(s1, 5, fs, pr, map[]);
    s := With(s1, 5, fs.(locks := map[]), pr.(alive := false));
    assert forall q :: Alive(s, q) ==> q == 5 || Alive(h, q);
  }

  // ---- a claim without a body

  const HALF_NAMES := map[LockFile := 1, Claim := 2]
  const HALF_FILES := map[1 := LOCK_BODY, 2 := File(1, 20, false, false)]

  /** Process 1 creates claim.json and dies before it writes to it; no call fails. */
  lemma HalfWritten() returns (s: State)
    ensures Reached(s) && s.fs == Fs(true, HALF_NAMES, HALF_FILES, map[]) && forall q :: !Alive(s, q)
  {
    ReachesA();
    SameWorld(A, 1);
    var pr := WAITING.(ino := 2, pc := Write(Body, Fresh));
    Go(A, 1, A.fs, WAITING, true, 2, DoSweep, Make(Claim, 2, File(1, 20, false, false)), pr);
    var fs := Fs(true, HALF_NAMES, HALF_FILES, map[]);
    assert A.fs.names[Claim := 2] == HALF_NAMES && A.fs.files[2 := File(1, 20, false, false)] == HALF_FILES;
    Dies(A, 1, fs, pr, map[]);
    s := With(A, 1, fs, pr.(alive := false));
  }

  // ---- all three are stuck

  lemma CardAloneIsStuck()
    ensures var fs := Fs(true, NAMES_CARD, FILES_C, map[]); Claim !in fs.names && TrueNames(fs) && Stuck(fs) && !Restorable(fs)
  {
    assert Read(Fs(true, NAMES_CARD, FILES_C, map[]), Card).Some?;
  }

  lemma TwiceQuarantinedIsStuck()
    ensures var fs := Fs(true, NAMES_TWICE, FILES_TWICE, map[]); Claim !in fs.names && !TrueNames(fs) && Stuck(fs) && Twice(fs, 10, 20)
  {
    var fs := Fs(true, NAMES_TWICE, FILES_TWICE, map[]);
    assert First(fs, 10) && !Consistent(fs, 6);
  }

  /** A run ends here with everybody dead and the slot stuck. */
  ghost predicate Lost(s: State) { Reached(s) && (forall q :: !Alive(s, q)) && Stuck(s.fs) }

  /** Both quarantines hold the same token. */
  predicate Twice(fs: Fs, t: Token, u: Token) {
    t != u && Read(fs, Stale(t)).Some? && Read(fs, Stale(u)).Some? && Read(fs, Stale(t)).value.tok == Read(fs, Stale(u)).value.tok
  }

  /**
   Slots get lost: by a claim that is created and never written; and, with failing calls, by a
   card that outlives its claim, beside no wrongly named quarantine, or by a claim that is
   quarantined under the name of another token. `SlotStuck.LostStaysLost` holds for each.
   */
  lemma NotEveryCrashIsRecoverable()
    ensures exists s :: Lost(s) && Claim in s.fs.names && Read(s.fs, Claim).None?
    ensures exists s :: Lost(s) && Claim !in s.fs.names && TrueNames(s.fs) && !Restorable(s.fs)
    ensures exists s :: Lost(s) && Claim !in s.fs.names && Twice(s.fs, 10, 20) && !TrueNames(s.fs)
  {
    var h := HalfWritten();
    assert Lost(h) && Claim in h.fs.names && Read(h.fs, Claim).None?;
    var s := CardAlone();
    CardAloneIsStuck();
    assert Lost(s) && Claim !in s.fs.names && TrueNames(s.fs) && !Restorable(s.fs);
    var u := TwiceQuarantined();
    TwiceQuarantinedIsStuck();
    assert Lost(u) && Claim !in u.fs.names && Twice(u.fs, 10, 20) && !TrueNames(u.fs);
  }

  /** A new process can always come to a lost slot, and each that does is turned away. */
  lemma LostTurnsAway(s: State, p: Pid, tok: Token)
    requires Lost(s) && p !in s.procs && tok != NO_TOKEN && tok !in s.issued
    ensures var s' := With(s.(issued := s.issued[tok := p]), p, s.fs, Newcomer(tok, Slot(TryMkdir)));
            Reached(s') && Arrives(s', p) && Ends(s', p, false, false)
  {
    Starts(s, p, tok);
    var s' := With(s.(issued := s.issued[tok := p]), p, s.fs, Newcomer(tok, Slot(TryMkdir)));
    ReachedHolds(s);
    ReachedHolds(s');
    StuckHasDir(s');
    NeitherIsUnreadable(s'.fs);
    forall q | Alive(s', q) ensures q == p { assert q != p ==> Alive(s, q); }
    ArrivalIsOutside(s', p);
    ArrivalEnds(s', p);
  }
}
