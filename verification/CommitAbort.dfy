/**
 Giving up an aggregate commit, among any others in the same directory: when its removals
 succeed the commit takes every entry of its own away.
 */
module CommitAbort {
  import opened CommitExclusion

  predicate Aborting(pc: Pc) { pc.Invalidating? || pc.Removing? || pc.Unlocking? }

  /** Where p still has to go to take an entry of its own away. */
  predicate Known(n: Name, pr: Proc) {
    match n
    case Lock => pr.lockHeld
    case Marker => pr.mark
    case _ =>
      match pr.pc
      case Removing(queue) => n in queue
      case Unlocking => false
      case Gone => false
      case _ => InLists(n, pr)
  }

  /** Every entry of p is one that it knows of. */
  ghost predicate Covered(s: State, p: Pid) {
    forall n :: By(s.dir, n, p) ==> p in s.procs && Known(n, s.procs[p])
  }

  lemma AbortCovers(s: State, p: Pid, e: Env)
    requires Covered(s, p) && Enabled(s, p, e) && Aborting(s.procs[p].pc) && e.ok
    ensures Covered(Act(s, p, e), p)
  {
    var pr, s' := s.procs[p], Act(s, p, e);
    forall n | By(s'.dir, n, p) ensures Known(n, s'.procs[p]) {
      assert By(s.dir, n, p);
      OwnedIsLists(pr, n);
      if pr.pc.Removing? && pr.pc.queue != [] { assert pr.pc.queue == [pr.pc.queue[0]] + pr.pc.queue[1..]; }
    }
  }

  lemma ForwardCovers(s: State, p: Pid, e: Env)
    requires Inv(s) && Covered(s, p) && Enabled(s, p, e) && !Aborting(s.procs[p].pc)
    ensures Covered(Act(s, p, e), p)
  {
    assert Mine(s, p);
    var pr, s' := s.procs[p], Act(s, p, e);
    forall n | By(s'.dir, n, p) ensures Known(n, s'.procs[p]) {
      if By(s.dir, n, p) { assert Known(n, pr); }
    }
  }

  lemma OthersCover(s: State, p: Pid, q: Pid, e: Env)
    requires Inv(s) && Covered(s, p) && Enabled(s, q, e) && q != p
    ensures Covered(Act(s, q, e), p)
  {
    StepIsFramed(s, q, e);
    forall n | By(Act(s, q, e).dir, n, p) ensures By(s.dir, n, p) { }
  }

  /** From the start of its abort on every call of p succeeds. */
  ghost predicate AbortsWell(states: seq<State>, events: seq<Event>, p: Pid)
    requires |states| == |events| + 1
  {
    forall i :: 0 <= i < |events| && events[i].Step? && events[i].p == p && p in states[i].procs && Aborting(states[i].procs[p].pc) ==> events[i].e.ok
  }

  lemma {:induction false} RunIsCovered(states: seq<State>, events: seq<Event>, p: Pid, i: nat)
    requires Run(states, events) && AbortsWell(states, events, p) && i <= |events|
    ensures Covered(states[i], p)
  {
    if i == 0 {
    } else {
      RunIsCovered(states, events, p, i - 1);
      RunKeepsInv(states, events, i - 1);
      var s, ev := states[i - 1], events[i - 1];
      assert Possible(s, ev) && states[i] == After(s, ev);
      if ev.Step? {
        if ev.p != p { OthersCover(s, p, ev.p, ev.e); }
        else if Aborting(s.procs[p].pc) { AbortCovers(s, p, ev.e); }
        else { ForwardCovers(s, p, ev.e); }
      }
    }
  }

  /**
   In every run, a commit that gave up and whose removals all succeeded leaves no entry of
   its own behind, whatever others do at the same time.
   */
  lemma AbortLeavesNothing(states: seq<State>, events: seq<Event>, p: Pid, i: nat, n: Name)
    requires Run(states, events) && AbortsWell(states, events, p) && i <= |events|
    requires p in states[i].procs && states[i].procs[p].pc.Gone? && n in states[i].dir
    ensures states[i].dir[n] != p
  {
    RunIsCovered(states, events, p, i);
    RunGoneIsBare(states, events, p, i);
    assert By(states[i].dir, n, p) <==> states[i].dir[n] == p;
  }

  /** A commit that is gone holds no lock and has set no marker. */
  lemma {:induction false} RunGoneIsBare(states: seq<State>, events: seq<Event>, p: Pid, i: nat)
    requires Run(states, events) && AbortsWell(states, events, p) && i <= |events| && p in states[i].procs
    ensures var pr := states[i].procs[p];
      (pr.pc.Gone? ==> !pr.lockHeld && !pr.mark) && (pr.pc.Removing? || pr.pc.Unlocking? ==> !pr.mark)
  {
    if i > 0 {
      var s, ev := states[i - 1], events[i - 1];
      assert Possible(s, ev) && states[i] == After(s, ev);
      if p in s.procs {
        RunGoneIsBare(states, events, p, i - 1);
        RunKeepsInv(states, events, i - 1);
        if Alive(s, p) { assert Mine(s, p); }
      }
    }
  }
}
