/**
 An aggregate commit that has the output directory to itself and whose calls succeed: it
 never aborts, what is in the directory is always what its own lists say, and it reaches
 its end with every shard and sidecar it was given, the marker, and nothing else.
 */
module CommitProgress {
  import opened CommitExclusion
  import opened Wrappers

  function TempOf(pc: Pc): set<Name> {
    if pc.SideReady? || pc.MarkReady? || pc.Released? then {Temp(pc.t)} else {}
  }

  /** What a commit has in the directory, by its own lists. */
  function Entries(pr: Proc): set<Name> {
    (if pr.lockHeld then {Lock} else {}) + (if pr.mark then {Marker} else {}) + TempOf(pr.pc)
    + (set n | n in pr.stages && n !in pr.finals :: Stage(n))
    + (set n | n in pr.finals :: Final(n)) + (set n | n in pr.sides :: Side(n))
  }

  predicate Holding(pc: Pc) { pc.Scanning? || pc.Open? || pc.SideReady? || pc.MarkReady? }

  /** Past the point where the manifest is written. */
  predicate Closing(pc: Pc) { pc.MarkReady? || pc.Released? || pc.Marked? || pc.Committed? }

  ghost predicate Lone(s: State, p: Pid) {
    && Alive(s, p)
    && var pr := s.procs[p];
      && (pr.pc.Idle? || pr.pc.Scanning? || Active(pr.pc) || pr.pc.Committed?) && s.dir.Keys == Entries(pr)
      && pr.lockHeld == Holding(pr.pc) && pr.mark == (pr.pc.Marked? || pr.pc.Committed?)
      && (pr.pc.Idle? || pr.pc.Scanning? ==> pr.stages == [] && pr.finals == [] && pr.sides == [])
      && (forall n :: n in pr.finals ==> n in pr.stages)
      && (Closing(pr.pc) ==> forall n :: n in pr.stages ==> n in pr.finals)
      && (pr.pc.SideReady? ==> pr.pc.n !in pr.sides)
  }

  /** The call succeeds, and the writer asks for nothing twice. */
  predicate Sensible(pr: Proc, e: Env) {
    && e.ok
    && (pr.pc.Open? ==>
          match e.move
          case RenameShard(n) => n !in pr.finals
          case WriteSide(n) => n !in pr.sides
          case Fail => false
          case _ => true)
  }

  lemma OpenStep(s: State, p: Pid, e: Env)
    requires Lone(s, p) && Enabled(s, p, e) && Sensible(s.procs[p], e) && s.procs[p].pc.Open?
    ensures Lone(Act(s, p, e), p)
  {
    var pr, s' := s.procs[p], Act(s, p, e);
    match e.move
    case OpenShard(n) => assert s'.dir.Keys == Entries(s'.procs[p]);
    case RenameShard(n) => assert Stage(n) in Entries(pr); assert s'.dir.Keys == Entries(s'.procs[p]);
    case WriteSide(n) => assert Side(n) !in Entries(pr); assert s'.dir.Keys == Entries(s'.procs[p]);
    case WriteMark => assert Marker !in Entries(pr); assert s'.dir.Keys == Entries(s'.procs[p]);
  }

  lemma TempStep(s: State, p: Pid, e: Env)
    requires Lone(s, p) && Enabled(s, p, e) && Sensible(s.procs[p], e) && (s.procs[p].pc.SideReady? || s.procs[p].pc.Released?)
    ensures Lone(Act(s, p, e), p)
  {
    var pr, s' := s.procs[p], Act(s, p, e);
    assert Temp(pr.pc.t) in Entries(pr);
    assert s'.dir.Keys == Entries(s'.procs[p]);
  }

  lemma OtherStep(s: State, p: Pid, e: Env)
    requires Lone(s, p) && Enabled(s, p, e) && Sensible(s.procs[p], e) && !s.procs[p].pc.Open?
    ensures Lone(Act(s, p, e), p)
  {
    var pr, s' := s.procs[p], Act(s, p, e);
    if pr.pc.SideReady? || pr.pc.Released? {
      TempStep(s, p, e);
    } else {
      if pr.pc.Idle? { assert Lock !in Entries(pr); }
      assert s'.dir.Keys == Entries(s'.procs[p]);
    }
  }

  /** A lone commit goes forward with every call that succeeds. */
  lemma LoneStep(s: State, p: Pid, e: Env)
    requires Lone(s, p) && Enabled(s, p, e) && Sensible(s.procs[p], e)
    ensures Lone(Act(s, p, e), p)
  {
    if s.procs[p].pc.Open? {
      OpenStep(s, p, e);
    } else {
      OtherStep(s, p, e);
    }
  }

  ghost predicate Solo(states: seq<State>, events: seq<Event>, p: Pid) {
    && Run(states, events) && events != [] && events[0] == Spawn(p)
    && forall i :: 0 < i < |events| ==> events[i].Step? && events[i].p == p && p in states[i].procs && Sensible(states[i].procs[p], events[i].e)
  }

  /**
   In every run of one commit whose calls succeed the commit never aborts, and once it has
   committed the directory holds its shards, its sidecars and the marker, and nothing else.
   */
  lemma {:induction false} LoneNeverAborts(states: seq<State>, events: seq<Event>, p: Pid, i: nat)
    requires Solo(states, events, p) && 0 < i <= |events|
    ensures Lone(states[i], p)
    ensures states[i].procs[p].pc.Committed? ==>
      states[i].dir.Keys == {Marker} + (set n | n in states[i].procs[p].stages :: Final(n)) + (set n | n in states[i].procs[p].sides :: Side(n))
  {
    assert Possible(states[i - 1], events[i - 1]) && states[i] == After(states[i - 1], events[i - 1]);
    if i == 1 {
      assert states[1].dir.Keys == Entries(states[1].procs[p]);
    } else {
      LoneNeverAborts(states, events, p, i - 1);
      LoneStep(states[i - 1], p, events[i - 1].e);
    }
  }

  // ---- a run to the end

  /** A run of one commit that ends in `s`. */
  ghost predicate Reaches(states: seq<State>, events: seq<Event>, p: Pid, s: State) {
    Solo(states, events, p) && states[|events|] == s
  }

  ghost predicate Reached(p: Pid, s: State) { exists states, events :: Reaches(states, events, p, s) }

  lemma ReachedIsLone(p: Pid, s: State)
    requires Reached(p, s)
    ensures Lone(s, p)
  {
    var states, events :| Reaches(states, events, p, s);
    LoneNeverAborts(states, events, p, |events|);
  }

  /** A commit can make the move it wants. */
  ghost predicate Ready(pr: Proc, move: Move) {
    pr.pc.Open? ==>
      match move
      case OpenShard(n) => n !in pr.stages
      case RenameShard(n) => n in pr.stages && n !in pr.finals
      case WriteSide(n) => n !in pr.sides
      case WriteMark => forall n :: n in pr.stages ==> n in pr.finals
      case Fail => false
  }

  lemma Goes(p: Pid, s: State, move: Move) returns (t: State, e: Env)
    requires Reached(p, s) && Lone(s, p) && Ready(s.procs[p], move)
    ensures e.ok && e.move == move && t == Act(s, p, e) && Reached(p, t) && Lone(t, p)
  {
    var states, events :| Reaches(states, events, p, s);
    var u := UpperBound(s.used);
    e := Env(true, move, u);
    t := Act(s, p, e);
    assert Enabled(s, p, e) && Sensible(s.procs[p], e);
    var more, done := states + [t], events + [Step(p, e)];
    forall i | 0 <= i < |done|
      ensures Possible(more[i], done[i]) && more[i + 1] == After(more[i], done[i])
      ensures i > 0 ==> done[i].Step? && done[i].p == p && p in more[i].procs && Sensible(more[i].procs[p], done[i].e)
    {
      if i < |events| { assert done[i] == events[i] && more[i] == states[i] && more[i + 1] == states[i + 1]; }
    }
    assert Reaches(more, done, p, t);
    LoneStep(s, p, e);
  }

  /** The lists of an open commit that is alone. */
  ghost predicate Has(s: State, p: Pid, stages: seq<nat>, finals: seq<nat>, sides: seq<nat>) {
    Reached(p, s) && Lone(s, p) && s.procs[p].pc.Open? && s.procs[p].stages == stages && s.procs[p].finals == finals && s.procs[p].sides == sides
  }

  lemma Opens(p: Pid) returns (s: State)
    ensures Has(s, p, [], [], [])
  {
    s := After(START, Spawn(p));
    assert Run([START, s], [Spawn(p)]);
    assert Reaches([START, s], [Spawn(p)], p, s);
    ReachedIsLone(p, s);
    var e;
    s, e := Goes(p, s, Fail);
    s, e := Goes(p, s, Fail);
  }

  lemma AddsStage(p: Pid, s: State, n: nat) returns (t: State)
    requires Alive(s, p) && Has(s, p, s.procs[p].stages, s.procs[p].finals, s.procs[p].sides) && n !in s.procs[p].stages
    ensures Has(t, p, s.procs[p].stages + [n], s.procs[p].finals, s.procs[p].sides)
  {
    assert Stage(n) !in Entries(s.procs[p]);
    var e;
    t, e := Goes(p, s, OpenShard(n));
  }

  lemma AddsFinal(p: Pid, s: State, n: nat) returns (t: State)
    requires Alive(s, p) && Has(s, p, s.procs[p].stages, s.procs[p].finals, s.procs[p].sides)
    requires n in s.procs[p].stages && n !in s.procs[p].finals
    ensures Has(t, p, s.procs[p].stages, s.procs[p].finals + [n], s.procs[p].sides)
  {
    assert Stage(n) in Entries(s.procs[p]);
    var e;
    t, e := Goes(p, s, RenameShard(n));
  }

  lemma {:induction false} Stages(p: Pid, shards: seq<nat>) returns (s: State)
    requires Distinct(shards)
    ensures Has(s, p, shards, [], [])
    decreases |shards|
  {
    if shards == [] {
      s := Opens(p);
    } else {
      var k := |shards| - 1;
      s := Stages(p, shards[..k]);
      s := AddsStage(p, s, shards[k]);
      assert shards[..k] + [shards[k]] == shards;
    }
  }

  lemma {:induction false} Renames(p: Pid, shards: seq<nat>, k: nat) returns (s: State)
    requires Distinct(shards) && k <= |shards|
    ensures Has(s, p, shards, shards[..k], [])
    decreases k
  {
    if k == 0 {
      s := Stages(p, shards);
    } else {
      s := Renames(p, shards, k - 1);
      s := AddsFinal(p, s, shards[k - 1]);
      assert shards[..k - 1] + [shards[k - 1]] == shards[..k];
    }
  }

  lemma AddsSide(p: Pid, s: State, n: nat) returns (t: State)
    requires Alive(s, p) && Has(s, p, s.procs[p].stages, s.procs[p].finals, s.procs[p].sides) && n !in s.procs[p].sides
    ensures Has(t, p, s.procs[p].stages, s.procs[p].finals, s.procs[p].sides + [n])
  {
    var e;
    t, e := Goes(p, s, WriteSide(n));
    assert t.procs[p].pc == SideReady(n, e.t) && Temp(e.t) in Entries(t.procs[p]);
    t, e := Goes(p, t, Fail);
  }

  lemma {:induction false} Sides(p: Pid, shards: seq<nat>, sides: seq<nat>) returns (s: State)
    requires Distinct(shards) && Distinct(sides)
    ensures Has(s, p, shards, shards, sides)
    decreases |sides|
  {
    if sides == [] {
      s := Renames(p, shards, |shards|);
      assert shards[..|shards|] == shards;
    } else {
      var k := |sides| - 1;
      s := Sides(p, shards, sides[..k]);
      s := AddsSide(p, s, sides[k]);
      assert sides[..k] + [sides[k]] == sides;
    }
  }

  lemma Ends(p: Pid, s: State) returns (t: State)
    requires Alive(s, p) && Has(s, p, s.procs[p].stages, s.procs[p].stages, s.procs[p].sides)
    ensures Reached(p, t) && Lone(t, p) && t.procs[p].pc.Committed? && t.procs[p].stages == s.procs[p].stages && t.procs[p].sides == s.procs[p].sides
  {
    var e;
    t, e := Goes(p, s, WriteMark);
    assert t.procs[p].pc == MarkReady(e.t);
    t, e := Goes(p, t, Fail);
    assert t.procs[p].pc.Released? && Temp(t.procs[p].pc.t) in Entries(t.procs[p]);
    t, e := Goes(p, t, Fail);
    assert t.procs[p].pc.Marked?;
    t, e := Goes(p, t, Fail);
  }

  /** For any shards and sidecars there is a run that commits exactly these. */
  lemma LoneCommits(p: Pid, shards: seq<nat>, sides: seq<nat>) returns (states: seq<State>, events: seq<Event>)
    requires Distinct(shards) && Distinct(sides)
    ensures Solo(states, events, p) && p in states[|events|].procs && states[|events|].procs[p].pc.Committed?
    ensures states[|events|].dir.Keys == {Marker} + (set n | n in shards :: Final(n)) + (set n | n in sides :: Side(n))
  {
    var s := Sides(p, shards, sides);
    s := Ends(p, s);
    states, events :| Reaches(states, events, p, s);
    LoneNeverAborts(states, events, p, |events|);
  }
}
