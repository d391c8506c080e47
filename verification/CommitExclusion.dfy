/**
 Many aggregate commits against one output directory, one directory operation at a time.
 The lock is given back before the marker is renamed, so from then on a second commit is
 kept out by the artifact scan alone.

 The model takes a directory scan to be atomic and temporary names to be fresh, gives
 every shard of a run its own name, and writes the manifest only once every staged shard
 has been renamed, as the aggregate writer does.
 */
module CommitExclusion {
  import CommitNames

  type Pid = nat

  /** Directory entries; all but the lock are artifact names for the scan (`ScanKnows`). */
  datatype Name = Lock | Temp(t: nat) | Stage(n: nat) | Final(n: nat) | Side(n: nat) | Marker

  datatype Pc =
    | Idle
    | Scanning                      // lock created
    | Open                          // prepared
    | SideReady(n: nat, t: nat)     // sidecar temp complete
    | MarkReady(t: nat)             // manifest temp complete, lock still held
    | Released(t: nat)              // lock given back, marker not renamed
    | Marked                        // marker renamed, directory not synced
    | Committed
    | Invalidating                  // abort, before the path removals
    | Removing(queue: seq<Name>)    // abort, path by path
    | Unlocking
    | Gone

  datatype Proc = Proc(alive: bool, pc: Pc, lockHeld: bool, mark: bool,
                       temps: seq<nat>, stages: seq<nat>, finals: seq<nat>, sides: seq<nat>)

  /** `used` are the temporary names handed out so far. */
  datatype State = State(dir: map<Name, Pid>, procs: map<Pid, Proc>, used: set<nat>)

  /** What an open commit does next, and whether the operation at hand succeeds. */
  datatype Move = OpenShard(n: nat) | RenameShard(n: nat) | WriteSide(n: nat) | WriteMark | Fail
  datatype Env = Env(ok: bool, move: Move, t: nat)

  predicate Alive(s: State, p: Pid) { p in s.procs && s.procs[p].alive }

  ghost predicate Enabled(s: State, p: Pid, e: Env) {
    && Alive(s, p) && e.t !in s.used
    && (s.procs[p].pc.Open? ==>
          match e.move
          case OpenShard(n) => n !in s.procs[p].stages
          case RenameShard(n) => n in s.procs[p].stages
          case WriteMark => forall n :: n in s.procs[p].stages ==> n in s.procs[p].finals
          case _ => true)
  }

  /** abort's removal list: temporaries, staged shards, final shards, sidecars. */
  function Owned(pr: Proc): seq<Name> {
    seq(|pr.temps|, i requires 0 <= i < |pr.temps| => Temp(pr.temps[i]))
    + seq(|pr.stages|, i requires 0 <= i < |pr.stages| => Stage(pr.stages[i]))
    + seq(|pr.finals|, i requires 0 <= i < |pr.finals| => Final(pr.finals[i]))
    + seq(|pr.sides|, i requires 0 <= i < |pr.sides| => Side(pr.sides[i]))
  }

  predicate Scans(dir: map<Name, Pid>) { forall n :: n in dir ==> n == Lock }

  /** The entries as files: `base` is what a temporary will become, `tag` numbers shards and temporaries. */
  function FileName(n: Name, base: string, tag: nat -> string): string {
    match n
    case Lock => CommitNames.LOCK
    case Temp(t) => CommitNames.TempName(base, tag(t))
    case Stage(k) => "records-" + tag(k) + ".jsonl" + ".partial"
    case Final(k) => "records-" + tag(k) + ".jsonl"
    case Side(k) => if k == 0 then "failures.json" else "dispositions.json"
    case Marker => CommitNames.MARKER
  }

  /** The scan of the code finds an artifact under exactly the names that are not the lock's. */
  lemma ScanKnows(n: Name, base: string, tag: nat -> string)
    requires base in CommitNames.ATOMIC
    ensures CommitNames.ArtifactName(FileName(n, base, tag)) <==> n != Lock
  {
    match n
    case Lock => CommitNames.LockIsNoArtifact();
    case Temp(t) => CommitNames.TempIsArtifact(base, tag(t));
    case Stage(k) => CommitNames.CreatedIsArtifact("records-" + tag(k) + ".jsonl", "");
    case Final(k) => CommitNames.CreatedIsArtifact(tag(k), "");
    case Side(k) =>
    case Marker =>
  }

  /** The directory and the process after one operation of p. */
  function Next(dir: map<Name, Pid>, p: Pid, pr: Proc, e: Env): (map<Name, Pid>, Proc) {
    match pr.pc
    case Idle =>
      if Lock in dir then (dir, pr.(pc := Gone))
      else (dir[Lock := p], pr.(lockHeld := true, pc := if e.ok then Scanning else Invalidating))
    case Scanning => (dir, pr.(pc := if e.ok && Scans(dir) then Open else Invalidating))
    case Open =>
      if !e.ok then (dir, pr.(pc := Invalidating))
      else (match e.move
            case OpenShard(n) =>
              if Stage(n) in dir then (dir, pr.(pc := Invalidating))
              else (dir[Stage(n) := p], pr.(stages := pr.stages + [n]))
            case RenameShard(n) =>
              if Stage(n) !in dir then (dir, pr.(pc := Invalidating))
              else ((dir - {Stage(n)})[Final(n) := dir[Stage(n)]], pr.(finals := pr.finals + [n]))
            case WriteSide(n) =>
              if Side(n) in dir then (dir, pr.(pc := Invalidating))
              else (dir[Temp(e.t) := p], pr.(temps := pr.temps + [e.t], pc := SideReady(n, e.t)))
            case WriteMark =>
              if Marker in dir then (dir, pr.(pc := Invalidating))
              else (dir[Temp(e.t) := p], pr.(temps := pr.temps + [e.t], pc := MarkReady(e.t)))
            case Fail => (dir, pr.(pc := Invalidating)))
    case SideReady(n, t) =>
      if !e.ok || Temp(t) !in dir then (dir, pr.(pc := Invalidating))
      else ((dir - {Temp(t)})[Side(n) := dir[Temp(t)]], pr.(sides := pr.sides + [n], pc := Open))
    case MarkReady(t) =>
      if e.ok then (dir - {Lock}, pr.(lockHeld := false, pc := Released(t))) else (dir, pr.(pc := Invalidating))
    case Released(t) =>
      if !e.ok || Temp(t) !in dir then (dir, pr.(pc := Invalidating))
      else ((dir - {Temp(t)})[Marker := dir[Temp(t)]], pr.(mark := true, pc := Marked))
    case Marked => (dir, pr.(pc := if e.ok then Committed else Invalidating))
    case Committed => (dir, pr)
    case Invalidating =>
      if pr.mark && e.ok then (dir - {Marker}, pr.(mark := false, pc := Removing(Owned(pr))))
      else (dir, pr.(pc := Removing(Owned(pr))))
    case Removing(queue) =>
      if queue == [] then (dir, pr.(pc := Unlocking))
      else (if e.ok then dir - {queue[0]} else dir, pr.(pc := Removing(queue[1..])))
    case Unlocking =>
      if pr.lockHeld && e.ok then (dir - {Lock}, pr.(lockHeld := false, pc := Gone)) else (dir, pr.(pc := Gone))
    case Gone => (dir, pr)
  }

  datatype Event = Spawn(p: Pid) | Death(p: Pid) | Step(p: Pid, e: Env)

  ghost predicate Possible(s: State, ev: Event) {
    match ev
    case Spawn(p) => p !in s.procs
    case Death(p) => Alive(s, p)
    case Step(p, e) => Enabled(s, p, e)
  }

  function Act(s: State, p: Pid, e: Env): State
    requires p in s.procs
  {
    var (dir, pr) := Next(s.dir, p, s.procs[p], e);
    State(dir, s.procs[p := pr], s.used + {e.t})
  }

  function After(s: State, ev: Event): State
    requires ev.Spawn? || ev.p in s.procs
  {
    match ev
    case Spawn(p) => s.(procs := s.procs[p := Proc(true, Idle, false, false, [], [], [], [])])
    case Death(p) => s.(procs := s.procs[p := s.procs[p].(alive := false)])
    case Step(p, e) => Act(s, p, e)
  }

  const START := State(map[], map[], {})

  ghost predicate Run(states: seq<State>, events: seq<Event>) {
    && |states| == |events| + 1 && states[0] == START
    && forall i :: 0 <= i < |events| ==> Possible(states[i], events[i]) && states[i + 1] == After(states[i], events[i])
  }

  /** Past prepare and not aborting. */
  predicate Active(pc: Pc) { pc.Open? || pc.SideReady? || pc.MarkReady? || pc.Released? || pc.Marked? }

  predicate By(dir: map<Name, Pid>, n: Name, p: Pid) { n in dir && dir[n] == p }

  // ---- the invariant

  ghost predicate Distinct<T>(s: seq<T>) { forall i, j :: 0 <= i < j < |s| ==> s[i] != s[j] }

  ghost predicate OnlyTemps(names: seq<Name>) { forall n :: n in names ==> n.Temp? }

  /**
   A list of removals names each path once and ends in a path of p that is still there,
   unless all of it are temporaries. It is why a scan keeps failing until the list is done.
   */
  ghost predicate Anchored(dir: map<Name, Pid>, p: Pid, queue: seq<Name>) {
    Distinct(queue) && (OnlyTemps(queue) || By(dir, queue[|queue| - 1], p))
  }

  /** The paths p may still remove in an abort. */
  function Rest(pr: Proc): seq<Name> {
    match pr.pc
    case Removing(queue) => queue
    case Invalidating => Owned(pr)
    case _ => []
  }

  /** The same, read off the lists Owned is built from. */
  ghost predicate Listed(s: State, p: Pid, pr: Proc) {
    && Distinct(pr.temps) && Distinct(pr.stages) && Distinct(pr.finals) && Distinct(pr.sides)
    && (forall t :: t in pr.temps ==> t in s.used)
    && (if pr.sides != [] then By(s.dir, Side(pr.sides[|pr.sides| - 1]), p)
        else if pr.finals != [] then By(s.dir, Final(pr.finals[|pr.finals| - 1]), p)
        else pr.stages != [] ==> By(s.dir, Stage(pr.stages[|pr.stages| - 1]), p))
  }

  predicate InLists(n: Name, pr: Proc) {
    match n
    case Temp(t) => t in pr.temps
    case Stage(k) => k in pr.stages
    case Final(k) => k in pr.finals
    case Side(k) => k in pr.sides
    case _ => false
  }

  lemma OwnedIsLists(pr: Proc, n: Name)
    ensures n in Owned(pr) <==> InLists(n, pr)
  {
    if InLists(n, pr) {
      var a, b, c := |pr.temps|, |pr.stages|, |pr.finals|;
      match n
      case Temp(t) => var i :| 0 <= i < a && pr.temps[i] == t; assert Owned(pr)[i] == n;
      case Stage(k) => var i :| 0 <= i < b && pr.stages[i] == k; assert Owned(pr)[a + i] == n;
      case Final(k) => var i :| 0 <= i < c && pr.finals[i] == k; assert Owned(pr)[a + b + i] == n;
      case Side(k) => var i :| 0 <= i < |pr.sides| && pr.sides[i] == k; assert Owned(pr)[a + b + c + i] == n;
    }
  }

  lemma ListedIsAnchored(s: State, p: Pid, pr: Proc)
    requires Listed(s, p, pr)
    ensures Anchored(s.dir, p, Owned(pr))
  {
    var q := Owned(pr);
    if pr.stages == [] && pr.finals == [] && pr.sides == [] {
      forall n | n in q ensures n.Temp? { OwnedIsLists(pr, n); }
    }
  }

  /** Every artifact in the directory is p's. */
  ghost predicate Alone(dir: map<Name, Pid>, p: Pid) { forall n :: n in dir && n != Lock ==> dir[n] == p }

  /** The lock, and what the program point says about it. */
  ghost predicate MineLock(dir: map<Name, Pid>, p: Pid, pr: Proc) {
    && (pr.lockHeld ==> By(dir, Lock, p))
    && (pr.pc.Scanning? || pr.pc.Open? || pr.pc.SideReady? || pr.pc.MarkReady? ==> pr.lockHeld && !pr.mark)
    && (pr.pc.Idle? ==> !pr.lockHeld)
    && (pr.pc.Idle? || pr.pc.Scanning? ==> pr.temps == [] && pr.stages == [] && pr.finals == [] && pr.sides == [] && !pr.mark)
    && (pr.pc.Released? ==> !pr.mark)
  }

  /** The paths an abort may still remove. */
  ghost predicate MineRest(s: State, p: Pid, pr: Proc) {
    && Anchored(s.dir, p, Rest(pr))
    && (forall n :: n in Rest(pr) ==> n != Lock && n != Marker && (n in s.dir ==> s.dir[n] == p) && (n.Temp? ==> n.t in s.used))
  }

  /** What is in the directory while p is past prepare. */
  ghost predicate MineDir(s: State, p: Pid, pr: Proc) {
    && (Active(pr.pc) || pr.pc.Committed? ==> Alone(s.dir, p))
    && (pr.pc.Released? ==> By(s.dir, Temp(pr.pc.t), p))
    && (pr.pc.Marked? || pr.pc.Committed? || (pr.pc.Invalidating? && pr.mark) ==> By(s.dir, Marker, p))
    && (Active(pr.pc) ==> Listed(s, p, pr) && Kept(s.dir, p, pr))
    && (pr.pc.SideReady? ==> Side(pr.pc.n) !in s.dir)
    && (pr.pc.MarkReady? ==> By(s.dir, Temp(pr.pc.t), p))
  }

  /** A final path or sidecar that p has listed is still there, and its staging name is not. */
  ghost predicate Kept(dir: map<Name, Pid>, p: Pid, pr: Proc) {
    && (forall n :: n in pr.finals ==> By(dir, Final(n), p) && Stage(n) !in dir && n in pr.stages)
    && (forall n :: n in pr.sides ==> By(dir, Side(n), p))
  }

  /** What holds of a living commit p. */
  ghost predicate Mine(s: State, p: Pid)
    requires p in s.procs
  {
    MineLock(s.dir, p, s.procs[p]) && MineRest(s, p, s.procs[p]) && MineDir(s, p, s.procs[p])
  }

  ghost predicate Inv(s: State) { forall p :: Alive(s, p) ==> Mine(s, p) }

  /** Two commits past prepare are one: the lock, or else an artifact, tells them apart. */
  lemma ActiveIsUnique(s: State, p: Pid, q: Pid)
    requires Inv(s) && Alive(s, p) && Alive(s, q)
    requires Active(s.procs[p].pc) || s.procs[p].pc.Committed?
    requires Active(s.procs[q].pc) || s.procs[q].pc.Committed?
    ensures p == q
  {
    assert Mine(s, p) && Mine(s, q);
  }

  /** While q is past prepare, an aborting p has nothing left to remove but its own temporaries. */
  lemma AborterIsHarmless(s: State, p: Pid, q: Pid)
    requires Inv(s) && Alive(s, p) && Alive(s, q) && p != q && Active(s.procs[q].pc)
    ensures OnlyTemps(Rest(s.procs[p]))
  {
    assert Mine(s, p) && Mine(s, q);
    assert Anchored(s.dir, p, Rest(s.procs[p]));
  }

  /**
   What one step of p does to the directory: entries of others stay, and an entry that
   appears is p's, made while p is past prepare unless it is the lock.
   */
  ghost predicate Framed(s: State, s': State, p: Pid, e: Env)
    requires p in s.procs
  {
    && s'.used == s.used + {e.t}
    && (forall n :: n in s.dir && s.dir[n] != p ==> By(s'.dir, n, s.dir[n]))
    && (forall n :: n in s'.dir && !By(s.dir, n, s'.dir[n]) ==>
          s'.dir[n] == p && (n == Lock || Active(s.procs[p].pc)) && (n.Temp? ==> n.t == e.t))
  }

  lemma StepIsFramed(s: State, p: Pid, e: Env)
    requires Inv(s) && Enabled(s, p, e)
    ensures Framed(s, Act(s, p, e), p, e)
  {
    assert Mine(s, p);
  }

  /** A framed step of p keeps what holds of another living commit. */
  lemma OthersKept(s: State, s': State, p: Pid, e: Env, q: Pid)
    requires Inv(s) && Alive(s, p) && Alive(s, q) && q != p && e.t !in s.used && Framed(s, s', p, e)
    requires q in s'.procs && s'.procs[q] == s.procs[q]
    ensures Mine(s', q)
  {
    assert Mine(s, p) && Mine(s, q);
    var pr := s.procs[q];
    if Active(s.procs[p].pc) {
      AborterIsHarmless(s, q, p);
      if Active(pr.pc) || pr.pc.Committed? { ActiveIsUnique(s, p, q); }
    }
    assert MineRest(s', q, pr);
    assert Active(pr.pc) || pr.pc.Committed? ==> Alone(s'.dir, q) by {
      if Active(pr.pc) || pr.pc.Committed? {
        forall n | n in s'.dir && n != Lock ensures s'.dir[n] == q { assert By(s.dir, n, s'.dir[n]); }
      }
    }
    if Active(pr.pc) {
      assert Kept(s'.dir, q, pr) by {
        forall n | n in pr.finals ensures By(s'.dir, Final(n), q) && Stage(n) !in s'.dir { assert By(s.dir, Final(n), q); }
      }
    }
  }

  /** An active commit that gives up has an anchored list of its own paths. */
  lemma GivingUp(s: State, p: Pid)
    requires Alive(s, p) && Mine(s, p) && Active(s.procs[p].pc)
    ensures var pr := s.procs[p];
            Anchored(s.dir, p, Owned(pr))
            && forall n :: n in Owned(pr) ==> n != Lock && n != Marker && (n in s.dir ==> s.dir[n] == p) && (n.Temp? ==> n.t in s.used)
  {
    ListedIsAnchored(s, p, s.procs[p]);
    forall n | n in Owned(s.procs[p]) ensures InLists(n, s.procs[p]) { OwnedIsLists(s.procs[p], n); }
  }

  /** s with p's record and the directory replaced. */
  function With(s: State, p: Pid, dir: map<Name, Pid>, pr: Proc, t: nat): State { State(dir, s.procs[p := pr], s.used + {t}) }

  lemma FailKept(s: State, p: Pid, t: nat)
    requires Alive(s, p) && Mine(s, p) && Active(s.procs[p].pc)
    ensures Mine(With(s, p, s.dir, s.procs[p].(pc := Invalidating), t), p)
  {
    GivingUp(s, p);
  }

  lemma ShardOpened(s: State, p: Pid, n: nat, t: nat)
    requires Alive(s, p) && Mine(s, p) && s.procs[p].pc.Open? && Stage(n) !in s.dir && n !in s.procs[p].stages
    ensures Mine(With(s, p, s.dir[Stage(n) := p], s.procs[p].(stages := s.procs[p].stages + [n]), t), p)
  {
  }

  lemma ShardRenamed(s: State, p: Pid, n: nat, t: nat)
    requires Alive(s, p) && Mine(s, p) && s.procs[p].pc.Open? && Stage(n) in s.dir && n in s.procs[p].stages
    ensures Mine(With(s, p, (s.dir - {Stage(n)})[Final(n) := s.dir[Stage(n)]], s.procs[p].(finals := s.procs[p].finals + [n]), t), p)
  {
    assert n !in s.procs[p].finals;
  }

  lemma TempWritten(s: State, p: Pid, t: nat, pc: Pc)
    requires Alive(s, p) && Mine(s, p) && s.procs[p].pc.Open? && t !in s.used
    requires pc == MarkReady(t) || (pc.SideReady? && pc.t == t && Side(pc.n) !in s.dir)
    ensures Mine(With(s, p, s.dir[Temp(t) := p], s.procs[p].(temps := s.procs[p].temps + [t], pc := pc), t), p)
  {
  }

  lemma OpenKept(s: State, p: Pid, e: Env)
    requires Inv(s) && Enabled(s, p, e) && s.procs[p].pc.Open?
    ensures Mine(Act(s, p, e), p)
  {
    assert Mine(s, p);
    var s' := Act(s, p, e);
    if s'.procs[p].pc.Invalidating? { FailKept(s, p, e.t); }
    else {
      match e.move
      case OpenShard(n) => ShardOpened(s, p, n, e.t);
      case RenameShard(n) => ShardRenamed(s, p, n, e.t);
      case WriteSide(n) => TempWritten(s, p, e.t, SideReady(n, e.t));
      case WriteMark => TempWritten(s, p, e.t, MarkReady(e.t));
    }
  }

  lemma SideRenamed(s: State, p: Pid, n: nat, t: nat, u: nat)
    requires Alive(s, p) && Mine(s, p) && s.procs[p].pc == SideReady(n, t) && Temp(t) in s.dir
    ensures Mine(With(s, p, (s.dir - {Temp(t)})[Side(n) := s.dir[Temp(t)]], s.procs[p].(sides := s.procs[p].sides + [n], pc := Open), u), p)
  {
    assert n !in s.procs[p].sides;
  }

  lemma LockReleased(s: State, p: Pid, t: nat, u: nat)
    requires Alive(s, p) && Mine(s, p) && s.procs[p].pc == MarkReady(t) && By(s.dir, Temp(t), p)
    ensures Mine(With(s, p, s.dir - {Lock}, s.procs[p].(lockHeld := false, pc := Released(t)), u), p)
  {
  }

  lemma MarkerRenamed(s: State, p: Pid, t: nat, u: nat)
    requires Alive(s, p) && Mine(s, p) && s.procs[p].pc == Released(t)
    ensures Mine(With(s, p, (s.dir - {Temp(t)})[Marker := s.dir[Temp(t)]], s.procs[p].(mark := true, pc := Marked), u), p)
  {
  }

  lemma ReadyKept(s: State, p: Pid, e: Env)
    requires Inv(s) && Enabled(s, p, e) && Active(s.procs[p].pc) && !s.procs[p].pc.Open?
    ensures Mine(Act(s, p, e), p)
  {
    assert Mine(s, p);
    var s' := Act(s, p, e);
    if s'.procs[p].pc.Invalidating? { FailKept(s, p, e.t); }
    else {
      match s.procs[p].pc
      case SideReady(n, t) => SideRenamed(s, p, n, t, e.t);
      case MarkReady(t) => LockReleased(s, p, t, e.t);
      case Released(t) => MarkerRenamed(s, p, t, e.t);
      case Marked =>
    }
  }

  lemma TailAnchored(dir: map<Name, Pid>, p: Pid, q: seq<Name>)
    requires Anchored(dir, p, q) && q != []
    ensures Anchored(dir, p, q[1..]) && Anchored(dir - {q[0]}, p, q[1..])
    ensures forall n :: n in q[1..] ==> n in q && n != q[0]
  {
    assert forall n :: n in q[1..] ==> n in q;
    if |q| > 1 && !OnlyTemps(q) { assert q[1..][|q| - 2] == q[|q| - 1]; }
  }

  lemma PathRemoved(s: State, p: Pid, dir: map<Name, Pid>, t: nat)
    requires Alive(s, p) && Mine(s, p) && s.procs[p].pc.Removing? && s.procs[p].pc.queue != []
    requires dir == s.dir || dir == s.dir - {s.procs[p].pc.queue[0]}
    ensures Mine(With(s, p, dir, s.procs[p].(pc := Removing(s.procs[p].pc.queue[1..])), t), p)
  {
    TailAnchored(s.dir, p, s.procs[p].pc.queue);
    assert s.procs[p].pc.queue[0] in Rest(s.procs[p]);
  }

  lemma StartKept(s: State, p: Pid, e: Env)
    requires Inv(s) && Enabled(s, p, e) && (s.procs[p].pc.Idle? || s.procs[p].pc.Scanning?)
    ensures Mine(Act(s, p, e), p)
  {
    assert Mine(s, p);
    assert Owned(s.procs[p]) == [];
    assert Owned(Act(s, p, e).procs[p]) == [];
  }

  lemma Invalidated(s: State, p: Pid, e: Env)
    requires Inv(s) && Enabled(s, p, e) && s.procs[p].pc.Invalidating?
    ensures Mine(Act(s, p, e), p)
  {
    assert Mine(s, p);
  }

  lemma AbortKept(s: State, p: Pid, e: Env)
    requires Inv(s) && Enabled(s, p, e) && !Active(s.procs[p].pc)
    ensures Mine(Act(s, p, e), p)
  {
    assert Mine(s, p);
    match s.procs[p].pc
    case Idle | Scanning => StartKept(s, p, e);
    case Invalidating => Invalidated(s, p, e);
    case Removing(queue) => if queue != [] { PathRemoved(s, p, Act(s, p, e).dir, e.t); }
    case _ =>
  }

  lemma StepKeepsInv(s: State, p: Pid, e: Env)
    requires Inv(s) && Enabled(s, p, e)
    ensures Inv(Act(s, p, e))
  {
    if s.procs[p].pc.Open? { OpenKept(s, p, e); }
    else if Active(s.procs[p].pc) { ReadyKept(s, p, e); }
    else { AbortKept(s, p, e); }
    forall q | Alive(Act(s, p, e), q) ensures Mine(Act(s, p, e), q) {
      if q != p { StepIsFramed(s, p, e); OthersKept(s, Act(s, p, e), p, e, q); }
    }
  }

  lemma {:induction false} RunKeepsInv(states: seq<State>, events: seq<Event>, i: nat)
    requires Run(states, events) && i <= |events|
    ensures Inv(states[i])
  {
    if i == 0 {
    } else {
      RunKeepsInv(states, events, i - 1);
      var s, ev := states[i - 1], events[i - 1];
      assert Possible(s, ev) && states[i] == After(s, ev);
      match ev
      case Spawn(p) => forall q | Alive(states[i], q) ensures Mine(states[i], q) { if q != p { assert Mine(s, q); } }
      case Death(p) => forall q | Alive(states[i], q) ensures Mine(states[i], q) { assert Mine(s, q); }
      case Step(p, e) => StepKeepsInv(s, p, e);
    }
  }

  /**
   Exclusion: in every state of every run at most one living commit is past prepare or
   committed, although the lock may already have been given back.
   */
  lemma AtMostOneCommit(states: seq<State>, events: seq<Event>, i: nat, p: Pid, q: Pid)
    requires Run(states, events) && i <= |events| && Alive(states[i], p) && Alive(states[i], q)
    requires Active(states[i].procs[p].pc) || states[i].procs[p].pc.Committed?
    requires Active(states[i].procs[q].pc) || states[i].procs[q].pc.Committed?
    ensures p == q
  {
    RunKeepsInv(states, events, i);
    ActiveIsUnique(states[i], p, q);
  }

  /**
   No clobbering: every directory entry that a step of p takes away or replaces was created
   by p, in an abort as much as in a rename.
   */
  lemma OnlyOwnEntriesGo(states: seq<State>, events: seq<Event>, i: nat, n: Name)
    requires Run(states, events) && i < |events| && n in states[i].dir
    ensures By(states[i + 1].dir, n, states[i].dir[n])
            || (events[i].Step? && states[i].dir[n] == events[i].p)
  {
    RunKeepsInv(states, events, i);
    var s, ev := states[i], events[i];
    assert Possible(s, ev) && states[i + 1] == After(s, ev);
    if ev.Step? { assert Mine(s, ev.p); }
  }

  /** The files of a living committed run stay as long as it lives. */
  lemma CommittedStays(states: seq<State>, events: seq<Event>, i: nat, p: Pid, n: Name)
    requires Run(states, events) && i < |events| && Alive(states[i], p) && states[i].procs[p].pc.Committed?
    requires By(states[i].dir, n, p) && n != Lock
    ensures By(states[i + 1].dir, n, p) && By(states[i].dir, Marker, p)
  {
    RunKeepsInv(states, events, i);
    assert Mine(states[i], p);
    OnlyOwnEntriesGo(states, events, i, n);
    var ev := events[i];
    assert Possible(states[i], ev) && states[i + 1] == After(states[i], ev);
  }
}
