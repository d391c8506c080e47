/**
 What an owner achieves: publish, Sweep and abandonSetup from their first call to their last,
 over every run and with any other processes in between, when the owner's own calls succeed.
 */
module SlotOwner {
  import opened SlotModel
  import opened Wrappers
  import opened SlotSafety
  import opened SlotCrash

  // ---- the owner's temporary names are free when it comes to use them

  /** The tombstone's temporary is not made yet. */
  predicate Unswept(pc: Pc) {
    match pc
    case Idle | Leaving => false
    case Owner(o) => !o.AbRead? && !o.AbCard? && !o.AbClaim?
    case Sweeping(sw) => sw == SwRead || sw == SwCard || sw == SwRead2 || sw == SwTmp
    case _ => true
  }

  /** The card's temporary is not made yet. */
  predicate Unpublished(pr: Proc) {
    !pr.ownedCard
    && match pr.pc
       case Idle | Leaving | Sweeping(_) => false
       case Owner(o) => o == Held || o == PubRead || o == PubTmp
       case _ => true
  }

  predicate OwnTmps(fs: Fs, pr: Proc) {
    && (Unswept(pr.pc) ==> ClaimTmp(pr.tok) !in fs.names) && (Unpublished(pr) ==> CardTmp(pr.tok) !in fs.names)
    && (pr.pc == Owner(PubTidy(true)) ==> pr.ownedCard)
  }

  ghost predicate TmpNames(s: State) {
    && (forall t :: ClaimTmp(t) in s.fs.names || CardTmp(t) in s.fs.names ==> t in s.issued)
    && (forall p :: Alive(s, p) ==> OwnTmps(s.fs, s.procs[p]))
  }

  /** A step starts an attempt, or keeps its token and makes a temporary only at its own point. */
  predicate TmpStep(before: Proc, op: Op, pr: Proc) {
    && (Unswept(pr.pc) ==> before.pc.Idle? || (Unswept(before.pc) && pr.tok == before.tok && !(op.Make? && op.n.ClaimTmp?)))
    && (Unpublished(pr) ==> before.pc.Idle? || (Unpublished(before) && pr.tok == before.tok && !(op.Make? && op.n.CardTmp?)))
    && (pr.pc == Owner(PubTidy(true)) ==> pr.ownedCard)
  }

  lemma RepairTmps(fs: Fs, p: Pid, pr: Proc, e: Env, r: RepairPoint, k: Then)
    requires pr.pc == Repair(r, k)
    ensures var (op, pr') := NextRepair(fs, p, pr, e, r, k); TmpStep(pr, op, pr')
  {
    RepairMoves(fs, p, pr, e, r, k);
  }

  lemma OwnerTmps(fs: Fs, p: Pid, pr: Proc, e: Env, o: OwnerPoint)
    requires pr.pc == Owner(o) && (o == PubTidy(true) ==> pr.ownedCard)
    ensures var (op, pr') := NextOwner(fs, p, pr, e, o); TmpStep(pr, op, pr')
  {
  }

  lemma TmpSteps(fs: Fs, p: Pid, pr: Proc, e: Env)
    requires pr.pc == Owner(PubTidy(true)) ==> pr.ownedCard
    ensures TmpStep(pr, Next(fs, p, pr, e).0, Next(fs, p, pr, e).1)
  {
    match pr.pc
    case Repair(r, k) => RepairTmps(fs, p, pr, e, r, k);
    case Owner(o) => OwnerTmps(fs, p, pr, e, o);
    case Sweeping(sw) => SweepTmps(fs, p, pr, e, sw);
    case Slot(_) | Write(_, _) => FreshTmps(fs, p, pr, e);
    case _ =>
  }

  lemma SweepTmps(fs: Fs, p: Pid, pr: Proc, e: Env, sw: SweepPoint)
    requires pr.pc == Sweeping(sw)
    ensures var (op, pr') := NextSweep(fs, p, pr, e, sw); TmpStep(pr, op, pr')
  {
  }

  lemma FreshTmps(fs: Fs, p: Pid, pr: Proc, e: Env)
    requires pr.pc.Slot? || pr.pc.Write?
    ensures TmpStep(pr, Next(fs, p, pr, e).0, Next(fs, p, pr, e).1)
  {
  }

  lemma TmpNamesMoved(s: State, p: Pid, op: Op, pr: Proc, issued: map<Token, Pid>)
    requires Inv(s) && TmpNames(s) && Alive(s, p) && Permitted(s, p, op) && Extends(s.issued, issued)
    requires s.procs[p].pc.Idle? ==> op == Nop && pr.tok !in s.issued
    requires TmpStep(s.procs[p], op, pr)
    ensures TmpNames(Called(s, p, op, pr, issued))
  {
    var s' := Called(s, p, op, pr, issued);
    assert Knows(s, p) && OwnTmps(s.fs, s.procs[p]);
    forall q | Alive(s', q) ensures OwnTmps(s'.fs, s'.procs[q]) {
      if q != p { assert Knows(s, q) && OwnTmps(s.fs, s.procs[q]); }
    }
  }

  lemma TmpNamesKept(s: State, p: Pid, e: Env)
    requires Inv(s) && TmpNames(s) && Enabled(s, p, e)
    ensures TmpNames(Act(s, p, e))
  {
    var (op, pr) := Next(s.fs, p, s.procs[p], e);
    if !s.procs[p].pc.Idle? { StepIsGood(s, p, e, op, pr); }
    assert OwnTmps(s.fs, s.procs[p]);
    TmpSteps(s.fs, p, s.procs[p], e);
    TmpNamesMoved(s, p, op, pr, Act(s, p, e).issued);
  }

  lemma DeathKeepsTmps(s: State, p: Pid)
    requires TmpNames(s) && Alive(s, p)
    ensures TmpNames(Die(s, p))
  {
    forall q | Alive(Die(s, p), q) ensures OwnTmps(Die(s, p).fs, Die(s, p).procs[q]) { assert Alive(s, q) && OwnTmps(s.fs, s.procs[q]); }
  }

  lemma SpawnKeepsTmps(s: State, p: Pid)
    requires TmpNames(s) && p !in s.procs
    ensures TmpNames(After(s, Spawn(p)))
  {
    var s' := After(s, Spawn(p));
    forall q | Alive(s', q) ensures OwnTmps(s'.fs, s'.procs[q]) { if q != p { assert Alive(s, q) && OwnTmps(s.fs, s.procs[q]); } }
  }

  lemma {:induction false} RunKeepsTmps(states: seq<State>, events: seq<Event>, i: nat)
    requires Run(states, events) && i <= |events|
    ensures TmpNames(states[i])
  {
    if i == 0 {
    } else {
      RunKeepsTmps(states, events, i - 1);
      RunKeepsInv(states, events, i - 1);
      var s, ev := states[i - 1], events[i - 1];
      assert Possible(s, ev) && states[i] == After(s, ev);
      match ev
      case Spawn(p) => SpawnKeepsTmps(s, p);
      case Death(p) => DeathKeepsTmps(s, p);
      case Step(p, e) => TmpNamesKept(s, p, e);
    }
  }

  // ---- the others leave an owner's files alone

  ghost predicate SameName(fs: Fs, fs': Fs, n: Name) {
    (n in fs'.names <==> n in fs.names) && (n in fs.names ==> fs'.names[n] == fs.names[n])
  }

  /** The names an owner relies on, and every complete body. */
  ghost predicate Left(fs: Fs, fs': Fs, tok: Token) {
    && SameName(fs, fs', Claim) && SameName(fs, fs', Card) && SameName(fs, fs', ClaimTmp(tok)) && SameName(fs, fs', CardTmp(tok))
    && (forall i :: i in fs.files && fs.files[i].complete ==> i in fs'.files && fs'.files[i] == fs.files[i])
  }

  lemma CallLeaves(s: State, q: Pid, op: Op, p: Pid)
    requires Inv(s) && Alive(s, q) && Permitted(s, q, op) && q != p && Alive(s, p) && Owning(s.procs[p].pc) && Knows(s, q)
    requires HasTok(s.procs[q].pc)
    ensures Left(s.fs, Apply(s.fs, q, op), s.procs[p].tok)
  {
    assert Knows(s, p);
    if Owning(s.procs[q].pc) { OwnerIsUnique(s, p, q); }
    BodiesKept(s, q, op);
    ClaimKept(s, q, op, p);
  }

  /** No event of another process touches them. */
  lemma EventLeaves(s: State, ev: Event, p: Pid)
    requires Inv(s) && Possible(s, ev) && ev.p != p && Alive(s, p) && Owning(s.procs[p].pc)
    ensures Left(s.fs, After(s, ev).fs, s.procs[p].tok) && Alive(After(s, ev), p) && After(s, ev).procs[p] == s.procs[p]
  {
    if ev.Step? && !s.procs[ev.p].pc.Idle? {
      var (op, pr) := Next(s.fs, ev.p, s.procs[ev.p], ev.e);
      StepIsGood(s, ev.p, ev.e, op, pr);
      assert Knows(s, ev.p);
      CallLeaves(s, ev.p, op, p);
    }
  }

  // ---- how far an owner has come

  /** These events lead from u to v. */
  ghost predicate Evolves(u: State, es: seq<Event>, v: State)
    decreases |es|
  {
    if es == [] then u == v else Possible(u, es[0]) && Evolves(After(u, es[0]), es[1..], v)
  }

  /** How many of them are p's. */
  function Count(es: seq<Event>, p: Pid): nat { if es == [] then 0 else (if es[0].p == p then 1 else 0) + Count(es[1..], p) }

  /** p lives on and its calls succeed. */
  predicate Succeeds(es: seq<Event>, p: Pid)
    decreases |es|
  {
    es != [] ==> (es[0].p == p ==> es[0].Step? && es[0].e.ok) && Succeeds(es[1..], p)
  }

  /** p, which owns the slot, is asked for this. */
  predicate Asked(s: State, ev: Event, p: Pid, want: Want) {
    Alive(s, p) && s.procs[p].pc == Owner(Held) && ev.Step? && ev.p == p && ev.e.want == want
  }

  ghost predicate Good(s: State) { Inv(s) && TmpNames(s) }

  lemma EventKeepsGood(s: State, ev: Event)
    requires Good(s) && Possible(s, ev)
    ensures Good(After(s, ev))
  {
    match ev
    case Spawn(p) => SpawnKeepsInv(s, p); SpawnKeepsTmps(s, p);
    case Death(p) => DeathKeepsInv(s, p); DeathKeepsTmps(s, p);
    case Step(p, e) => StepKeepsInv(s, p, e); TmpNamesKept(s, p, e);
  }

  lemma ReachedIsGood(states: seq<State>, events: seq<Event>)
    requires Run(states, events)
    ensures Good(states[|events|])
  {
    RunKeepsInv(states, events, |events|);
    RunKeepsTmps(states, events, |events|);
  }

  // ---- Sweep

  /** The n-th point of a sweep that finds everything in order. */
  function SweepPoint(n: nat): Pc {
    if n == 1 then Sweeping(SwRead) else if n == 2 then Sweeping(SwCard) else if n == 3 then Sweeping(SwRead2)
    else if n == 4 then Sweeping(SwTmp) else if n == 5 then Sweeping(SwReread) else if n == 6 then Sweeping(SwMove) else Sweeping(Swept)
  }

  /** After n steps of the sweep that began in s. */
  ghost predicate SweepAt(s: State, u: State, p: Pid, n: nat)
    requires p in s.procs
  {
    && Alive(u, p) && u.procs[p].pc == SweepPoint(n) && u.procs[p].tok == s.procs[p].tok
    && (n <= 2 ==> u.procs[p].ownedCard == s.procs[p].ownedCard && SameName(s.fs, u.fs, Card))
    && (n >= 3 ==> !u.procs[p].ownedCard && if s.procs[p].ownedCard then Card !in u.fs.names else SameName(s.fs, u.fs, Card))
    && (n == 5 || n == 6 ==> ClaimTmp(u.procs[p].tok) in u.fs.names)
    && (n == 7 ==> Read(u.fs, Claim) == Some(File(p, u.procs[p].tok, true, true)) && ClaimTmp(u.procs[p].tok) !in u.fs.names)
  }

  lemma SweepStarts(s: State, p: Pid, e: Env)
    requires Inv(s) && Enabled(s, p, e) && Asked(s, Step(p, e), p, DoSweep)
    ensures SweepAt(s, Act(s, p, e), p, 1)
  {
  }

  lemma SweepBegins(s: State, u: State, p: Pid, e: Env, n: nat)
    requires p in s.procs && Knows(u, p) && Enabled(u, p, e) && e.ok && 1 <= n <= 3 && SweepAt(s, u, p, n)
    ensures SweepAt(s, Act(u, p, e), p, n + 1)
  {
  }

  lemma SweepFinishes(s: State, u: State, p: Pid, e: Env, n: nat)
    requires p in s.procs && Knows(u, p) && OwnTmps(u.fs, u.procs[p]) && Enabled(u, p, e) && e.ok && u.fs.dir
    requires 4 <= n < 7 && SweepAt(s, u, p, n)
    ensures SweepAt(s, Act(u, p, e), p, n + 1)
  {
  }

  lemma SweepGoesOn(s: State, u: State, p: Pid, e: Env, n: nat)
    requires p in s.procs && Knows(u, p) && OwnTmps(u.fs, u.procs[p]) && Enabled(u, p, e) && e.ok && u.fs.dir
    requires 1 <= n < 7 && SweepAt(s, u, p, n)
    ensures SweepAt(s, Act(u, p, e), p, n + 1)
  {
    if n <= 3 { SweepBegins(s, u, p, e, n); } else { SweepFinishes(s, u, p, e, n); }
  }

  lemma SweepIsLeft(s: State, u: State, u': State, p: Pid, n: nat)
    requires p in s.procs && 1 <= n <= 7 && SweepAt(s, u, p, n) && Knows(u, p) && Left(u.fs, u'.fs, u.procs[p].tok)
    requires Alive(u', p) && u'.procs[p] == u.procs[p]
    ensures SweepAt(s, u', p, n)
  {
  }

  lemma SweepEvent(s: State, u: State, ev: Event, p: Pid, n: nat)
    requires p in s.procs && Inv(u) && TmpNames(u) && Possible(u, ev) && SweepAt(s, u, p, n) && 1 <= n <= 7
    requires ev.p == p ==> ev.Step? && ev.e.ok && n < 7
    ensures SweepAt(s, After(u, ev), p, if ev.p == p then n + 1 else n)
  {
    assert Knows(u, p);
    if ev.p == p {
      SweepGoesOn(s, u, p, ev.e, n);
    } else {
      EventLeaves(u, ev, p);
      SweepIsLeft(s, u, After(u, ev), p, n);
    }
  }

  lemma SweepNext(s: State, u: State, ev: Event, p: Pid, n: nat)
    requires p in s.procs && Good(u) && Possible(u, ev) && SweepAt(s, u, p, n) && 1 <= n && n <= 7
    requires ev.p == p ==> ev.Step? && ev.e.ok && n < 7
    ensures SweepAt(s, After(u, ev), p, if ev.p == p then n + 1 else n) && Good(After(u, ev))
  {
    SweepEvent(s, u, ev, p, n);
    EventKeepsGood(u, ev);
  }

  lemma {:induction false} SweepEvolves(s: State, u: State, es: seq<Event>, v: State, p: Pid, n: nat)
    requires p in s.procs && Good(u) && Evolves(u, es, v) && Succeeds(es, p) && 1 <= n && n + Count(es, p) <= 7 && SweepAt(s, u, p, n)
    ensures SweepAt(s, v, p, n + Count(es, p))
    decreases |es|
  {
    if es == [] {
    } else {
      SweepNext(s, u, es[0], p, n);
      SweepEvolves(s, After(u, es[0]), es[1..], v, p, if es[0].p == p then n + 1 else n);
    }
  }

  lemma SweepEvolvesFrom(s: State, es: seq<Event>, v: State, p: Pid)
    requires Good(s) && Evolves(s, es, v) && es != [] && Asked(s, es[0], p, DoSweep) && Succeeds(es, p) && Count(es, p) == 7
    ensures SweepAt(s, v, p, 7)
  {
    SweepStarts(s, p, es[0].e);
    EventKeepsGood(s, es[0]);
    SweepEvolves(s, After(s, es[0]), es[1..], v, p, 1);
  }

  /**
   Sweep. From every state of every run: an owner that is asked to sweep and makes its seven
   calls, all of them successful, ends with its card gone if it had published one, card.json
   otherwise as it was, and a complete tombstone of its own token in claim.json, whatever the
   others do meanwhile.
   */
  lemma SweepWithdraws(states: seq<State>, events: seq<Event>, es: seq<Event>, u: State, p: Pid)
    requires Run(states, events) && Evolves(states[|events|], es, u)
    requires es != [] && Asked(states[|events|], es[0], p, DoSweep) && Succeeds(es, p) && Count(es, p) == 7
    ensures var s := states[|events|];
      && Alive(u, p) && u.procs[p].pc == Sweeping(Swept) && !u.procs[p].ownedCard && u.procs[p].tok == s.procs[p].tok
      && (if s.procs[p].ownedCard then Card !in u.fs.names else SameName(s.fs, u.fs, Card))
      && Read(u.fs, Claim) == Some(File(p, u.procs[p].tok, true, true)) && ClaimTmp(u.procs[p].tok) !in u.fs.names
  {
    ReachedIsGood(states, events);
    SweepEvolvesFrom(states[|events|], es, u, p);
  }

  // ---- publish

  /** The n-th point of a publication; `free`: no card is there. */
  function PublishPoint(n: nat, free: bool): Pc {
    if n == 1 then Owner(PubRead) else if n == 2 then Owner(PubTmp) else if n == 3 then Owner(PubLink)
    else if n == 4 then Owner(PubTidy(free)) else Owner(if free then Held else AbRead)
  }

  /** The card of p. */
  predicate OwnCard(fs: Fs, n: Name, p: Pid) { n in fs.names && fs.names[n] in fs.files && fs.files[fs.names[n]] == File(p, NO_TOKEN, true, false) }

  ghost predicate PublishAt(s: State, u: State, p: Pid, n: nat)
    requires p in s.procs
  {
    var free := Card !in s.fs.names;
    && Alive(u, p) && u.procs[p].pc == PublishPoint(n, free) && u.procs[p].tok == s.procs[p].tok && SameName(s.fs, u.fs, Claim)
    && u.procs[p].ownedCard == (free && n >= 4)
    && (if free && n >= 4 then OwnCard(u.fs, Card, p) else SameName(s.fs, u.fs, Card))
    && (n == 3 ==> OwnCard(u.fs, CardTmp(u.procs[p].tok), p))
    && (n == 5 ==> CardTmp(u.procs[p].tok) !in u.fs.names)
  }

  lemma PublishStarts(s: State, p: Pid, e: Env)
    requires Inv(s) && Enabled(s, p, e) && Asked(s, Step(p, e), p, DoPublish) && !s.procs[p].ownedCard
    ensures PublishAt(s, Act(s, p, e), p, 1)
  {
  }

  lemma PublishGoesOn(s: State, u: State, p: Pid, e: Env, n: nat)
    requires p in s.procs && Knows(u, p) && OwnTmps(u.fs, u.procs[p]) && Enabled(u, p, e) && e.ok && u.fs.dir
    requires forall n :: n in u.fs.names ==> u.fs.names[n] in u.fs.files
    requires 1 <= n < 5 && PublishAt(s, u, p, n)
    ensures PublishAt(s, Act(u, p, e), p, n + 1)
  {
  }

  lemma PublishIsLeft(s: State, u: State, u': State, p: Pid, n: nat)
    requires p in s.procs && 1 <= n <= 5 && PublishAt(s, u, p, n) && Left(u.fs, u'.fs, u.procs[p].tok)
    requires Alive(u', p) && u'.procs[p] == u.procs[p]
    ensures PublishAt(s, u', p, n)
  {
  }

  lemma PublishEvent(s: State, u: State, ev: Event, p: Pid, n: nat)
    requires p in s.procs && Inv(u) && TmpNames(u) && Possible(u, ev) && PublishAt(s, u, p, n) && 1 <= n <= 5
    requires ev.p == p ==> ev.Step? && ev.e.ok && n < 5
    ensures PublishAt(s, After(u, ev), p, if ev.p == p then n + 1 else n)
  {
    assert Knows(u, p);
    if ev.p == p {
      PublishGoesOn(s, u, p, ev.e, n);
    } else {
      EventLeaves(u, ev, p);
      PublishIsLeft(s, u, After(u, ev), p, n);
    }
  }

  lemma PublishNext(s: State, u: State, ev: Event, p: Pid, n: nat)
    requires p in s.procs && Good(u) && Possible(u, ev) && PublishAt(s, u, p, n) && 1 <= n && n <= 5
    requires ev.p == p ==> ev.Step? && ev.e.ok && n < 5
    ensures PublishAt(s, After(u, ev), p, if ev.p == p then n + 1 else n) && Good(After(u, ev))
  {
    PublishEvent(s, u, ev, p, n);
    EventKeepsGood(u, ev);
  }

  lemma {:induction false} PublishEvolves(s: State, u: State, es: seq<Event>, v: State, p: Pid, n: nat)
    requires p in s.procs && Good(u) && Evolves(u, es, v) && Succeeds(es, p) && 1 <= n && n + Count(es, p) <= 5 && PublishAt(s, u, p, n)
    ensures PublishAt(s, v, p, n + Count(es, p))
    decreases |es|
  {
    if es == [] {
    } else {
      PublishNext(s, u, es[0], p, n);
      PublishEvolves(s, After(u, es[0]), es[1..], v, p, if es[0].p == p then n + 1 else n);
    }
  }

  lemma PublishEvolvesFrom(s: State, es: seq<Event>, v: State, p: Pid)
    requires Good(s) && Evolves(s, es, v) && es != [] && Asked(s, es[0], p, DoPublish) && !s.procs[p].ownedCard
    requires Succeeds(es, p) && Count(es, p) == 5
    ensures PublishAt(s, v, p, 5)
  {
    PublishStarts(s, p, es[0].e);
    EventKeepsGood(s, es[0]);
    PublishEvolves(s, After(s, es[0]), es[1..], v, p, 1);
  }

  /**
   publish. From every state of every run: an owner without a card that is asked to publish and
   makes its five calls, all of them successful, ends with its own complete card in card.json
   and no temporary, or, if a card was there, leaves that one and goes on to abandon its setup.
   Its claim stays.
   */
  lemma PublishShows(states: seq<State>, events: seq<Event>, es: seq<Event>, u: State, p: Pid)
    requires Run(states, events) && Evolves(states[|events|], es, u)
    requires es != [] && Asked(states[|events|], es[0], p, DoPublish) && !states[|events|].procs[p].ownedCard
    requires Succeeds(es, p) && Count(es, p) == 5
    ensures var s := states[|events|];
      && Alive(u, p) && u.procs[p].tok == s.procs[p].tok && SameName(s.fs, u.fs, Claim) && CardTmp(u.procs[p].tok) !in u.fs.names
      && (if Card !in s.fs.names
          then u.procs[p].pc == Owner(Held) && u.procs[p].ownedCard && OwnCard(u.fs, Card, p)
          else u.procs[p].pc == Owner(AbRead) && !u.procs[p].ownedCard && SameName(s.fs, u.fs, Card))
  {
    ReachedIsGood(states, events);
    PublishEvolvesFrom(states[|events|], es, u, p);
  }

  // ---- abandonSetup

  function AbandonPoint(n: nat): Pc { if n == 0 then Owner(AbRead) else if n == 1 then Owner(AbCard) else Owner(AbClaim) }

  ghost predicate AbandonAt(s: State, u: State, p: Pid, n: nat)
    requires p in s.procs
  {
    && Alive(u, p) && u.procs[p].pc == AbandonPoint(n) && u.procs[p].tok == s.procs[p].tok
    && (n <= 1 ==> u.procs[p].ownedCard == s.procs[p].ownedCard && SameName(s.fs, u.fs, Card))
    && (n == 2 ==> !u.procs[p].ownedCard && if s.procs[p].ownedCard then Card !in u.fs.names else SameName(s.fs, u.fs, Card))
  }

  lemma AbandonGoesOn(s: State, u: State, p: Pid, e: Env, n: nat)
    requires p in s.procs && Knows(u, p) && Enabled(u, p, e) && e.ok && n < 2 && AbandonAt(s, u, p, n)
    ensures AbandonAt(s, Act(u, p, e), p, n + 1)
  {
  }

  /** The setup that was abandoned in s is gone in u. */
  ghost predicate Abandoned(s: State, u: State, p: Pid)
    requires p in s.procs
  {
    && Alive(u, p) && u.procs[p].pc == Leaving && !u.procs[p].ownedCard && Claim !in u.fs.names
    && (if s.procs[p].ownedCard then Card !in u.fs.names else SameName(s.fs, u.fs, Card))
  }

  lemma AbandonEnds(s: State, u: State, p: Pid, e: Env)
    requires p in s.procs && Knows(u, p) && Enabled(u, p, e) && e.ok && AbandonAt(s, u, p, 2)
    ensures Abandoned(s, Act(u, p, e), p)
  {
  }

  lemma AbandonEvent(s: State, u: State, ev: Event, p: Pid, n: nat)
    requires p in s.procs && Inv(u) && Possible(u, ev) && AbandonAt(s, u, p, n) && n <= 2
    requires ev.p == p ==> ev.Step? && ev.e.ok && n < 2
    ensures AbandonAt(s, After(u, ev), p, if ev.p == p then n + 1 else n)
  {
    assert Knows(u, p);
    if ev.p == p { AbandonGoesOn(s, u, p, ev.e, n); } else { EventLeaves(u, ev, p); }
  }

  lemma AbandonNext(s: State, u: State, ev: Event, p: Pid, n: nat)
    requires p in s.procs && Good(u) && Possible(u, ev) && AbandonAt(s, u, p, n) && n <= 2
    requires ev.p == p ==> ev.Step? && ev.e.ok && n < 2
    ensures AbandonAt(s, After(u, ev), p, if ev.p == p then n + 1 else n) && Good(After(u, ev))
  {
    AbandonEvent(s, u, ev, p, n);
    EventKeepsGood(u, ev);
  }

  lemma {:induction false} AbandonEvolves(s: State, u: State, es: seq<Event>, v: State, p: Pid, n: nat)
    requires p in s.procs && Good(u) && Evolves(u, es, v) && Succeeds(es, p) && n + Count(es, p) <= 2 && AbandonAt(s, u, p, n)
    ensures AbandonAt(s, v, p, n + Count(es, p)) && Good(v)
    decreases |es|
  {
    if es == [] {
    } else {
      AbandonNext(s, u, es[0], p, n);
      AbandonEvolves(s, After(u, es[0]), es[1..], v, p, if es[0].p == p then n + 1 else n);
    }
  }

  lemma AbandonsAll(s: State, es: seq<Event>, v: State, p: Pid, e: Env)
    requires Good(s) && Evolves(s, es, v) && Alive(s, p) && s.procs[p].pc == Owner(AbRead) && Succeeds(es, p) && Count(es, p) == 2
    requires Possible(v, Step(p, e)) && e.ok
    ensures Abandoned(s, After(v, Step(p, e)), p)
  {
    AbandonEvolves(s, s, es, v, p, 0);
    assert Knows(v, p);
    AbandonEnds(s, v, p, e);
  }

  /**
   abandonSetup. From every state of every run: an owner that abandons its setup and makes its
   three calls, all of them successful, has removed claim.json with the last one, and its card
   if it had published one; card.json is otherwise as it was.
   */
  lemma AbandonRemoves(states: seq<State>, events: seq<Event>, es: seq<Event>, v: State, p: Pid, e: Env)
    requires Run(states, events) && Evolves(states[|events|], es, v)
    requires Alive(states[|events|], p) && states[|events|].procs[p].pc == Owner(AbRead) && Succeeds(es, p) && Count(es, p) == 2
    requires Possible(v, Step(p, e)) && e.ok
    ensures Abandoned(states[|events|], After(v, Step(p, e)), p)
  {
    ReachedIsGood(states, events);
    AbandonsAll(states[|events|], es, v, p, e);
  }

  /** An owner without a card that is asked to abandon begins at once; one with a card does not. */
  lemma AbandonBegins(s: State, p: Pid, e: Env)
    requires Enabled(s, p, e) && Asked(s, Step(p, e), p, DoAbandon)
    ensures Alive(Act(s, p, e), p) && Act(s, p, e).fs == s.fs
    ensures Act(s, p, e).procs[p].pc == if s.procs[p].ownedCard then Owner(Held) else Owner(AbRead)
  {
  }

  // ---- a fresh slot

  /** After n calls of a process that found no directory. */
  ghost predicate FreshAt(u: State, p: Pid, tok: Token, n: nat) {
    && Alive(u, p) && u.procs[p].tok == tok && u.fs.dir && (n >= 2 ==> LockFile in u.fs.names)
    && (n <= 2 ==> Claim !in u.fs.names) && (n == 1 ==> LockFile !in u.fs.names)
    && u.procs[p].pc == (if n == 1 then Slot(FreshLock) else if n == 2 then Write(Create, Fresh) else if n == 3 then Write(Body, Fresh)
                         else if n == 4 then Write(Finish, Fresh) else Owner(Held))
  }

  lemma FreshGoesOn(u: State, p: Pid, tok: Token, e: Env, n: nat)
    requires Knows(u, p) && Enabled(u, p, e) && e.ok && 1 <= n < 5 && FreshAt(u, p, tok, n)
    ensures FreshAt(Act(u, p, e), p, tok, n + 1)
  {
  }

  lemma {:induction false} FreshEvolves(u: State, es: seq<Event>, v: State, p: Pid, tok: Token, n: nat)
    requires Good(u) && Evolves(u, es, v) && Succeeds(es, p) && Count(es, p) == |es| && 1 <= n && n + |es| == 5 && FreshAt(u, p, tok, n)
    ensures FreshAt(v, p, tok, 5) && Good(v)
    decreases |es|
  {
    if es == [] {
    } else {
      CountIsAtMost(es[1..], p);
      assert Knows(u, p);
      FreshGoesOn(u, p, tok, es[0].e, n);
      EventKeepsGood(u, es[0]);
      FreshEvolves(After(u, es[0]), es[1..], v, p, tok, n + 1);
    }
  }

  lemma {:induction false} CountIsAtMost(es: seq<Event>, p: Pid)
    ensures Count(es, p) <= |es|
  {
    if es == [] {
    } else {
      CountIsAtMost(es[1..], p);
    }
  }

  lemma FreshStarts(s: State, p: Pid, e: Env)
    requires Inv(s) && Enabled(s, p, e) && e.ok && s.procs[p].pc == Slot(TryMkdir) && !s.fs.dir
    ensures FreshAt(Act(s, p, e), p, s.procs[p].tok, 1)
  {
  }

  lemma FreshEvolvesFrom(s: State, es: seq<Event>, u: State, p: Pid)
    requires Good(s) && Evolves(s, es, u) && Succeeds(es, p) && |es| == Count(es, p) == 5
    requires Alive(s, p) && s.procs[p].pc == Slot(TryMkdir) && !s.fs.dir
    ensures FreshAt(u, p, s.procs[p].tok, 5) && Good(u)
  {
    CountIsAtMost(es[1..], p);
    FreshStarts(s, p, es[0].e);
    EventKeepsGood(s, es[0]);
    FreshEvolves(After(s, es[0]), es[1..], u, p, s.procs[p].tok, 1);
  }

  /**
   A fresh slot. From every state of every run: a process that finds no directory and makes its
   five calls undisturbed and successfully owns the slot with its own complete claim.
   */
  lemma FreshOwns(states: seq<State>, events: seq<Event>, es: seq<Event>, u: State, p: Pid)
    requires Run(states, events) && Evolves(states[|events|], es, u) && Succeeds(es, p) && |es| == Count(es, p) == 5
    requires Alive(states[|events|], p) && states[|events|].procs[p].pc == Slot(TryMkdir) && !states[|events|].fs.dir
    ensures Alive(u, p) && u.procs[p].pc == Owner(Held) && u.procs[p].tok == states[|events|].procs[p].tok
    ensures Carries(u.fs, u.procs[p].tok) && Read(u.fs, Claim).value.who == p && LockFile in u.fs.names
  {
    ReachedIsGood(states, events);
    FreshEvolvesFrom(states[|events|], es, u, p);
    assert Knows(u, p);
  }
}
