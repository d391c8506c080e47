/**
 The run-global staging budget, `internal/uriio/staging_budget.go`, and the bounded S3
 acquisition of `internal/uriio/session.go` that must give every reservation back. Any
 number of acquisitions run at once; a step is one critical section of the budget or one
 effect of an acquisition on its staged file. Provider calls may return anything.
 */
module Staging {

  function Max0(n: int): nat { if n < 0 then 0 else n }

  // ---- the budget

  /** A cap that is not positive is no cap. */
  datatype Caps = Caps(maxBytes: int, maxFiles: int, objectMax: int)

  datatype Budget = Budget(usedBytes: int, usedFiles: int, peakBytes: int, peakFiles: int,
                           acquiredBytes: int, acquiredCount: int, cleanupFailures: int, admitBlocked: bool)

  datatype Verdict = TooLarge | Cancelled | Refused | Admitted | Wait

  const EMPTY := Budget(0, 0, 0, 0, 0, 0, 0, false)

  predicate Fits(c: Caps, b: Budget, size: nat) {
    (c.maxFiles <= 0 || b.usedFiles < c.maxFiles) && (c.maxBytes <= 0 || b.usedBytes + size <= c.maxBytes)
  }

  predicate Oversized(c: Caps, size: nat) {
    (c.objectMax > 0 && size > c.objectMax) || (c.maxBytes > 0 && size > c.maxBytes)
  }

  /** One turn of Admit's loop. */
  function Decide(c: Caps, b: Budget, size: nat, cancelled: bool): Verdict {
    if Oversized(c, size) then TooLarge
    else if cancelled then Cancelled
    else if b.admitBlocked then Refused
    else if Fits(c, b, size) then Admitted
    else Wait
  }

  function Larger(a: int, b: int): int { if a > b then a else b }

  function Reserve(b: Budget, size: nat): Budget {
    b.(usedFiles := b.usedFiles + 1, usedBytes := b.usedBytes + size,
       acquiredCount := b.acquiredCount + 1, acquiredBytes := b.acquiredBytes + size,
       peakFiles := Larger(b.usedFiles + 1, b.peakFiles), peakBytes := Larger(b.usedBytes + size, b.peakBytes))
  }

  function Free(b: Budget, size: nat): Budget {
    b.(usedFiles := Larger(b.usedFiles - 1, 0), usedBytes := Larger(b.usedBytes - size, 0))
  }

  function Block(b: Budget): Budget { b.(cleanupFailures := b.cleanupFailures + 1, admitBlocked := true) }

  class StagingBudget {
    const caps: Caps
    var usedBytes: int
    var usedFiles: int
    var peakBytes: int
    var peakFiles: int
    var acquiredBytes: int
    var acquiredCount: int
    var cleanupFailures: int
    var admitBlocked: bool

    function Value(): Budget reads this {
      Budget(usedBytes, usedFiles, peakBytes, peakFiles, acquiredBytes, acquiredCount, cleanupFailures, admitBlocked)
    }

    constructor (caps: Caps)
      ensures this.caps == caps && Value() == EMPTY
    {
      this.caps := caps;
      usedBytes, usedFiles, peakBytes, peakFiles := 0, 0, 0, 0;
      acquiredBytes, acquiredCount, cleanupFailures, admitBlocked := 0, 0, 0, false;
    }

    /** Admit up to the point where it returns or waits for a broadcast. */
    method Admit(asked: int, cancelled: bool) returns (v: Verdict)
      modifies this
      ensures v == Decide(caps, old(Value()), Max0(asked), cancelled)
      ensures Value() == if v == Admitted then Reserve(old(Value()), Max0(asked)) else old(Value())
    {
      var size := asked;
      if size < 0 { size := 0; }
      if caps.objectMax > 0 && size > caps.objectMax { return TooLarge; }
      if caps.maxBytes > 0 && size > caps.maxBytes { return TooLarge; }
      if cancelled { return Cancelled; }
      if admitBlocked { return Refused; }
      var filesOK := caps.maxFiles <= 0 || usedFiles < caps.maxFiles;
      var bytesOK := caps.maxBytes <= 0 || usedBytes + size <= caps.maxBytes;
      if filesOK && bytesOK {
        usedFiles := usedFiles + 1;
        usedBytes := usedBytes + size;
        acquiredCount := acquiredCount + 1;
        acquiredBytes := acquiredBytes + size;
        if usedFiles > peakFiles { peakFiles := usedFiles; }
        if usedBytes > peakBytes { peakBytes := usedBytes; }
        return Admitted;
      }
      return Wait;
    }

    method Release(asked: int)
      modifies this
      ensures Value() == Free(old(Value()), Max0(asked))
    {
      var size := asked;
      if size < 0 { size := 0; }
      usedFiles := usedFiles - 1;
      if usedFiles < 0 { usedFiles := 0; }
      usedBytes := usedBytes - size;
      if usedBytes < 0 { usedBytes := 0; }
    }

    method NoteCleanupFailure()
      modifies this
      ensures Value() == Block(old(Value()))
    {
      cleanupFailures := cleanupFailures + 1;
      admitBlocked := true;
    }
  }

  // ---- the acquisitions

  /**
   Where an acquisition is. `Dropping`: the staged file is about to be removed after a
   failure, an attempt whose error is ignored. `Staged`: returned to the caller, who has
   not cleaned up. `Noting`: cleanup could not remove the file. `Stuck`: and has said so.
   */
  datatype Point = Idle | Asking | Held | Writing | Written | Dropping | Releasing | Staged | Noting | Stuck | Over

  /** `bytes` is the length of its staged file, 0 when there is none; `leaked`: a file it failed to remove but gave back. */
  datatype Acq = Acq(point: Point, size: int, bytes: nat, leaked: bool, admits: nat, releases: nat)

  datatype World = World(caps: Caps, budget: Budget, acqs: seq<Acq>)

  datatype Step =
    | Head(size: int, pass: bool)
    | AdmitTurn(cancelled: bool)
    | Get(ok: bool)
    | Copy(n: nat)
    | CopyEnd(ok: bool)
    | Check(statOk: bool)
    | Drop(removed: bool)
    | GiveBack
    | Cleanup(removed: bool)
    | Note

  const NEW := Acq(Idle, 0, 0, false, 0, 0)

  predicate CanStep(a: Acq, st: Step) {
    match st
    case Head(_, _) => a.point == Idle
    case AdmitTurn(_) => a.point == Asking
    case Get(_) => a.point == Held
    case Copy(n) => a.point == Writing && a.bytes + n <= Max0(a.size + 1)
    case CopyEnd(_) => a.point == Writing
    case Check(_) => a.point == Written
    case Drop(_) => a.point == Dropping
    case GiveBack => a.point == Releasing
    case Cleanup(_) => a.point == Staged
    case Note => a.point == Noting
  }

  /** The acquisition after a step; `v` is Admit's answer. */
  function Moved(a: Acq, st: Step, v: Verdict): Acq
    requires CanStep(a, st)
  {
    match st
    case Head(size, pass) => a.(size := size, point := if pass then Asking else Over)
    case AdmitTurn(_) =>
      if v == Admitted then a.(point := Held, admits := a.admits + 1)
      else if v == Wait then a
      else a.(point := Over)
    case Get(ok) => a.(point := if ok then Writing else Releasing)   // also when creating the file fails
    case Copy(n) => a.(bytes := a.bytes + n)
    case CopyEnd(ok) => a.(point := if ok then Written else Dropping)
    case Check(statOk) => a.(point := if statOk && a.bytes <= a.size then Staged else Dropping)
    case Drop(removed) => if removed then a.(point := Releasing, bytes := 0) else a.(point := Releasing, leaked := a.bytes > 0)
    case GiveBack => a.(point := Over, releases := a.releases + 1)
    case Cleanup(removed) => if removed then a.(point := Releasing, bytes := 0) else a.(point := Noting)
    case Note => a.(point := Stuck)
  }

  function Answer(c: Caps, b: Budget, a: Acq, st: Step): Verdict {
    match st
    case AdmitTurn(cancelled) => Decide(c, b, Max0(a.size), cancelled)
    case _ => Wait
  }

  function Charged(b: Budget, a: Acq, st: Step, v: Verdict): Budget {
    match st
    case AdmitTurn(_) => if v == Admitted then Reserve(b, Max0(a.size)) else b
    case GiveBack => Free(b, Max0(a.size))
    case Note => Block(b)
    case _ => b
  }

  datatype Event = Begin | Do(who: nat, step: Step)

  predicate Possible(w: World, e: Event) {
    e.Do? ==> e.who < |w.acqs| && CanStep(w.acqs[e.who], e.step)
  }

  function After(w: World, e: Event): World
    requires Possible(w, e)
  {
    match e
    case Begin => w.(acqs := w.acqs + [NEW])
    case Do(i, st) =>
      var v := Answer(w.caps, w.budget, w.acqs[i], st);
      w.(budget := Charged(w.budget, w.acqs[i], st, v), acqs := w.acqs[i := Moved(w.acqs[i], st, v)])
  }

  predicate Run(w: World, es: seq<Event>, u: World)
    decreases |es|
  {
    if es == [] then w == u else Possible(w, es[0]) && Run(After(w, es[0]), es[1..], u)
  }

  function Start(c: Caps): World { World(c, EMPTY, []) }

  // ---- accounting

  /** A reservation is outstanding. */
  predicate Holds(a: Acq) { a.admits > a.releases }

  predicate InFlight(a: Acq) { a.point in {Writing, Written, Dropping} }

  function HeldFiles(a: Acq): nat { if Holds(a) then 1 else 0 }
  function HeldBytes(a: Acq): nat { if Holds(a) then Max0(a.size) else 0 }
  function Flying(a: Acq): nat { if InFlight(a) then 1 else 0 }
  function Leak(a: Acq): nat { if a.leaked then a.bytes else 0 }
  function Admits(a: Acq): nat { a.admits }
  function AdmittedBytes(a: Acq): nat { if a.admits > 0 then Max0(a.size) else 0 }
  function Failures(a: Acq): nat { if a.point == Stuck then 1 else 0 }

  function Total(all: seq<Acq>, f: Acq -> nat): nat {
    if all == [] then 0 else Total(all[..|all| - 1], f) + f(all[|all| - 1])
  }

  lemma {:induction false} TotalUpdate(all: seq<Acq>, f: Acq -> nat, i: nat, a: Acq)
    requires i < |all|
    ensures Total(all[i := a], f) == Total(all, f) - f(all[i]) + f(a)
    ensures f(all[i]) <= Total(all, f)
    decreases |all|
  {
    var m := |all| - 1;
    if i < m {
      TotalUpdate(all[..m], f, i, a);
      assert all[i := a][..m] == all[..m][i := a];
    } else {
      assert all[i := a][..m] == all[..m];
    }
  }

  lemma TotalPush(all: seq<Acq>, f: Acq -> nat, a: Acq)
    ensures Total(all + [a], f) == Total(all, f) + f(a)
  {
    assert (all + [a])[..|all|] == all;
  }

  /** What one acquisition owes and has on disk. */
  predicate Proper(a: Acq) {
    && a.releases <= a.admits <= 1
    && (Holds(a) <==> a.point in {Held, Writing, Written, Dropping, Releasing, Staged, Noting, Stuck})
    && (a.point in {Idle, Asking} ==> a.admits == 0)
    && (a.point in {Idle, Asking, Held} || (a.point in {Releasing, Over} && !a.leaked) ==> a.bytes == 0)
    && (InFlight(a) ==> a.bytes <= Max0(a.size) + 1)
    && (!InFlight(a) && !a.leaked ==> a.bytes <= HeldBytes(a))
    && (a.leaked ==> a.point in {Releasing, Over})
  }

  predicate AllProper(acqs: seq<Acq>) { forall i :: 0 <= i < |acqs| ==> Proper(acqs[i]) }

  predicate Within(c: Caps, b: Budget) {
    && (c.maxFiles > 0 ==> b.peakFiles <= c.maxFiles) && (c.maxBytes > 0 ==> b.peakBytes <= c.maxBytes)
    && b.usedFiles <= b.peakFiles && b.usedBytes <= b.peakBytes
  }

  predicate Inv(w: World) {
    && AllProper(w.acqs) && Within(w.caps, w.budget) && Tallied(w.budget, w.acqs)
    && w.budget.usedFiles == Total(w.acqs, HeldFiles)
    && w.budget.usedBytes == Total(w.acqs, HeldBytes)
  }

  /** The statistics count every admission and every failed cleanup. */
  predicate Tallied(b: Budget, acqs: seq<Acq>) {
    && b.acquiredCount == Total(acqs, Admits) && b.acquiredBytes == Total(acqs, AdmittedBytes)
    && b.cleanupFailures == Total(acqs, Failures) && (b.admitBlocked <==> b.cleanupFailures > 0)
  }

  lemma MovedIsProper(a: Acq, st: Step, v: Verdict)
    requires CanStep(a, st) && Proper(a)
    ensures Proper(Moved(a, st, v))
  {
  }

  /** What a step does to the budget is what it does to the acquisition's reservation. */
  lemma ChargeMatches(c: Caps, b: Budget, a: Acq, st: Step, v: Verdict)
    requires CanStep(a, st) && Proper(a) && v == Answer(c, b, a, st) && Within(c, b)
    requires b.usedFiles >= HeldFiles(a) && b.usedBytes >= HeldBytes(a)
    ensures Charged(b, a, st, v).usedFiles == b.usedFiles - HeldFiles(a) + HeldFiles(Moved(a, st, v))
    ensures Charged(b, a, st, v).usedBytes == b.usedBytes - HeldBytes(a) + HeldBytes(Moved(a, st, v))
    ensures Within(c, Charged(b, a, st, v))
  {
  }

  /** What a step adds to the statistics is what it adds to the acquisition. */
  lemma TallyMatches(b: Budget, a: Acq, st: Step, v: Verdict)
    requires CanStep(a, st) && Proper(a)
    ensures var t, m := Charged(b, a, st, v), Moved(a, st, v);
      && t.acquiredCount - b.acquiredCount == m.admits - a.admits
      && t.acquiredBytes - b.acquiredBytes == AdmittedBytes(m) - AdmittedBytes(a)
      && t.cleanupFailures - b.cleanupFailures == Failures(m) - Failures(a)
      && (t.admitBlocked <==> b.admitBlocked || t.cleanupFailures > b.cleanupFailures) && t.cleanupFailures >= b.cleanupFailures
  {
  }

  lemma TallyKept(w: World, e: Event)
    requires Possible(w, e) && Tallied(w.budget, w.acqs) && AllProper(w.acqs)
    ensures Tallied(After(w, e).budget, After(w, e).acqs)
  {
    match e
    case Begin =>
      TotalPush(w.acqs, Admits, NEW);
      TotalPush(w.acqs, AdmittedBytes, NEW);
      TotalPush(w.acqs, Failures, NEW);
    case Do(i, st) =>
      var v := Answer(w.caps, w.budget, w.acqs[i], st);
      var m := Moved(w.acqs[i], st, v);
      assert Proper(w.acqs[i]);
      TallyMatches(w.budget, w.acqs[i], st, v);
      TotalUpdate(w.acqs, Admits, i, m);
      TotalUpdate(w.acqs, AdmittedBytes, i, m);
      TotalUpdate(w.acqs, Failures, i, m);
  }

  lemma StepKeepsInv(w: World, e: Event)
    requires Inv(w) && Possible(w, e)
    ensures Inv(After(w, e))
  {
    TallyKept(w, e);
    match e
    case Begin =>
      TotalPush(w.acqs, HeldFiles, NEW);
      TotalPush(w.acqs, HeldBytes, NEW);
    case Do(i, st) =>
      var a := w.acqs[i];
      var v := Answer(w.caps, w.budget, a, st);
      var m := Moved(a, st, v);
      assert Proper(a);
      MovedIsProper(a, st, v);
      TotalUpdate(w.acqs, HeldFiles, i, m);
      TotalUpdate(w.acqs, HeldBytes, i, m);
      ChargeMatches(w.caps, w.budget, a, st, v);
      assert AllProper(w.acqs[i := m]);
  }

  lemma {:induction false} RunKeepsInv(w: World, es: seq<Event>, u: World)
    requires Inv(w) && Run(w, es, u)
    ensures Inv(u) && u.caps == w.caps
    decreases |es|
  {
    if es == [] {
    } else {
      StepKeepsInv(w, es[0]);
      RunKeepsInv(After(w, es[0]), es[1..], u);
    }
  }

  // ---- the promises

  /** Used bytes and files are exactly the outstanding reservations and stay within the caps, and so do the peaks. */
  lemma StagingIsBounded(c: Caps, es: seq<Event>, w: World)
    requires Run(Start(c), es, w)
    ensures w.budget.usedFiles == Total(w.acqs, HeldFiles) && w.budget.usedBytes == Total(w.acqs, HeldBytes)
    ensures c.maxFiles > 0 ==> w.budget.usedFiles <= w.budget.peakFiles <= c.maxFiles
    ensures c.maxBytes > 0 ==> w.budget.usedBytes <= w.budget.peakBytes <= c.maxBytes
  {
    RunKeepsInv(Start(c), es, w);
  }

  /** The reported totals are exact, and admission is blocked exactly once some cleanup has failed. */
  lemma StatisticsAreExact(c: Caps, es: seq<Event>, w: World)
    requires Run(Start(c), es, w)
    ensures w.budget.acquiredCount == Total(w.acqs, Admits) && w.budget.acquiredBytes == Total(w.acqs, AdmittedBytes)
    ensures w.budget.cleanupFailures == Total(w.acqs, Failures) && (w.budget.admitBlocked <==> Total(w.acqs, Failures) > 0)
  {
    RunKeepsInv(Start(c), es, w);
  }

  /** Release never has to clamp: what it subtracts is there. */
  lemma ClampsNeverFire(c: Caps, es: seq<Event>, w: World, i: nat)
    requires Run(Start(c), es, w) && i < |w.acqs| && w.acqs[i].point == Releasing
    ensures w.budget.usedFiles >= 1 && w.budget.usedBytes >= Max0(w.acqs[i].size)
    ensures var u := After(w, Do(i, GiveBack));
      u.budget.usedFiles == w.budget.usedFiles - 1 && u.budget.usedBytes == w.budget.usedBytes - Max0(w.acqs[i].size)
  {
    RunKeepsInv(Start(c), es, w);
    TotalUpdate(w.acqs, HeldFiles, i, NEW);
    TotalUpdate(w.acqs, HeldBytes, i, NEW);
    assert HeldFiles(w.acqs[i]) == 1;
  }

  /** An acquisition that is over gave its reservation back exactly once; one whose cleanup failed keeps it. */
  lemma EachAdmissionIsReleasedOnce(c: Caps, es: seq<Event>, w: World, i: nat)
    requires Run(Start(c), es, w) && i < |w.acqs|
    ensures w.acqs[i].releases <= w.acqs[i].admits <= 1
    ensures w.acqs[i].point == Over ==> w.acqs[i].releases == w.acqs[i].admits
    ensures w.acqs[i].point == Stuck ==> w.acqs[i].releases == 0 && w.acqs[i].admits == 1
  {
    RunKeepsInv(Start(c), es, w);
    assert Proper(w.acqs[i]);
  }

  /** An object of this size may be staged at all. */
  predicate Allowed(c: Caps, size: int) {
    (c.objectMax > 0 ==> size <= c.objectMax) && (c.maxBytes > 0 ==> size <= c.maxBytes)
  }

  predicate AllAllowed(w: World) { forall i :: 0 <= i < |w.acqs| && w.acqs[i].admits > 0 ==> Allowed(w.caps, w.acqs[i].size) }

  lemma {:induction false} RunKeepsAllowed(w: World, es: seq<Event>, u: World)
    requires Inv(w) && AllAllowed(w) && Run(w, es, u)
    ensures AllAllowed(u)
    decreases |es|
  {
    if es == [] {
    } else {
      StepKeepsInv(w, es[0]);
      var v := After(w, es[0]);
      forall i | 0 <= i < |v.acqs| && v.acqs[i].admits > 0
        ensures Allowed(v.caps, v.acqs[i].size)
      {
        assert i < |w.acqs| ==> Proper(w.acqs[i]);
      }
      RunKeepsAllowed(v, es[1..], u);
    }
  }

  /** In every run, whatever was admitted was within the limit for one object and within the byte cap. */
  lemma AdmittedIsAllowed(c: Caps, es: seq<Event>, w: World, i: nat)
    requires Run(Start(c), es, w) && i < |w.acqs| && w.acqs[i].admits > 0
    ensures Allowed(c, w.acqs[i].size)
  {
    RunKeepsInv(Start(c), es, w);
    RunKeepsAllowed(Start(c), es, w);
  }

  /** Every turn of acquisition `i` at the budget comes after its context was cancelled. */
  predicate AlwaysCancelled(es: seq<Event>, i: nat) {
    forall k :: 0 <= k < |es| && es[k].Do? && es[k].who == i && es[k].step.AdmitTurn? ==> es[k].step.cancelled
  }

  lemma {:induction false} RunStaysUnadmitted(w: World, es: seq<Event>, u: World, i: nat)
    requires Run(w, es, u) && AlwaysCancelled(es, i) && (i < |w.acqs| ==> w.acqs[i].admits == 0)
    ensures i < |u.acqs| ==> u.acqs[i].admits == 0
    decreases |es|
  {
    if es == [] {
    } else {
      assert es[0].Do? && es[0].who == i && es[0].step.AdmitTurn? ==> es[0].step.cancelled;
      assert AlwaysCancelled(es[1..], i) by {
        assert forall k :: 0 <= k < |es| - 1 ==> es[1..][k] == es[k + 1];
      }
      RunStaysUnadmitted(After(w, es[0]), es[1..], u, i);
    }
  }

  /** A cancelled acquisition is never admitted. */
  lemma CancelledIsNotAdmitted(c: Caps, es: seq<Event>, w: World, i: nat)
    requires Run(Start(c), es, w) && i < |w.acqs| && AlwaysCancelled(es, i)
    ensures w.acqs[i].admits == 0
  {
    RunStaysUnadmitted(Start(c), es, w, i);
  }

  /** What a turn at the budget comes to, by the reservations outstanding and the cleanups that failed. */
  lemma TurnAdmitsIff(c: Caps, es: seq<Event>, w: World, i: nat, cancelled: bool)
    requires Run(Start(c), es, w) && i < |w.acqs| && w.acqs[i].point == Asking
    ensures var a := After(w, Do(i, AdmitTurn(cancelled))).acqs[i];
      var size := Max0(w.acqs[i].size);
      var may := !cancelled && Total(w.acqs, Failures) == 0 && Allowed(c, size);
      && (a.point == Over <==> !may)
      && (a.point == Held && a.admits == 1 <==>
            && may && (c.maxFiles > 0 ==> Total(w.acqs, HeldFiles) + 1 <= c.maxFiles)
            && (c.maxBytes > 0 ==> Total(w.acqs, HeldBytes) + size <= c.maxBytes))
      && (a.point != Over && a.point != Held ==> a == w.acqs[i])
  {
    RunKeepsInv(Start(c), es, w);
    assert Proper(w.acqs[i]);
  }

  /** Once a cleanup failure is noted no admission succeeds, whatever is released later. */
  lemma {:induction false} BlockedAdmitsNothing(w: World, es: seq<Event>, u: World)
    requires w.budget.admitBlocked && Run(w, es, u)
    ensures u.budget.admitBlocked && u.budget.acquiredCount == w.budget.acquiredCount && u.budget.acquiredBytes == w.budget.acquiredBytes
    ensures u.budget.usedFiles <= Larger(w.budget.usedFiles, 0) && |w.acqs| <= |u.acqs|
    ensures forall i :: 0 <= i < |w.acqs| ==> u.acqs[i].admits == w.acqs[i].admits
    decreases |es|
  {
    if es == [] {
    } else {
      BlockedAdmitsNothing(After(w, es[0]), es[1..], u);
    }
  }

  /** An object over a cap is refused without ever waiting; one within them waits only while others hold room. */
  lemma WaitsOnlyForOthers(c: Caps, es: seq<Event>, w: World, size: nat)
    requires Run(Start(c), es, w) && Decide(c, w.budget, size, false) == Wait
    ensures exists i :: 0 <= i < |w.acqs| && Holds(w.acqs[i])
  {
    RunKeepsInv(Start(c), es, w);
    if forall i :: 0 <= i < |w.acqs| ==> !Holds(w.acqs[i]) {
      NothingHeld(w.acqs);
      assert false;
    }
  }

  lemma {:induction false} NothingHeld(all: seq<Acq>)
    requires forall i :: 0 <= i < |all| ==> !Holds(all[i])
    ensures Total(all, HeldFiles) == 0 && Total(all, HeldBytes) == 0
    decreases |all|
  {
    if all == [] {
    } else {
      NothingHeld(all[..|all| - 1]);
    }
  }

  lemma {:induction false} RunStaysUnleaked(w: World, es: seq<Event>, u: World, i: nat)
    requires Run(w, es, u) && Do(i, Drop(false)) !in es && (i < |w.acqs| ==> !w.acqs[i].leaked)
    ensures i < |u.acqs| ==> !u.acqs[i].leaked
    decreases |es|
  {
    if es == [] {
    } else {
      assert es == [es[0]] + es[1..];
      RunStaysUnleaked(After(w, es[0]), es[1..], u, i);
    }
  }

  /** A file is leaked only by a removal that failed; an acquisition that is over has otherwise nothing on disk. */
  lemma LeakNeedsFailedRemoval(c: Caps, es: seq<Event>, w: World, i: nat)
    requires Run(Start(c), es, w) && i < |w.acqs| && Do(i, Drop(false)) !in es
    ensures !w.acqs[i].leaked && (w.acqs[i].point == Over ==> w.acqs[i].bytes == 0)
  {
    RunStaysUnleaked(Start(c), es, w, i);
    RunKeepsInv(Start(c), es, w);
    assert Proper(w.acqs[i]);
  }

  function Disk(w: World): nat { Total(w.acqs, (a: Acq) => a.bytes) }

  lemma {:induction false} DiskByAcq(all: seq<Acq>)
    requires AllProper(all)
    ensures Total(all, (a: Acq) => a.bytes) <= Total(all, HeldBytes) + Total(all, Flying) + Total(all, Leak)
    decreases |all|
  {
    if all == [] {
    } else {
      var m := |all| - 1;
      DiskByAcq(all[..m]);
      assert Proper(all[m]);
    }
  }

  lemma {:induction false} NoLeak(all: seq<Acq>)
    requires forall i :: 0 <= i < |all| ==> !all[i].leaked
    ensures Total(all, Leak) == 0
    decreases |all|
  {
    if all == [] {
    } else {
      NoLeak(all[..|all| - 1]);
    }
  }

  /**
   Staged bytes on disk: within the reservations, plus one byte for each write in flight,
   plus the files whose removal failed on an error path.
   */
  lemma DiskIsBounded(c: Caps, es: seq<Event>, w: World)
    requires Run(Start(c), es, w)
    ensures Disk(w) <= w.budget.usedBytes + Total(w.acqs, Flying) + Total(w.acqs, Leak)
    ensures c.maxBytes > 0 && (forall i :: 0 <= i < |w.acqs| ==> !w.acqs[i].leaked) ==> Disk(w) <= c.maxBytes + Total(w.acqs, Flying)
  {
    RunKeepsInv(Start(c), es, w);
    DiskByAcq(w.acqs);
    if forall i :: 0 <= i < |w.acqs| ==> !w.acqs[i].leaked { NoLeak(w.acqs); }
  }

  lemma {:induction false} RunExtends(w: World, es: seq<Event>, u: World, e: Event)
    requires Run(w, es, u) && Possible(u, e)
    ensures Run(w, es + [e], After(u, e))
    decreases |es|
  {
    if es == [] {
      assert Run(After(w, e), [], After(u, e));
      assert (es + [e])[1..] == [];
    } else {
      RunExtends(After(w, es[0]), es[1..], u, e);
      assert (es + [e])[1..] == es[1..] + [e];
    }
  }

  ghost predicate Reachable(c: Caps, w: World) { exists es :: Run(Start(c), es, w) }

  /** A world with one acquisition, and its next step. */
  lemma SoloStep(c: Caps, b: Budget, a: Acq, st: Step)
    requires Reachable(c, World(c, b, [a])) && CanStep(a, st)
    ensures var v := Answer(c, b, a, st); Reachable(c, World(c, Charged(b, a, st, v), [Moved(a, st, v)]))
  {
    var w := World(c, b, [a]);
    var es :| Run(Start(c), es, w);
    RunExtends(Start(c), es, w, Do(0, st));
    assert [a][0 := Moved(a, st, Answer(c, b, a, st))] == [Moved(a, st, Answer(c, b, a, st))];
  }

  lemma SoloStart(c: Caps)
    ensures Reachable(c, World(c, EMPTY, [NEW]))
  {
    RunExtends(Start(c), [], Start(c), Begin);
    assert [] + [NEW] == [NEW];
  }

  /**
   An acquisition alone: an object that is allowed is staged with the bytes that came, and
   cleaning it up gives everything back.
   */
  lemma AloneIsStaged(c: Caps, size: nat, bytes: nat)
    requires Allowed(c, size) && bytes <= size
    ensures exists b :: Reachable(c, World(c, b, [Acq(Staged, size, bytes, false, 1, 0)])) && b.usedBytes == size && b.usedFiles == 1
    ensures exists b :: Reachable(c, World(c, b, [Acq(Over, size, 0, false, 1, 1)])) && b.usedBytes == 0 && b.usedFiles == 0
  {
    var full := Budget(size, 1, size, 1, size, 1, 0, false);
    SoloStart(c);
    SoloStep(c, EMPTY, NEW, Head(size, true));
    SoloStep(c, EMPTY, Acq(Asking, size, 0, false, 0, 0), AdmitTurn(false));
    SoloStep(c, full, Acq(Held, size, 0, false, 1, 0), Get(true));
    SoloStep(c, full, Acq(Writing, size, 0, false, 1, 0), Copy(bytes));
    SoloStep(c, full, Acq(Writing, size, bytes, false, 1, 0), CopyEnd(true));
    SoloStep(c, full, Acq(Written, size, bytes, false, 1, 0), Check(true));
    SoloStep(c, full, Acq(Staged, size, bytes, false, 1, 0), Cleanup(true));
    SoloStep(c, full, Acq(Releasing, size, 0, false, 1, 0), GiveBack);
    assert Reachable(c, World(c, full.(usedFiles := 0, usedBytes := 0), [Acq(Over, size, 0, false, 1, 1)]));
  }

  /** The error of that removal is ignored and the reservation given back, so the bound needs the leak term. */
  lemma FailedRemovalBreaksTheCap()
    ensures exists w :: Reachable(Caps(1, 1, 1), w) && Disk(w) > 1 + Total(w.acqs, Flying)
  {
    var c, full := Caps(1, 1, 1), Budget(1, 1, 1, 1, 1, 1, 0, false);
    SoloStart(c);
    SoloStep(c, EMPTY, NEW, Head(1, true));
    SoloStep(c, EMPTY, Acq(Asking, 1, 0, false, 0, 0), AdmitTurn(false));
    SoloStep(c, full, Acq(Held, 1, 0, false, 1, 0), Get(true));
    SoloStep(c, full, Acq(Writing, 1, 0, false, 1, 0), Copy(2));
    SoloStep(c, full, Acq(Writing, 1, 2, false, 1, 0), CopyEnd(false));
    SoloStep(c, full, Acq(Dropping, 1, 2, false, 1, 0), Drop(false));
    SoloStep(c, full, Acq(Releasing, 1, 2, true, 1, 0), GiveBack);
    var a := Acq(Over, 1, 2, true, 1, 1);
    var w := World(c, full.(usedFiles := 0, usedBytes := 0), [a]);
    TotalPush([], (a: Acq) => a.bytes, a);
    TotalPush([], Flying, a);
    assert [] + [a] == [a];
    assert Reachable(c, w) && Disk(w) == 2;
  }
}
