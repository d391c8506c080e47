/**
 The process-run event emitter, `internal/processrun/emitter.go`. The emitter is guarded by
 a mutex, but `fireWithholdLocked` gives the mutex up while it runs the owner's callback.
 `State` is everything the mutex guards together with the stream file; an `Event` is one
 critical section of any goroutine, the callback itself, or taking the mutex again.
 */
module Emitter {
  import opened Text

  datatype Kind = Started | Progress | Heartbeat | Terminal(name: string)

  /** One written line; a terminal line carries the artifacts published so far. */
  datatype Line = Line(num: nat, kind: Kind, artifacts: seq<string>)

  /** What remains to be done by the goroutine that is in the gap. */
  datatype Rest = AfterDisable | AfterClose

  datatype Gap = NoGap | Calling(rest: Rest) | Called(rest: Rest)

  /**
   The stream file: its whole lines, whether a part of a line follows them, and whether it
   is there. `kept` records that a removal failed and left it in place.
   */
  datatype Stream = Stream(lines: seq<Line>, torn: bool, there: bool, kept: bool)

  /** The emitter's own fields; `open`: its writer is not nil. */
  datatype Flags = Flags(num: nat, started: bool, terminal: bool, disabled: bool, open: bool, closing: bool, artifacts: seq<string>)

  /** The withhold callback; `armed`: it is not nil yet. `calls` counts its runs. */
  datatype Hook = Hook(armed: bool, fired: bool, gap: Gap, calls: nat, calledOnFile: bool)

  /** `owned`: the emitter removes its file when it gives up. `hooked`: it was given a callback. */
  datatype State = State(owned: bool, hooked: bool, flags: Flags, hook: Hook, stream: Stream)

  // ---- the environment

  /** A write that fails may leave nothing, part of the line, or all of it. */
  datatype Wrote = Whole | Nothing | Part | WholeWithError

  datatype Io = Io(wrote: Wrote, removed: bool, flushed: bool)

  datatype Op = Start | Note(done: nat) | Beat(done: nat) | Publish(id: string, valid: bool) | Finish(name: string) | Close

  datatype Event = Call(op: Op, io: Io) | Callback | Relock

  // ---- the critical sections

  function New(owned: bool, hooked: bool): State {
    State(owned, hooked, Flags(0, false, false, false, true, false, []), Hook(hooked, false, NoGap, 0, false), Stream([], false, true, false))
  }

  function Spoiled(f: Stream, line: Line, wrote: Wrote): Stream {
    match wrote
    case Part => f.(torn := true)
    case WholeWithError => f.(lines := f.lines + [line])
    case _ => f
  }

  /** os.Remove of the owned path; its error is ignored. */
  function Unlinked(f: Stream, removed: bool): Stream {
    if removed then f.(there := false) else f.(kept := true)
  }

  /** What a goroutine still does after the callback. */
  function Resumed(g: Flags, rest: Rest): Flags {
    if rest == AfterClose then g.(terminal := false, disabled := true) else g
  }

  predicate Fires(h: Hook) { !h.fired && h.armed }

  function FireWithhold(s: State, rest: Rest): State {
    if Fires(s.hook) then s.(hook := s.hook.(fired := true, armed := false, gap := Calling(rest)))
    else s.(flags := Resumed(s.flags, rest))
  }

  function Disable(s: State, io: Io): State {
    if s.flags.disabled then s
    else
      var g := s.flags.(disabled := true, open := false);
      if s.owned && !s.flags.terminal then FireWithhold(s.(flags := g, stream := Unlinked(s.stream, io.removed)), AfterDisable)
      else s.(flags := g)
  }

  function NextLine(g: Flags, kind: Kind): Line {
    Line(g.num, kind, if kind.Terminal? then g.artifacts else [])
  }

  predicate Writes(s: State, io: Io) { s.flags.open && !s.flags.disabled && io.wrote == Whole }

  function Write(s: State, kind: Kind, io: Io): State {
    if !s.flags.open || s.flags.disabled then s
    else if io.wrote == Whole then
      s.(stream := s.stream.(lines := s.stream.lines + [NextLine(s.flags, kind)]), flags := s.flags.(num := s.flags.num + 1))
    else Disable(s.(stream := Spoiled(s.stream, NextLine(s.flags, kind), io.wrote)), io)
  }

  function Closed(s: State, io: Io): State {
    var g := s.flags;
    if g.closing then s
    else if !g.open then s.(flags := g.(closing := true, disabled := true))
    else if g.disabled then s.(flags := g.(closing := true, open := false))
    else if io.flushed then s.(flags := g.(closing := true, open := false, disabled := true))
    else if s.owned then
      FireWithhold(s.(flags := g.(closing := true, open := false), stream := Unlinked(s.stream, io.removed)), AfterClose)
    else s.(flags := Resumed(g.(closing := true, open := false), AfterClose))
  }

  /** Refused: a call on an emitter that is disabled or has ended. */
  predicate Over(s: State) { s.flags.disabled || s.flags.terminal }

  function MarkStarted(s: State, ok: bool): State { s.(flags := s.flags.(started := ok)) }

  function MarkTerminal(s: State, ok: bool): State { s.(flags := s.flags.(terminal := ok)) }

  function Entered(s: State, op: Op, io: Io): State {
    match op
    case Start => if Over(s) || s.flags.started then s else MarkStarted(Write(s, Started, io), Writes(s, io))
    case Note(_) => if Over(s) || !s.flags.started then s else Write(s, Progress, io)
    case Beat(_) => if Over(s) || !s.flags.started then s else Write(s, Heartbeat, io)
    case Publish(id, valid) =>
      if Over(s) || !valid || Trim(id) in s.flags.artifacts then s else s.(flags := s.flags.(artifacts := s.flags.artifacts + [Trim(id)]))
    case Finish(name) => if Over(s) || !s.flags.started then s else MarkTerminal(Write(s, Terminal(name), io), Writes(s, io))
    case Close => Closed(s, io)
  }

  predicate Possible(s: State, e: Event) {
    match e
    case Call(op, io) => true
    case Callback => s.hook.gap.Calling?
    case Relock => s.hook.gap.Called?
  }

  function After(s: State, e: Event): State
    requires Possible(s, e)
  {
    match e
    case Call(op, io) => Entered(s, op, io)
    case Callback =>
      s.(hook := s.hook.(gap := Called(s.hook.gap.rest), calls := s.hook.calls + 1, calledOnFile := s.hook.calledOnFile || s.stream.there))
    case Relock => s.(hook := s.hook.(gap := NoGap), flags := Resumed(s.flags, s.hook.gap.rest))
  }

  predicate Run(s: State, es: seq<Event>, t: State)
    decreases |es|
  {
    if es == [] then s == t
    else Possible(s, es[0]) && Run(After(s, es[0]), es[1..], t)
  }

  // ---- what every run keeps

  /** Whole lines numbered 0, 1, 2, ... that begin with "started" and end with at most one terminal line. */
  predicate Sound(lines: seq<Line>) {
    && (forall i :: 0 <= i < |lines| ==> lines[i].num == i && (lines[i].kind == Started <==> i == 0))
    && (forall i :: 0 <= i < |lines| && lines[i].kind.Terminal? ==> i == |lines| - 1)
  }

  predicate Ended(lines: seq<Line>) { lines != [] && lines[|lines| - 1].kind.Terminal? }

  predicate DistinctIds(ids: seq<string>) { forall i, j :: 0 <= i < j < |ids| ==> ids[i] != ids[j] }

  /** While the writer is open the fields describe the stream. */
  predicate Live(s: State) {
    && s.stream.there && !s.stream.torn && !s.stream.kept && !s.flags.disabled && !s.hook.fired && !s.flags.closing
    && s.flags.num == |s.stream.lines|
    && (s.flags.started <==> s.stream.lines != [])
    && (s.flags.terminal <==> Ended(s.stream.lines))
  }

  /** Afterwards nothing can write: the emitter is disabled, or Close is in the gap. */
  predicate Retired(s: State) {
    s.flags.disabled || s.hook.gap == Calling(AfterClose) || s.hook.gap == Called(AfterClose)
  }

  /** The owner is told exactly when the file was to be removed. */
  predicate Told(s: State) {
    && (s.hook.armed <==> s.hooked && !s.hook.fired)
    && (s.hook.fired <==> s.hooked && (!s.stream.there || s.stream.kept))
    && (s.hook.gap != NoGap ==> s.hook.fired)
    && s.hook.calls == (if s.hook.fired && !s.hook.gap.Calling? then 1 else 0)
    && (s.hook.calledOnFile <==> s.hook.calls == 1 && s.stream.kept)
  }

  predicate Inv(s: State) {
    && Sound(s.stream.lines) && DistinctIds(s.flags.artifacts) && Told(s)
    && (if s.flags.open then Live(s) else Retired(s))
    && (s.owned && s.stream.there && s.stream.torn ==> s.stream.kept)
    && (!s.stream.there || s.stream.kept ==> s.owned)
    && (s.stream.kept ==> s.stream.there)
  }

  lemma SoundAppend(s: State, kind: Kind)
    requires Inv(s) && s.flags.open && !s.flags.terminal && (kind == Started <==> !s.flags.started)
    ensures Sound(s.stream.lines + [NextLine(s.flags, kind)])
    ensures Ended(s.stream.lines + [NextLine(s.flags, kind)]) <==> kind.Terminal?
  {
    var lines := s.stream.lines;
    assert forall i :: 0 <= i < |lines| && lines[i].kind.Terminal? ==> i == |lines| - 1 && Ended(lines);
  }

  /** The state after a write, with the flag its caller sets. */
  function Noted(kind: Kind, t: State, ok: bool): State {
    if kind == Started then MarkStarted(t, ok) else if kind.Terminal? then MarkTerminal(t, ok) else t
  }

  lemma LineKeepsInv(s: State, kind: Kind, io: Io)
    requires Inv(s) && s.flags.open && !s.flags.terminal && (kind == Started <==> !s.flags.started) && io.wrote == Whole
    ensures Inv(Noted(kind, Write(s, kind, io), true))
  {
    SoundAppend(s, kind);
  }

  lemma FailedWriteKeepsInv(s: State, kind: Kind, io: Io)
    requires Inv(s) && s.flags.open && !s.flags.terminal && (kind == Started <==> !s.flags.started) && io.wrote != Whole
    ensures Inv(Noted(kind, Write(s, kind, io), false))
  {
    SoundAppend(s, kind);
    var f := Spoiled(s.stream, NextLine(s.flags, kind), io.wrote);
    assert Sound(f.lines) && f.there && !f.kept;
  }

  lemma WriteKeepsInv(s: State, kind: Kind, io: Io)
    requires Inv(s) && !s.flags.terminal && (kind == Started <==> !s.flags.started)
    ensures Inv(Noted(kind, Write(s, kind, io), Writes(s, io)))
  {
    if s.flags.open {
      if io.wrote == Whole { LineKeepsInv(s, kind, io); } else { FailedWriteKeepsInv(s, kind, io); }
    }
  }

  lemma CloseKeepsInv(s: State, io: Io)
    requires Inv(s)
    ensures Inv(Closed(s, io))
  {
  }

  lemma StepKeepsInv(s: State, e: Event)
    requires Inv(s) && Possible(s, e)
    ensures Inv(After(s, e))
  {
    if e.Call? && !Over(s) {
      match e.op
      case Start => if !s.flags.started { WriteKeepsInv(s, Started, e.io); }
      case Note(_) => if s.flags.started { WriteKeepsInv(s, Progress, e.io); }
      case Beat(_) => if s.flags.started { WriteKeepsInv(s, Heartbeat, e.io); }
      case Finish(name) => if s.flags.started { WriteKeepsInv(s, Terminal(name), e.io); }
      case Publish(_, _) =>
      case Close => CloseKeepsInv(s, e.io);
    } else if e.Call? {
      CloseKeepsInv(s, e.io);
    }
  }

  predicate Appends(s: State, t: State) { s.stream.lines <= t.stream.lines && t.owned == s.owned && t.hooked == s.hooked }

  lemma WriteAppends(s: State, kind: Kind, io: Io)
    ensures Appends(s, Write(s, kind, io))
  {
    var f := Spoiled(s.stream, NextLine(s.flags, kind), io.wrote);
    assert s.stream.lines <= f.lines;
    assert Disable(s.(stream := f), io).stream.lines == f.lines;
  }

  lemma CloseAppends(s: State, io: Io)
    ensures Appends(s, Closed(s, io))
  {
    assert Closed(s, io).stream.lines == s.stream.lines;
  }

  /** No step takes back or changes a written line. */
  lemma StepAppends(s: State, e: Event)
    requires Possible(s, e)
    ensures Appends(s, After(s, e))
  {
    if e.Call? {
      match e.op
      case Start => WriteAppends(s, Started, e.io);
      case Note(_) => WriteAppends(s, Progress, e.io);
      case Beat(_) => WriteAppends(s, Heartbeat, e.io);
      case Finish(name) => WriteAppends(s, Terminal(name), e.io);
      case Publish(_, _) =>
      case Close => CloseAppends(s, e.io);
    }
  }

  lemma {:induction false} RunKeepsInv(s: State, es: seq<Event>, t: State)
    requires Inv(s) && Run(s, es, t)
    ensures Inv(t) && Appends(s, t)
    decreases |es|
  {
    if es == [] {
    } else {
      StepKeepsInv(s, es[0]);
      StepAppends(s, es[0]);
      RunKeepsInv(After(s, es[0]), es[1..], t);
    }
  }

  // ---- the promises

  /**
   Over every interleaving of calls, callbacks and gaps: the stream is lines numbered from 0
   that start with "started" and hold at most one terminal event, with nothing after it; an
   owned stream that is retained has no partial line unless its removal failed.
   */
  lemma RetainedStreamIsWhole(owned: bool, hooked: bool, es: seq<Event>, t: State)
    requires Run(New(owned, hooked), es, t)
    ensures Sound(t.stream.lines)
    ensures owned && t.stream.there && !t.stream.kept ==> !t.stream.torn
  {
    RunKeepsInv(New(owned, hooked), es, t);
  }

  /** Once a terminal line is written the stream never changes again. */
  lemma NothingAfterTerminal(owned: bool, hooked: bool, es: seq<Event>, s: State, more: seq<Event>, t: State)
    requires Run(New(owned, hooked), es, s) && Ended(s.stream.lines) && Run(s, more, t)
    ensures t.stream.lines == s.stream.lines
  {
    RunKeepsInv(New(owned, hooked), es, s);
    RunKeepsInv(s, more, t);
    var k := |s.stream.lines| - 1;
    assert t.stream.lines[k].kind.Terminal?;
  }

  /**
   The callback runs at most once, only after the removal of the file was tried, and then
   with the file still there exactly if that removal failed. When no goroutine is in the gap it has
   run exactly if a removal was tried.
   */
  lemma WithholdFiresOnceAfterRemoval(owned: bool, hooked: bool, es: seq<Event>, t: State)
    requires Run(New(owned, hooked), es, t)
    ensures t.hook.calls <= 1
    ensures t.hook.calls == 1 ==> hooked && owned && (!t.stream.there || t.stream.kept)
    ensures t.hook.calledOnFile <==> t.hook.calls == 1 && t.stream.kept
    ensures t.hook.gap == NoGap && hooked ==> (t.hook.calls == 1 <==> !t.stream.there || t.stream.kept)
  {
    RunKeepsInv(New(owned, hooked), es, t);
  }

  /** os.Remove's error is ignored, so a removal that fails retains a partial line and still tells the owner. */
  lemma FailedRemovalRetainsPartialLine()
    ensures exists es, t :: Run(New(true, true), es, t) && t.stream.there && t.stream.torn && t.hook.calledOnFile
  {
    var s0 := New(true, true);
    var e0, e1 := Call(Start, Io(Part, false, true)), Callback;
    var s1 := After(s0, e0);
    var s2 := After(s1, e1);
    assert [e0, e1][1..] == [e1] && [e1][1..] == [];
    assert Run(s2, [], s2) && Run(s1, [e1], s2);
    assert Run(s0, [e0, e1], s2);
  }

  /** After Close has returned nothing is open and every call is ignored but for further Close calls. */
  lemma ClosedIsFinal(owned: bool, hooked: bool, es: seq<Event>, s: State, op: Op, io: Io)
    requires Run(New(owned, hooked), es, s) && s.flags.closing && s.hook.gap == NoGap
    ensures !s.flags.open && Entered(s, op, io) == s
  {
    RunKeepsInv(New(owned, hooked), es, s);
  }

  // ---- what each call does, by the calls before it

  /** The identifiers of the valid references published in these events, trimmed, in order. */
  function Ids(es: seq<Event>): seq<string> {
    if es == [] then []
    else
      var e := es[|es| - 1];
      Ids(es[..|es| - 1]) + if Publishing(e) then [Trim(e.op.id)] else []
  }

  /** Each once, at its first occurrence. */
  function Firsts(ids: seq<string>): seq<string> {
    if ids == [] then []
    else
      var f, id := Firsts(ids[..|ids| - 1]), ids[|ids| - 1];
      if id in f then f else f + [id]
  }

  /** `Firsts` holds the same identifiers, each once, and grows with the list: so they stand in order of first occurrence. */
  lemma {:induction false} FirstsHold(ids: seq<string>, k: nat)
    requires k <= |ids|
    ensures DistinctIds(Firsts(ids)) && (forall id :: id in Firsts(ids) <==> id in ids) && Firsts(ids[..k]) <= Firsts(ids)
    decreases |ids|
  {
    if ids == [] {
    } else {
      var m := |ids| - 1;
      FirstsHold(ids[..m], if k <= m then k else m);
      assert ids == ids[..m] + [ids[m]];
      if k <= m { assert ids[..m][..k] == ids[..k]; } else { assert ids[..k] == ids; }
    }
  }

  /** Neither disabled nor ended. */
  predicate Working(s: State) { s.flags.open && !s.flags.terminal }

  /** An emitter that works has worked all along. */
  lemma WorkedBefore(s: State, e: Event)
    requires Inv(s) && Possible(s, e) && Working(After(s, e))
    ensures Working(s)
  {
    StepKeepsInv(s, e);
  }

  lemma {:induction false} RunSplits(s: State, es: seq<Event>, t: State) returns (u: State)
    requires Run(s, es, t) && es != []
    ensures Run(s, es[..|es| - 1], u) && Possible(u, es[|es| - 1]) && After(u, es[|es| - 1]) == t
    decreases |es|
  {
    if |es| == 1 {
      u := s;
    } else {
      u := RunSplits(After(s, es[0]), es[1..], t);
      assert es[1..][..|es| - 2] == es[..|es| - 1][1..];
    }
  }

  /** In every run: while the emitter works, its artifacts are exactly the valid references published so far. */
  lemma {:induction false} ArtifactsArePublished(owned: bool, hooked: bool, es: seq<Event>, s: State)
    requires Run(New(owned, hooked), es, s) && Working(s)
    ensures s.flags.artifacts == Firsts(Ids(es))
    decreases |es|
  {
    if es == [] {
    } else {
      var m := |es| - 1;
      var u := RunSplits(New(owned, hooked), es, s);
      RunKeepsInv(New(owned, hooked), es[..m], u);
      WorkedBefore(u, es[m]);
      ArtifactsArePublished(owned, hooked, es[..m], u);
      PublishAdds(u, es[m], Ids(es[..m]));
    }
  }

  predicate Publishing(e: Event) { e.Call? && e.op.Publish? && e.op.valid }

  lemma WriteKeepsArtifacts(s: State, kind: Kind, io: Io)
    ensures Write(s, kind, io).flags.artifacts == s.flags.artifacts
  {
  }

  /** Nothing but a valid reference changes the artifacts. */
  lemma OthersKeepArtifacts(u: State, e: Event)
    requires Possible(u, e) && !Publishing(e)
    ensures After(u, e).flags.artifacts == u.flags.artifacts
  {
    if e.Call? {
      match e.op
      case Start => WriteKeepsArtifacts(u, Started, e.io);
      case Note(_) => WriteKeepsArtifacts(u, Progress, e.io);
      case Beat(_) => WriteKeepsArtifacts(u, Heartbeat, e.io);
      case Finish(name) => WriteKeepsArtifacts(u, Terminal(name), e.io);
      case _ =>
    }
  }

  lemma PublishAdds(u: State, e: Event, ids: seq<string>)
    requires Possible(u, e) && Live(u) && !u.flags.terminal && u.flags.artifacts == Firsts(ids)
    ensures After(u, e).flags.artifacts == Firsts(ids + if Publishing(e) then [Trim(e.op.id)] else [])
  {
    if Publishing(e) {
      var more := ids + [Trim(e.op.id)];
      assert more[..|more| - 1] == ids;
    } else {
      OthersKeepArtifacts(u, e);
      assert ids + [] == ids;
    }
  }

  /** A whole write of a live emitter appends its line. */
  lemma WholeWrite(s: State, kind: Kind, io: Io)
    requires Live(s) && s.flags.open && !s.flags.terminal && io.wrote == Whole
    ensures var t := Write(s, kind, io);
      && t.stream.lines == s.stream.lines + [Line(|s.stream.lines|, kind, if kind.Terminal? then s.flags.artifacts else [])]
      && t.stream.there == s.stream.there && t.hook == s.hook && t.flags == s.flags.(num := s.flags.num + 1)
  {
  }

  /**
   In every run, with the emitter working and the write whole: Started writes the first line;
   once started, Progress, Heartbeat and a terminal event each append one line of their kind
   with the next number, the terminal one with the references published so far. The emitter
   works on, but for the terminal event. Before Started nothing else is written.
   */
  lemma CallsWrite(owned: bool, hooked: bool, es: seq<Event>, s: State, done: nat, name: string, io: Io)
    requires Run(New(owned, hooked), es, s) && Working(s) && io.wrote == Whole
    ensures var t := Entered(s, Start, io);
      Working(t) && t.flags.started && t.stream.lines == if s.stream.lines == [] then [Line(0, Started, [])] else s.stream.lines
    ensures var t := Entered(s, Note(done), io); Working(t) && t.stream.lines == Continued(s, Progress, [])
    ensures var t := Entered(s, Beat(done), io); Working(t) && t.stream.lines == Continued(s, Heartbeat, [])
    ensures var t := Entered(s, Finish(name), io);
      t.stream.lines == Continued(s, Terminal(name), Firsts(Ids(es))) && (t.flags.terminal <==> s.stream.lines != [])
  {
    RunKeepsInv(New(owned, hooked), es, s);
    ArtifactsArePublished(owned, hooked, es, s);
    assert Live(s);
    LiveCallsWrite(s, done, name, io);
  }

  lemma LiveCallsWrite(s: State, done: nat, name: string, io: Io)
    requires Live(s) && Working(s) && io.wrote == Whole
    ensures var t := Entered(s, Start, io);
      Working(t) && t.flags.started && t.stream.lines == if s.stream.lines == [] then [Line(0, Started, [])] else s.stream.lines
    ensures var t := Entered(s, Note(done), io); Working(t) && t.stream.lines == Continued(s, Progress, [])
    ensures var t := Entered(s, Beat(done), io); Working(t) && t.stream.lines == Continued(s, Heartbeat, [])
    ensures var t := Entered(s, Finish(name), io);
      t.stream.lines == Continued(s, Terminal(name), s.flags.artifacts) && (t.flags.terminal <==> s.stream.lines != [])
  {
    WholeWrite(s, Started, io);
    WholeWrite(s, Progress, io);
    WholeWrite(s, Heartbeat, io);
    WholeWrite(s, Terminal(name), io);
  }

  /** One more line, once there is a first one. */
  function Continued(s: State, kind: Kind, artifacts: seq<string>): seq<Line> {
    if s.stream.lines == [] then [] else s.stream.lines + [Line(|s.stream.lines|, kind, artifacts)]
  }

  /** The call would write a line now. */
  predicate Accepted(s: State, op: Op) {
    Working(s) && (op.Start? <==> s.stream.lines == []) && (op.Start? || op.Note? || op.Beat? || op.Finish?)
  }

  /** In every run: a write that is not whole ends the emitter and removes an owned stream; any other call it would not accept, but Close and Publish, changes nothing. */
  lemma FailedWriteEnds(owned: bool, hooked: bool, es: seq<Event>, s: State, op: Op, io: Io)
    requires Run(New(owned, hooked), es, s) && !op.Close? && !op.Publish?
    ensures Accepted(s, op) && io.wrote != Whole ==>
      var t := Entered(s, op, io);
      !t.flags.open && t.flags.disabled && !t.flags.terminal && (owned ==> (t.stream.there <==> !io.removed)) && (!owned ==> t.stream.there)
    ensures !Accepted(s, op) ==> Entered(s, op, io) == s
  {
    RunKeepsInv(New(owned, hooked), es, s);
  }

  /** In every run: Close ends an open emitter; it keeps the stream if it could be flushed, and removes an owned one otherwise. */
  lemma CloseEnds(owned: bool, hooked: bool, es: seq<Event>, s: State, io: Io)
    requires Run(New(owned, hooked), es, s) && s.flags.open
    ensures var t := Entered(s, Close, io);
      && !t.flags.open && t.flags.closing && t.stream.lines == s.stream.lines
      && (io.flushed || !owned ==> t.stream == s.stream && t.flags.disabled)
      && (!io.flushed && owned ==> (t.stream.there <==> !io.removed) && (t.flags.disabled || t.hook.gap == Calling(AfterClose)))
  {
    RunKeepsInv(New(owned, hooked), es, s);
  }

  /** A terminal event and a clean Close: the stream stays, whole and ended, with every published reference, and no one is told otherwise. */
  lemma CleanEndIsRetained(owned: bool, hooked: bool, es: seq<Event>, s: State, name: string, io: Io, closeIo: Io)
    requires Run(New(owned, hooked), es, s) && Working(s) && s.flags.started && io.wrote == Whole && closeIo.flushed
    ensures var t := Entered(Entered(s, Finish(name), io), Close, closeIo);
      t.stream.there && Ended(t.stream.lines) && t.stream.lines == s.stream.lines + [Line(|s.stream.lines|, Terminal(name), Firsts(Ids(es)))] && t.hook.calls == 0
    ensures s.flags.artifacts == Firsts(Ids(es)) && DistinctIds(s.flags.artifacts)
  {
    RunKeepsInv(New(owned, hooked), es, s);
    ArtifactsArePublished(owned, hooked, es, s);
    assert Live(s) && s.hook.calls == 0;
    WholeWrite(s, Terminal(name), io);
    LiveCallsWrite(s, 0, name, io);
    CleanClose(Entered(s, Finish(name), io), closeIo);
  }

  lemma CleanClose(s: State, io: Io)
    requires s.flags.open && !s.flags.disabled && !s.flags.closing && io.flushed
    ensures Closed(s, io).stream == s.stream && Closed(s, io).hook == s.hook
  {
  }

  // ---- the emitter

  class FileEmitter {
    const owned: bool
    ghost const hooked: bool
    var w: bool
    var onWithhold: bool
    var withholdFired: bool
    var num: nat
    var disabled: bool
    var terminal: bool
    var started: bool
    var artifacts: seq<string>
    var closing: bool
    var gap: Gap
    var stream: Stream
    ghost var calls: nat
    ghost var calledOnFile: bool

    ghost function Snapshot(): State reads this {
      State(owned, hooked, Flags(num, started, terminal, disabled, w, closing, artifacts),
            Hook(onWithhold, withholdFired, gap, calls, calledOnFile), stream)
    }

    constructor (owned: bool, hook: bool)
      ensures Snapshot() == New(owned, hook)
    {
      this.owned, hooked, w, onWithhold, withholdFired, num := owned, hook, true, hook, false, 0;
      disabled, terminal, started, artifacts, closing, gap := false, false, false, [], false, NoGap;
      stream, calls, calledOnFile := Stream([], false, true, false), 0, false;
    }

    /** fireWithholdLocked up to the point where the mutex is given up; `gap` keeps what is left to do. */
    method FireWithholdLocked(rest: Rest)
      modifies this
      ensures Snapshot() == FireWithhold(old(Snapshot()), rest)
    {
      if withholdFired || !onWithhold {
        FinishLocked(rest);
        return;
      }
      withholdFired := true;
      onWithhold := false;
      gap := Calling(rest);
    }

    method FinishLocked(rest: Rest)
      modifies this
      ensures Snapshot() == old(Snapshot()).(flags := Resumed(old(Snapshot()).flags, rest))
    {
      if rest == AfterClose {
        terminal := false;
        disabled := true;
      }
    }

    method RunCallback()
      requires gap.Calling?
      modifies this
      ensures Snapshot() == After(old(Snapshot()), Callback)
    {
      calls := calls + 1;
      calledOnFile := calledOnFile || stream.there;
      gap := Called(gap.rest);
    }

    method TakeMutexAgain()
      requires gap.Called?
      modifies this
      ensures Snapshot() == After(old(Snapshot()), Relock)
    {
      var rest := gap.rest;
      gap := NoGap;
      FinishLocked(rest);
    }

    method DisableLocked(io: Io)
      modifies this
      ensures Snapshot() == Disable(old(Snapshot()), io)
    {
      if disabled { return; }
      disabled := true;
      w := false;
      if owned && !terminal {
        stream := Unlinked(stream, io.removed);
        FireWithholdLocked(AfterDisable);
      }
    }

    method WriteLocked(kind: Kind, io: Io) returns (ok: bool)
      modifies this
      ensures Snapshot() == Write(old(Snapshot()), kind, io) && ok == Writes(old(Snapshot()), io)
    {
      if !w || disabled { return false; }
      var line := Line(num, kind, if kind.Terminal? then artifacts else []);
      if io.wrote != Whole {
        stream := Spoiled(stream, line, io.wrote);
        DisableLocked(io);
        return false;
      }
      stream := stream.(lines := stream.lines + [line]);
      num := num + 1;
      return true;
    }

    method Started(io: Io)
      modifies this
      ensures Snapshot() == Entered(old(Snapshot()), Start, io)
    {
      if disabled || terminal || started { return; }
      var ok := WriteLocked(Kind.Started, io);
      if !ok { return; }
      started := true;
    }

    method Progress(done: nat, io: Io)
      modifies this
      ensures Snapshot() == Entered(old(Snapshot()), Note(done), io)
    {
      if disabled || terminal || !started { return; }
      var _ := WriteLocked(Kind.Progress, io);
    }

    method Heartbeat(done: nat, io: Io)
      modifies this
      ensures Snapshot() == Entered(old(Snapshot()), Beat(done), io)
    {
      if disabled || terminal || !started { return; }
      var _ := WriteLocked(Kind.Heartbeat, io);
    }

    method ArtifactPublished(id: string, valid: bool, io: Io)
      modifies this
      ensures Snapshot() == Entered(old(Snapshot()), Publish(id, valid), io)
    {
      if disabled || terminal || !valid { return; }
      var ref := Trim(id);
      for i := 0 to |artifacts|
        invariant ref !in artifacts[..i]
      {
        if artifacts[i] == ref { return; }
      }
      assert artifacts[..|artifacts|] == artifacts;
      artifacts := artifacts + [ref];
    }

    method TerminalLocked(name: string, io: Io)
      modifies this
      ensures Snapshot() == Entered(old(Snapshot()), Finish(name), io)
    {
      if disabled || terminal { return; }
      if !started { return; }
      var ok := WriteLocked(Terminal(name), io);
      if ok { terminal := true; }
    }

    method Close(io: Io)
      modifies this
      ensures Snapshot() == Entered(old(Snapshot()), Op.Close, io)
    {
      if closing { return; }
      closing := true;
      if !w {
        disabled := true;
        return;
      }
      if disabled {
        w := false;
        return;
      }
      w := false;
      if !io.flushed {
        if owned {
          stream := Unlinked(stream, io.removed);
          FireWithholdLocked(AfterClose);
          return;
        }
        terminal := false;
      }
      disabled := true;
    }
  }
}
