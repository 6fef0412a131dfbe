/** The guest supervisor and its two output pumps as steps that may interleave in any
    order: a pump reads, reserves from the shared budget under its lock, and then emits;
    the supervisor handles controls, stops, waits for the pumps, and reports. */
module GuestOutput {

  datatype Stream = Stdout | Stderr

  datatype Ending = Open | Ended

  /** A pump is waiting to read, holds bytes that it has reserved, or has returned. */
  datatype Pump = Reading | Holding(size: nat, ending: Ending) | Returned

  datatype Event = Output(stream: Stream, size: nat) | Terminal(confirmed: bool)

  /** Before the pumps are started, while they may run, after the wait for them, and after
      the terminal frame. */
  datatype Phase = Preparing | Running | Waited(drained: bool) | Reported

  datatype Limits = Limits(output: int, stdin: int)

  datatype Guest = Guest(
    remaining: int, stdout: Pump, stderr: Pump, stdinBytes: nat, stdinClosed: bool, phase: Phase, events: seq<Event>)

  datatype Step =
    | Start
    | Read(stream: Stream, count: nat, ending: Ending)
    | Emit(stream: Stream, failed: bool)
    | Stdin(size: nat, written: nat)
    | CloseStdin
    | Wait(timedOut: bool)
    | Abandon(cleaned: bool)
    | Report(cleaned: bool)

  function PumpOf(g: Guest, stream: Stream): Pump { if stream.Stdout? then g.stdout else g.stderr }

  function WithPump(g: Guest, stream: Stream, p: Pump): Guest {
    if stream.Stdout? then g.(stdout := p) else g.(stderr := p)
  }

  predicate BothReturned(g: Guest) { g.stdout.Returned? && g.stderr.Returned? }

  function Initial(limits: Limits): Guest { Guest(limits.output, Returned, Returned, 0, false, Preparing, []) }

  /** The pumps outlive the supervisor's loop: they may read and emit in any later phase. */
  predicate Enabled(limits: Limits, g: Guest, step: Step) {
    match step
    case Start => g.phase.Preparing?
    case Read(stream, _, _) => !g.phase.Preparing? && PumpOf(g, stream).Reading?
    case Emit(stream, _) => !g.phase.Preparing? && PumpOf(g, stream).Holding?
    case Stdin(size, written) =>
        g.phase.Running? && !g.stdinClosed && size <= limits.stdin - g.stdinBytes && written <= size
    case CloseStdin => g.phase.Running? && !g.stdinClosed
    case Wait(timedOut) => g.phase.Running? && (!timedOut ==> BothReturned(g))
    case Abandon(_) => g.phase.Preparing?
    case Report(_) => g.phase.Waited?
  }

  function Next(g: Guest, step: Step): Guest {
    match step
    case Start => g.(phase := Running, stdout := Reading, stderr := Reading)
    case Read(stream, count, ending) =>
      if count == 0 then (if ending.Ended? then WithPump(g, stream, Returned) else g)
      else if count > g.remaining then WithPump(g, stream, Returned)
      else WithPump(g, stream, Holding(count, ending)).(remaining := g.remaining - count)
    case Emit(stream, failed) =>
      var p := PumpOf(g, stream);
      if !p.Holding? then g
      else WithPump(g, stream, if failed || p.ending.Ended? then Returned
          else Reading).(events := g.events + [Output(stream, p.size)])
    case Stdin(_, written) => g.(stdinBytes := g.stdinBytes + written)
    case CloseStdin => g.(stdinClosed := true)
    case Wait(timedOut) => g.(phase := Waited(!timedOut))
    case Abandon(cleaned) => g.(phase := Reported, events := g.events + [Terminal(cleaned)])
    case Report(cleaned) =>
        g.(phase := Reported, events := g.events + [Terminal(g.phase.Waited? && g.phase.drained && cleaned)])
  }

  function After(g: Guest, steps: seq<Step>): Guest {
    if steps == [] then g else Next(After(g, steps[..|steps| - 1]), steps[|steps| - 1])
  }

  predicate Schedule(limits: Limits, g: Guest, steps: seq<Step>) {
    steps == [] ||
    (Schedule(limits, g, steps[..|steps| - 1]) && Enabled(limits, After(g, steps[..|steps| - 1]), steps[|steps| - 1]))
  }

  // ------------------------------------------------------------------------ invariant

  function Held(p: Pump): nat { if p.Holding? then p.size else 0 }

  function Emitted(events: seq<Event>): nat {
    if events == [] then 0
    else Emitted(events[..|events| - 1]) + (match events[|events| - 1] case Output(_, n) => n case Terminal(_) => 0)
  }

  predicate IsTerminal(e: Event) { e.Terminal? }

  /** Reserved bytes are either emitted, or held by a pump, or still in the budget. */
  predicate Balanced(limits: Limits, g: Guest) {
    && Emitted(g.events) + Held(g.stdout) + Held(g.stderr) + g.remaining == limits.output
    && (limits.output >= 0 ==> g.remaining >= 0)
    && (limits.output < 0 ==> g.remaining == limits.output && Emitted(g.events) == 0)
  }

  predicate Fed(limits: Limits, g: Guest) {
    (limits.stdin >= 0 ==> g.stdinBytes <= limits.stdin) && (limits.stdin < 0 ==> g.stdinBytes == 0)
  }

  /** A terminal frame appears only in the reported phase, once; if it confirms the clean-up
      then it is the last frame and the pumps have returned. */
  predicate Ordered(g: Guest) {
    && (!g.phase.Reported? ==> forall i | 0 <= i < |g.events| :: g.events[i].Output?)
    && (g.phase.Preparing? || (g.phase.Waited? && g.phase.drained) ==> BothReturned(g))
    && (forall i, j | 0 <= i < j < |g.events| :: !(g.events[i].Terminal? && g.events[j].Terminal?))
    && (forall i | 0 <= i < |g.events| && g.events[i] == Terminal(true) :: i == |g.events| - 1 && BothReturned(g))
    && (g.phase.Reported? ==> exists i :: 0 <= i < |g.events| && IsTerminal(g.events[i]))
  }

  predicate Safe(limits: Limits, g: Guest) {
    Balanced(limits, g) && Ordered(g) && Fed(limits, g)
  }

  lemma EmittedMore(events: seq<Event>, e: Event)
    ensures Emitted(events + [e]) == Emitted(events) + (match e case Output(_, n) => n case Terminal(_) => 0)
  {}

  lemma ReadBalanced(limits: Limits, g: Guest, stream: Stream, count: nat, ending: Ending)
    requires Balanced(limits, g) && PumpOf(g, stream).Reading?
    ensures Balanced(limits, Next(g, Read(stream, count, ending)))
  {}

  lemma EmitBalanced(limits: Limits, g: Guest, stream: Stream, failed: bool)
    requires Balanced(limits, g) && PumpOf(g, stream).Holding?
    ensures Balanced(limits, Next(g, Emit(stream, failed)))
  {
    EmittedMore(g.events, Output(stream, PumpOf(g, stream).size));
  }

  lemma TerminalBalanced(limits: Limits, g: Guest, confirmed: bool)
    requires Balanced(limits, g)
    ensures Balanced(limits, g.(phase := Reported, events := g.events + [Terminal(confirmed)]))
  {
    EmittedMore(g.events, Terminal(confirmed));
  }

  lemma StepBalanced(limits: Limits, g: Guest, step: Step)
    requires Balanced(limits, g) && Enabled(limits, g, step) && (g.phase.Preparing? ==> BothReturned(g))
    ensures Balanced(limits, Next(g, step))
  {
    match step
    case Read(stream, count, ending) => ReadBalanced(limits, g, stream, count, ending);
    case Emit(stream, failed) => EmitBalanced(limits, g, stream, failed);
    case Abandon(cleaned) => TerminalBalanced(limits, g, cleaned);
    case Report(cleaned) => TerminalBalanced(limits, g, g.phase.drained && cleaned);
    case _ =>
  }

  lemma StepFed(limits: Limits, g: Guest, step: Step)
    requires Fed(limits, g) && Enabled(limits, g, step)
    ensures Fed(limits, Next(g, step))
  {}

  lemma EmitOrdered(g: Guest, stream: Stream, failed: bool)
    requires Ordered(g) && !g.phase.Preparing? && PumpOf(g, stream).Holding?
    ensures Ordered(Next(g, Emit(stream, failed)))
  {
    var h := Next(g, Emit(stream, failed));
    assert forall i | 0 <= i < |g.events| :: h.events[i] == g.events[i];
    if g.phase.Reported? {
      var i :| 0 <= i < |g.events| && IsTerminal(g.events[i]);
      assert IsTerminal(h.events[i]);
    }
  }

  lemma TerminalOrdered(g: Guest, confirmed: bool)
    requires Ordered(g) && !g.phase.Reported? && (confirmed ==> BothReturned(g))
    ensures Ordered(g.(phase := Reported, events := g.events + [Terminal(confirmed)]))
  {
    assert IsTerminal((g.events + [Terminal(confirmed)])[|g.events|]);
  }

  lemma ReadOrdered(g: Guest, stream: Stream, count: nat, ending: Ending)
    requires Ordered(g) && !g.phase.Preparing? && PumpOf(g, stream).Reading?
    ensures Ordered(Next(g, Read(stream, count, ending)))
  {}

  lemma StepOrdered(limits: Limits, g: Guest, step: Step)
    requires Ordered(g) && Enabled(limits, g, step)
    ensures Ordered(Next(g, step))
  {
    match step
    case Read(stream, count, ending) => ReadOrdered(g, stream, count, ending);
    case Emit(stream, failed) => EmitOrdered(g, stream, failed);
    case Abandon(cleaned) => TerminalOrdered(g, cleaned);
    case Report(cleaned) => TerminalOrdered(g, g.phase.drained && cleaned);
    case _ =>
  }

  lemma StepSafe(limits: Limits, g: Guest, step: Step)
    requires Safe(limits, g) && Enabled(limits, g, step)
    ensures Safe(limits, Next(g, step))
  {
    StepBalanced(limits, g, step);
    StepOrdered(limits, g, step);
    StepFed(limits, g, step);
  }

  /** Under every schedule the budgets hold and the frames are in order. */
  lemma {:induction false} ScheduleSafe(limits: Limits, steps: seq<Step>)
    requires Schedule(limits, Initial(limits), steps)
    ensures Safe(limits, After(Initial(limits), steps))
    decreases |steps|
  {
    if steps != [] {
      var front, last := steps[..|steps| - 1], steps[|steps| - 1];
      ScheduleSafe(limits, front);
      StepSafe(limits, After(Initial(limits), front), last);
    }
  }

  /** Whatever the interleaving: the two streams together emit no more than the budget,
      standard input never exceeds its limit, at most one terminal frame is sent, and no
      output follows one that confirms the clean-up. */
  lemma GuestIsSafe(limits: Limits, steps: seq<Step>)
    requires Schedule(limits, Initial(limits), steps)
    ensures var g := After(Initial(limits), steps);
            && (limits.output >= 0 ==> Emitted(g.events) <= limits.output)
            && (limits.output < 0 ==> Emitted(g.events) == 0)
            && (limits.stdin >= 0 ==> g.stdinBytes <= limits.stdin) && (limits.stdin < 0 ==> g.stdinBytes == 0)
            && (forall i, j | 0 <= i < j < |g.events| && g.events[i].Terminal? ::
                g.events[j].Output? && g.events[i] == Terminal(false))
  {
    ScheduleSafe(limits, steps);
  }

  // ---------------------------------------------------------------- the shared budget

  /** The shared budget, taken from under its lock. */
  class OutputBudget {
    var remaining: int

    constructor (limit: int)
      ensures remaining == limit
    {
      remaining := limit;
    }

    method Reserve(size: nat) returns (ok: bool)
      modifies this
      ensures ok == (size <= old(remaining))
      ensures remaining == if ok then old(remaining) - size else old(remaining)
    {
      ok := size <= remaining;
      if ok { remaining := remaining - size; }
    }
  }

  /** What a pump does with one read: a read step of the schedule, in which the budget of
      the model is the shared one. So after every safe schedule the step is safe too. */
  method PumpRead(limits: Limits, budget: OutputBudget, g: Guest, stream: Stream, count: nat, ending: Ending)
    returns (h: Guest)
    requires Safe(limits, g) && budget.remaining == g.remaining && Enabled(limits, g, Read(stream, count, ending))
    modifies budget
    ensures h == Next(g, Read(stream, count, ending)) && Safe(limits, h)
    ensures budget.remaining == h.remaining
  {
    StepSafe(limits, g, Read(stream, count, ending));
    h := g;
    if count > 0 {
      var reserved := budget.Reserve(count);
      if !reserved { return WithPump(g, stream, Returned); }
      h := WithPump(g, stream, Holding(count, ending)).(remaining := budget.remaining);
    } else if ending.Ended? {
      h := WithPump(g, stream, Returned);
    }
  }
}
