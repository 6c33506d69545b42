/**
 Admission of external operations on a single device: binding generations and log
 positions fence what may start. There is no queue; an operation runs to its end
 before another is admitted.
 */
module AndroidExecutor {
  import opened Wrappers

  datatype Binding = Binding(targetId: string, bootId: string, generation: nat, capabilities: set<string>)

  datatype Position = Position(topic: string, partition: nat, offset: nat, index: nat)

  datatype Command = Command(
    operationId: string,
    binding: Binding,
    position: Position,
    toolName: string,
    arguments: string,
    replyTopic: string)

  datatype Active = Active(command: Command, aborted: bool)

  datatype Refusal =
    | Stopping
    | Replaced
    | BindingStale
    | BindingChanged
    | BindingClosed
    | SourceChanged
    | InvalidReplyTopic
    | Unavailable
    | OperationChanged
    | PositionStale
    | ToolUnavailable
    | InvalidArguments
    | Busy

  datatype Executor = Executor(
    targetId: string,
    bootId: string,
    binding: Option<Binding>,
    closedBinding: bool,
    position: Option<Position>,
    active: Option<Active>,
    closed: bool)

  /** What the options and the tool catalogue say about a command. */
  datatype Checks = Checks(replyTopicValid: bool, ready: bool, toolAvailable: bool, argumentsValid: bool)

  function Aborted(a: Option<Active>): Option<Active> {
    if a.Some? then Some(a.value.(aborted := true)) else None
  }

  /** A newer generation is adopted even when the caller is refused afterwards. */
  function Adopted(x: Executor, b: Binding): Executor {
    if x.closed || b.targetId != x.targetId || b.bootId != x.bootId then x
    else if x.binding.None? || b.generation > x.binding.value.generation then
      x.(active := Aborted(x.active), binding := Some(b), closedBinding := false, position := None)
    else x
  }

  function Authorization(x: Executor, b: Binding): Option<Refusal> {
    if x.closed then Some(Stopping)
    else if b.targetId != x.targetId || b.bootId != x.bootId then Some(Replaced)
    else if x.binding.None? || b.generation > x.binding.value.generation then None
    else if b.generation < x.binding.value.generation then Some(BindingStale)
    else if b != x.binding.value then Some(BindingChanged)
    else if x.closedBinding then Some(BindingClosed)
    else None
  }

  function After(x: Executor, p: Position): Result<bool, Refusal> {
    if x.position.None? then Success(true)
    else if p.topic != x.position.value.topic || p.partition != x.position.value.partition then Failure(SourceChanged)
    else Success(Later(p, x.position.value))
  }

  predicate Later(p: Position, q: Position) {
    p.offset > q.offset || (p.offset == q.offset && p.index > q.index)
  }

  /** Whether a command starts, is already running, or is refused; `x` has adopted its binding. */
  datatype Verdict = Starts | AlreadyRunning | Refused(reason: Refusal)

  function Judge(x: Executor, c: Command, checks: Checks): Verdict {
    if x.active.Some? && x.active.value.command.operationId == c.operationId then
      if c != x.active.value.command then Refused(OperationChanged) else AlreadyRunning
    else
      var after := After(x, c.position);
      if after.Failure? then Refused(after.error)
      else if !after.value then Refused(PositionStale)
      else if !checks.toolAvailable then Refused(ToolUnavailable)
      else if !checks.argumentsValid then Refused(InvalidArguments)
      else if x.active.Some? then Refused(Busy)
      else Starts
  }

  function SubmitVerdict(x: Executor, c: Command, checks: Checks): Verdict {
    if !checks.replyTopicValid then Refused(InvalidReplyTopic)
    else if !checks.ready then Refused(Unavailable)
    else
      var refusal := Authorization(x, c.binding);
      if refusal.Some? then Refused(refusal.value) else Judge(Adopted(x, c.binding), c, checks)
  }

  function Submitted(x: Executor, c: Command, checks: Checks): Executor {
    if !checks.replyTopicValid || !checks.ready then x
    else
      var y := Adopted(x, c.binding);
      if SubmitVerdict(x, c, checks) == Starts
      then y.(position := Some(c.position), active := Some(Active(c, false)))
      else y
  }

  /** Nothing when the cancellation was observed. */
  function CancelRefusal(x: Executor, b: Binding, p: Position): Option<Refusal> {
    var refusal := Authorization(x, b);
    if refusal.Some? then refusal
    else
      var after := After(Adopted(x, b), p);
      if after.Failure? then Some(after.error) else None
  }

  function Cancelled(x: Executor, b: Binding, p: Position, operationId: string): Executor {
    var y := Adopted(x, b);
    if CancelRefusal(x, b, p).Some? then y
    else
      var z := if After(y, p).value then y.(position := Some(p)) else y;
      if z.active.Some? && z.active.value.command.operationId == operationId
      then z.(active := Aborted(z.active)) else z
  }

  /** Closing is idempotent; only a changed binding or a stopping executor is reported. */
  function CloseRefusal(x: Executor, b: Binding): Option<Refusal> {
    var refusal := Authorization(x, b);
    if refusal.Some? && refusal.value in {Replaced, BindingStale, BindingClosed} then None else refusal
  }

  function BindingClosedBy(x: Executor, b: Binding): Executor {
    if Authorization(x, b).Some? then Adopted(x, b)
    else
      var y := Adopted(x, b);
      y.(closedBinding := true, active := Aborted(y.active))
  }

  // ----- Runs -----

  datatype Mark = Mark(generation: nat, position: Option<Position>, since: nat)

  /** An executor with the commands it started, how many ended, and the fences it acknowledged. */
  datatype History = History(
    executor: Executor,
    started: seq<Command>,
    ended: nat,
    cancels: seq<Mark>,
    closes: seq<Mark>)

  datatype Step =
    | Submit(command: Command, checks: Checks)
    | Cancel(binding: Binding, position: Position, operationId: string)
    | CloseBinding(binding: Binding)
    | Ended
    | Stop

  function Next(h: History, step: Step): History {
    var x := h.executor;
    match step
    case Submit(c, checks) =>
      h.(executor := Submitted(x, c, checks),
         started := if SubmitVerdict(x, c, checks) == Starts then h.started + [c] else h.started)
    case Cancel(b, p, operationId) =>
      h.(executor := Cancelled(x, b, p, operationId),
         cancels := if CancelRefusal(x, b, p).None? then h.cancels + [Mark(b.generation, Some(p), |h.started|)]
                    else h.cancels)
    case CloseBinding(b) =>
      h.(executor := BindingClosedBy(x, b),
         closes := if CloseRefusal(x, b).None? && b.targetId == x.targetId && b.bootId == x.bootId
                   then h.closes + [Mark(b.generation, None, |h.started|)] else h.closes)
    case Ended =>
      if x.active.Some? then h.(executor := x.(active := None), ended := h.ended + 1) else h
    case Stop =>
      h.(executor := x.(closed := true, active := Aborted(x.active)))
  }

  function Run(h: History, steps: seq<Step>): History
    decreases |steps|
  {
    if steps == [] then h else Run(Next(h, steps[0]), steps[1..])
  }

  function Initial(targetId: string, bootId: string): History {
    History(Executor(targetId, bootId, None, false, None, None, false), [], 0, [], [])
  }

  /** The order of (generation, offset, index). */
  predicate Precedes(g: nat, p: Position, c: Command) {
    g < c.binding.generation || (g == c.binding.generation && Later(c.position, p))
  }

  /** The executor has moved past this point: nothing at or before it can start any more. */
  ghost predicate Passed(x: Executor, g: nat, p: Position) {
    x.binding.Some? && (g < x.binding.value.generation
                        || (g == x.binding.value.generation && x.position.Some? && !Later(p, x.position.value)))
  }

  ghost predicate Fenced(x: Executor, g: nat) {
    x.binding.Some? && (g < x.binding.value.generation || (g == x.binding.value.generation && x.closedBinding))
  }

  /** Only an operation of the open binding runs without having been told to stop. */
  ghost predicate LiveIsCurrent(x: Executor) {
    x.active.Some? && !x.active.value.aborted ==>
      !x.closed && !x.closedBinding && x.binding == Some(x.active.value.command.binding)
  }

  ghost predicate Invariant(h: History) {
    && (forall i | 0 <= i < |h.started| :: Passed(h.executor, h.started[i].binding.generation, h.started[i].position))
    && (forall i, j | 0 <= i < j < |h.started| ::
          Precedes(h.started[i].binding.generation, h.started[i].position, h.started[j]))
    && h.ended + (if h.executor.active.Some? then 1 else 0) == |h.started|
    && (h.executor.active.Some? ==> h.executor.active.value.command == h.started[|h.started| - 1])
    && LiveIsCurrent(h.executor)
    && (forall i | 0 <= i < |h.cancels| ::
          h.cancels[i].position.Some? && h.cancels[i].since <= |h.started|
          && Passed(h.executor, h.cancels[i].generation, h.cancels[i].position.value)
          && forall j | h.cancels[i].since <= j < |h.started| ::
               Precedes(h.cancels[i].generation, h.cancels[i].position.value, h.started[j]))
    && (forall i | 0 <= i < |h.closes| ::
          h.closes[i].since <= |h.started| && Fenced(h.executor, h.closes[i].generation)
          && forall j | h.closes[i].since <= j < |h.started| ::
               h.started[j].binding.generation > h.closes[i].generation)
  }

  /** Whatever happens, a point once passed stays passed and a fence once raised stays raised. */
  lemma FencesHold(h: History, step: Step, g: nat, p: Position)
    ensures Passed(h.executor, g, p) ==> Passed(Next(h, step).executor, g, p)
    ensures Fenced(h.executor, g) ==> Fenced(Next(h, step).executor, g)
  {
  }

  /** What starts lies strictly beyond every passed point and every fence. */
  lemma StartIsBeyond(x: Executor, c: Command, checks: Checks, g: nat, p: Position)
    requires SubmitVerdict(x, c, checks) == Starts
    ensures Passed(x, g, p) ==> Precedes(g, p, c)
    ensures Fenced(x, g) ==> c.binding.generation > g
    ensures Passed(Submitted(x, c, checks), c.binding.generation, c.position)
    ensures x.active.None? && Submitted(x, c, checks).active == Some(Active(c, false))
    ensures LiveIsCurrent(Submitted(x, c, checks))
  {
  }

  /** The executor serves this target and boot, and the generation's binding and log are as first seen. */
  ghost predicate Addressed(x: Executor, b: Binding, p: Position) {
    && !x.closed && b.targetId == x.targetId && b.bootId == x.bootId
    && (x.binding.Some? && x.binding.value.generation == b.generation ==>
          && b == x.binding.value
          && (x.position.Some? ==> p.topic == x.position.value.topic && p.partition == x.position.value.partition))
  }

  /**
   A command starts if and only if the options and the catalogue allow it, it is addressed to
   this executor, nothing runs, and neither a fence nor a passed point is in its way.
   */
  lemma StartsIff(x: Executor, c: Command, checks: Checks)
    ensures SubmitVerdict(x, c, checks) == Starts <==>
            && checks.replyTopicValid && checks.ready && checks.toolAvailable && checks.argumentsValid
            && Addressed(x, c.binding, c.position) && x.active.None?
            && !Fenced(x, c.binding.generation) && !Passed(x, c.binding.generation, c.position)
  {
  }

  /** A running command is recognised, at any position, unless its binding was closed or replaced. */
  lemma RepeatIff(x: Executor, c: Command, checks: Checks)
    ensures SubmitVerdict(x, c, checks) == AlreadyRunning <==>
            && checks.replyTopicValid && checks.ready && Authorization(x, c.binding).None?
            && x.active.Some? && x.active.value.command == c
  {
  }

  /** A cancellation is observed if and only if it is addressed to this executor and not fenced. */
  lemma CancelledIff(x: Executor, b: Binding, p: Position)
    ensures CancelRefusal(x, b, p).None? <==> Addressed(x, b, p) && !Fenced(x, b.generation)
  {
  }

  /** It stops the operation that it names and, under the current generation, no other. */
  lemma CancelStopsItsOperation(x: Executor, b: Binding, p: Position, operationId: string)
    requires CancelRefusal(x, b, p).None?
    ensures var y := Cancelled(x, b, p, operationId);
            && Passed(y, b.generation, p)
            && y.active.Some? == x.active.Some?
            && (x.active.Some? ==>
                  && y.active.value.command == x.active.value.command
                  && (x.active.value.command.operationId == operationId ==> y.active.value.aborted)
                  && (x.active.value.command.operationId != operationId && x.binding == Some(b) ==>
                        y.active == x.active))
  {
  }

  lemma LiveStaysCurrent(h: History, step: Step)
    requires LiveIsCurrent(h.executor)
    ensures LiveIsCurrent(Next(h, step).executor)
  {
  }

  lemma FencesGrow(h: History, step: Step)
    ensures forall g, p :: Passed(h.executor, g, p) ==> Passed(Next(h, step).executor, g, p)
    ensures forall g :: Fenced(h.executor, g) ==> Fenced(Next(h, step).executor, g)
  {
    forall g, p ensures Passed(h.executor, g, p) ==> Passed(Next(h, step).executor, g, p) {
      FencesHold(h, step, g, p);
    }
    forall g ensures Fenced(h.executor, g) ==> Fenced(Next(h, step).executor, g) {
      FencesHold(h, step, g, Position("", 0, 0, 0));
    }
  }

  lemma CancelKeepsInvariant(h: History, b: Binding, p: Position, operationId: string)
    requires Invariant(h)
    ensures Invariant(Next(h, Cancel(b, p, operationId)))
  {
    LiveStaysCurrent(h, Cancel(b, p, operationId));
    FencesGrow(h, Cancel(b, p, operationId));
    hide LiveIsCurrent;
  }

  lemma CloseKeepsInvariant(h: History, b: Binding)
    requires Invariant(h)
    ensures Invariant(Next(h, CloseBinding(b)))
  {
    LiveStaysCurrent(h, CloseBinding(b));
    FencesGrow(h, CloseBinding(b));
    hide LiveIsCurrent;
  }

  lemma EndKeepsInvariant(h: History, step: Step)
    requires Invariant(h) && (step.Ended? || step.Stop?)
    ensures Invariant(Next(h, step))
  {
    LiveStaysCurrent(h, step);
    FencesGrow(h, step);
    hide LiveIsCurrent, Passed, Fenced;
  }

  /** A submission that starts nothing still may adopt a newer binding. */
  lemma RefusalKeepsInvariant(h: History, c: Command, checks: Checks)
    requires Invariant(h) && SubmitVerdict(h.executor, c, checks) != Starts
    ensures Invariant(Next(h, Submit(c, checks)))
  {
    LiveStaysCurrent(h, Submit(c, checks));
    FencesGrow(h, Submit(c, checks));
    hide LiveIsCurrent, Passed, Fenced, SubmitVerdict;
  }

  lemma StepKeepsInvariant(h: History, step: Step)
    requires Invariant(h)
    ensures Invariant(Next(h, step))
  {
    match step {
      case Submit(c, checks) =>
        if SubmitVerdict(h.executor, c, checks) == Starts {
          LiveStaysCurrent(h, step);
          FencesGrow(h, step);
          StartKeepsInvariant(h, c, checks);
        } else {
          RefusalKeepsInvariant(h, c, checks);
        }
      case Cancel(b, p, operationId) => CancelKeepsInvariant(h, b, p, operationId);
      case CloseBinding(b) => CloseKeepsInvariant(h, b);
      case _ => EndKeepsInvariant(h, step);
    }
    hide Invariant, Next, SubmitVerdict;
  }

  lemma StartKeepsInvariant(h: History, c: Command, checks: Checks)
    requires Invariant(h) && SubmitVerdict(h.executor, c, checks) == Starts
    requires forall g, p :: Passed(h.executor, g, p) ==> Passed(Next(h, Submit(c, checks)).executor, g, p)
    requires forall g :: Fenced(h.executor, g) ==> Fenced(Next(h, Submit(c, checks)).executor, g)
    ensures Invariant(Next(h, Submit(c, checks)))
  {
    forall g, p
      ensures Passed(h.executor, g, p) ==> Precedes(g, p, c)
    {
      StartIsBeyond(h.executor, c, checks, g, p);
    }
    forall g ensures Fenced(h.executor, g) ==> c.binding.generation > g {
      StartIsBeyond(h.executor, c, checks, g, c.position);
    }
    StartIsBeyond(h.executor, c, checks, 0, c.position);
    hide Passed, Fenced, Precedes, SubmitVerdict, Submitted, LiveIsCurrent;
  }

  lemma {:induction false} RunKeepsInvariant(h: History, steps: seq<Step>)
    requires Invariant(h)
    ensures Invariant(Run(h, steps))
    decreases |steps|
  {
    if steps != [] {
      StepKeepsInvariant(h, steps[0]);
      RunKeepsInvariant(Next(h, steps[0]), steps[1..]);
    }
  }

  /**
   After any run: started commands are strictly ordered by (generation, offset,
   index), so none starts twice; at most one has not ended; nothing at or before an
   observed cancellation started after it; nothing of a closed generation, or an
   older one, started after the close; and what still runs outside the open binding
   has been aborted.
   */
  lemma StartsAreFenced(targetId: string, bootId: string, steps: seq<Step>)
    ensures var h := Run(Initial(targetId, bootId), steps);
            && (forall i, j | 0 <= i < j < |h.started| ::
                  Precedes(h.started[i].binding.generation, h.started[i].position, h.started[j])
                  && h.started[i] != h.started[j])
            && h.ended <= |h.started| <= h.ended + 1
            && (forall i, j | 0 <= i < |h.cancels| && h.cancels[i].since <= j < |h.started| ::
                  h.cancels[i].position.Some?
                  && Precedes(h.cancels[i].generation, h.cancels[i].position.value, h.started[j]))
            && (forall i, j | 0 <= i < |h.closes| && h.closes[i].since <= j < |h.started| ::
                  h.started[j].binding.generation > h.closes[i].generation)
            && LiveIsCurrent(h.executor)
  {
    RunKeepsInvariant(Initial(targetId, bootId), steps);
  }

  // ----- The manager in place -----

  class AndroidExecutionManager {
    const targetId: string
    const bootId: string
    var binding: Option<Binding>
    var closedBinding: bool
    var position: Option<Position>
    var active: Option<Active>
    var closed: bool

    ghost function Contents(): Executor
      reads this
    {
      Executor(targetId, bootId, binding, closedBinding, position, active, closed)
    }

    constructor (targetId: string, bootId: string)
      ensures Contents() == Initial(targetId, bootId).executor
    {
      this.targetId, this.bootId := targetId, bootId;
      binding, closedBinding, position, active, closed := None, false, None, None, false;
    }

    method Abort()
      modifies this`active
      ensures active == Aborted(old(active))
    {
      if active.Some? {
        active := Some(active.value.(aborted := true));
      }
    }

    method Authorize(b: Binding) returns (refusal: Option<Refusal>)
      modifies this
      ensures Contents() == Adopted(old(Contents()), b)
      ensures refusal == Authorization(old(Contents()), b)
    {
      if closed {
        return Some(Stopping);
      }
      if b.targetId != targetId || b.bootId != bootId {
        return Some(Replaced);
      }
      if binding.None? || b.generation > binding.value.generation {
        Abort();
        binding := Some(b);
        closedBinding := false;
        position := None;
      } else if b.generation < binding.value.generation {
        return Some(BindingStale);
      } else if b != binding.value {
        return Some(BindingChanged);
      }
      return if closedBinding then Some(BindingClosed) else None;
    }

    method PositionAfter(p: Position) returns (r: Result<bool, Refusal>)
      ensures r == After(Contents(), p)
    {
      if position.None? {
        return Success(true);
      }
      if p.topic != position.value.topic || p.partition != position.value.partition {
        return Failure(SourceChanged);
      }
      return Success(p.offset > position.value.offset
                     || (p.offset == position.value.offset && p.index > position.value.index));
    }

    /** Accepts a command, or says why not. */
    method Submit(command: Command, checks: Checks) returns (refusal: Option<Refusal>, starts: bool)
      modifies this
      ensures Contents() == Submitted(old(Contents()), command, checks)
      ensures SubmitVerdict(old(Contents()), command, checks)
              == if refusal.Some? then Refused(refusal.value) else if starts then Starts else AlreadyRunning
    {
      starts := false;
      if !checks.replyTopicValid {
        return Some(InvalidReplyTopic), false;
      }
      if !checks.ready {
        return Some(Unavailable), false;
      }
      refusal := Authorize(command.binding);
      if refusal.Some? {
        return;
      }
      if active.Some? && active.value.command.operationId == command.operationId {
        return if command != active.value.command then Some(OperationChanged) else None, false;
      }
      var after := PositionAfter(command.position);
      if after.Failure? {
        return Some(after.error), false;
      }
      if !after.value {
        return Some(PositionStale), false;
      }
      if !checks.toolAvailable {
        return Some(ToolUnavailable), false;
      }
      if !checks.argumentsValid {
        return Some(InvalidArguments), false;
      }
      if active.Some? {
        return Some(Busy), false;
      }
      position := Some(command.position);
      active := Some(Active(command, false));
      return None, true;
    }

    method Cancel(b: Binding, p: Position, operationId: string) returns (refusal: Option<Refusal>)
      modifies this
      ensures Contents() == Cancelled(old(Contents()), b, p, operationId)
      ensures refusal == CancelRefusal(old(Contents()), b, p)
    {
      refusal := Authorize(b);
      if refusal.Some? {
        return;
      }
      var after := PositionAfter(p);
      if after.Failure? {
        return Some(after.error);
      }
      if after.value {
        position := Some(p);
      }
      if active.Some? && active.value.command.operationId == operationId {
        Abort();
      }
    }

    method CloseBinding(b: Binding) returns (refusal: Option<Refusal>)
      modifies this
      ensures Contents() == BindingClosedBy(old(Contents()), b)
      ensures refusal == CloseRefusal(old(Contents()), b)
    {
      refusal := Authorize(b);
      if refusal.Some? {
        return if refusal.value in {Replaced, BindingStale, BindingClosed} then None else refusal;
      }
      closedBinding := true;
      Abort();
    }

    /** The running operation settled, with or without a delivered reply. */
    method Settle()
      modifies this`active
      ensures active == None
    {
      active := None;
    }

    method Close()
      modifies this
      ensures Contents() == old(Contents()).(closed := true, active := Aborted(old(active)))
    {
      closed := true;
      Abort();
    }
  }
}
