/** The event loop at the end of main in src/cmd/main.go: one `select` over
    the internal event queue, the SIGINT channel and two timers, repeated
    forever. The `select` is modelled as the environment choosing one input
    per step; `os.Exit` is the terminal status Exited. */
module Supervisor {
  import Telemetry

  /** The only event kind (the iota constant eventQuit). */
  const EventQuit: int := 0
  /** Capacity of sysEventChannel. */
  const QueueCapacity: nat := 5
  /** Signal number of SIGINT, the only signal the loop is notified of. */
  const SIGINT: int := 2
  /** The allocation change, in bytes, that replaces the memory baseline. */
  const Threshold: int := 1024 * 1024

  const TwoTo63: int := 0x8000_0000_0000_0000
  const TwoTo64: int := 0x1_0000_0000_0000_0000

  type uint64 = x: int | 0 <= x < 0x1_0000_0000_0000_0000

  /** Go's int64(u) conversion of a uint64: two's complement reinterpretation. */
  function ToInt64(u: uint64): (r: int)
    ensures -TwoTo63 <= r < TwoTo63
    ensures (u - r) % TwoTo64 == 0
    ensures u < TwoTo63 ==> r == u
  {
    if u < TwoTo63 then u else u - TwoTo64
  }

  /** Go's int64 arithmetic wraps: the int64 congruent to x modulo 2^64. */
  function Wrap64(x: int): (r: int)
    ensures -TwoTo63 <= r < TwoTo63
    ensures (x - r) % TwoTo64 == 0
    ensures -TwoTo63 <= x < TwoTo63 ==> r == x
  {
    (x + TwoTo63) % TwoTo64 - TwoTo63
  }

  function Abs(x: int): nat
  {
    if x < 0 then -x else x
  }

  /** sysEventMessage. */
  datatype SysEvent = SysEvent(event: int, idata: int)

  /** The log lines the loop writes. */
  datatype LogLine = Exiting | InterruptDetected | MemStats(alloc: uint64)

  /** Running, or stopped for good: os.Exit with a code, or blocked forever
      on a send to a full sysEventChannel (main is its only reader). */
  datatype Status = Running | Exited(code: int) | Blocked

  /** The `select` case that fires: a message received from
      sysEventChannel, a signal from sigChannel, the 60-second timer with the
      fresh Alloc reading, or the 15-minute timer. */
  datatype Input = Receive | Signal(sig: int) | MinuteTick(alloc: uint64) | QuarterHourTick

  datatype State = State(queue: seq<SysEvent>, oldAlloc: int, log: seq<LogLine>, status: Status)

  /** The state after the first ReadMemStats and printMemStats. */
  function Initial(firstAlloc: uint64): State
  {
    State([], ToInt64(firstAlloc), [MemStats(firstAlloc)], Running)
  }

  /** A case can fire only while the loop runs, and a receive only from a
      non-empty queue. */
  predicate Enabled(s: State, input: Input)
  {
    s.status == Running && (input.Receive? ==> |s.queue| > 0)
  }

  /** Whether a tick reading moves the baseline:
      utils.Abs(int64(m.Alloc) - oldAlloc) > 1024*1024 in int64 arithmetic. */
  predicate Moved(alloc: uint64, oldAlloc: int)
  {
    Abs(Wrap64(ToInt64(alloc) - oldAlloc)) > Threshold
  }

  /** Reference definition of one iteration of the loop. */
  function Next(s: State, input: Input): State
    requires Enabled(s, input)
  {
    match input
    case Receive =>
      var msg := s.queue[0];
      if msg.event == EventQuit then
        s.(queue := s.queue[1..], log := s.log + [Exiting], status := Exited(msg.idata))
      else
        s.(queue := s.queue[1..])
    case Signal(sig) =>
      if sig != SIGINT then s
      else if |s.queue| >= QueueCapacity then s.(status := Blocked)
      else s.(queue := s.queue + [SysEvent(EventQuit, 0)], log := s.log + [InterruptDetected])
    case MinuteTick(alloc) =>
      if Moved(alloc, s.oldAlloc) then s.(oldAlloc := ToInt64(alloc), log := s.log + [MemStats(alloc)])
      else s
    case QuarterHourTick => s
  }

  /** A run of the loop over the cases that fire, in order; a case that
      cannot fire in the current state is never chosen by the select and is
      passed over. */
  function Run(s: State, inputs: seq<Input>): State
    decreases |inputs|
  {
    if inputs == [] then s
    else if Enabled(s, inputs[0]) then Run(Next(s, inputs[0]), inputs[1..])
    else Run(s, inputs[1..])
  }

  /** The main goroutine's state in its `for`/`select` loop. The deferred
      telemetry shutdown is held as `telemetry`. */
  class EventLoop {
    var queue: seq<SysEvent>
    var oldAlloc: int
    var log: seq<LogLine>
    var status: Status
    const telemetry: Telemetry.Registry

    function Current(): State
      reads this
    {
      State(queue, oldAlloc, log, status)
    }

    /** var m; ReadMemStats(&m); oldAlloc := int64(m.Alloc); printMemStats(&m) */
    constructor (firstAlloc: uint64, telemetry: Telemetry.Registry)
      ensures Current() == Initial(firstAlloc)
      ensures this.telemetry == telemetry
    {
      queue := [];
      oldAlloc := ToInt64(firstAlloc);
      log := [MemStats(firstAlloc)];
      status := Running;
      this.telemetry := telemetry;
    }

    /** One iteration of the loop. Nothing outside the loop's own variables
        changes: in particular the quit path exits without running the
        deferred telemetry shutdown. */
    method Step(input: Input)
      requires Enabled(Current(), input)
      modifies this
      ensures Current() == Next(old(Current()), input)
      ensures telemetry.funcs == old(telemetry.funcs) && telemetry.invoked == old(telemetry.invoked)
    {
      match input {
        case Receive =>
          var msg := queue[0];
          queue := queue[1..];
          if msg.event == EventQuit {
            log := log + [Exiting];
            status := Exited(msg.idata);  // os.Exit(msg.idata)
          }
        case Signal(sig) =>
          if sig == SIGINT {
            if |queue| >= QueueCapacity {
              status := Blocked;  // the send never completes
            } else {
              queue := queue + [SysEvent(EventQuit, 0)];
              log := log + [InterruptDetected];
            }
          }
        case MinuteTick(alloc) =>
          var diff := Wrap64(ToInt64(alloc) - oldAlloc);
          if Abs(diff) > Threshold {
            log := log + [MemStats(alloc)];
            oldAlloc := ToInt64(alloc);
          }
        case QuarterHourTick =>
      }
    }
  }

  // ---------------------------------------------------------------------
  // Properties of the transition system
  // ---------------------------------------------------------------------

  /** SIGINT does not exit: it queues Quit with code 0 (or blocks on a full
      queue). */
  lemma InterruptQueuesQuitZero(s: State)
    requires Enabled(s, Signal(SIGINT))
    ensures |s.queue| < QueueCapacity ==>
      Next(s, Signal(SIGINT)) == s.(queue := s.queue + [SysEvent(EventQuit, 0)], log := s.log + [InterruptDetected])
    ensures |s.queue| >= QueueCapacity ==> Next(s, Signal(SIGINT)).status == Blocked
    ensures !Next(s, Signal(SIGINT)).status.Exited?
  {
  }

  /** Receiving a Quit message exits with that message's code; any other
      event kind is dropped from the queue and ignored. */
  lemma ReceiveDispatch(s: State)
    requires Enabled(s, Receive)
    ensures Next(s, Receive).queue == s.queue[1..]
    ensures s.queue[0].event == EventQuit ==> Next(s, Receive).status == Exited(s.queue[0].idata)
    ensures s.queue[0].event != EventQuit ==> Next(s, Receive) == s.(queue := s.queue[1..])
  {
  }

  /** Signals other than SIGINT, and the 15-minute case, change nothing. */
  lemma IdleCases(s: State, sig: int)
    requires s.status == Running && sig != SIGINT
    ensures Next(s, Signal(sig)) == s
    ensures Next(s, QuarterHourTick) == s
  {
  }

  /** For readings below 2^63 the int64 arithmetic does not wrap: the
      baseline becomes the reading exactly when it moved by more than 1 MiB,
      and stats are logged exactly then. */
  lemma TickRule(s: State, alloc: uint64)
    requires s.status == Running
    requires 0 <= s.oldAlloc < TwoTo63 && alloc < TwoTo63
    ensures var t := Next(s, MinuteTick(alloc));
      t.queue == s.queue && t.status == Running &&
      (Abs(alloc - s.oldAlloc) > Threshold ==> t.oldAlloc == alloc && t.log == s.log + [MemStats(alloc)]) &&
      (Abs(alloc - s.oldAlloc) <= Threshold ==> t.oldAlloc == s.oldAlloc && t.log == s.log)
  {
  }

  /** After a tick the baseline is within 1 MiB of the reading. */
  lemma TickKeepsBaselineClose(s: State, alloc: uint64)
    requires s.status == Running
    ensures Abs(Wrap64(ToInt64(alloc) - Next(s, MinuteTick(alloc)).oldAlloc)) <= Threshold
  {
  }

  /** Every queued message is the Quit(0) a SIGINT produces. */
  predicate OnlyInterruptQuits(q: seq<SysEvent>)
  {
    forall i | 0 <= i < |q| :: q[i] == SysEvent(EventQuit, 0)
  }

  /** Stopped states stay stopped: nothing runs after os.Exit or a blocked
      send. */
  lemma StoppedIsFinal(s: State, inputs: seq<Input>)
    requires s.status != Running
    ensures Run(s, inputs) == s
  {
  }

  /** Since only SIGINT fills the queue, any run from a queue of interrupt
      quits, and so any run from the initial state, either keeps running,
      blocks, or exits with code 0. */
  lemma {:induction false} ExitCodeIsZero(s: State, inputs: seq<Input>)
    requires OnlyInterruptQuits(s.queue)
    requires !s.status.Exited? || s.status == Exited(0)
    ensures OnlyInterruptQuits(Run(s, inputs).queue)
    ensures Run(s, inputs).status.Exited? ==> Run(s, inputs).status == Exited(0)
    decreases |inputs|
  {
    if inputs != [] {
      if Enabled(s, inputs[0]) {
        var t := Next(s, inputs[0]);
        assert OnlyInterruptQuits(t.queue) by {
          if inputs[0].Receive? {
            assert forall i | 0 <= i < |t.queue| :: t.queue[i] == s.queue[i + 1];
          }
        }
        ExitCodeIsZero(t, inputs[1..]);
      } else {
        ExitCodeIsZero(s, inputs[1..]);
      }
    }
  }

  /** From the initial state every exit code is 0. */
  lemma InitialRunsExitWithZero(firstAlloc: uint64, inputs: seq<Input>)
    ensures Run(Initial(firstAlloc), inputs).status.Exited? ==> Run(Initial(firstAlloc), inputs).status == Exited(0)
  {
    ExitCodeIsZero(Initial(firstAlloc), inputs);
  }

  /** From any running state whose queue holds only interrupt quits and has
      a free slot, SIGINT followed by a receive exits with code 0: the
      receive takes either an earlier interrupt's Quit(0) or this one's. */
  lemma InterruptThenReceiveExits(s: State)
    requires s.status == Running && OnlyInterruptQuits(s.queue)
    requires |s.queue| < QueueCapacity
    ensures Run(s, [Signal(SIGINT), Receive]).status == Exited(0)
  {
    var s1 := Next(s, Signal(SIGINT));
    assert s1.queue == s.queue + [SysEvent(EventQuit, 0)];
    assert s1.queue[0] == SysEvent(EventQuit, 0);
    assert [Signal(SIGINT), Receive][1..] == [Receive];
    assert Run(s, [Signal(SIGINT), Receive]) == Run(s1, [Receive]);
    assert [Receive][1..] == [];
    assert Run(s1, [Receive]) == Next(s1, Receive);
  }
}
