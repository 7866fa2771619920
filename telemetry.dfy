/** The telemetry bootstrap of src/cmd/otel.go: the list of cleanup steps
    that setupOTelSDK builds while it constructs the optional trace and
    metrics pipelines, the shutdown function that runs them, and the
    handleErr path that unwinds a half-built setup.

    The foreign calls (os.Create, newResource, newTraceProvider,
    newMeterProvider) are opaque: their error results are inputs. Each cleanup
    step is opaque too: what it returns when it runs is given by `outcome`. */
module Telemetry {
  import opened Wrappers

  // ---------------------------------------------------------------------
  // Errors and errors.Join
  // ---------------------------------------------------------------------

  /** An error value: a leaf error carrying its message, or the wrapper that
      errors.Join builds around the non-nil errors it was given. */
  datatype Error = Failure(msg: string) | Joined(errs: seq<Error>)

  /** The messages of the leaf errors under an error's joins, in order;
      errors.Is can still reach each of those leaves through the joins. */
  function Leaves(e: Error): seq<string>
    decreases e
  {
    match e
    case Failure(m) => [m]
    case Joined(errs) => LeavesOfAll(errs)
  }

  function LeavesOfAll(es: seq<Error>): seq<string>
    decreases es
  {
    if es == [] then [] else LeavesOfAll(es[..|es| - 1]) + Leaves(es[|es| - 1])
  }

  /** The leaves of a possibly nil error (nil has none). */
  function OptLeaves(e: Option<Error>): seq<string>
  {
    if e.None? then [] else Leaves(e.value)
  }

  /** The leaves of a list of possibly nil errors, list order kept. */
  function AllLeaves(rs: seq<Option<Error>>): seq<string>
  {
    if rs == [] then [] else AllLeaves(rs[..|rs| - 1]) + OptLeaves(rs[|rs| - 1])
  }

  /** The non-nil errors of a list, in order. */
  function NonNil(rs: seq<Option<Error>>): seq<Error>
  {
    if rs == [] then []
    else if rs[|rs| - 1].None? then NonNil(rs[..|rs| - 1])
    else NonNil(rs[..|rs| - 1]) + [rs[|rs| - 1].value]
  }

  lemma {:induction false} NonNilFacts(rs: seq<Option<Error>>)
    ensures NonNil(rs) == [] <==> forall i | 0 <= i < |rs| :: rs[i].None?
    ensures LeavesOfAll(NonNil(rs)) == AllLeaves(rs)
  {
    if rs != [] {
      var init, last := rs[..|rs| - 1], rs[|rs| - 1];
      NonNilFacts(init);
      assert forall i | 0 <= i < |init| :: init[i] == rs[i];
      if last.Some? {
        var nn := NonNil(init) + [last.value];
        assert nn[..|nn| - 1] == NonNil(init);
      }
    }
  }

  /** errors.Join: nil when every argument is nil, otherwise a join of the
      non-nil arguments; no leaf error of any argument is lost. */
  function Join(rs: seq<Option<Error>>): (r: Option<Error>)
    ensures r.None? <==> forall i | 0 <= i < |rs| :: rs[i].None?
    ensures OptLeaves(r) == AllLeaves(rs)
  {
    NonNilFacts(rs);
    var nn := NonNil(rs);
    if nn == [] then None else Some(Joined(nn))
  }

  /** The error the shutdown loop ends with when its steps returned `rs`, in
      order: `err = errors.Join(err, fn(ctx))` folded from a nil start. */
  function Accumulate(rs: seq<Option<Error>>): Option<Error>
  {
    if rs == [] then None else Join([Accumulate(rs[..|rs| - 1]), rs[|rs| - 1]])
  }

  /** shutdown reports no error exactly when no step failed. */
  lemma {:induction false} AccumulateNilIff(rs: seq<Option<Error>>)
    ensures Accumulate(rs).None? <==> forall i | 0 <= i < |rs| :: rs[i].None?
  {
    if rs != [] {
      var init, last := rs[..|rs| - 1], rs[|rs| - 1];
      AccumulateNilIff(init);
      var pair := [Accumulate(init), last];
      assert Accumulate(rs) == Join(pair);
      assert Join(pair).None? <==> pair[0].None? && pair[1].None?;
      assert (forall i | 0 <= i < |rs| :: rs[i].None?) <==>
             (forall i | 0 <= i < |init| :: init[i].None?) && last.None?;
    }
  }

  /** A failing step does not hide another: the error shutdown returns holds
      every leaf error of every step, in step order. */
  lemma {:induction false} AccumulateKeepsEveryError(rs: seq<Option<Error>>)
    ensures OptLeaves(Accumulate(rs)) == AllLeaves(rs)
  {
    if rs != [] {
      var init, last := rs[..|rs| - 1], rs[|rs| - 1];
      AccumulateKeepsEveryError(init);
      var pair := [Accumulate(init), last];
      assert pair[..1] == [Accumulate(init)];
      assert AllLeaves([Accumulate(init)]) == OptLeaves(Accumulate(init)) by {
        assert [Accumulate(init)][..0] == [];
      }
    }
  }

  // ---------------------------------------------------------------------
  // Cleanup steps and the registry that shutdown runs
  // ---------------------------------------------------------------------

  /** The four cleanup closures setupOTelSDK can register. */
  datatype Step = CloseTraceFile | ShutdownTracerProvider | CloseMetricsFile | ShutdownMeterProvider

  /** What each step in `steps` returns when run, in order. */
  function Results(steps: seq<Step>, outcome: Step -> Option<Error>): seq<Option<Error>>
  {
    seq(|steps|, i requires 0 <= i < |steps| => outcome(steps[i]))
  }

  /** The state the shutdown closure captures: the shutdownFuncs slice, with
      a log of the steps that have been run. */
  class Registry {
    /** shutdownFuncs: the steps still to run. */
    var funcs: seq<Step>
    /** Every step run so far, in the order it ran. */
    var invoked: seq<Step>
    /** Every step ever registered, in registration order. */
    ghost var registered: seq<Step>

    /** Each registration is either run once already or still pending. */
    ghost predicate Valid()
      reads this
    {
      registered == invoked + funcs
    }

    constructor ()
      ensures Valid()
      ensures funcs == [] && invoked == [] && registered == []
    {
      funcs, invoked, registered := [], [], [];
    }

    /** shutdownFuncs = append(shutdownFuncs, step) */
    method Register(step: Step)
      requires Valid()
      modifies this
      ensures Valid()
      ensures funcs == old(funcs) + [step] && invoked == old(invoked)
      ensures registered == old(registered) + [step]
    {
      funcs := funcs + [step];
      registered := registered + [step];
    }

    /** The shutdown closure: runs every pending step once, in registration
        order, joining all their errors, then empties the list. */
    method Shutdown(outcome: Step -> Option<Error>) returns (err: Option<Error>)
      requires Valid()
      modifies this
      ensures Valid()
      ensures invoked == old(invoked) + old(funcs)
      ensures funcs == [] && registered == old(registered)
      ensures err == Accumulate(Results(old(funcs), outcome))
    {
      var fs := funcs;
      err := None;
      var i := 0;
      while i < |fs|
        invariant 0 <= i <= |fs|
        invariant funcs == fs && registered == old(registered)
        invariant invoked == old(invoked) + fs[..i]
        invariant err == Accumulate(Results(fs[..i], outcome))
      {
        var r := outcome(fs[i]);
        invoked := invoked + [fs[i]];
        ghost var done := Results(fs[..i + 1], outcome);
        assert done[..i] == Results(fs[..i], outcome);
        err := Join([err, r]);
        i := i + 1;
      }
      assert fs[..i] == fs;
      funcs := [];
    }
  }

  /** A second shutdown runs nothing and returns nil. */
  method ShutdownTwice(reg: Registry, outcome: Step -> Option<Error>) returns (first: Option<Error>, second: Option<Error>)
    requires reg.Valid()
    modifies reg
    ensures reg.Valid() && reg.funcs == []
    ensures reg.invoked == old(reg.invoked) + old(reg.funcs)
    ensures first == Accumulate(Results(old(reg.funcs), outcome))
    ensures second == None
  {
    first := reg.Shutdown(outcome);
    second := reg.Shutdown(outcome);
  }

  // ---------------------------------------------------------------------
  // setupOTelSDK
  // ---------------------------------------------------------------------

  /** The telemetry destinations of the configuration ("" means unset). */
  datatype Config = Config(traceDestination: string, metricsDestination: string)

  /** The error each opaque call returns (None: it succeeded). */
  datatype Foreign = Foreign(
    newResource: Option<Error>,
    createTraceFile: Option<Error>,
    newTraceProvider: Option<Error>,
    createMetricsFile: Option<Error>,
    newMeterProvider: Option<Error>)

  /** Where setup stops: at the end, at newResource, or inside a pipeline. */
  datatype Stop = Completed | ResourceFailed(e: Error) | PipelineFailed(e: Error)

  /** The steps a setup registers, in order, and where it stops. */
  datatype Plan = Plan(steps: seq<Step>, stop: Stop)

  /** One optional pipeline: open the sink, register its close, build the
      provider, register its shutdown. */
  function PipelinePlan(dest: string, create: Option<Error>, build: Option<Error>, close: Step, shutdown: Step): Plan
  {
    if dest == "" then Plan([], Completed)
    else if create.Some? then Plan([], PipelineFailed(create.value))
    else if build.Some? then Plan([close], PipelineFailed(build.value))
    else Plan([close, shutdown], Completed)
  }

  function TracePlan(cfg: Config, f: Foreign): Plan
  {
    PipelinePlan(cfg.traceDestination, f.createTraceFile, f.newTraceProvider, CloseTraceFile, ShutdownTracerProvider)
  }

  function MetricsPlan(cfg: Config, f: Foreign): Plan
  {
    PipelinePlan(cfg.metricsDestination, f.createMetricsFile, f.newMeterProvider, CloseMetricsFile, ShutdownMeterProvider)
  }

  /** Reference definition of what setupOTelSDK registers and where it stops. */
  function SetupPlan(cfg: Config, f: Foreign): Plan
  {
    if f.newResource.Some? then Plan([], ResourceFailed(f.newResource.value))
    else if TracePlan(cfg, f).stop != Completed then TracePlan(cfg, f)
    else Plan(TracePlan(cfg, f).steps + MetricsPlan(cfg, f).steps, MetricsPlan(cfg, f).stop)
  }

  /** handleErr: run shutdown for cleanup and join its error to `inErr`. */
  method HandleErr(reg: Registry, inErr: Option<Error>, outcome: Step -> Option<Error>) returns (err: Option<Error>)
    requires reg.Valid()
    modifies reg
    ensures reg.Valid() && reg.funcs == [] && reg.registered == old(reg.registered)
    ensures reg.invoked == old(reg.invoked) + old(reg.funcs)
    ensures err == Join([inErr, Accumulate(Results(old(reg.funcs), outcome))])
  {
    var cleanup := reg.Shutdown(outcome);
    err := Join([inErr, cleanup]);
  }

  /** One pipeline branch of setupOTelSDK (the trace and the metrics branch
      are the same code over different calls and steps). `failed` is the
      branch-local err that the branch returns; `handled` is what handleErr
      stored in the named result before that return replaced it. */
  method RunPipeline(reg: Registry, dest: string, create: Option<Error>, build: Option<Error>,
                     close: Step, shutdown: Step, outcome: Step -> Option<Error>)
    returns (failed: Option<Error>, ghost handled: Option<Error>)
    requires reg.Valid()
    modifies reg
    ensures reg.Valid()
    ensures var p := PipelinePlan(dest, create, build, close, shutdown);
      reg.registered == old(reg.registered) + p.steps &&
      (p.stop == Completed ==>
        failed == None && reg.funcs == old(reg.funcs) + p.steps && reg.invoked == old(reg.invoked)) &&
      (p.stop.PipelineFailed? ==>
        failed == Some(p.stop.e) && reg.funcs == [] &&
        reg.invoked == old(reg.invoked) + old(reg.funcs) + p.steps &&
        handled == Join([failed, Accumulate(Results(old(reg.funcs) + p.steps, outcome))]))
  {
    failed, handled := None, None;
    ghost var before := reg.funcs;
    if dest == "" {
      assert reg.funcs == before + [];
      return;
    }
    // The branch declares its own err, shadowing the named result.
    failed := create;
    if failed.Some? {
      assert before + [] == before;
      handled := HandleErr(reg, failed, outcome);
      return;
    }
    reg.Register(close);
    failed := build;
    if failed.Some? {
      handled := HandleErr(reg, failed, outcome);
      assert reg.invoked == old(reg.invoked) + old(reg.funcs) + [close];
      return;
    }
    reg.Register(shutdown);
    assert reg.funcs == before + [close, shutdown];
  }

  /** setupOTelSDK. `hasShutdown` is false where Go returns a nil shutdown;
      `handled` is the error handleErr stored in the named result before a
      `return nil, err` replaced it. */
  method Setup(cfg: Config, f: Foreign, outcome: Step -> Option<Error>)
    returns (reg: Registry, hasShutdown: bool, err: Option<Error>, ghost handled: Option<Error>)
    ensures fresh(reg) && reg.Valid()
    ensures reg.registered == SetupPlan(cfg, f).steps
    ensures SetupPlan(cfg, f).stop == Completed ==>
      hasShutdown && err == None && reg.funcs == reg.registered && reg.invoked == []
    ensures SetupPlan(cfg, f).stop.ResourceFailed? ==>
      hasShutdown && err == Some(Joined([SetupPlan(cfg, f).stop.e])) && err == handled &&
      reg.registered == [] && reg.funcs == [] && reg.invoked == []
    ensures SetupPlan(cfg, f).stop.PipelineFailed? ==>
      !hasShutdown && err == Some(SetupPlan(cfg, f).stop.e) &&
      reg.funcs == [] && reg.invoked == reg.registered &&
      handled == Join([err, Accumulate(Results(reg.registered, outcome))])
  {
    reg := new Registry();
    hasShutdown, err, handled := true, None, None;

    // Setup resource.
    err := f.newResource;
    if err.Some? {
      assert Results([], outcome) == [];
      assert NonNil([err, None]) == [err.value] by {
        assert [err, None][..1] == [err];
        assert NonNil([err, None]) == NonNil([err]);
        assert [err][..0] == [];
      }
      err := HandleErr(reg, err, outcome);
      handled := err;
      return;  // bare return: the shutdown closure and the joined error
    }

    var failed;
    failed, handled := RunPipeline(reg, cfg.traceDestination, f.createTraceFile, f.newTraceProvider,
                                   CloseTraceFile, ShutdownTracerProvider, outcome);
    if failed.Some? {
      hasShutdown, err := false, failed;  // return nil, err
      return;
    }
    assert reg.funcs == TracePlan(cfg, f).steps;

    failed, handled := RunPipeline(reg, cfg.metricsDestination, f.createMetricsFile, f.newMeterProvider,
                                   CloseMetricsFile, ShutdownMeterProvider, outcome);
    if failed.Some? {
      hasShutdown, err := false, failed;  // return nil, err
      return;
    }
  }

  // ---------------------------------------------------------------------
  // Properties of the plan
  // ---------------------------------------------------------------------

  /** With both sinks set and every call succeeding there are exactly four
      steps: trace close, trace shutdown, metrics close, metrics shutdown. */
  lemma FullSetupRegistersFourSteps(cfg: Config, f: Foreign)
    requires cfg.traceDestination != "" && cfg.metricsDestination != ""
    requires f == Foreign(None, None, None, None, None)
    ensures SetupPlan(cfg, f) ==
      Plan([CloseTraceFile, ShutdownTracerProvider, CloseMetricsFile, ShutdownMeterProvider], Completed)
  {
  }

  /** An unset destination registers no step of that pipeline. */
  lemma UnsetDestinationRegistersNothing(cfg: Config, f: Foreign)
    ensures cfg.traceDestination == "" ==>
      CloseTraceFile !in SetupPlan(cfg, f).steps && ShutdownTracerProvider !in SetupPlan(cfg, f).steps
    ensures cfg.metricsDestination == "" ==>
      CloseMetricsFile !in SetupPlan(cfg, f).steps && ShutdownMeterProvider !in SetupPlan(cfg, f).steps
  {
  }

  /** Each provider's shutdown is registered right after its sink's close, so
      shutdown closes a sink before its provider flushes. */
  lemma CloseRegisteredBeforeShutdown(cfg: Config, f: Foreign)
    ensures forall j | 0 <= j < |SetupPlan(cfg, f).steps| && SetupPlan(cfg, f).steps[j] == ShutdownTracerProvider ::
      0 < j && SetupPlan(cfg, f).steps[j - 1] == CloseTraceFile
    ensures forall j | 0 <= j < |SetupPlan(cfg, f).steps| && SetupPlan(cfg, f).steps[j] == ShutdownMeterProvider ::
      0 < j && SetupPlan(cfg, f).steps[j - 1] == CloseMetricsFile
  {
  }

  /** A metrics sink that cannot be opened after a complete trace pipeline:
      the trace pair is what handleErr runs. */
  lemma MetricsFailureUnwindsTracePair(cfg: Config, f: Foreign)
    requires cfg.traceDestination != "" && cfg.metricsDestination != ""
    requires f.newResource.None? && f.createTraceFile.None? && f.newTraceProvider.None?
    requires f.createMetricsFile.Some?
    ensures SetupPlan(cfg, f) ==
      Plan([CloseTraceFile, ShutdownTracerProvider], PipelineFailed(f.createMetricsFile.value))
  {
  }
}
