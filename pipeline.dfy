/**
 * cmd/pipeline.go: the step sequence shared by the commands.  A pipeline is
 * a string of step letters (r = record, m = mix, p = play), read without
 * regard to ASCII case.  validatePipeline rejects the first letter that is
 * not a step; executePipeline, called by a command that has just done its
 * own step, runs whatever follows the first occurrence of that step, one
 * delegate per letter, in order, stopping at the first failure.
 *
 * The delegates are the Recorder and Mixer models; playback is an outcome
 * taken from the World.  The World gives the outside world's answers for the
 * step at each position of the pipeline.
 */
module Pipeline {
  import opened Wrappers
  import Text
  import Config
  import Mixing
  import Recording

  // ------------------------------------------------------------ steps

  /** The validSteps table: the letters that name a step. */
  const ValidSteps: map<char, bool> := map['r' := true, 'm' := true, 'p' := true]

  predicate IsStep(c: char) {
    c == 'r' || c == 'm' || c == 'p'
  }

  predicate AllSteps(steps: string) {
    forall i :: 0 <= i < |steps| ==> IsStep(steps[i])
  }

  /**
   * validatePipeline: the empty pipeline and any string of step letters
   * pass; otherwise the first letter (after lower-casing) that is not a
   * step is reported.
   */
  method ValidatePipeline(pipeline: string) returns (err: Option<char>)
    ensures pipeline == "" ==> err.None?
    ensures err.None? <==> AllSteps(Text.ToLower(pipeline))
    ensures var steps := Text.ToLower(pipeline);
      err.Some? ==> exists i :: 0 <= i < |steps| && steps[i] == err.value && !IsStep(steps[i]) && AllSteps(steps[..i])
  {
    if pipeline == "" {
      return None;
    }
    var steps := Text.ToLower(pipeline);
    var i := 0;
    while i < |steps|
      invariant 0 <= i <= |steps|
      invariant AllSteps(steps[..i])
    {
      var step := steps[i];
      if step !in ValidSteps || !ValidSteps[step] {
        return Some(step);
      }
      assert steps[..i + 1] == steps[..i] + [step];
      i := i + 1;
    }
    assert steps[..i] == steps;
    return None;
  }

  /** "RMP" and "rrm" are pipelines; "rmx" is not, and 'x' is its first offending letter. */
  lemma ValidationExamples()
    ensures AllSteps(Text.ToLower("RMP")) && AllSteps(Text.ToLower("rrm"))
    ensures !AllSteps(Text.ToLower("rmx")) && Text.ToLower("rmx")[2] == 'x' && AllSteps(Text.ToLower("rmx")[..2])
  {
    assert Text.ToLower("RMP") == "rmp";
    assert Text.ToLower("rmx") == "rmx";
    assert "rmx"[..2] == "rm";
    assert !IsStep("rmx"[2]);
  }

  // ------------------------------------------------------------ the world and the trace

  /** The mix command-line flags: guitar and backing volume (0 = not given) and delay (-1 = not given). */
  datatype MixFlags = MixFlags(guitarVolume: real, backingVolume: real, delayMs: int)

  /** The flag defaults. */
  const NoFlags := MixFlags(0.0, 0.0, -1)

  /** The condition under which a command calls MixWithOptions rather than Mix. */
  predicate AnyOverride(f: MixFlags) {
    f.guitarVolume > 0.0 || f.backingVolume > 0.0 || f.delayMs >= 0
  }

  /**
   * The effective values run and mix display before mixing: the configured
   * Mix group, with each flag that is given taking the place of its value.
   */
  method EffectiveValues(m: Config.MixConfig, f: MixFlags) returns (shown: Config.MixConfig)
    ensures shown == Mixing.Overridden(m, f.guitarVolume, f.backingVolume, f.delayMs)
  {
    var effectiveGuitarVol := m.guitarVolume;
    var effectiveBackingVol := m.backingVolume;
    var effectiveDelay := m.delayMs;
    if f.guitarVolume > 0.0 {
      effectiveGuitarVol := f.guitarVolume;
    }
    if f.backingVolume > 0.0 {
      effectiveBackingVol := f.backingVolume;
    }
    if f.delayMs >= 0 {
      effectiveDelay := f.delayMs;
    }
    shown := Config.MixConfig(effectiveGuitarVol, effectiveBackingVol, effectiveDelay);
  }

  /** The outside world's answers for the step at each pipeline position (playback: does it succeed). */
  datatype World = World(record: int -> Recording.RecordEnv, mix: int -> Mixing.MixEnv, play: int -> bool)

  /**
   * A delegate call: Record with the settings it found, Mix with the
   * settings in the config while it ran (and whether MixWithOptions put
   * them there), or Play.
   */
  datatype Call =
    | RecordCall(settings: Config.Settings)
    | MixCall(settings: Config.Settings, withOptions: bool)
    | PlayCall

  /** One delegate call and whether it succeeded. */
  datatype Invocation = Invocation(call: Call, ok: bool)

  /** The errors of the commands and of the step sequence, each wrapping its delegate's error. */
  datatype CmdError =
    | StepNotFound(step: char, pipeline: string)
    | UnknownStep(step: char)
    | NoPipeline
    | PipelineRecordFailed(recordCause: Recording.RecordError)
    | PipelineMixFailed(mixCause: Mixing.MixError)
    | PipelinePlayFailed
    | RecordingFailed(recordingCause: Recording.RecordError)
    | MixingFailed(mixingCause: Mixing.MixError)

  /** What a run of steps returns, the delegate calls it made, and the config's settings afterwards. */
  datatype Outcome = Outcome(err: Option<CmdError>, trace: seq<Invocation>, final: Config.Settings)

  function Prepend(done: seq<Invocation>, o: Outcome): Outcome {
    o.(trace := done + o.trace)
  }

  /** The settings in the config while a mix step runs: the overrides installed when any is given. */
  function Installed(s: Config.Settings, overrides: Option<MixFlags>): Config.Settings {
    match overrides
    case None => s
    case Some(f) =>
      if AnyOverride(f) then s.(mix := Mixing.Overridden(s.mix, f.guitarVolume, f.backingVolume, f.delayMs))
      else s
  }

  function WithOptions(overrides: Option<MixFlags>): bool {
    overrides.Some? && AnyOverride(overrides.value)
  }

  /**
   * The effective values displayed are the values mixed with, whichever of
   * Mix and MixWithOptions is chosen: without any flag both are the
   * configured group.
   */
  lemma ShownIsInstalled(s: Config.Settings, flags: MixFlags)
    ensures Installed(s, Some(flags)) == s.(mix := Mixing.Overridden(s.mix, flags.guitarVolume, flags.backingVolume, flags.delayMs))
  {
    if !AnyOverride(flags) {
      assert Mixing.Overridden(s.mix, flags.guitarVolume, flags.backingVolume, flags.delayMs) == s.mix;
    }
  }

  /** Does the call name the delegate for this step letter? */
  predicate CallFor(c: Call, step: char) {
    match c
    case RecordCall(_) => step == 'r'
    case MixCall(_, _) => step == 'm'
    case PlayCall => step == 'p'
  }

  /** Does the error wrap a failure of this call's delegate? */
  predicate Reports(e: CmdError, c: Call) {
    match c
    case RecordCall(_) => e.PipelineRecordFailed?
    case MixCall(_, _) => e.PipelineMixFailed?
    case PlayCall => e.PipelinePlayFailed?
  }

  /** What one delegate call did: the call, its error (wrapped by kind), and the settings it leaves. */
  datatype StepRun = StepRun(call: Call, err: Option<CmdError>, next: Config.Settings)

  /**
   * The delegate a step letter names, at pipeline position i, with settings
   * s: Record (which may write the monitor input back), Mix with the
   * settings Installed gives (the config is as before afterwards), or Play.
   * Letters that are not steps never get here: Dispatch reports them first.
   */
  function Step(step: char, i: int, s: Config.Settings, song: string, overrides: Option<MixFlags>, world: World): (r: StepRun)
    ensures IsStep(step) ==> CallFor(r.call, step)
    ensures r.err.Some? ==> Reports(r.err.value, r.call)
    ensures r.next == s.(record := s.record.(monitorInput := r.next.record.monitorInput))
    ensures r.call.MixCall? ==> r.call == MixCall(Installed(s, overrides), WithOptions(overrides))
  {
    if step == 'r' then
      var run := Recording.RecordScript(s, song, world.record(i));
      var after := s.(record := s.record.(monitorInput := run.monitor));
      StepRun(RecordCall(s), if run.err.Some? then Some(PipelineRecordFailed(run.err.value)) else None, after)
    else if step == 'm' then
      var during := Installed(s, overrides);
      var run := Mixing.MixScript(during, song, world.mix(i));
      StepRun(MixCall(during, WithOptions(overrides)), if run.err.Some? then Some(PipelineMixFailed(run.err.value)) else None, s)
    else
      StepRun(PlayCall, if world.play(i) then None else Some(PipelinePlayFailed), s)
  }

  /** The delegates of one command invocation. */
  function Delegates(song: string, overrides: Option<MixFlags>, world: World): (char, int, Config.Settings) -> StepRun {
    (step, i, s) => Step(step, i, s, song, overrides, world)
  }

  /**
   * Running steps[i..] with settings s: the switch of executePipeline's and
   * run's loops.  A letter that is not a step is reported; otherwise its
   * delegate runs, and the next step runs (with the settings the delegate
   * left) only if it succeeded.
   */
  function Dispatch(steps: string, i: nat, s: Config.Settings, delegate: (char, int, Config.Settings) -> StepRun): Outcome
    decreases |steps| - i
  {
    if i >= |steps| then Outcome(None, [], s)
    else if !IsStep(steps[i]) then Outcome(Some(UnknownStep(steps[i])), [], s)
    else
      var r := delegate(steps[i], i, s);
      if r.err.Some? then Outcome(r.err, [Invocation(r.call, false)], r.next)
      else Prepend([Invocation(r.call, true)], Dispatch(steps, i + 1, r.next, delegate))
  }

  /**
   * Dispatch with the delegates of one command invocation called directly:
   * the form the step loops are proved against.
   */
  function Steps(steps: string, i: nat, s: Config.Settings, song: string, overrides: Option<MixFlags>, world: World): Outcome
    decreases |steps| - i
  {
    if i >= |steps| then Outcome(None, [], s)
    else if !IsStep(steps[i]) then Outcome(Some(UnknownStep(steps[i])), [], s)
    else
      var r := Step(steps[i], i, s, song, overrides, world);
      if r.err.Some? then Outcome(r.err, [Invocation(r.call, false)], r.next)
      else Prepend([Invocation(r.call, true)], Steps(steps, i + 1, r.next, song, overrides, world))
  }

  lemma {:induction false} StepsAreDispatch(steps: string, i: nat, s: Config.Settings, song: string,
                                            overrides: Option<MixFlags>, world: World)
    ensures Steps(steps, i, s, song, overrides, world) == Dispatch(steps, i, s, Delegates(song, overrides, world))
    decreases |steps| - i
  {
    if i < |steps| && IsStep(steps[i]) {
      var r := Step(steps[i], i, s, song, overrides, world);
      assert Delegates(song, overrides, world)(steps[i], i, s) == r;
      if r.err.None? {
        StepsAreDispatch(steps, i + 1, r.next, song, overrides, world);
      }
    }
  }

  /** executePipeline(song, startStep) with settings s: the specification ExecutePipeline is proved against. */
  function Continue(s: Config.Settings, pipeline: string, song: string, startStep: char, world: World): Outcome {
    if pipeline == "" then Outcome(None, [], s)
    else
      var steps := Text.ToLower(pipeline);
      var k := Text.Index(steps, [startStep]);
      if k == -1 then Outcome(Some(StepNotFound(startStep, pipeline)), [], s)
      else Dispatch(steps, k + 1, s, Delegates(song, None, world))
  }

  /** executePipeline, against the shared config. */
  method ExecutePipeline(cfg: Config.Config, pipeline: string, song: string, startStep: char, world: World)
    returns (err: Option<CmdError>, ghost trace: seq<Invocation>)
    modifies cfg`record
    ensures var o := Continue(old(cfg.Value()), pipeline, song, startStep, world);
      err == o.err && trace == o.trace && cfg.Value() == o.final
  {
    trace := [];
    if pipeline == "" {
      return None, trace;
    }
    var steps := Text.ToLower(pipeline);

    var startIndex := -1;
    var i := 0;
    while i < |steps|
      invariant 0 <= i <= |steps|
      invariant startStep !in steps[..i]
    {
      if steps[i] == startStep {
        startIndex := i;
        break;
      }
      i := i + 1;
    }
    Text.IndexChar(steps, startStep);
    if startIndex == -1 {
      assert steps[..i] == steps;
      return Some(StepNotFound(startStep, pipeline)), trace;
    }
    assert steps[startIndex] == startStep && startStep !in steps[..startIndex];
    ghost var k := Text.Index(steps, [startStep]);
    assert k == startIndex;

    StepsAreDispatch(steps, startIndex + 1, cfg.Value(), song, None, world);
    err, trace := RunFrom(cfg, steps, startIndex + 1, song, world);
  }

  /** executePipeline's step loop, from position start on. */
  method RunFrom(cfg: Config.Config, steps: string, start: nat, song: string, world: World)
    returns (err: Option<CmdError>, ghost trace: seq<Invocation>)
    requires start <= |steps|
    modifies cfg`record
    ensures var o := Steps(steps, start, old(cfg.Value()), song, None, world);
      err == o.err && trace == o.trace && cfg.Value() == o.final
  {
    trace := [];
    ghost var s := cfg.Value();
    var j := start;
    while j < |steps|
      invariant start <= j <= |steps|
      invariant Steps(steps, start, s, song, None, world) ==
        Prepend(trace, Steps(steps, j, cfg.Value(), song, None, world))
      decreases |steps| - j
    {
      var step := steps[j];
      var before := cfg.Value();
      ghost var done: Invocation;
      if step == 'r' {
        var recorder := new Recording.Recorder(cfg);
        var e, _ := recorder.Record(song, world.record(j));
        if e.Some? {
          return Some(PipelineRecordFailed(e.value)), trace + [Invocation(RecordCall(before), false)];
        }
        done := Invocation(RecordCall(before), true);
      } else if step == 'm' {
        var mixer := new Mixing.Mixer(cfg);
        var e, _ := mixer.Mix(song, world.mix(j));
        if e.Some? {
          return Some(PipelineMixFailed(e.value)), trace + [Invocation(MixCall(before, false), false)];
        }
        done := Invocation(MixCall(before, false), true);
      } else if step == 'p' {
        if !world.play(j) {
          return Some(PipelinePlayFailed), trace + [Invocation(PlayCall, false)];
        }
        done := Invocation(PlayCall, true);
      } else {
        return Some(UnknownStep(step)), trace;
      }
      var after := cfg.Value();
      assert Steps(steps, j, before, song, None, world) == Prepend([done], Steps(steps, j + 1, after, song, None, world));
      PrependTwice(trace, [done], Steps(steps, j + 1, after, song, None, world));
      assert Steps(steps, start, s, song, None, world) == Prepend(trace + [done], Steps(steps, j + 1, after, song, None, world));
      trace := trace + [done];
      j := j + 1;
    }
    return None, trace;
  }

  lemma PrependTwice(done: seq<Invocation>, more: seq<Invocation>, o: Outcome)
    ensures Prepend(done, Prepend(more, o)) == Prepend(done + more, o)
  {
    assert done + (more + o.trace) == (done + more) + o.trace;
  }

  // ------------------------------------------------------------ properties

  /** What the delegate of each step letter guarantees; Step's contract. */
  predicate StepConforms(step: char, s: Config.Settings, r: StepRun, overrides: Option<MixFlags>) {
    && CallFor(r.call, step)
    && (r.err.Some? ==> Reports(r.err.value, r.call))
    && r.next == s.(record := s.record.(monitorInput := r.next.record.monitorInput))
    && (r.call.MixCall? ==> r.call == MixCall(Installed(s, overrides), WithOptions(overrides)))
  }

  ghost predicate Conforms(delegate: (char, int, Config.Settings) -> StepRun, overrides: Option<MixFlags>) {
    forall step, i, s :: IsStep(step) ==> StepConforms(step, s, delegate(step, i, s), overrides)
  }

  lemma DelegatesConform(song: string, overrides: Option<MixFlags>, world: World)
    ensures Conforms(Delegates(song, overrides, world), overrides)
  {
  }

  /** One delegate per step, in the pipeline's order, and never past its end. */
  lemma {:induction false} DispatchInOrder(steps: string, i: nat, s: Config.Settings,
                                           delegate: (char, int, Config.Settings) -> StepRun, overrides: Option<MixFlags>)
    requires i <= |steps| && Conforms(delegate, overrides)
    ensures |Dispatch(steps, i, s, delegate).trace| <= |steps| - i
    ensures forall k :: 0 <= k < |Dispatch(steps, i, s, delegate).trace| ==>
      CallFor(Dispatch(steps, i, s, delegate).trace[k].call, steps[i + k])
    decreases |steps| - i
  {
    if i < |steps| && IsStep(steps[i]) {
      var r := delegate(steps[i], i, s);
      var rest := Dispatch(steps, i + 1, r.next, delegate);
      DispatchInOrder(steps, i + 1, r.next, delegate, overrides);
      var o := Dispatch(steps, i, s, delegate);
      if r.err.None? {
        assert o.trace == [Invocation(r.call, true)] + rest.trace;
      }
    }
  }

  /** DispatchInOrder and DispatchFailFast together, on one outcome. */
  lemma DispatchRuns(steps: string, i: nat, s: Config.Settings, o: Outcome,
                     delegate: (char, int, Config.Settings) -> StepRun, overrides: Option<MixFlags>)
    requires i <= |steps| && Conforms(delegate, overrides) && o == Dispatch(steps, i, s, delegate)
    ensures |o.trace| <= |steps| - i
    ensures forall m :: 0 <= m < |o.trace| ==> CallFor(o.trace[m].call, steps[i + m])
    ensures forall m :: 0 <= m < |o.trace| - 1 ==> o.trace[m].ok
    ensures o.err.None? <==> |o.trace| == |steps| - i && forall m :: 0 <= m < |o.trace| ==> o.trace[m].ok
    ensures o.err.Some? ==> Failed(steps, i, o)
  {
    DispatchInOrder(steps, i, s, delegate, overrides);
    DispatchFailFast(steps, i, s, delegate, overrides);
  }

  /** How a run of steps[i..] that returned an error ended. */
  predicate Failed(steps: string, i: nat, o: Outcome)
    requires o.err.Some?
  {
    var n := |o.trace|;
    || (n > 0 && !o.trace[n - 1].ok && Reports(o.err.value, o.trace[n - 1].call))
    || (&& i + n < |steps| && !IsStep(steps[i + n]) && o.err.value == UnknownStep(steps[i + n])
        && forall k :: 0 <= k < n ==> o.trace[k].ok)
  }

  /**
   * Fail fast: every call but the last succeeded; no error means every step
   * ran and succeeded; an error is either the last call's failure, wrapped
   * by delegate kind, or a letter that is not a step, reached with every
   * call before it successful.
   */
  lemma {:induction false} DispatchFailFast(steps: string, i: nat, s: Config.Settings,
                                            delegate: (char, int, Config.Settings) -> StepRun, overrides: Option<MixFlags>)
    requires i <= |steps| && Conforms(delegate, overrides)
    ensures forall k :: 0 <= k < |Dispatch(steps, i, s, delegate).trace| - 1 ==> Dispatch(steps, i, s, delegate).trace[k].ok
    ensures Dispatch(steps, i, s, delegate).err.None? <==>
      |Dispatch(steps, i, s, delegate).trace| == |steps| - i &&
      forall k :: 0 <= k < |Dispatch(steps, i, s, delegate).trace| ==> Dispatch(steps, i, s, delegate).trace[k].ok
    ensures Dispatch(steps, i, s, delegate).err.Some? ==> Failed(steps, i, Dispatch(steps, i, s, delegate))
    decreases |steps| - i
  {
    if i < |steps| && IsStep(steps[i]) {
      var r := delegate(steps[i], i, s);
      var rest := Dispatch(steps, i + 1, r.next, delegate);
      DispatchFailFast(steps, i + 1, r.next, delegate, overrides);
      var o := Dispatch(steps, i, s, delegate);
      assert StepConforms(steps[i], s, r, overrides);
      if r.err.Some? {
        assert o == Outcome(r.err, [Invocation(r.call, false)], r.next);
        assert !o.trace[|o.trace| - 1].ok && Reports(o.err.value, o.trace[|o.trace| - 1].call);
      } else {
        assert o.trace == [Invocation(r.call, true)] + rest.trace && o.err == rest.err;
        if |rest.trace| > 0 {
          assert o.trace[|o.trace| - 1] == rest.trace[|rest.trace| - 1];
        }
        assert i + |o.trace| == i + 1 + |rest.trace|;
      }
    }
  }

  /**
   * Only the monitor input can change along a run of steps, and every mix
   * step runs with the Mix group Installed gives for the settings the run
   * started with: overrides never leak from one step to the next.
   */
  lemma {:induction false} DispatchKeepsMix(steps: string, i: nat, s: Config.Settings,
                                            delegate: (char, int, Config.Settings) -> StepRun, overrides: Option<MixFlags>)
    requires i <= |steps| && Conforms(delegate, overrides)
    ensures Dispatch(steps, i, s, delegate).final ==
      s.(record := s.record.(monitorInput := Dispatch(steps, i, s, delegate).final.record.monitorInput))
    ensures forall k :: 0 <= k < |Dispatch(steps, i, s, delegate).trace| && Dispatch(steps, i, s, delegate).trace[k].call.MixCall? ==>
      Dispatch(steps, i, s, delegate).trace[k].call.settings.mix == Installed(s, overrides).mix &&
      Dispatch(steps, i, s, delegate).trace[k].call.settings.output == s.output &&
      Dispatch(steps, i, s, delegate).trace[k].call.withOptions == WithOptions(overrides)
    decreases |steps| - i
  {
    if i < |steps| && IsStep(steps[i]) {
      var r := delegate(steps[i], i, s);
      var rest := Dispatch(steps, i + 1, r.next, delegate);
      DispatchKeepsMix(steps, i + 1, r.next, delegate, overrides);
      assert Installed(r.next, overrides).mix == Installed(s, overrides).mix;
      var o := Dispatch(steps, i, s, delegate);
      if r.err.None? {
        assert o.trace == [Invocation(r.call, true)] + rest.trace;
      }
    }
  }

  /** DispatchKeepsMix, on one outcome. */
  lemma DispatchKeeps(steps: string, i: nat, s: Config.Settings, o: Outcome,
                      delegate: (char, int, Config.Settings) -> StepRun, overrides: Option<MixFlags>)
    requires i <= |steps| && Conforms(delegate, overrides) && o == Dispatch(steps, i, s, delegate)
    ensures o.final == s.(record := s.record.(monitorInput := o.final.record.monitorInput))
    ensures forall k :: 0 <= k < |o.trace| && o.trace[k].call.MixCall? ==>
      o.trace[k].call.settings.mix == Installed(s, overrides).mix &&
      o.trace[k].call.settings.output == s.output &&
      o.trace[k].call.withOptions == WithOptions(overrides)
  {
    DispatchKeepsMix(steps, i, s, delegate, overrides);
  }

  /**
   * executePipeline's three outcomes: nothing happens for an empty pipeline;
   * a pipeline without the start step is an error before any delegate runs;
   * otherwise the steps after the first occurrence of the start step run.
   */
  lemma ContinueCases(s: Config.Settings, pipeline: string, song: string, startStep: char, world: World, k: int)
    ensures pipeline == "" ==> Continue(s, pipeline, song, startStep, world) == Outcome(None, [], s)
    ensures pipeline != "" && startStep !in Text.ToLower(pipeline) ==>
      Continue(s, pipeline, song, startStep, world) == Outcome(Some(StepNotFound(startStep, pipeline)), [], s)
    ensures 0 <= k < |Text.ToLower(pipeline)| && Text.ToLower(pipeline)[k] == startStep && startStep !in Text.ToLower(pipeline)[..k] ==>
      Continue(s, pipeline, song, startStep, world) == Dispatch(Text.ToLower(pipeline), k + 1, s, Delegates(song, None, world))
  {
    Text.IndexChar(Text.ToLower(pipeline), startStep);
  }

  /**
   * After the first occurrence of the start step at k, exactly the later
   * steps run, one delegate each and in order, and the result is success
   * iff all of them ran and succeeded.
   */
  lemma ContinueRunsRest(s: Config.Settings, pipeline: string, song: string, startStep: char, world: World, k: int)
    requires 0 <= k < |Text.ToLower(pipeline)| && Text.ToLower(pipeline)[k] == startStep
    requires startStep !in Text.ToLower(pipeline)[..k]
    ensures var o, steps := Continue(s, pipeline, song, startStep, world), Text.ToLower(pipeline);
      && |o.trace| <= |steps| - (k + 1)
      && (forall m :: 0 <= m < |o.trace| ==> CallFor(o.trace[m].call, steps[k + 1 + m]))
      && (forall m :: 0 <= m < |o.trace| - 1 ==> o.trace[m].ok)
      && (o.err.None? <==> |o.trace| == |steps| - (k + 1) && forall m :: 0 <= m < |o.trace| ==> o.trace[m].ok)
  {
    var steps := Text.ToLower(pipeline);
    ContinueCases(s, pipeline, song, startStep, world, k);
    var o := Continue(s, pipeline, song, startStep, world);
    DelegatesConform(song, None, world);
    DispatchRuns(steps, k + 1, s, o, Delegates(song, None, world), None);
  }

  /**
   * On a pipeline validatePipeline accepts, the unknown-step branch is
   * unreachable: every error is a missing start step or a delegate's failure.
   */
  lemma ValidatedNeverUnknown(s: Config.Settings, pipeline: string, song: string, startStep: char, world: World)
    requires AllSteps(Text.ToLower(pipeline))
    ensures var o := Continue(s, pipeline, song, startStep, world);
      o.err.Some? ==> o.err.value.StepNotFound? || (|o.trace| > 0 && Reports(o.err.value, o.trace[|o.trace| - 1].call))
  {
    var steps := Text.ToLower(pipeline);
    var k := Text.Index(steps, [startStep]);
    var o := Continue(s, pipeline, song, startStep, world);
    if pipeline != "" && k != -1 {
      DelegatesConform(song, None, world);
      DispatchRuns(steps, k + 1, s, o, Delegates(song, None, world), None);
    }
  }

  /**
   * The continuation sees the config its caller left: every mix step runs
   * with the configured Mix group, through plain Mix, and afterwards only
   * the monitor input can differ.
   */
  lemma ContinuationSeesConfig(s: Config.Settings, pipeline: string, song: string, startStep: char, world: World)
    ensures var o := Continue(s, pipeline, song, startStep, world);
      && o.final == s.(record := s.record.(monitorInput := o.final.record.monitorInput))
      && forall m :: 0 <= m < |o.trace| && o.trace[m].call.MixCall? ==>
        o.trace[m].call.settings.mix == s.mix && o.trace[m].call.settings.output == s.output && !o.trace[m].call.withOptions
  {
    var steps := Text.ToLower(pipeline);
    var k := Text.Index(steps, [startStep]);
    var o := Continue(s, pipeline, song, startStep, world);
    if pipeline != "" && k != -1 {
      DelegatesConform(song, None, world);
      DispatchKeeps(steps, k + 1, s, o, Delegates(song, None, world), None);
    }
  }
}
