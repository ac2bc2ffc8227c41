/**
 * cmd/run.go: the run command executes a whole pipeline from its first
 * letter.  Its record and play steps are the step engine's; its mix step
 * displays the effective Mix values and calls MixWithOptions when any mix
 * flag is given, plain Mix otherwise.  An empty pipeline is an error.
 */
module RunCommand {
  import opened Wrappers
  import Text
  import Config
  import Mixing
  import Recording
  import opened Pipeline

  /** run's RunE with settings s: the specification RunE is proved against. */
  function RunScript(s: Config.Settings, pipeline: string, song: string, flags: MixFlags, world: World): Outcome {
    if pipeline == "" then Outcome(Some(NoPipeline), [], s)
    else Dispatch(Text.ToLower(pipeline), 0, s, Delegates(song, Some(flags), world))
  }

  /**
   * RunE: every letter in turn, from the first.  The trace records, for each
   * mix step, the settings with the displayed effective values installed.
   */
  method RunE(cfg: Config.Config, pipeline: string, song: string, flags: MixFlags, world: World)
    returns (err: Option<CmdError>, ghost trace: seq<Invocation>)
    modifies cfg`record, cfg`mix
    ensures var o := RunScript(old(cfg.Value()), pipeline, song, flags, world);
      err == o.err && trace == o.trace && cfg.Value() == o.final
  {
    trace := [];
    if pipeline == "" {
      return Some(NoPipeline), trace;
    }
    var steps := Text.ToLower(pipeline);
    StepsAreDispatch(steps, 0, cfg.Value(), song, Some(flags), world);
    err, trace := RunSteps(cfg, steps, song, flags, world);
  }

  /** run's step loop over the lower-cased pipeline. */
  method RunSteps(cfg: Config.Config, steps: string, song: string, flags: MixFlags, world: World)
    returns (err: Option<CmdError>, ghost trace: seq<Invocation>)
    modifies cfg`record, cfg`mix
    ensures var o := Steps(steps, 0, old(cfg.Value()), song, Some(flags), world);
      err == o.err && trace == o.trace && cfg.Value() == o.final
  {
    trace := [];
    ghost var s := cfg.Value();
    var i := 0;
    while i < |steps|
      invariant 0 <= i <= |steps|
      invariant Steps(steps, 0, s, song, Some(flags), world) == Prepend(trace, Steps(steps, i, cfg.Value(), song, Some(flags), world))
    {
      var step := steps[i];
      var before := cfg.Value();
      ghost var done: Invocation;
      if step == 'r' {
        var recorder := new Recording.Recorder(cfg);
        var e, _ := recorder.Record(song, world.record(i));
        if e.Some? {
          return Some(PipelineRecordFailed(e.value)), trace + [Invocation(RecordCall(before), false)];
        }
        done := Invocation(RecordCall(before), true);
      } else if step == 'm' {
        var e, _, call := MixStep(cfg, song, flags, world.mix(i));
        if e.Some? {
          return Some(PipelineMixFailed(e.value)), trace + [Invocation(call, false)];
        }
        done := Invocation(call, true);
      } else if step == 'p' {
        if !world.play(i) {
          return Some(PipelinePlayFailed), trace + [Invocation(PlayCall, false)];
        }
        done := Invocation(PlayCall, true);
      } else {
        return Some(UnknownStep(step)), trace;
      }
      var after := cfg.Value();
      assert Steps(steps, i, before, song, Some(flags), world) == Prepend([done], Steps(steps, i + 1, after, song, Some(flags), world));
      PrependTwice(trace, [done], Steps(steps, i + 1, after, song, Some(flags), world));
      trace := trace + [done];
      i := i + 1;
    }
    return None, trace;
  }

  /**
   * run's mix step: display the effective values, then mix through
   * MixWithOptions when any flag is given and through plain Mix otherwise.
   * The call recorded is the settings with the displayed values installed;
   * the error and the effects are the mixer's with those settings.
   */
  method MixStep(cfg: Config.Config, song: string, flags: MixFlags, env: Mixing.MixEnv)
    returns (err: Option<Mixing.MixError>, effects: seq<Mixing.Effect>, ghost call: Call)
    modifies cfg`mix
    ensures cfg.Value() == old(cfg.Value())
    ensures call == MixCall(Installed(old(cfg.Value()), Some(flags)), AnyOverride(flags))
    ensures Mixing.MixRun(err, effects) == Mixing.MixScript(Installed(old(cfg.Value()), Some(flags)), song, env)
  {
    var before := cfg.Value();
    var shown := EffectiveValues(cfg.mix, flags);
    var mixer := new Mixing.Mixer(cfg);
    var withOptions := flags.guitarVolume > 0.0 || flags.backingVolume > 0.0 || flags.delayMs >= 0;
    if withOptions {
      err, effects := mixer.MixWithOptions(song, flags.guitarVolume, flags.backingVolume, flags.delayMs, env);
    } else {
      err, effects := mixer.Mix(song, env);
    }
    ShownIsInstalled(before, flags);
    call := MixCall(before.(mix := shown), withOptions);
  }

  // ------------------------------------------------------------ properties

  /** An empty pipeline is refused before anything runs. */
  lemma RunNeedsPipeline(s: Config.Settings, song: string, flags: MixFlags, world: World)
    ensures RunScript(s, "", song, flags, world) == Outcome(Some(NoPipeline), [], s)
  {
  }

  /**
   * run executes the letters from the first, one delegate each and in order,
   * stopping at the first failure; it succeeds iff every letter ran and
   * succeeded.
   */
  lemma RunInOrder(s: Config.Settings, pipeline: string, song: string, flags: MixFlags, world: World)
    requires pipeline != ""
    ensures var o, steps := RunScript(s, pipeline, song, flags, world), Text.ToLower(pipeline);
      && |o.trace| <= |steps|
      && (forall m :: 0 <= m < |o.trace| ==> CallFor(o.trace[m].call, steps[m]))
      && (forall m :: 0 <= m < |o.trace| - 1 ==> o.trace[m].ok)
      && (o.err.None? <==> |o.trace| == |steps| && forall m :: 0 <= m < |o.trace| ==> o.trace[m].ok)
  {
    var o := RunScript(s, pipeline, song, flags, world);
    DelegatesConform(song, Some(flags), world);
    DispatchRuns(Text.ToLower(pipeline), 0, s, o, Delegates(song, Some(flags), world), Some(flags));
  }

  /**
   * run's own check for a letter that is not a step: such a letter is
   * reported at its own position, after every earlier step has run and
   * succeeded.  The root command validates the pipeline before run starts,
   * so on a validated pipeline this branch is never taken
   * (RunValidatedNeverUnknown).
   */
  lemma RunReportsUnknownStep(s: Config.Settings, pipeline: string, song: string, flags: MixFlags, world: World)
    ensures var o, steps := RunScript(s, pipeline, song, flags, world), Text.ToLower(pipeline);
      o.err.Some? && o.err.value.UnknownStep? ==>
        && |o.trace| < |steps| && !IsStep(steps[|o.trace|]) && o.err.value.step == steps[|o.trace|]
        && forall m :: 0 <= m < |o.trace| ==> o.trace[m].ok
  {
    if pipeline != "" {
      var o := RunScript(s, pipeline, song, flags, world);
      DelegatesConform(song, Some(flags), world);
      DispatchRuns(Text.ToLower(pipeline), 0, s, o, Delegates(song, Some(flags), world), Some(flags));
    }
  }

  /**
   * On a pipeline that validation accepts, run fails only for an empty
   * pipeline or with the failure of the step it ran last, never with the
   * unknown-step error.
   */
  lemma RunValidatedNeverUnknown(s: Config.Settings, pipeline: string, song: string, flags: MixFlags, world: World)
    requires AllSteps(Text.ToLower(pipeline))
    ensures var o := RunScript(s, pipeline, song, flags, world);
      o.err.Some? ==> o.err.value == NoPipeline || (|o.trace| > 0 && Reports(o.err.value, o.trace[|o.trace| - 1].call))
  {
    if pipeline != "" {
      var o := RunScript(s, pipeline, song, flags, world);
      DelegatesConform(song, Some(flags), world);
      DispatchRuns(Text.ToLower(pipeline), 0, s, o, Delegates(song, Some(flags), world), Some(flags));
    }
  }

  /**
   * Every mix step of run mixes with the flags installed over the configured
   * group (MixWithOptions exactly when a flag is given), and the overrides
   * are gone afterwards: only the monitor input can change.
   */
  lemma RunMixesWithFlags(s: Config.Settings, pipeline: string, song: string, flags: MixFlags, world: World)
    ensures var o := RunScript(s, pipeline, song, flags, world);
      && o.final == s.(record := s.record.(monitorInput := o.final.record.monitorInput))
      && forall m :: 0 <= m < |o.trace| && o.trace[m].call.MixCall? ==>
        && o.trace[m].call.settings.mix == Mixing.Overridden(s.mix, flags.guitarVolume, flags.backingVolume, flags.delayMs)
        && o.trace[m].call.withOptions == AnyOverride(flags)
  {
    if pipeline != "" {
      var o := RunScript(s, pipeline, song, flags, world);
      DelegatesConform(song, Some(flags), world);
      DispatchKeeps(Text.ToLower(pipeline), 0, s, o, Delegates(song, Some(flags), world), Some(flags));
      ShownIsInstalled(s, flags);
    }
  }
}
