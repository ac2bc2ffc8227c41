/**
 * cmd/mix.go: the mix command displays the effective Mix values, mixes the
 * song (through MixWithOptions when any mix flag is given, plain Mix
 * otherwise) and, once that worked, continues the pipeline after its first
 * m.  The trace starts with the command's own mix call.
 */
module MixCommand {
  import opened Wrappers
  import Text
  import Config
  import Mixing
  import opened Pipeline

  /** mix's RunE with settings s: the specification RunE is proved against. */
  function MixCommandScript(s: Config.Settings, pipeline: string, song: string, flags: MixFlags, env: Mixing.MixEnv, world: World): Outcome {
    var during := Installed(s, Some(flags));
    var run := Mixing.MixScript(during, song, env);
    var own := Invocation(MixCall(during, AnyOverride(flags)), run.err.None?);
    if run.err.Some? then Outcome(Some(MixingFailed(run.err.value)), [own], s)
    else Prepend([own], Continue(s, pipeline, song, 'm', world))
  }

  method RunE(cfg: Config.Config, pipeline: string, song: string, flags: MixFlags, env: Mixing.MixEnv, world: World)
    returns (err: Option<CmdError>, ghost trace: seq<Invocation>)
    modifies cfg`record, cfg`mix
    ensures var o := MixCommandScript(old(cfg.Value()), pipeline, song, flags, env, world);
      err == o.err && trace == o.trace && cfg.Value() == o.final
  {
    var before := cfg.Value();
    var shown := EffectiveValues(cfg.mix, flags);
    var mixer := new Mixing.Mixer(cfg);
    var withOptions := flags.guitarVolume > 0.0 || flags.backingVolume > 0.0 || flags.delayMs >= 0;
    var e: Option<Mixing.MixError>, effects: seq<Mixing.Effect>;
    if withOptions {
      e, effects := mixer.MixWithOptions(song, flags.guitarVolume, flags.backingVolume, flags.delayMs, env);
    } else {
      e, effects := mixer.Mix(song, env);
    }
    ShownIsInstalled(before, flags);
    ghost var own := Invocation(MixCall(before.(mix := shown), withOptions), e.None?);
    if e.Some? {
      return Some(MixingFailed(e.value)), [own];
    }
    ghost var rest: seq<Invocation>;
    err, rest := ExecutePipeline(cfg, pipeline, song, 'm', world);
    trace := [own] + rest;
  }

  /**
   * The command's own mix uses the displayed values and succeeds iff Mix
   * does; an error stops the command before any pipeline step.
   */
  lemma MixCommandOutcome(s: Config.Settings, pipeline: string, song: string, flags: MixFlags, env: Mixing.MixEnv, world: World)
    ensures var o := MixCommandScript(s, pipeline, song, flags, env, world);
      && |o.trace| >= 1
      && o.trace[0].call == MixCall(s.(mix := Mixing.Overridden(s.mix, flags.guitarVolume, flags.backingVolume, flags.delayMs)), AnyOverride(flags))
      && (o.trace[0].ok <==> env.inputExists && env.ffmpegOk && env.outputExists)
      && (!o.trace[0].ok ==> |o.trace| == 1 && o.err.Some? && o.err.value.MixingFailed? && o.final == s)
  {
    ShownIsInstalled(s, flags);
    Mixing.MixSucceedsIff(Installed(s, Some(flags)), song, env);
  }

  /**
   * After a successful mix, the command's result is the continuation's
   * after its first m, run against the restored config (plain Mix, the
   * configured Mix group); a non-empty pipeline without an m is an error
   * after the mix.
   */
  lemma MixCommandContinues(s: Config.Settings, pipeline: string, song: string, flags: MixFlags, env: Mixing.MixEnv, world: World)
    requires env.inputExists && env.ffmpegOk && env.outputExists
    ensures var o, c := MixCommandScript(s, pipeline, song, flags, env, world), Continue(s, pipeline, song, 'm', world);
      && o.err == c.err && o.trace[1..] == c.trace && o.final == c.final
      && (forall m :: 1 <= m < |o.trace| && o.trace[m].call.MixCall? ==>
        o.trace[m].call.settings.mix == s.mix && !o.trace[m].call.withOptions)
      && (pipeline != "" && 'm' !in Text.ToLower(pipeline) ==> o.err == Some(StepNotFound('m', pipeline)) && |o.trace| == 1)
  {
    Mixing.MixSucceedsIff(Installed(s, Some(flags)), song, env);
    ContinuationSeesConfig(s, pipeline, song, 'm', world);
    ContinueCases(s, pipeline, song, 'm', world, 0);
    var o, c := MixCommandScript(s, pipeline, song, flags, env, world), Continue(s, pipeline, song, 'm', world);
    assert o.trace[1..] == c.trace;
    forall m | 1 <= m < |o.trace| ensures o.trace[m] == c.trace[m - 1] {
    }
  }
}
