/**
 * cmd/record.go: the record command records the song once and, once that
 * worked, continues the pipeline after its first r, with the monitor input
 * the recording left in the config.  The trace starts with the command's
 * own record call.
 */
module RecordCommand {
  import opened Wrappers
  import Text
  import Config
  import Mixing
  import Recording
  import opened Pipeline

  /** record's RunE with settings s: the specification RunE is proved against. */
  function RecordCommandScript(s: Config.Settings, pipeline: string, song: string, env: Recording.RecordEnv, world: World): Outcome {
    var run := Recording.RecordScript(s, song, env);
    var after := s.(record := s.record.(monitorInput := run.monitor));
    var own := Invocation(RecordCall(s), run.err.None?);
    if run.err.Some? then Outcome(Some(RecordingFailed(run.err.value)), [own], after)
    else Prepend([own], Continue(after, pipeline, song, 'r', world))
  }

  method RunE(cfg: Config.Config, pipeline: string, song: string, env: Recording.RecordEnv, world: World)
    returns (err: Option<CmdError>, ghost trace: seq<Invocation>)
    modifies cfg`record
    ensures var o := RecordCommandScript(old(cfg.Value()), pipeline, song, env, world);
      err == o.err && trace == o.trace && cfg.Value() == o.final
  {
    var before := cfg.Value();
    var recorder := new Recording.Recorder(cfg);
    var e, effects := recorder.Record(song, env);
    ghost var own := Invocation(RecordCall(before), e.None?);
    if e.Some? {
      return Some(RecordingFailed(e.value)), [own];
    }
    ghost var rest: seq<Invocation>;
    err, rest := ExecutePipeline(cfg, pipeline, song, 'r', world);
    trace := [own] + rest;
  }

  // ------------------------------------------------------------ properties

  /**
   * Record runs exactly once, first, and succeeds iff Record does; an error
   * stops the command before any pipeline step.
   */
  lemma RecordCommandOutcome(s: Config.Settings, pipeline: string, song: string, env: Recording.RecordEnv, world: World)
    ensures var o := RecordCommandScript(s, pipeline, song, env, world);
      && |o.trace| >= 1
      && o.trace[0] == Invocation(RecordCall(s), Recording.RecordScript(s, song, env).err.None?)
      && (!o.trace[0].ok ==> |o.trace| == 1 && o.err.Some? && o.err.value.RecordingFailed?)
  {
  }

  /**
   * After a successful recording, the command's result is the continuation's
   * after the first r, run with the monitor input Record left in the config;
   * a non-empty pipeline without an r is an error after the recording.
   */
  lemma RecordCommandContinues(s: Config.Settings, pipeline: string, song: string, env: Recording.RecordEnv, world: World)
    requires Recording.RecordScript(s, song, env).err.None?
    ensures var after := s.(record := s.record.(monitorInput := Recording.RecordScript(s, song, env).monitor));
      var o, c := RecordCommandScript(s, pipeline, song, env, world), Continue(after, pipeline, song, 'r', world);
      && o.err == c.err && o.trace == [Invocation(RecordCall(s), true)] + c.trace && o.final == c.final
      && (pipeline != "" && 'r' !in Text.ToLower(pipeline) ==> o.err == Some(StepNotFound('r', pipeline)) && |o.trace| == 1)
  {
    var after := s.(record := s.record.(monitorInput := Recording.RecordScript(s, song, env).monitor));
    ContinueCases(after, pipeline, song, 'r', world, 0);
  }

  /** Every mix step after a recording mixes the file the recording made. */
  lemma RecordThenMixSameFile(s: Config.Settings, pipeline: string, song: string, env: Recording.RecordEnv, world: World)
    ensures var o := RecordCommandScript(s, pipeline, song, env, world);
      forall m :: 0 <= m < |o.trace| && o.trace[m].call.MixCall? ==>
        Mixing.InputFile(o.trace[m].call.settings, song) == Recording.OutputFile(s, song)
  {
    var run := Recording.RecordScript(s, song, env);
    var after := s.(record := s.record.(monitorInput := run.monitor));
    if run.err.None? {
      var own := Invocation(RecordCall(s), true);
      var c := Continue(after, pipeline, song, 'r', world);
      assert RecordCommandScript(s, pipeline, song, env, world) == Prepend([own], c);
      ContinuationSeesConfig(after, pipeline, song, 'r', world);
      PrependKeepsOutput(own, c, s.output);
    }
  }

  /** A non-mix call in front of a trace adds no mix call, so every mix call still writes to out. */
  lemma PrependKeepsOutput(own: Invocation, c: Outcome, out: Config.OutputConfig)
    requires !own.call.MixCall?
    requires forall m :: 0 <= m < |c.trace| && c.trace[m].call.MixCall? ==> c.trace[m].call.settings.output == out
    ensures var o := Prepend([own], c);
      forall m :: 0 <= m < |o.trace| && o.trace[m].call.MixCall? ==> o.trace[m].call.settings.output == out
  {
    var o := Prepend([own], c);
    forall m | 0 <= m < |o.trace| && o.trace[m].call.MixCall? ensures o.trace[m].call.settings.output == out {
      assert o.trace[m] == c.trace[m - 1];
    }
  }
}
