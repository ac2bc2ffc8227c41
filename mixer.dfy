/**
 * internal/mix/mixer.go: Mix derives the input and output paths from the
 * song name, checks the input, removes the old output, runs ffmpeg with a
 * filter whose shape depends on the delay, and checks the output;
 * MixWithOptions overrides the Mix group of the shared config for one call
 * and restores it afterwards.  The file system and ffmpeg are inputs
 * (MixEnv); what Mix asks of them is returned as a list of effects.
 */
module Mixing {
  import opened Wrappers
  import Config
  import Paths
  import FileNames

  /** The -filter_complex graph, by branch: with the backing track delayed, or without. */
  datatype Filter =
    | DelayedMix(guitarVolume: real, backingVolume: real, delayMs: int)
    | PlainMix(guitarVolume: real, backingVolume: real)

  /** The ffmpeg command line Mix builds. */
  datatype FfmpegJob = FfmpegJob(
    input: string, filter: Filter, channels: int, sampleRate: int, codec: string, output: string)

  /** What Mix asks of the outside world, in order. */
  datatype Effect = Stat(path: string) | Remove(path: string) | RunFfmpeg(job: FfmpegJob)

  /** The outside world's answers: does the input exist, does ffmpeg succeed, does the output then exist. */
  datatype MixEnv = MixEnv(inputExists: bool, ffmpegOk: bool, outputExists: bool)

  datatype MixError =
    | InputNotFound(path: string)
    | FfmpegFailed
    | OutputNotCreated(path: string)

  /** A Mix call's result and the effects it had. */
  datatype MixRun = MixRun(err: Option<MixError>, effects: seq<Effect>)

  function InputFile(s: Config.Settings, song: string): string {
    Paths.Join(s.output.directory, FileNames.CleanFileName(song) + ".mkv")
  }

  function OutputFile(s: Config.Settings, song: string): string {
    Paths.Join(s.output.directory, FileNames.CleanFileName(song) + "." + s.output.format)
  }

  /** The filter for a Mix group: the delayed graph exactly when the delay is positive. */
  function FilterFor(m: Config.MixConfig): (f: Filter)
    ensures f.DelayedMix? <==> m.delayMs > 0
    ensures f.guitarVolume == m.guitarVolume && f.backingVolume == m.backingVolume
    ensures f.DelayedMix? ==> f.delayMs == m.delayMs
  {
    if m.delayMs > 0 then DelayedMix(m.guitarVolume, m.backingVolume, m.delayMs)
    else PlainMix(m.guitarVolume, m.backingVolume)
  }

  function JobFor(s: Config.Settings, song: string): FfmpegJob {
    FfmpegJob(InputFile(s, song), FilterFor(s.mix), s.audio.channels, s.audio.sampleRate,
      s.output.format, OutputFile(s, song))
  }

  /** What Mix does with settings s: the specification the Mix method is proved against. */
  function MixScript(s: Config.Settings, song: string, env: MixEnv): MixRun {
    var input, output := InputFile(s, song), OutputFile(s, song);
    if !env.inputExists then MixRun(Some(InputNotFound(input)), [Stat(input)])
    else
      var ran := [Stat(input), Remove(output), RunFfmpeg(JobFor(s, song))];
      if !env.ffmpegOk then MixRun(Some(FfmpegFailed), ran)
      else if !env.outputExists then MixRun(Some(OutputNotCreated(output)), ran + [Stat(output)])
      else MixRun(None, ran + [Stat(output)])
  }

  /** The Mix group MixWithOptions installs: each override where it is given, the original elsewhere. */
  function Overridden(m: Config.MixConfig, guitarVol: real, backingVol: real, delayMs: int): Config.MixConfig {
    Config.MixConfig(
      if guitarVol > 0.0 then guitarVol else m.guitarVolume,
      if backingVol > 0.0 then backingVol else m.backingVolume,
      if delayMs >= 0 then delayMs else m.delayMs)
  }

  class Mixer {
    const cfg: Config.Config

    constructor (cfg: Config.Config)
      ensures this.cfg == cfg
    {
      this.cfg := cfg;
    }

    /** Mix, against the settings the shared config holds when it is called. */
    method Mix(song: string, env: MixEnv) returns (err: Option<MixError>, effects: seq<Effect>)
      ensures MixRun(err, effects) == MixScript(cfg.Value(), song, env)
    {
      var cleanName := FileNames.CleanFileName(song);
      var inputFile := Paths.Join(cfg.output.directory, cleanName + ".mkv");
      var outputFile := Paths.Join(cfg.output.directory, cleanName + "." + cfg.output.format);
      effects := [Stat(inputFile)];
      if !env.inputExists {
        return Some(InputNotFound(inputFile)), effects;
      }
      effects := effects + [Remove(outputFile)];
      var mixFilter: Filter;
      if cfg.mix.delayMs > 0 {
        mixFilter := DelayedMix(cfg.mix.guitarVolume, cfg.mix.backingVolume, cfg.mix.delayMs);
      } else {
        mixFilter := PlainMix(cfg.mix.guitarVolume, cfg.mix.backingVolume);
      }
      var job := FfmpegJob(inputFile, mixFilter, cfg.audio.channels, cfg.audio.sampleRate, cfg.output.format, outputFile);
      effects := effects + [RunFfmpeg(job)];
      if !env.ffmpegOk {
        return Some(FfmpegFailed), effects;
      }
      effects := effects + [Stat(outputFile)];
      if !env.outputExists {
        return Some(OutputNotCreated(outputFile)), effects;
      }
      return None, effects;
    }

    /**
     * MixWithOptions: install the overrides in the shared config, run Mix,
     * and put the three original values back whatever Mix returned.
     */
    method MixWithOptions(song: string, guitarVol: real, backingVol: real, delayMs: int, env: MixEnv)
      returns (err: Option<MixError>, effects: seq<Effect>)
      modifies cfg`mix
      ensures cfg.Value() == old(cfg.Value())
      ensures MixRun(err, effects) ==
        MixScript(old(cfg.Value()).(mix := Overridden(old(cfg.mix), guitarVol, backingVol, delayMs)), song, env)
    {
      var originalGuitarVol := cfg.mix.guitarVolume;
      var originalBackingVol := cfg.mix.backingVolume;
      var originalDelay := cfg.mix.delayMs;

      if guitarVol > 0.0 {
        cfg.mix := cfg.mix.(guitarVolume := guitarVol);
      }
      if backingVol > 0.0 {
        cfg.mix := cfg.mix.(backingVolume := backingVol);
      }
      if delayMs >= 0 {
        cfg.mix := cfg.mix.(delayMs := delayMs);
      }

      err, effects := Mix(song, env);

      cfg.mix := cfg.mix.(guitarVolume := originalGuitarVol);
      cfg.mix := cfg.mix.(backingVolume := originalBackingVol);
      cfg.mix := cfg.mix.(delayMs := originalDelay);
    }
  }

  // ------------------------------------------------------------ properties

  /** Every effect Mix can have, in the order it has them. */
  function AllEffects(s: Config.Settings, song: string): seq<Effect> {
    [Stat(InputFile(s, song)), Remove(OutputFile(s, song)), RunFfmpeg(JobFor(s, song)), Stat(OutputFile(s, song))]
  }

  /**
   * Mix's effects are always a prefix of AllEffects: the input check alone
   * when the input is missing (so nothing is removed and ffmpeg does not run),
   * up to the ffmpeg run when it fails, and all four otherwise.
   */
  lemma MixOrder(s: Config.Settings, song: string, env: MixEnv)
    ensures var r := MixScript(s, song, env);
      && |r.effects| == (if !env.inputExists then 1 else if !env.ffmpegOk then 3 else 4)
      && r.effects == AllEffects(s, song)[..|r.effects|]
  {
  }

  /** The error cases, each with the path it names. */
  lemma MixErrors(s: Config.Settings, song: string, env: MixEnv)
    ensures !env.inputExists ==> MixScript(s, song, env).err == Some(InputNotFound(InputFile(s, song)))
    ensures env.inputExists && !env.ffmpegOk ==> MixScript(s, song, env).err == Some(FfmpegFailed)
    ensures env.inputExists && env.ffmpegOk && !env.outputExists ==>
      MixScript(s, song, env).err == Some(OutputNotCreated(OutputFile(s, song)))
  {
  }

  /** Mix succeeds iff the input exists, ffmpeg succeeds and the output then exists. */
  lemma MixSucceedsIff(s: Config.Settings, song: string, env: MixEnv)
    ensures MixScript(s, song, env).err.None? <==> env.inputExists && env.ffmpegOk && env.outputExists
  {
  }

  /** The ffmpeg run, whenever there is one, uses the delayed filter iff the configured delay is positive. */
  lemma MixFilterBranch(s: Config.Settings, song: string, env: MixEnv, job: FfmpegJob)
    requires RunFfmpeg(job) in MixScript(s, song, env).effects
    ensures job.filter.DelayedMix? <==> s.mix.delayMs > 0
    ensures job.filter.guitarVolume == s.mix.guitarVolume && job.filter.backingVolume == s.mix.backingVolume
    ensures job.input == InputFile(s, song) && job.output == OutputFile(s, song) && job.codec == s.output.format
  {
  }

  /** With no override given (the flag defaults 0, 0 and -1), the installed group is the original. */
  lemma NoOverrideKeepsGroup(m: Config.MixConfig)
    ensures Overridden(m, 0.0, 0.0, -1) == m
  {
  }

  /** Overriding with the values already installed changes nothing: overrides are final, not cumulative. */
  lemma OverrideIdempotent(m: Config.MixConfig, guitarVol: real, backingVol: real, delayMs: int)
    ensures var o := Overridden(m, guitarVol, backingVol, delayMs);
      Overridden(o, guitarVol, backingVol, delayMs) == o
  {
  }
}
