/**
 * internal/record/recorder.go: Record resolves the monitor source (writing
 * the default sink's monitor back into the shared config when none is set),
 * validates the guitar and then the monitor source, creates the output
 * directory, removes the previous take, runs the capture, and judges the
 * outcome once the child has ended.  The device listings, the file system,
 * the child process and the interrupt race are inputs (RecordEnv); what
 * Record asks of them is returned as a list of effects.
 */
module Recording {
  import opened Wrappers
  import Config
  import Paths
  import FileNames
  import Audio
  import Mixing

  /**
   * How the capture ended, as the select statement sees it: an interrupt
   * arrived first (and forwarding it to the child worked or not), or the
   * child exited first (successfully or not).
   */
  datatype ChildEnd = Interrupted(signalDelivered: bool) | Exited(success: bool)

  /** The outside world's answers to one Record call. */
  datatype RecordEnv = RecordEnv(
    defaultSink: Audio.ToolRun,
    guitarSources: Audio.SourceQuery,
    monitorSources: Audio.SourceQuery,
    mkdirOk: bool,
    startOk: bool,
    end: ChildEnd,
    outputExists: bool)

  /** The ffmpeg capture Record starts: the two pulse inputs, the sample rate and the output file. */
  datatype Capture = Capture(guitar: string, monitor: string, sampleRate: int, output: string)

  /** What Record asks of the outside world, in order. */
  datatype Effect =
    | QueryDefaultSink
    | ValidateSource(name: string)
    | MakeDirs(dir: string)
    | Remove(path: string)
    | Spawn(capture: Capture)
    | SendInterrupt
    | Kill
    | AwaitExit
    | Stat(path: string)

  datatype RecordError =
    | MonitorLookupFailed(cause: Audio.AudioError)
    | InvalidGuitarInput(cause: Audio.AudioError)
    | InvalidMonitorInput(cause: Audio.AudioError)
    | CreateDirFailed
    | StartFailed
    | ProcessFailed
    | RecordingNotFound(path: string)

  /** A Record call's result, the monitor input the config holds afterwards, and the effects. */
  datatype RecordRun = RecordRun(err: Option<RecordError>, monitor: string, effects: seq<Effect>)

  function OutputFile(s: Config.Settings, song: string): string {
    Paths.Join(s.output.directory, FileNames.CleanFileName(song) + ".mkv")
  }

  /** The monitor source Record uses: the configured one, or the default sink's monitor when none is set. */
  function MonitorFor(s: Config.Settings, env: RecordEnv): Result<string, Audio.AudioError> {
    if s.record.monitorInput == "" then Audio.DefaultSinkMonitor(env.defaultSink)
    else Success(s.record.monitorInput)
  }

  function LookupEffects(s: Config.Settings): seq<Effect> {
    if s.record.monitorInput == "" then [QueryDefaultSink] else []
  }

  /** The effects from the capture's start to the observation of the child's exit, appended to done. */
  function AwaitEnd(end: ChildEnd, done: seq<Effect>): seq<Effect> {
    match end
    case Interrupted(delivered) =>
      var interrupted := done + [SendInterrupt];
      (if delivered then interrupted else interrupted + [Kill]) + [AwaitExit]
    case Exited(_) => done + [AwaitExit]
  }

  /** Everything from the directory creation on, once the monitor is known and both sources are valid. */
  function CaptureScript(s: Config.Settings, song: string, env: RecordEnv, monitor: string, done: seq<Effect>): RecordRun {
    var out := OutputFile(s, song);
    var made := done + [MakeDirs(s.output.directory)];
    if !env.mkdirOk then RecordRun(Some(CreateDirFailed), monitor, made)
    else
      var started := made + [Remove(out)] + [Spawn(Capture(s.record.guitarInput, monitor, s.audio.sampleRate, out))];
      if !env.startOk then RecordRun(Some(StartFailed), monitor, started)
      else
        var ended := AwaitEnd(env.end, started);
        if env.end == Exited(false) then RecordRun(Some(ProcessFailed), monitor, ended)
        else if !env.outputExists then RecordRun(Some(RecordingNotFound(out)), monitor, ended + [Stat(out)])
        else RecordRun(None, monitor, ended + [Stat(out)])
  }

  /** What Record does with settings s: the specification the Record method is proved against. */
  function RecordScript(s: Config.Settings, song: string, env: RecordEnv): RecordRun {
    var lookup := LookupEffects(s);
    match MonitorFor(s, env)
    case Failure(e) => RecordRun(Some(MonitorLookupFailed(e)), s.record.monitorInput, lookup)
    case Success(monitor) =>
      var guitar := s.record.guitarInput;
      var checkedGuitar := lookup + [ValidateSource(guitar)];
      match Audio.Validation(env.guitarSources, guitar)
      case Some(e) => RecordRun(Some(InvalidGuitarInput(e)), monitor, checkedGuitar)
      case None =>
        var checkedMonitor := checkedGuitar + [ValidateSource(monitor)];
        match Audio.Validation(env.monitorSources, monitor)
        case Some(e) => RecordRun(Some(InvalidMonitorInput(e)), monitor, checkedMonitor)
        case None => CaptureScript(s, song, env, monitor, checkedMonitor)
  }

  class Recorder {
    const cfg: Config.Config

    constructor (cfg: Config.Config)
      ensures this.cfg == cfg
    {
      this.cfg := cfg;
    }

    /** Record, against the settings the shared config holds when it is called. */
    method Record(song: string, env: RecordEnv) returns (err: Option<RecordError>, effects: seq<Effect>)
      modifies cfg`record
      ensures var r := RecordScript(old(cfg.Value()), song, env);
        && err == r.err && effects == r.effects
        && cfg.Value() == old(cfg.Value()).(record := old(cfg.record).(monitorInput := r.monitor))
    {
      ghost var s := cfg.Value();
      var guitarInput := cfg.record.guitarInput;
      effects := [];
      if cfg.record.monitorInput == "" {
        effects := [QueryDefaultSink];
        var monitor := Audio.DefaultSinkMonitor(env.defaultSink);
        if monitor.Failure? {
          return Some(MonitorLookupFailed(monitor.error)), effects;
        }
        cfg.record := cfg.record.(monitorInput := monitor.value);
      }
      assert MonitorFor(s, env) == Success(cfg.record.monitorInput);
      assert effects == LookupEffects(s);

      effects := effects + [ValidateSource(guitarInput)];
      var invalid := Audio.ValidateSource(env.guitarSources, guitarInput);
      if invalid.Some? {
        return Some(InvalidGuitarInput(invalid.value)), effects;
      }

      effects := effects + [ValidateSource(cfg.record.monitorInput)];
      invalid := Audio.ValidateSource(env.monitorSources, cfg.record.monitorInput);
      if invalid.Some? {
        return Some(InvalidMonitorInput(invalid.value)), effects;
      }

      effects := effects + [MakeDirs(cfg.output.directory)];
      if !env.mkdirOk {
        return Some(CreateDirFailed), effects;
      }

      var cleanName := FileNames.CleanFileName(song);
      var outputFile := Paths.Join(cfg.output.directory, cleanName + ".mkv");
      effects := effects + [Remove(outputFile)];

      var capture := Capture(guitarInput, cfg.record.monitorInput, cfg.audio.sampleRate, outputFile);
      effects := effects + [Spawn(capture)];
      if !env.startOk {
        return Some(StartFailed), effects;
      }

      match env.end {
        case Interrupted(delivered) =>
          effects := effects + [SendInterrupt];
          if !delivered {
            effects := effects + [Kill];
          }
          effects := effects + [AwaitExit];
        case Exited(success) =>
          effects := effects + [AwaitExit];
          if !success {
            return Some(ProcessFailed), effects;
          }
      }

      effects := effects + [Stat(outputFile)];
      if !env.outputExists {
        return Some(RecordingNotFound(outputFile)), effects;
      }
      return None, effects;
    }
  }

  // ------------------------------------------------------------ properties

  /** The config's monitor after Record: a set one is kept, an empty one becomes the default sink's monitor if found. */
  lemma MonitorWriteBack(s: Config.Settings, song: string, env: RecordEnv)
    ensures s.record.monitorInput != "" ==> RecordScript(s, song, env).monitor == s.record.monitorInput
    ensures s.record.monitorInput == "" && Audio.DefaultSinkMonitor(env.defaultSink).Success? ==>
      RecordScript(s, song, env).monitor == Audio.DefaultSinkMonitor(env.defaultSink).value
    ensures s.record.monitorInput == "" && Audio.DefaultSinkMonitor(env.defaultSink).Failure? ==>
      RecordScript(s, song, env).monitor == ""
  {
  }

  /** A failed monitor lookup is reported after the sink query alone, before any validation. */
  lemma LookupFailureStopsRecord(s: Config.Settings, song: string, env: RecordEnv)
    requires MonitorFor(s, env).Failure?
    ensures RecordScript(s, song, env).err == Some(MonitorLookupFailed(MonitorFor(s, env).error))
    ensures RecordScript(s, song, env).effects == [QueryDefaultSink]
  {
  }

  /** The effects every Record call starts with, as far as it gets. */
  function Preamble(s: Config.Settings, song: string, monitor: string): seq<Effect> {
    LookupEffects(s) + [ValidateSource(s.record.guitarInput)] + [ValidateSource(monitor)]
      + [MakeDirs(s.output.directory)] + [Remove(OutputFile(s, song))]
      + [Spawn(Capture(s.record.guitarInput, monitor, s.audio.sampleRate, OutputFile(s, song)))]
  }

  /**
   * Once the monitor is known, the guitar source is validated, then the
   * monitor source, then the directory is made, the previous take removed and
   * the capture started, each only if everything before it succeeded.
   */
  lemma RecordOrder(s: Config.Settings, song: string, env: RecordEnv)
    requires MonitorFor(s, env).Success?
    ensures var r, monitor := RecordScript(s, song, env), MonitorFor(s, env).value;
      var guitar := s.record.guitarInput;
      var checkedGuitar := LookupEffects(s) + [ValidateSource(guitar)];
      var checkedMonitor := checkedGuitar + [ValidateSource(monitor)];
      && (Audio.Validation(env.guitarSources, guitar).Some? ==> r.effects == checkedGuitar)
      && (Audio.Validation(env.guitarSources, guitar).None? ==>
          && (Audio.Validation(env.monitorSources, monitor).Some? ==> r.effects == checkedMonitor)
          && (Audio.Validation(env.monitorSources, monitor).None? ==>
              && (!env.mkdirOk ==> r.effects == checkedMonitor + [MakeDirs(s.output.directory)])
              && (env.mkdirOk && !env.startOk ==> r.effects == Preamble(s, song, monitor))
              && (env.mkdirOk && env.startOk ==> Preamble(s, song, monitor) < r.effects)))
  {
    var monitor := MonitorFor(s, env).value;
    var guitar := s.record.guitarInput;
    var checkedMonitor := LookupEffects(s) + [ValidateSource(guitar)] + [ValidateSource(monitor)];
    if Audio.Validation(env.guitarSources, guitar).None? && Audio.Validation(env.monitorSources, monitor).None? {
      assert RecordScript(s, song, env) == CaptureScript(s, song, env, monitor, checkedMonitor);
      if env.mkdirOk && env.startOk {
        AwaitEndExtends(env.end, Preamble(s, song, monitor));
      }
    }
  }

  /** Waiting for the child only appends to what was done before. */
  lemma AwaitEndExtends(end: ChildEnd, done: seq<Effect>)
    ensures done < AwaitEnd(end, done)
  {
    assert AwaitEnd(end, done)[..|done|] == done;
  }

  /** A source that does not validate stops Record before the directory is made or the previous take removed. */
  lemma InvalidSourceTouchesNothing(s: Config.Settings, song: string, env: RecordEnv)
    requires MonitorFor(s, env).Success?
    requires Audio.Validation(env.guitarSources, s.record.guitarInput).Some?
      || Audio.Validation(env.monitorSources, MonitorFor(s, env).value).Some?
    ensures var r := RecordScript(s, song, env);
      && r.err.Some? && (r.err.value.InvalidGuitarInput? || r.err.value.InvalidMonitorInput?)
      && MakeDirs(s.output.directory) !in r.effects
      && Remove(OutputFile(s, song)) !in r.effects
  {
  }

  /** Everything Record needs before the capture runs. */
  predicate Started(s: Config.Settings, env: RecordEnv) {
    && MonitorFor(s, env).Success?
    && Audio.Validation(env.guitarSources, s.record.guitarInput).None?
    && Audio.Validation(env.monitorSources, MonitorFor(s, env).value).None?
    && env.mkdirOk && env.startOk
  }

  /**
   * On an interrupt the child is sent SIGINT and killed if that fails, its
   * exit is awaited with its status ignored, and only then is the file
   * checked; the outcome then depends on the file alone.
   */
  lemma InterruptProtocol(s: Config.Settings, song: string, env: RecordEnv)
    requires Started(s, env) && env.end.Interrupted?
    ensures var r := RecordScript(s, song, env);
      var p := Preamble(s, song, MonitorFor(s, env).value);
      var interrupted := if env.end.signalDelivered then p + [SendInterrupt] else p + [SendInterrupt] + [Kill];
      && r.effects == interrupted + [AwaitExit] + [Stat(OutputFile(s, song))]
      && (r.err.None? <==> env.outputExists)
  {
  }

  /** A child that exits with an error, uninterrupted, fails the recording and the file is never checked. */
  lemma ChildFailureSkipsStat(s: Config.Settings, song: string, env: RecordEnv)
    requires Started(s, env) && env.end == Exited(false)
    ensures RecordScript(s, song, env).err == Some(ProcessFailed)
    ensures RecordScript(s, song, env).effects == Preamble(s, song, MonitorFor(s, env).value) + [AwaitExit]
    ensures Stat(OutputFile(s, song)) !in RecordScript(s, song, env).effects
  {
    PreambleChecksNoFile(s, song, MonitorFor(s, env).value);
  }

  /** No file is checked before the capture has ended. */
  lemma PreambleChecksNoFile(s: Config.Settings, song: string, monitor: string)
    ensures forall e :: e in Preamble(s, song, monitor) ==> !e.Stat?
  {
  }

  /** Record succeeds iff everything before the capture worked, the child did not fail on its own, and the file exists. */
  lemma RecordSucceedsIff(s: Config.Settings, song: string, env: RecordEnv)
    ensures RecordScript(s, song, env).err.None? <==>
      Started(s, env) && env.end != Exited(false) && env.outputExists
    ensures RecordScript(s, song, env).err.None? ==>
      var e := RecordScript(s, song, env).effects;
      |e| >= 2 && e[|e| - 2..] == [AwaitExit, Stat(OutputFile(s, song))]
  {
  }

  /** The file Record writes is the file Mix reads, also with the settings Record leaves behind. */
  lemma RecordWritesMixInput(s: Config.Settings, song: string, env: RecordEnv)
    ensures var after := s.(record := s.record.(monitorInput := RecordScript(s, song, env).monitor));
      OutputFile(s, song) == Mixing.InputFile(after, song)
  {
  }
}
