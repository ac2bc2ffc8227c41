/**
 * internal/config/config.go: the configuration record shared by every
 * command, its defaults table, tilde expansion of the output directory, and
 * the outcomes of Load.  viper is reduced to the two pieces of its state the
 * code touches (the registered defaults and the config file it writes) and
 * to what reading and decoding the file can yield.
 */
module Config {
  import opened Wrappers
  import opened Text
  import Paths

  datatype AudioConfig = AudioConfig(sampleRate: int, channels: int)
  datatype RecordConfig = RecordConfig(guitarInput: string, monitorInput: string)
  datatype MixConfig = MixConfig(guitarVolume: real, backingVolume: real, delayMs: int)
  datatype OutputConfig = OutputConfig(directory: string, format: string)

  /** The value held by a Config: its four groups. */
  datatype Settings = Settings(audio: AudioConfig, record: RecordConfig, mix: MixConfig, output: OutputConfig)

  /**
   * A *config.Config.  One object is shared by the commands, the recorder
   * (which fills in the monitor input) and the mixer (which overrides the Mix
   * group for one call), so it is a class whose groups are updated in place.
   */
  class Config {
    var audio: AudioConfig
    var record: RecordConfig
    var mix: MixConfig
    var output: OutputConfig

    constructor (s: Settings)
      ensures Value() == s
    {
      audio, record, mix, output := s.audio, s.record, s.mix, s.output;
    }

    function Value(): Settings
      reads this
    {
      Settings(audio, record, mix, output)
    }
  }

  const DefaultGuitarInput := "alsa_input.usb-Focusrite_Scarlett_2i2_USB_Y814JK8264026F-00.analog-stereo"

  /** The defaultConfig table, for a user whose home directory is `home`. */
  function Defaults(home: string): Settings {
    Settings(
      AudioConfig(48000, 2),
      RecordConfig(DefaultGuitarInput, ""),
      MixConfig(4.0, 0.8, 0),
      OutputConfig(Paths.Join(Paths.Join(home, "Audio"), "JamCapture"), "flac"))
  }

  // ------------------------------------------------------------ expandPath

  /** expandPath: a leading "~/" is replaced by the home directory; nothing else is touched. */
  function ExpandPath(path: string, home: string): string {
    if HasPrefix(path, "~/") then Paths.Join(home, path[2..]) else path
  }

  /** "~/rest" becomes the home directory joined with rest. */
  lemma ExpandTilde(rest: string, home: string)
    ensures ExpandPath("~/" + rest, home) == Paths.Join(home, rest)
  {
    assert HasPrefix("~/" + rest, "~/");
    assert ("~/" + rest)[2..] == rest;
  }

  /** A path without the "~/" prefix, "~" alone included, is returned unchanged. */
  lemma ExpandPathKeepsOthers(path: string, home: string)
    requires !HasPrefix(path, "~/")
    ensures ExpandPath(path, home) == path
    ensures ExpandPath("~", home) == "~"
  {
  }

  /** With an absolute home directory, expanding twice is expanding once. */
  lemma ExpandPathIdempotent(path: string, home: string)
    requires HasPrefix(home, "/")
    ensures ExpandPath(ExpandPath(path, home), home) == ExpandPath(path, home)
  {
    if HasPrefix(path, "~/") {
      var r := Paths.Join(home, path[2..]);
      assert r[0] == home[0] == '/';
      assert !HasPrefix(r, "~/");
    }
  }

  // ------------------------------------------------------- viper's settings

  /** The nine settings setDefaults registers, by their viper key. */
  datatype Key =
    | SampleRateKey | ChannelsKey
    | GuitarInputKey | MonitorInputKey
    | GuitarVolumeKey | BackingVolumeKey | DelayKey
    | DirectoryKey | FormatKey

  function KeyName(k: Key): string {
    match k
    case SampleRateKey => "audio.sample_rate"
    case ChannelsKey => "audio.channels"
    case GuitarInputKey => "record.guitar_input"
    case MonitorInputKey => "record.monitor_input"
    case GuitarVolumeKey => "mix.guitar_volume"
    case BackingVolumeKey => "mix.backing_volume"
    case DelayKey => "mix.delay_ms"
    case DirectoryKey => "output.directory"
    case FormatKey => "output.format"
  }

  /** A value as the YAML file or a SetDefault call supplies it. */
  datatype Value = IntValue(i: int) | RealValue(r: real) | TextValue(s: string)

  /** Every field of a Settings value under its key. */
  function Entries(s: Settings): map<Key, Value> {
    map[
      SampleRateKey := IntValue(s.audio.sampleRate),
      ChannelsKey := IntValue(s.audio.channels),
      GuitarInputKey := TextValue(s.record.guitarInput),
      MonitorInputKey := TextValue(s.record.monitorInput),
      GuitarVolumeKey := RealValue(s.mix.guitarVolume),
      BackingVolumeKey := RealValue(s.mix.backingVolume),
      DelayKey := IntValue(s.mix.delayMs),
      DirectoryKey := TextValue(s.output.directory),
      FormatKey := TextValue(s.output.format)]
  }

  /** The field of s under key k. */
  function Field(s: Settings, k: Key): Value {
    match k
    case SampleRateKey => IntValue(s.audio.sampleRate)
    case ChannelsKey => IntValue(s.audio.channels)
    case GuitarInputKey => TextValue(s.record.guitarInput)
    case MonitorInputKey => TextValue(s.record.monitorInput)
    case GuitarVolumeKey => RealValue(s.mix.guitarVolume)
    case BackingVolumeKey => RealValue(s.mix.backingVolume)
    case DelayKey => IntValue(s.mix.delayMs)
    case DirectoryKey => TextValue(s.output.directory)
    case FormatKey => TextValue(s.output.format)
  }

  /** Entries has a value for every key, and it is that key's field. */
  lemma EntriesTotal(s: Settings)
    ensures forall k: Key :: k in Entries(s) && Entries(s)[k] == Field(s, k)
  {
    forall k: Key ensures k in Entries(s) && Entries(s)[k] == Field(s, k) {
      match k
      case SampleRateKey =>
      case ChannelsKey =>
      case GuitarInputKey =>
      case MonitorInputKey =>
      case GuitarVolumeKey =>
      case BackingVolumeKey =>
      case DelayKey =>
      case DirectoryKey =>
      case FormatKey =>
    }
  }

  predicate IsIntKey(k: Key) {
    k == SampleRateKey || k == ChannelsKey || k == DelayKey
  }

  predicate IsRealKey(k: Key) {
    k == GuitarVolumeKey || k == BackingVolumeKey
  }

  /** Whether a value decodes into the field under k: integers into int fields, numbers into float64 fields, text into strings. */
  predicate Fits(k: Key, v: Value) {
    if IsIntKey(k) then v.IntValue?
    else if IsRealKey(k) then v.IntValue? || v.RealValue?
    else v.TextValue?
  }

  /** The value a fitting v takes once decoded into the field under k. */
  function Decoded(k: Key, v: Value): Value {
    if IsRealKey(k) && v.IntValue? then RealValue(v.i as real) else v
  }

  function IntField(m: map<Key, Value>, k: Key): Option<int> {
    if k !in m then Some(0) else if m[k].IntValue? then Some(m[k].i) else None
  }

  function RealField(m: map<Key, Value>, k: Key): Option<real> {
    if k !in m then Some(0.0)
    else match m[k]
      case IntValue(i) => Some(i as real)
      case RealValue(r) => Some(r)
      case TextValue(_) => None
  }

  function TextField(m: map<Key, Value>, k: Key): Option<string> {
    if k !in m then Some("") else if m[k].TextValue? then Some(m[k].s) else None
  }

  /** viper.Unmarshal into a Config: a missing key leaves the zero value, a value of the wrong kind is an error. */
  function Decode(m: map<Key, Value>): Option<Settings> {
    var sampleRate, channels := IntField(m, SampleRateKey), IntField(m, ChannelsKey);
    var guitarInput, monitorInput := TextField(m, GuitarInputKey), TextField(m, MonitorInputKey);
    var guitarVolume, backingVolume := RealField(m, GuitarVolumeKey), RealField(m, BackingVolumeKey);
    var delay := IntField(m, DelayKey);
    var directory, format := TextField(m, DirectoryKey), TextField(m, FormatKey);
    if sampleRate.Some? && channels.Some? && guitarInput.Some? && monitorInput.Some?
      && guitarVolume.Some? && backingVolume.Some? && delay.Some? && directory.Some? && format.Some?
    then
      Some(Settings(
        AudioConfig(sampleRate.value, channels.value),
        RecordConfig(guitarInput.value, monitorInput.value),
        MixConfig(guitarVolume.value, backingVolume.value, delay.value),
        OutputConfig(directory.value, format.value)))
    else None
  }

  /** Registering a Settings value and decoding it back gives the same value. */
  lemma DecodeEntries(s: Settings)
    ensures Decode(Entries(s)) == Some(s)
  {
  }

  lemma IntFieldFits(m: map<Key, Value>, k: Key)
    requires k in m && IsIntKey(k)
    ensures IntField(m, k).Some? <==> Fits(k, m[k])
    ensures IntField(m, k).Some? ==> IntValue(IntField(m, k).value) == Decoded(k, m[k])
  {
  }

  lemma RealFieldFits(m: map<Key, Value>, k: Key)
    requires k in m && IsRealKey(k)
    ensures RealField(m, k).Some? <==> Fits(k, m[k])
    ensures RealField(m, k).Some? ==> RealValue(RealField(m, k).value) == Decoded(k, m[k])
  {
  }

  lemma TextFieldFits(m: map<Key, Value>, k: Key)
    requires k in m && !IsIntKey(k) && !IsRealKey(k)
    ensures TextField(m, k).Some? <==> Fits(k, m[k])
    ensures TextField(m, k).Some? ==> TextValue(TextField(m, k).value) == Decoded(k, m[k])
  {
  }

  /** Decoding a map that has every key: it succeeds iff every value fits, and each field is its decoded value. */
  lemma DecodeByKey(m: map<Key, Value>)
    requires forall k: Key :: k in m
    ensures Decode(m).Some? <==> forall k: Key :: Fits(k, m[k])
    ensures Decode(m).Some? ==> forall k: Key :: Field(Decode(m).value, k) == Decoded(k, m[k])
  {
    IntFieldFits(m, SampleRateKey);
    IntFieldFits(m, ChannelsKey);
    IntFieldFits(m, DelayKey);
    RealFieldFits(m, GuitarVolumeKey);
    RealFieldFits(m, BackingVolumeKey);
    TextFieldFits(m, GuitarInputKey);
    TextFieldFits(m, MonitorInputKey);
    TextFieldFits(m, DirectoryKey);
    TextFieldFits(m, FormatKey);
    if forall k: Key :: Fits(k, m[k]) {
      assert Fits(SampleRateKey, m[SampleRateKey]) && Fits(ChannelsKey, m[ChannelsKey]) && Fits(DelayKey, m[DelayKey]);
      assert Fits(GuitarVolumeKey, m[GuitarVolumeKey]) && Fits(BackingVolumeKey, m[BackingVolumeKey]);
      assert Fits(GuitarInputKey, m[GuitarInputKey]) && Fits(MonitorInputKey, m[MonitorInputKey]);
      assert Fits(DirectoryKey, m[DirectoryKey]) && Fits(FormatKey, m[FormatKey]);
    }
    if Decode(m).Some? {
      forall k: Key ensures Fits(k, m[k]) && Field(Decode(m).value, k) == Decoded(k, m[k]) {
        match k
        case SampleRateKey =>
        case ChannelsKey =>
        case GuitarInputKey =>
        case MonitorInputKey =>
        case GuitarVolumeKey =>
        case BackingVolumeKey =>
        case DelayKey =>
        case DirectoryKey =>
        case FormatKey =>
      }
    }
  }

  /** Every field of a Settings value fits its key and decodes to itself. */
  lemma FieldFits(s: Settings, k: Key)
    ensures Fits(k, Field(s, k)) && Decoded(k, Field(s, k)) == Field(s, k)
  {
  }

  /**
   * Decoding a file over registered defaults: it succeeds exactly when every
   * value the file gives fits its field, and then every setting the file
   * gives wins while every other keeps its default.
   */
  lemma DecodeOverDefaults(base: Settings, file: map<Key, Value>)
    ensures Decode(Entries(base) + file).Some? <==> forall k :: k in file ==> Fits(k, file[k])
    ensures Decode(Entries(base) + file).Some? ==>
      var r := Decode(Entries(base) + file).value;
      forall k: Key :: Field(r, k) == if k in file then Decoded(k, file[k]) else Field(base, k)
  {
    var m := Entries(base) + file;
    EntriesTotal(base);
    assert forall k: Key :: m[k] == if k in file then file[k] else Field(base, k);
    forall k: Key {
      FieldFits(base, k);
    }
    DecodeByKey(m);
    if forall k :: k in file ==> Fits(k, file[k]) {
      assert forall k: Key :: Fits(k, m[k]);
    }
  }

  /** setDefaults: registers every field of the defaults table under its key. */
  class Viper {
    var defaults: map<Key, Value>
    var configFile: string

    constructor ()
      ensures defaults == map[] && configFile == ""
    {
      defaults, configFile := map[], "";
    }
  }

  method SetDefaults(v: Viper, table: Config)
    modifies v`defaults
    ensures v.defaults == Entries(table.Value())
  {
    v.defaults := v.defaults[SampleRateKey := IntValue(table.audio.sampleRate)];
    v.defaults := v.defaults[ChannelsKey := IntValue(table.audio.channels)];
    v.defaults := v.defaults[GuitarInputKey := TextValue(table.record.guitarInput)];
    v.defaults := v.defaults[MonitorInputKey := TextValue(table.record.monitorInput)];
    v.defaults := v.defaults[GuitarVolumeKey := RealValue(table.mix.guitarVolume)];
    v.defaults := v.defaults[BackingVolumeKey := RealValue(table.mix.backingVolume)];
    v.defaults := v.defaults[DelayKey := IntValue(table.mix.delayMs)];
    v.defaults := v.defaults[DirectoryKey := TextValue(table.output.directory)];
    v.defaults := v.defaults[FormatKey := TextValue(table.output.format)];
    EntriesTotal(table.Value());
  }

  // ---------------------------------------------------------------- loading

  /** What viper.ReadInConfig yields: no file, another read error, or the file's settings. */
  datatype ReadOutcome = FileNotFound | ReadFailed | FileRead(entries: map<Key, Value>)

  datatype ConfigError =
    | ReadError
    | UnmarshalError
    | CreateDirError(dir: string)
    | WriteError(path: string)

  function ConfigDir(home: string): string {
    Paths.Join(home, ".config")
  }

  function ConfigPath(home: string): string {
    Paths.Join(ConfigDir(home), "jamcapture.yaml")
  }

  /** Settings with the output directory tilde-expanded, the only field Load post-processes. */
  function Expanded(s: Settings, home: string): Settings {
    s.(output := s.output.(directory := ExpandPath(s.output.directory, home)))
  }

  /**
   * createDefaultConfig: make ~/.config, point viper at ~/.config/jamcapture.yaml,
   * write it, and hand back the defaults table object itself.
   */
  method CreateDefaultConfig(v: Viper, table: Config, home: string, mkdirOk: bool, writeOk: bool)
    returns (cfg: Config?, err: Option<ConfigError>)
    modifies v`configFile
    ensures !mkdirOk ==> cfg == null && err == Some(CreateDirError(ConfigDir(home))) && v.configFile == old(v.configFile)
    ensures mkdirOk ==> v.configFile == ConfigPath(home)
    ensures mkdirOk && !writeOk ==> cfg == null && err == Some(WriteError(ConfigPath(home)))
    ensures mkdirOk && writeOk ==> cfg == table && err == None
  {
    var configDir := Paths.Join(home, ".config");
    if !mkdirOk {
      return null, Some(CreateDirError(configDir));
    }
    var configPath := Paths.Join(configDir, "jamcapture.yaml");
    v.configFile := configPath;
    if !writeOk {
      return null, Some(WriteError(configPath));
    }
    return table, None;
  }

  /**
   * Load: register the defaults, read the file, and either fall back to
   * createDefaultConfig (no file), fail (any other read error, or a value that
   * does not decode), or return a fresh Config whose output directory is
   * tilde-expanded.  table is the package's defaultConfig, which holds
   * Defaults(home) when Load runs at start-up, home being $HOME.  viper's
   * config file is pointed at ~/.config/jamcapture.yaml exactly when the file
   * was missing and ~/.config could be made; otherwise it stays as it was.
   */
  method Load(v: Viper, table: Config, home: string, read: ReadOutcome, mkdirOk: bool, writeOk: bool)
    returns (cfg: Config?, err: Option<ConfigError>)
    requires table.Value() == Defaults(home)
    modifies v
    ensures v.defaults == Entries(Defaults(home))
    ensures read.FileNotFound? && mkdirOk ==> v.configFile == ConfigPath(home)
    ensures !(read.FileNotFound? && mkdirOk) ==> v.configFile == old(v.configFile)
    ensures cfg == null <==> err.Some?
    ensures read.FileNotFound? ==>
      && (!mkdirOk ==> err == Some(CreateDirError(ConfigDir(home))))
      && (mkdirOk && !writeOk ==> err == Some(WriteError(ConfigPath(home))))
      && (mkdirOk && writeOk ==> cfg == table && cfg.Value() == Defaults(home))
    ensures read.ReadFailed? ==> err == Some(ReadError)
    ensures read.FileRead? ==>
      match Decode(v.defaults + read.entries)
      case None => err == Some(UnmarshalError)
      case Some(s) => cfg != null && fresh(cfg) && cfg.Value() == Expanded(s, home)
    ensures read == FileRead(map[]) ==> cfg != null && cfg.Value() == Expanded(Defaults(home), home)
  {
    SetDefaults(v, table);
    assert v.defaults + map[] == Entries(Defaults(home));
    DecodeEntries(Defaults(home));
    match read
    case FileNotFound =>
      cfg, err := CreateDefaultConfig(v, table, home, mkdirOk, writeOk);
    case ReadFailed =>
      cfg, err := null, Some(ReadError);
    case FileRead(entries) =>
      match Decode(v.defaults + entries)
      case None =>
        cfg, err := null, Some(UnmarshalError);
      case Some(s) =>
        var config := s.(output := s.output.(directory := ExpandPath(s.output.directory, home)));
        cfg := new Config(config);
        err := None;
  }

  /**
   * With an absolute home directory the default output directory needs no
   * expansion, so Load hands back exactly the defaults for an empty file.
   */
  lemma DefaultsNeedNoExpansion(home: string)
    requires HasPrefix(home, "/")
    ensures Expanded(Defaults(home), home) == Defaults(home)
  {
    var dir := Defaults(home).output.directory;
    assert dir[0] == '/';
    assert !HasPrefix(dir, "~/");
  }
}
