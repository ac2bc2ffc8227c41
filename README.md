# JamCapture, modelled in Dafny

JamCapture is a command-line tool for practising guitar over a backing
track. `record` captures two PulseAudio/PipeWire inputs into a two-track
`.mkv` file with ffmpeg: the guitar, and the monitor of the default sink.
`mix` turns that file into a mixed file (FLAC by default), with per-track
volumes and a delay that compensates for Bluetooth latency. `play` plays
the result. A pipeline string such as `rmp` chains these steps: `run`
executes the whole pipeline, while `record` and `mix` continue it after
their own step.

This project models the core of that tool and proves what it promises:

- **Pipeline**: the step-sequence engine (`validatePipeline`, `executePipeline`).
- **RunCommand**, **MixCommand**, **RecordCommand**: the three commands that drive it.
- **Mixing**: the mixer, including the scoped override of the Mix settings in `MixWithOptions`.
- **FileNames**: the file-name sanitiser `cleanFileName`.
- **Recording**: the recorder's decision sequence.
- **Audio**: the PulseAudio/PipeWire device-list parsers and source validation.
- **Config**: the configuration helpers `expandPath`, the defaults table, `setDefaults`, `Load` and `createDefaultConfig`.

Supporting modules:

- **Wrappers**: `Option` and `Result`.
- **Text**: Go's `strings` functions as the core uses them.
- **Paths**: `filepath.Join` on two non-empty elements.

The shared `*config.Config` is a class, not a value. The recorder writes
the monitor input back into it. `MixWithOptions` overwrites its Mix group
and then restores it.

Every outside program and every file-system answer is an input:

| input | comes from |
|---|---|
| `ToolRun` | a run of pactl or pw-cli: its standard output, or a failure |
| `SourceQuery` | the two listing runs of one `ListSources` call |
| `MixEnv` | for Mix: does the input exist, does ffmpeg succeed, does the output then exist |
| `RecordEnv` | for Record: the sink query, the two listings, mkdir, process start, how the child ended, does the file exist |
| `World` | the same answers for the step at each position of a pipeline, and whether playback succeeds |
| `ReadOutcome` | viper's attempt to read the config file |

Each operation that changes state is an imperative method. It is proved
equal to a script function of the old state and the inputs:

- `Mix` against `MixScript`;
- `Record` against `RecordScript`;
- `ExecutePipeline` against `Continue`;
- each command's `RunE` against its own script.

The script functions give back up to three things:

- the error;
- the effects asked of the world, or the trace of delegate calls;
- the new config settings.

The properties are lemmas about those functions. Among them:

- the step engine's fail-fast and suffix behaviour;
- the restoring of the Mix group;
- the recorder's interrupt protocol;
- the meaning of the two parsers.

## Model

| member | source | states |
|---|---|---|
| Pipeline.ValidatePipeline | cmd/pipeline.go:66-85 | the empty pipeline passes; it passes iff every lower-cased letter is r, m or p; otherwise it names the first offending letter, every letter before it being a step |
| Pipeline.ValidationExamples | cmd/pipeline.go:71-82 | "RMP" and "rrm" pass; "rmx" fails, and 'x' is its first letter that is not a step |
| Pipeline.EffectiveValues | cmd/run.go:51-63 | the displayed values are the override rule MixWithOptions applies: a gain flag above 0 or a delay flag of 0 or more replaces the configured value, and the flag defaults replace nothing |
| Pipeline.ShownIsInstalled | cmd/run.go:72-76 | whichever of Mix and MixWithOptions is chosen, the settings mixed with are the configured ones with the displayed values installed, so without a flag plain Mix mixes with exactly the displayed values |
| Pipeline.Step | cmd/pipeline.go:36-57 | each step letter calls its own delegate; a failure is wrapped as that delegate's kind of error; only the monitor input can change; a mix step runs with the installed settings |
| Pipeline.ExecutePipeline | cmd/pipeline.go:11-64 | executePipeline is exactly Continue: its result, its trace of delegate calls, and the config settings it leaves; the search for the start step finds its first occurrence |
| Pipeline.RunFrom | cmd/pipeline.go:32-61 | executePipeline's step loop from a given position is exactly Steps from the settings it starts with: its result, its trace and the settings it leaves |
| Pipeline.StepsAreDispatch | cmd/pipeline.go:32-61 | the step loop that calls the delegates directly is the generic dispatch over those delegates |
| Pipeline.DelegatesConform | cmd/pipeline.go:36-60 | the concrete delegates satisfy the contract that the generic Dispatch lemmas assume |
| Pipeline.DispatchInOrder | cmd/pipeline.go:32-57 | the delegate calls follow the pipeline's letters in order, one per letter, never past the end |
| Pipeline.DispatchFailFast | cmd/pipeline.go:39-59 | every call except the last succeeded; the run succeeds iff every letter ran and succeeded; an error is either the last call's failure, wrapped by its kind, or a letter that is not a step, reached after successful calls |
| Pipeline.DispatchKeepsMix | cmd/pipeline.go:44-49 | along a run only the monitor input can change; every mix step sees the Mix group Installed gives for the starting settings, and the configured output group |
| Pipeline.ContinueCases | cmd/pipeline.go:12-29 | an empty pipeline does nothing and succeeds; a pipeline without the start step fails before any delegate runs; otherwise the run resumes after the first occurrence of the start step |
| Pipeline.ContinueRunsRest | cmd/pipeline.go:32-61 | exactly the letters after the resume point run, in order, fail-fast, and the run succeeds iff all of them ran and succeeded |
| Pipeline.ValidatedNeverUnknown | cmd/pipeline.go:58-59 | on a pipeline that validation accepts, every error is a missing start step or a delegate's failure, never the unknown-step error |
| Pipeline.ContinuationSeesConfig | cmd/pipeline.go:44-49 | the continuation's mix steps call plain Mix, with the configured Mix and output groups; afterwards only the monitor input can differ |
| RunCommand.RunE | cmd/run.go:19-97 | run's RunE is exactly RunScript: its result, its trace and its final settings |
| RunCommand.RunSteps | cmd/run.go:28-96 | run's loop over the lower-cased pipeline is exactly Steps with the command's flags: its result, its trace and its final settings |
| RunCommand.MixStep | cmd/run.go:44-80 | run's mix step leaves the config as it found it; it mixes with the flags installed over the configured group, through MixWithOptions exactly when a flag is given, and its error and its effects on the world are exactly Mix's with those settings |
| RunCommand.RunNeedsPipeline | cmd/run.go:22-24 | an empty pipeline is an error before any step runs |
| RunCommand.RunInOrder | cmd/run.go:26-96 | the letters run from the first, in order, fail-fast; success iff every letter ran and succeeded |
| RunCommand.RunReportsUnknownStep | cmd/run.go:91-92 | a letter that is not a step is reported at its own position, after every earlier step ran and succeeded |
| RunCommand.RunValidatedNeverUnknown | cmd/run.go:91-92 | on a pipeline that validation accepts, every error of run is the empty-pipeline error or the failure of the step it ran last, never the unknown-step error |
| RunCommand.RunMixesWithFlags | cmd/run.go:44-81 | every mix step mixes with the flags installed over the configured group, through MixWithOptions exactly when a flag is given; afterwards only the monitor input can differ |
| MixCommand.RunE | cmd/mix.go:16-60 | mix's RunE is exactly MixCommandScript: its result, its trace and its final settings |
| MixCommand.MixCommandOutcome | cmd/mix.go:44-54 | the command's own mix uses the displayed values and succeeds iff Mix does; a failure stops the command with no pipeline step |
| MixCommand.MixCommandContinues | cmd/mix.go:59 | after a successful mix the result is the continuation after the first m, against the restored config (plain Mix, configured Mix group); a non-empty pipeline without m fails after the mix |
| RecordCommand.RunE | cmd/record.go:16-34 | record's RunE is exactly RecordCommandScript: its result, its trace and its final settings |
| RecordCommand.RecordCommandOutcome | cmd/record.go:24-28 | Record runs once, first; a failure stops the command with no pipeline step |
| RecordCommand.RecordCommandContinues | cmd/record.go:33 | after a successful recording the result is the continuation after the first r, with the monitor input Record left; a non-empty pipeline without r fails after the recording |
| RecordCommand.RecordThenMixSameFile | cmd/record.go:33 | every mix step after a recording reads the file the recording wrote |
| Mixing.FilterFor | internal/mix/mixer.go:35-52 | the delayed filter iff the delay is positive, carrying the configured volumes and delay |
| Mixing.Mixer.constructor | internal/mix/mixer.go:17-19 | the mixer shares the config object it is given |
| Mixing.Mixer.Mix | internal/mix/mixer.go:21-83 | Mix's error and effects are exactly MixScript of the config's current settings |
| Mixing.Mixer.MixWithOptions | internal/mix/mixer.go:85-109 | the config's settings equal their old value when it returns, whatever Mix returned; the result is Mix's, run with each override installed where given (gain above 0, delay 0 or more) and the original elsewhere |
| Mixing.MixOrder | internal/mix/mixer.go:26-79 | the effects are a prefix of stat input, remove output, run ffmpeg, stat output: the first alone if the input is missing, three if ffmpeg fails, otherwise all four |
| Mixing.MixErrors | internal/mix/mixer.go:27-79 | a missing input and a missing output each give their own error naming that file; a failed ffmpeg gives the ffmpeg error |
| Mixing.MixSucceedsIff | internal/mix/mixer.go:27-82 | Mix succeeds iff the input exists, ffmpeg succeeds and the output then exists |
| Mixing.MixFilterBranch | internal/mix/mixer.go:22-74 | an ffmpeg run uses the delayed filter iff the delay is positive, with the configured volumes; it reads dir/clean.mkv, writes dir/clean.format, and uses the format as codec |
| Mixing.NoOverrideKeepsGroup | internal/mix/mixer.go:91-99 | the flag defaults 0, 0 and -1 leave the Mix group as it is |
| Mixing.OverrideIdempotent | internal/mix/mixer.go:91-99 | installing the same overrides twice is installing them once |
| FileNames.StripDisallowedAllowed | internal/mix/mixer.go:112-113 | the regular-expression replace leaves only ASCII letters, digits and spaces |
| FileNames.CleanFileNameAlphabet | internal/mix/mixer.go:111-116 | a cleaned name consists of ASCII letters, digits and '_' only |
| FileNames.CleanFileNameEdges | internal/mix/mixer.go:111-116 | a cleaned name neither starts nor ends with '_' |
| FileNames.CleanFileNameKeepsAlnums | internal/mix/mixer.go:111-116 | deleting the '_' from a cleaned name gives the input's ASCII letters and digits, in order |
| FileNames.TrimAllowedKept | internal/mix/mixer.go:114 | trimming a filtered name keeps it filtered and leaves a letter or digit at each end |
| Recording.Recorder.constructor | internal/record/recorder.go:21-26 | the recorder shares the config object it is given |
| Recording.Recorder.Record | internal/record/recorder.go:28-113 | Record's error and effects are exactly RecordScript of the config's settings; the config then differs at most in its monitor input, which becomes RecordScript's monitor |
| Recording.MonitorWriteBack | internal/record/recorder.go:31-37 | a set monitor input is kept; an empty one becomes the default sink's monitor when that lookup works, and stays empty otherwise |
| Recording.LookupFailureStopsRecord | internal/record/recorder.go:32-35 | a failed monitor lookup is reported after the sink query alone, before any validation |
| Recording.RecordOrder | internal/record/recorder.go:40-78 | the guitar source is validated first and the monitor second; then the directory is made, the previous take removed and the capture started, each only if everything before succeeded |
| Recording.InvalidSourceTouchesNothing | internal/record/recorder.go:40-59 | a source that does not validate stops Record before the directory is made or the previous take removed |
| Recording.InterruptProtocol | internal/record/recorder.go:93-109 | on an interrupt the child is signalled, and killed if signalling fails; its exit is awaited with its status ignored; then the file is checked, and the outcome depends on the file alone |
| Recording.ChildFailureSkipsStat | internal/record/recorder.go:100-103 | a child that fails without an interrupt gives the process-failed error, and the file is never checked |
| Recording.RecordSucceedsIff | internal/record/recorder.go:107-112 | Record succeeds iff everything before the capture worked, the child did not fail on its own, and the file exists; the last two effects are then awaiting the exit and checking the file |
| Recording.RecordWritesMixInput | internal/record/recorder.go:55-56 | the file Record writes is the file Mix reads, also under the settings Record leaves |
| Audio.DefaultSink | internal/audio/pulse.go:15-22 | the sink is known iff pactl ran; a failure is reported as such |
| Audio.DefaultSinkTrimmed | internal/audio/pulse.go:21 | the sink is pactl's output with the surrounding white space removed |
| Audio.DefaultSinkMonitor | internal/audio/pulse.go:24-30 | succeeds iff the sink lookup does, passing on its error; the result is the sink followed by ".monitor" |
| Audio.LineSource | internal/audio/pulse.go:43-47 | a pactl line contributes at most one name, non-empty and without white space |
| Audio.SecondFieldsAppend | internal/audio/pulse.go:42-49 | parsing concatenated lines is concatenating their parses, so line order is kept |
| Audio.SecondFieldsMembers | internal/audio/pulse.go:42-49 | a name is listed iff some line has at least two fields and that is its second field |
| Audio.SecondFieldsWords | internal/audio/pulse.go:44-46 | every listed pactl name is non-empty and contains no white space |
| Audio.BlankOutputListsNothing | internal/audio/pulse.go:40 | output that is all white space lists no source |
| Audio.QuotedParts | internal/audio/pulse.go:76-78 | the extracted name lies between the line's first and second double quote |
| Audio.QuotedOf | internal/audio/pulse.go:76-78 | conversely, quote-free text, a quote, a quote-free name and a quote give that name |
| Audio.QuotedNeedsTwo | internal/audio/pulse.go:76-77 | a line yields a name only if it has two double quotes |
| Audio.LinePort | internal/audio/pulse.go:73-84 | a pw-cli line contributes at most one name, and only an output port |
| Audio.PortsOfMembers | internal/audio/pulse.go:71-88 | a name is listed iff some line mentions object.path and Carla or JACK, quotes the name first, and the name is an output port |
| Audio.PortsOfAreOutputs | internal/audio/pulse.go:81-83 | every listed PipeWire name is an output port (output but not events, or audio-out) and contains no quote |
| Audio.ListPipeWireSources | internal/audio/pulse.go:60-91 | the loop yields the PipeWire sources of the output, or nothing when pw-cli failed |
| Audio.ListSources | internal/audio/pulse.go:32-58 | the loops yield pactl's sources in line order followed, when pw-cli ran, by the PipeWire ones; only a pactl failure is an error |
| Audio.ValidateSource | internal/audio/pulse.go:93-105 | the linear search gives Validation: the listing error, success, or not-found |
| Audio.PactlListed | internal/audio/pulse.go:40-49 | a name is in pactl's list iff a line of its trimmed output names it as second field |
| Audio.PipeWireListed | internal/audio/pulse.go:69-88 | a name is in the PipeWire list iff a candidate line of pw-cli's output quotes it as an output port |
| Audio.ValidationMeaning | internal/audio/pulse.go:93-105 | a pactl failure is a listing error; a name is accepted iff pactl ran and names it, or pw-cli ran and names it; otherwise it is not found |
| Config.Config.constructor | internal/config/config.go:85-93 | a config object holds exactly the settings it is built from |
| Config.ExpandTilde | internal/config/config.go:134-136 | "~/rest" becomes the home directory joined with rest |
| Config.ExpandPathKeepsOthers | internal/config/config.go:133-138 | any other path, "~" alone included, is returned unchanged |
| Config.ExpandPathIdempotent | internal/config/config.go:133-139 | with an absolute home directory, expanding twice is expanding once |
| Config.EntriesTotal | internal/config/config.go:96-106 | the defaults register all nine keys, each with its field's value |
| Config.DecodeEntries | internal/config/config.go:86 | decoding the registered entries gives back the settings they came from |
| Config.DecodeByKey | internal/config/config.go:86-88 | with every key present, decoding succeeds iff every value fits its field's type, and each field is then the decoded value |
| Config.DecodeOverDefaults | internal/config/config.go:74-88 | a file over the defaults decodes iff each value in the file fits its type; each field is then the file's value, or the default where the file is silent |
| Config.Viper.constructor | internal/config/config.go:60-74 | viper starts with no defaults and no config file |
| Config.SetDefaults | internal/config/config.go:96-106 | the registered defaults are exactly the nine entries of the table |
| Config.CreateDefaultConfig | internal/config/config.go:108-127 | a failed mkdir or write is an error naming the directory or file; otherwise viper points at ~/.config/jamcapture.yaml and the result is the defaults object itself |
| Config.Load | internal/config/config.go:40-94 | the defaults table is registered first; a missing file goes to createDefaultConfig, which hands back the defaults object and points viper at ~/.config/jamcapture.yaml once ~/.config exists, the config file being untouched on every other path; other read errors and decode errors return no config; otherwise a fresh config holds the decoded settings with only the output directory expanded, so a file that sets nothing loads the defaults (48000 Hz, 2 channels, empty monitor, volumes 4.0 and 0.8, no delay, flac) |
| Config.DefaultsNeedNoExpansion | internal/config/config.go:55 | with an absolute home directory, the default output directory needs no expansion |
| Text.TrimSpaceParts | internal/audio/pulse.go:21 | strings.TrimSpace removes white space from both ends only, and leaves no white space at either end |
| Text.SplitJoin | internal/audio/pulse.go:40 | strings.Split loses nothing: joining the parts with the separator gives the input back |
| Text.FieldsKeepNonSpace | internal/audio/pulse.go:44 | strings.Fields keeps every non-space character, in order, and nothing else |
| Text.FieldsCutAtSpace | internal/audio/pulse.go:44 | strings.Fields cuts only where a run of non-space characters ends: a maximal word at the front is the first field, whole |
| Text.FieldsSkipSpace | internal/audio/pulse.go:44 | a leading white-space character never starts a field |
| Text.FieldsEmptyIff | internal/audio/pulse.go:44-45 | strings.Fields gives no field exactly when the line is white space alone |
| Text.IndexSpec | internal/audio/pulse.go:76-77 | strings.Index gives the first occurrence, or -1 when there is none |
| Text.IndexChar | cmd/pipeline.go:19-25 | the first position of a letter, or -1 iff the letter does not occur |

## Left out

- Profiles: neither profile selection nor profile merging is modelled. cmd/root.go calls `config.LoadWithProfile`, which config.go does not define, so that function is not part of this model.
- cmd/root.go: its cobra wiring, its config gate and its call to `validatePipeline` are left out. Pipeline.ValidatedNeverUnknown and RunCommand.RunValidatedNeverUnknown take a validated pipeline as their hypothesis instead.
- cmd/sources.go: left out because it only lists sources and prints them.
- cmd/play.go and internal/play: left out. The player is an outcome of the World. The player is assumed not to modify the configuration it is given: a play step leaves the settings as they were. Pipeline.DispatchKeepsMix, Pipeline.ContinuationSeesConfig and RunCommand.RunMixesWithFlags rest on that assumption when they say that only the monitor input can change.
- Concurrency in the recorder: `exec.Command`, `signal.Notify`, the waiting goroutine and the `select` are one input, `ChildEnd`. It records whether an interrupt arrived first and whether signalling worked, or how the child exited.
- Output that is only displayed: progress printing is left out. The effective mix values are kept; they are the MixCall settings in the trace.
- ffmpeg, pactl and pw-cli: these foreign programs are inputs. Their argument lists are modelled only as far as the model needs them:
  - the mix job: input, filter branch and values, channels, sample rate, codec, output;
  - the capture: both inputs, sample rate, output.
  - The recorder's fixed pan filter and its FLAC codec are not modelled.
- Mixing.FilterFor: the filter text itself is not modelled, because it is `%.1f` float formatting. What is modelled is the branch taken and the values it carries.
- Paths.Join: does not clean paths as `filepath.Join` does. It joins two non-empty elements with "/" and drops an empty one.
- Text.ToLower: covers ASCII only, while the source's `strings.ToLower` is Unicode. Text.IsSpace covers the Latin-1 white space and the Unicode spaces that Go's `unicode.IsSpace` accepts.
- Viper: search paths, environment variables (`JAMCAPTURE_*`) and the file format are not modelled. Reading the file is a `ReadOutcome` that carries a map from key to value. Weak typing is reduced to these rules:
  - an integer fits a real field;
  - any other mismatch is an unmarshal error.
- Home directory: `os.UserHomeDir` and `$HOME` are one parameter, `home`.
- `Config.Save`: not modelled, as it is a single viper call.
- The recorder's copy of `cleanFileName` (internal/record/recorder.go:115-120) is the mixer's, word for word. Both call sites use FileNames.CleanFileName.
- Pipeline.ExecutePipeline: the trace of delegate calls is a ghost output of the model, not of the source. It records what was invoked so that the lemmas can speak about it. The source returns only the error.
- Pipeline.Step: in the source, a failing playback carries the player's own error, about which nothing is known. The model records only that playback failed.
