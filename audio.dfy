/**
 * internal/audio/pulse.go: the default-sink monitor name, the two
 * device-list parsers (pactl's short source list and pw-cli's object dump)
 * and the membership check ValidateSource.  Each external tool run is an
 * input: its standard output, or a failure.
 */
module Audio {
  import opened Wrappers
  import opened Text

  /** What running pactl or pw-cli yields. */
  datatype ToolRun = Ran(stdout: string) | Failed

  /** The two tool runs one ListSources call makes. */
  datatype SourceQuery = SourceQuery(pactl: ToolRun, pipewire: ToolRun)

  datatype AudioError =
    | DefaultSinkFailed
    | ListFailed
    | SourceNotFound(name: string)

  const MonitorSuffix := ".monitor"
  const Quote: char := '"'

  // ---------------------------------------------------------- default sink

  /** GetDefaultSink: the trimmed output of `pactl get-default-sink`. */
  function DefaultSink(run: ToolRun): (r: Result<string, AudioError>)
    ensures r.Success? <==> run.Ran?
    ensures r.Failure? ==> r.error == DefaultSinkFailed
  {
    match run
    case Failed => Failure(DefaultSinkFailed)
    case Ran(out) => Success(TrimSpace(out))
  }

  /** GetDefaultSinkMonitor: the sink's name followed by ".monitor"; a lookup failure is passed on. */
  function DefaultSinkMonitor(run: ToolRun): (r: Result<string, AudioError>)
    ensures r.Success? <==> DefaultSink(run).Success?
    ensures r.Failure? ==> r.error == DefaultSink(run).error
    ensures r.Success? ==>
      |r.value| >= |MonitorSuffix|
      && r.value[|r.value| - |MonitorSuffix|..] == MonitorSuffix
      && r.value[..|r.value| - |MonitorSuffix|] == DefaultSink(run).value
  {
    match DefaultSink(run)
    case Failure(e) => Failure(e)
    case Success(sink) => Success(sink + MonitorSuffix)
  }

  /** The default sink is pactl's output with its surrounding white space removed. */
  lemma DefaultSinkTrimmed(out: string) returns (pre: string, post: string)
    ensures var sink := DefaultSink(Ran(out)).value;
      out == pre + sink + post && AllSpace(pre) && AllSpace(post)
      && (sink != [] ==> !IsSpace(sink[0]) && !IsSpace(sink[|sink| - 1]))
  {
    pre, post := TrimSpaceParts(out);
  }

  // ------------------------------------------------------- pactl's list

  /** What one line of `pactl list short sources` contributes: its second field, if it has one. */
  function LineSource(line: string): (r: seq<string>)
    ensures |r| <= 1
    ensures forall k :: 0 <= k < |r| ==> r[k] != "" && NoSpace(r[k])
  {
    if line != "" && |Fields(line)| >= 2 then [Fields(line)[1]] else []
  }

  /** The sources the lines contribute, in line order. */
  function SecondFields(lines: seq<string>): seq<string> {
    if lines == [] then []
    else SecondFields(lines[..|lines| - 1]) + LineSource(lines[|lines| - 1])
  }

  /** The pactl half of ListSources. */
  function PactlSources(out: string): seq<string> {
    SecondFields(Split(TrimSpace(out), '\n'))
  }

  /** Line i of the pactl output has at least two fields, the second being name. */
  predicate LineNamesSource(lines: seq<string>, i: int, name: string) {
    0 <= i < |lines| && |Fields(lines[i])| >= 2 && Fields(lines[i])[1] == name
  }

  /** Line i of the pw-cli output is a candidate whose first quoted text is name, an output port. */
  predicate LineNamesPort(lines: seq<string>, i: int, name: string) {
    0 <= i < |lines| && IsCandidate(lines[i]) && Quoted(lines[i]) == Some(name) && IsOutputPort(name)
  }

  /** Parsing the lines of a concatenation is concatenating their parses: line order is kept. */
  lemma {:induction false} SecondFieldsAppend(a: seq<string>, b: seq<string>)
    ensures SecondFields(a + b) == SecondFields(a) + SecondFields(b)
    decreases |b|
  {
    if b == [] {
      assert a + b == a;
    } else {
      var b' := b[..|b| - 1];
      assert (a + b)[..|a + b| - 1] == a + b';
      assert (a + b)[|a + b| - 1] == b[|b| - 1];
      SecondFieldsAppend(a, b');
    }
  }

  /** A name is listed iff some line has at least two fields and it is that line's second. */
  lemma {:induction false} SecondFieldsMembers(lines: seq<string>, name: string)
    ensures name in SecondFields(lines) <==> exists i :: LineNamesSource(lines, i, name)
  {
    if lines != [] {
      var n := |lines| - 1;
      var init := lines[..n];
      SecondFieldsMembers(init, name);
      assert SecondFields(lines) == SecondFields(init) + LineSource(lines[n]);
      if name in SecondFields(lines) {
        if name in SecondFields(init) {
          var i :| LineNamesSource(init, i, name);
          assert init[i] == lines[i];
          assert LineNamesSource(lines, i, name);
        } else {
          assert LineNamesSource(lines, n, name);
        }
      }
      if exists i :: LineNamesSource(lines, i, name) {
        var i :| LineNamesSource(lines, i, name);
        if i < n {
          assert init[i] == lines[i];
          assert LineNamesSource(init, i, name);
        } else {
          assert Fields(lines[n]) != [];
          assert LineSource(lines[n]) == [name];
        }
      }
    }
  }

  /** Every listed pactl source is a non-empty word with no white space in it. */
  lemma {:induction false} SecondFieldsWords(lines: seq<string>)
    ensures forall k :: 0 <= k < |SecondFields(lines)| ==> SecondFields(lines)[k] != "" && NoSpace(SecondFields(lines)[k])
  {
    if lines != [] {
      SecondFieldsWords(lines[..|lines| - 1]);
    }
  }

  /** Output that is empty or only white space lists no pactl source. */
  lemma BlankOutputListsNothing(out: string)
    requires AllSpace(out)
    ensures PactlSources(out) == []
  {
    TrimLeftAllSpace(out);
    assert TrimSpace(out) == "";
    assert Split("", '\n') == [""];
    assert SecondFields([""]) == SecondFields([]) + LineSource("");
  }

  // --------------------------------------------------------- pw-cli's dump

  /** A line mentioning an object path of a Carla or JACK port. */
  predicate IsCandidate(line: string) {
    Contains(line, "object.path") && (Contains(line, "Carla") || Contains(line, "JACK"))
  }

  /** The text between a line's first and second double quote, if it has two. */
  function Quoted(line: string): Option<string> {
    var start := Index(line, [Quote]);
    if start == -1 then None
    else
      var end := Index(line[start + 1..], [Quote]);
      if end == -1 then None else Some(line[start + 1..start + 1 + end])
  }

  /** Quoted, from the two quote positions Index finds. */
  lemma QuotedAt(line: string, start: int, end: int)
    requires start == Index(line, [Quote]) && start != -1
    requires end == Index(line[start + 1..], [Quote]) && end != -1
    ensures Quoted(line) == Some(line[start + 1..start + 1 + end])
  {
  }

  /** A quoted name: the line is some quote-free text, a quote, the name, a quote, and the rest. */
  lemma QuotedParts(line: string) returns (pre: string, post: string)
    requires Quoted(line).Some?
    ensures var name := Quoted(line).value;
      line == pre + [Quote] + name + [Quote] + post && Quote !in pre && Quote !in name
  {
    var start := Index(line, [Quote]);
    IndexChar(line, Quote);
    var rest := line[start + 1..];
    var end := Index(rest, [Quote]);
    IndexChar(rest, Quote);
    var name := rest[..end];
    assert Quoted(line).value == name;
    pre, post := line[..start], rest[end + 1..];
    QuoteGlue(line, start, end, pre, name, post);
  }

  /** Cutting a line at two quote positions and gluing the pieces back around the quotes gives the line. */
  lemma QuoteGlue(line: string, start: int, end: int, pre: string, name: string, post: string)
    requires 0 <= start < |line| && 0 <= end < |line| - start - 1
    requires line[start] == Quote && line[start + 1 + end] == Quote
    requires pre == line[..start] && name == line[start + 1..start + 1 + end] && post == line[start + 2 + end..]
    ensures line == pre + [Quote] + name + [Quote] + post
  {
    assert line == line[..start] + [line[start]] + line[start + 1..start + 1 + end] + [line[start + 1 + end]] + line[start + 2 + end..];
  }

  /** Conversely, the first two quotes of such a line enclose the name. */
  lemma QuotedOf(pre: string, name: string, post: string)
    requires Quote !in pre && Quote !in name
    ensures Quoted(pre + [Quote] + name + [Quote] + post) == Some(name)
  {
    var rest := name + [Quote] + post;
    var line := pre + [Quote] + name + [Quote] + post;
    assert line == pre + [Quote] + rest;
    FirstQuoteAt(pre, rest);
    FirstQuoteAt(name, post);
    QuotedAt(line, |pre|, |name|);
    assert line[|pre| + 1..|pre| + 1 + |name|] == rest[..|name|];
  }

  /** The first quote of a line that starts with quote-free text and a quote is right after that text. */
  lemma FirstQuoteAt(pre: string, rest: string)
    requires Quote !in pre
    ensures var line := pre + [Quote] + rest;
      Index(line, [Quote]) == |pre| && line[|pre| + 1..] == rest && line[..|pre|] == pre
  {
    var line := pre + [Quote] + rest;
    IndexChar(line, Quote);
    assert line[|pre|] == Quote;
    assert line[..|pre|] == pre;
  }

  /** A line yields a name only if it has two quotes. */
  lemma QuotedNeedsTwo(line: string)
    ensures Quoted(line).Some? ==> exists i, j :: 0 <= i < j < |line| && line[i] == Quote && line[j] == Quote
  {
    if Quoted(line).Some? {
      var pre, post := QuotedParts(line);
      var name := Quoted(line).value;
      assert line[|pre|] == Quote && line[|pre| + 1 + |name|] == Quote;
    }
  }

  /** A port name kept as a source: an output that is not an events port, or an audio-out port. */
  predicate IsOutputPort(name: string) {
    (Contains(name, "output") && !Contains(name, "events")) || Contains(name, "audio-out")
  }

  /** What one pw-cli line contributes. */
  function LinePort(line: string): (r: seq<string>)
    ensures |r| <= 1
    ensures forall k :: 0 <= k < |r| ==> IsOutputPort(r[k])
  {
    if IsCandidate(line) && Quoted(line).Some? && IsOutputPort(Quoted(line).value) then [Quoted(line).value] else []
  }

  /** The ports the lines contribute, in line order. */
  function PortsOf(lines: seq<string>): seq<string> {
    if lines == [] then []
    else PortsOf(lines[..|lines| - 1]) + LinePort(lines[|lines| - 1])
  }

  /** The result of listPipeWireSources on pw-cli's output (the whole output is split, untrimmed). */
  function PipeWireSources(out: string): seq<string> {
    PortsOf(Split(out, '\n'))
  }

  /** A name is a PipeWire source iff some candidate line quotes it first and it is an output port. */
  lemma PortsOfMembers(lines: seq<string>, name: string)
    ensures name in PortsOf(lines) <==> exists i :: LineNamesPort(lines, i, name)
  {
    if name in PortsOf(lines) {
      PortsOfListed(lines, name);
    }
    if exists i :: LineNamesPort(lines, i, name) {
      var i :| LineNamesPort(lines, i, name);
      PortsOfFound(lines, i, name);
    }
  }

  lemma {:induction false} PortsOfListed(lines: seq<string>, name: string)
    requires name in PortsOf(lines)
    ensures exists i :: LineNamesPort(lines, i, name)
  {
    var n := |lines| - 1;
    var init := lines[..n];
    assert PortsOf(lines) == PortsOf(init) + LinePort(lines[n]);
    if name in PortsOf(init) {
      PortsOfListed(init, name);
      var i :| LineNamesPort(init, i, name);
      assert init[i] == lines[i];
      assert LineNamesPort(lines, i, name);
    } else {
      assert LineNamesPort(lines, n, name);
    }
  }

  lemma {:induction false} PortsOfFound(lines: seq<string>, i: int, name: string)
    requires LineNamesPort(lines, i, name)
    ensures name in PortsOf(lines)
  {
    var n := |lines| - 1;
    var init := lines[..n];
    assert PortsOf(lines) == PortsOf(init) + LinePort(lines[n]);
    if i < n {
      assert init[i] == lines[i];
      PortsOfFound(init, i, name);
    } else {
      assert LinePort(lines[n]) == [name];
    }
  }

  /** Every PipeWire source is an output port with no quote in its name. */
  lemma {:induction false} PortsOfAreOutputs(lines: seq<string>)
    ensures forall k :: 0 <= k < |PortsOf(lines)| ==> IsOutputPort(PortsOf(lines)[k]) && Quote !in PortsOf(lines)[k]
  {
    if lines != [] {
      PortsOfAreOutputs(lines[..|lines| - 1]);
      var line := lines[|lines| - 1];
      if Quoted(line).Some? {
        var pre, post := QuotedParts(line);
      }
    }
  }

  // ------------------------------------------------------------- listing

  /** ListSources: pactl's sources then, when pw-cli ran, the PipeWire ones; only a pactl failure is an error. */
  function Sources(q: SourceQuery): Result<seq<string>, AudioError> {
    match q.pactl
    case Failed => Failure(ListFailed)
    case Ran(out) =>
      Success(PactlSources(out) + (if q.pipewire.Ran? then PipeWireSources(q.pipewire.stdout) else []))
  }

  /** listPipeWireSources: the ports of every line of pw-cli's output, or nothing if pw-cli failed. */
  method ListPipeWireSources(run: ToolRun) returns (r: Option<seq<string>>)
    ensures run.Failed? ==> r == None
    ensures run.Ran? ==> r == Some(PipeWireSources(run.stdout))
  {
    if run.Failed? {
      return None;
    }
    var lines := Split(run.stdout, '\n');
    var sources: seq<string> := [];
    for i := 0 to |lines|
      invariant sources == PortsOf(lines[..i])
    {
      var line := lines[i];
      assert lines[..i + 1][..i] == lines[..i];
      assert PortsOf(lines[..i + 1]) == PortsOf(lines[..i]) + LinePort(line);
      if Contains(line, "object.path") && (Contains(line, "Carla") || Contains(line, "JACK")) {
        var start := Index(line, [Quote]);
        if start != -1 {
          var end := Index(line[start + 1..], [Quote]);
          if end != -1 {
            var portName := line[start + 1..start + 1 + end];
            QuotedAt(line, start, end);
            if (Contains(portName, "output") && !Contains(portName, "events")) || Contains(portName, "audio-out") {
              sources := sources + [portName];
            } else {
              assert LinePort(line) == [];
            }
          } else {
            assert Quoted(line) == None;
          }
        } else {
          assert Quoted(line) == None;
        }
      } else {
        assert LinePort(line) == [];
      }
    }
    assert lines[..|lines|] == lines;
    return Some(sources);
  }

  /** ListSources, with its two parsing loops. */
  method ListSources(q: SourceQuery) returns (r: Result<seq<string>, AudioError>)
    ensures r == Sources(q)
  {
    if q.pactl.Failed? {
      return Failure(ListFailed);
    }
    var lines := Split(TrimSpace(q.pactl.stdout), '\n');
    var sources: seq<string> := [];
    for i := 0 to |lines|
      invariant sources == SecondFields(lines[..i])
    {
      var line := lines[i];
      assert lines[..i + 1][..i] == lines[..i];
      assert SecondFields(lines[..i + 1]) == SecondFields(lines[..i]) + LineSource(line);
      if line != "" {
        var parts := Fields(line);
        if |parts| >= 2 {
          sources := sources + [parts[1]];
        }
      }
    }
    assert lines[..|lines|] == lines;
    assert sources == PactlSources(q.pactl.stdout);
    var pwSources := ListPipeWireSources(q.pipewire);
    if pwSources.Some? {
      sources := sources + pwSources.value;
    } else {
      assert sources == sources + [];
    }
    return Success(sources);
  }

  /** What ValidateSource returns for a name, given what listing yields. */
  function Validation(q: SourceQuery, name: string): Option<AudioError> {
    match Sources(q)
    case Failure(e) => Some(e)
    case Success(sources) => if name in sources then None else Some(SourceNotFound(name))
  }

  /** ValidateSource: list the sources, then search them for the name. */
  method ValidateSource(q: SourceQuery, name: string) returns (err: Option<AudioError>)
    ensures err == Validation(q, name)
  {
    var sources := ListSources(q);
    if sources.Failure? {
      return Some(sources.error);
    }
    var list := sources.value;
    assert Sources(q) == Success(list);
    for i := 0 to |list|
      invariant name !in list[..i]
    {
      if list[i] == name {
        return None;
      }
      assert list[..i + 1] == list[..i] + [list[i]];
    }
    assert list[..|list|] == list;
    return Some(SourceNotFound(name));
  }

  /** Some line of pactl's trimmed output has name as its second field. */
  ghost predicate PactlNames(out: string, name: string) {
    exists i :: LineNamesSource(Split(TrimSpace(out), '\n'), i, name)
  }

  /** Some candidate line of pw-cli's output quotes name first, and name is an output port. */
  ghost predicate PipeWireNames(out: string, name: string) {
    exists i :: LineNamesPort(Split(out, '\n'), i, name)
  }

  lemma PactlListed(out: string, name: string)
    ensures name in PactlSources(out) <==> PactlNames(out, name)
  {
    SecondFieldsMembers(Split(TrimSpace(out), '\n'), name);
  }

  lemma PipeWireListed(out: string, name: string)
    ensures name in PipeWireSources(out) <==> PipeWireNames(out, name)
  {
    PortsOfMembers(Split(out, '\n'), name);
  }

  /**
   * A source is accepted exactly when pactl ran and either one of its lines
   * names it as second field, or pw-cli ran and one of its candidate lines
   * quotes it as an output port; otherwise the error is the listing failure
   * or "not found".
   */
  lemma ValidationMeaning(q: SourceQuery, name: string)
    ensures q.pactl.Failed? ==> Validation(q, name) == Some(ListFailed)
    ensures Validation(q, name).None? <==>
      q.pactl.Ran?
      && (PactlNames(q.pactl.stdout, name) || (q.pipewire.Ran? && PipeWireNames(q.pipewire.stdout, name)))
    ensures Validation(q, name).Some? && q.pactl.Ran? ==> Validation(q, name) == Some(SourceNotFound(name))
  {
    match q.pactl
    case Failed =>
    case Ran(out) =>
      PactlListed(out, name);
      match q.pipewire
      case Failed =>
        assert Sources(q) == Success(PactlSources(out) + []);
      case Ran(pwOut) =>
        PipeWireListed(pwOut, name);
        assert Sources(q) == Success(PactlSources(out) + PipeWireSources(pwOut));
  }
}
