/** src/lib/utils/sse.ts: the text/event-stream decoder (`parseSSEData` and its `flushEvent`).

    The decoder reads the payload line by line, keeping the current event name and the data
    lines seen since the last frame boundary; a blank line (and the end of input) flushes the
    frame, which yields a record only when it has both a name and data. */
module Sse {
  import opened Wrappers
  import opened Strings
  import opened Json

  /** A decoded payload: the parsed JSON when parsing succeeded, else the joined raw text. */
  datatype Payload = Parsed(value: Json) | Raw(text: string)

  datatype SseEvent = SseEvent(event: string, data: Payload)

  /** The decoder's variables between two lines. */
  datatype Decoder = Decoder(eventName: string, dataLines: seq<string>, events: seq<SseEvent>)

  const Start := Decoder("", [], [])

  /** The payload of a frame whose data lines are `dataLines`. */
  function FramePayload(dataLines: seq<string>, parse: string -> Option<Json>): Payload {
    var text := Join(dataLines, "\n");
    match parse(text)
    case Some(v) => Parsed(v)
    case None => Raw(text)
  }

  /** `flushEvent`: emit the pending frame when it has a name and data, then reset. */
  function Flush(d: Decoder, parse: string -> Option<Json>): (r: Decoder)
    ensures r.eventName == [] && r.dataLines == []
    ensures d.eventName != [] && d.dataLines != [] ==>
      r.events == d.events + [SseEvent(d.eventName, FramePayload(d.dataLines, parse))]
    ensures d.eventName == [] || d.dataLines == [] ==> r.events == d.events
  {
    if d.eventName == [] || d.dataLines == [] then Decoder("", [], d.events)
    else Decoder("", [], d.events + [SseEvent(d.eventName, FramePayload(d.dataLines, parse))])
  }

  /** The value of a `data:` line: the text after the colon, less one leading space. */
  function DataValue(line: string): string
    requires StartsWith(line, "data:")
  {
    var value := line[5..];
    if StartsWith(value, " ") then value[1..] else value
  }

  /** One iteration of the decoder's loop over the lines. */
  function Step(d: Decoder, rawLine: string, parse: string -> Option<Json>): Decoder {
    var line := TrimEnd(rawLine);
    if line == [] then Flush(d, parse)
    else if StartsWith(line, ":") then d
    else if StartsWith(line, "event:") then d.(eventName := Trim(line[6..]))
    else if StartsWith(line, "data:") then d.(dataLines := d.dataLines + [DataValue(line)])
    else d
  }

  /** The decoder after consuming `lines`, starting from `d`. */
  function Run(d: Decoder, lines: seq<string>, parse: string -> Option<Json>): Decoder
    decreases |lines|
  {
    if lines == [] then d else Run(Step(d, lines[0], parse), lines[1..], parse)
  }

  /** What `parseSSEData(text)` returns. */
  function Decode(text: string, parse: string -> Option<Json>): seq<SseEvent> {
    Flush(Run(Start, Split(text, '\n'), parse), parse).events
  }

  /** `parseSSEData`: the loop over the lines with the mutable frame state. */
  method ParseSseData(sseText: string, parse: string -> Option<Json>) returns (events: seq<SseEvent>)
    ensures events == Decode(sseText, parse)
  {
    events := [];
    var eventName: string := "";
    var dataLines: seq<string> := [];
    var lines := Split(sseText, '\n');
    for i := 0 to |lines|
      invariant Run(Decoder(eventName, dataLines, events), lines[i..], parse)
             == Run(Start, lines, parse)
    {
      assert lines[i..][1..] == lines[i + 1..];
      var line := TrimEnd(lines[i]);
      if line == [] {
        if eventName != [] && dataLines != [] {
          var dataStr := Join(dataLines, "\n");
          match parse(dataStr) {
            case Some(data) => events := events + [SseEvent(eventName, Parsed(data))];
            case None => events := events + [SseEvent(eventName, Raw(dataStr))];
          }
        }
        eventName, dataLines := "", [];
        continue;
      }
      if StartsWith(line, ":") {
        continue;
      }
      if StartsWith(line, "event:") {
        eventName := Trim(line[6..]);
        continue;
      }
      if StartsWith(line, "data:") {
        var value := line[5..];
        if StartsWith(value, " ") {
          value := value[1..];
        }
        dataLines := dataLines + [value];
      }
    }
    assert lines[|lines|..] == [];
    if eventName != [] && dataLines != [] {
      var dataStr := Join(dataLines, "\n");
      match parse(dataStr) {
        case Some(data) => events := events + [SseEvent(eventName, Parsed(data))];
        case None => events := events + [SseEvent(eventName, Raw(dataStr))];
      }
    }
  }

  // ---------------------------------------------------------------------------------------
  // Properties of the decoder

  ghost predicate NamedEvents(events: seq<SseEvent>) {
    forall i :: 0 <= i < |events| ==> events[i].event != [] && events[i].event == Trim(events[i].event)
  }

  lemma {:induction false} RunKeepsNamedEvents(d: Decoder, lines: seq<string>, parse: string -> Option<Json>)
    requires NamedEvents(d.events) && d.eventName == Trim(d.eventName)
    ensures NamedEvents(Run(d, lines, parse).events)
    ensures Run(d, lines, parse).eventName == Trim(Run(d, lines, parse).eventName)
    decreases |lines|
  {
    if lines != [] {
      var line := TrimEnd(lines[0]);
      if line != [] && !StartsWith(line, ":") && StartsWith(line, "event:") {
        TrimIdempotent(line[6..]);
      }
      RunKeepsNamedEvents(Step(d, lines[0], parse), lines[1..], parse);
    }
  }

  /** The final flush emits only a named record. */
  lemma FlushKeepsNamedEvents(d: Decoder, parse: string -> Option<Json>)
    requires NamedEvents(d.events) && d.eventName == Trim(d.eventName)
    ensures NamedEvents(Flush(d, parse).events)
  {
    var f := Flush(d, parse);
    if d.eventName != [] && d.dataLines != [] {
      forall i | 0 <= i < |f.events|
        ensures f.events[i].event != [] && f.events[i].event == Trim(f.events[i].event)
      {
        if i < |d.events| {
          assert f.events[i] == d.events[i];
        } else {
          assert f.events[i].event == d.eventName;
        }
      }
    }
  }

  /** Every record has a non-empty, trimmed event name. */
  lemma DecodedEventsAreNamed(text: string, parse: string -> Option<Json>)
    ensures NamedEvents(Decode(text, parse))
  {
    assert Trim(Start.eventName) == [];
    RunKeepsNamedEvents(Start, Split(text, '\n'), parse);
    FlushKeepsNamedEvents(Run(Start, Split(text, '\n'), parse), parse);
  }

  /** Lines that are blank once right-trimmed: the frame boundaries. */
  function BlankLines(lines: seq<string>): nat {
    if lines == [] then 0 else (if TrimEnd(lines[0]) == [] then 1 else 0) + BlankLines(lines[1..])
  }

  lemma {:induction false} RunEmitsAtBoundariesOnly(d: Decoder, lines: seq<string>, parse: string -> Option<Json>)
    ensures |d.events| <= |Run(d, lines, parse).events| <= |d.events| + BlankLines(lines)
    ensures Run(d, lines, parse).events[..|d.events|] == d.events
    decreases |lines|
  {
    if lines != [] {
      var d' := Step(d, lines[0], parse);
      assert |d.events| <= |d'.events| <= |d.events| + (if TrimEnd(lines[0]) == [] then 1 else 0);
      assert d'.events[..|d.events|] == d.events;
      RunEmitsAtBoundariesOnly(d', lines[1..], parse);
      var r := Run(d', lines[1..], parse);
      assert r.events[..|d.events|] == r.events[..|d'.events|][..|d.events|];
    }
  }

  /** At most one record per blank line, plus one for the final flush; earlier records are never
      rewritten (records keep input order). */
  lemma DecodedCountBound(text: string, parse: string -> Option<Json>)
    ensures |Decode(text, parse)| <= BlankLines(Split(text, '\n')) + 1
  {
    RunEmitsAtBoundariesOnly(Start, Split(text, '\n'), parse);
  }

  /** Once a frame has been flushed, the rest of the stream decodes exactly as a fresh stream:
      no name or data leaks across a frame boundary. */
  lemma {:induction false} FramesAreIndependent(d: Decoder, lines: seq<string>, parse: string -> Option<Json>)
    requires d.eventName == [] && d.dataLines == []
    ensures Run(d, lines, parse).events == d.events + Run(Start, lines, parse).events
    ensures Run(d, lines, parse).eventName == Run(Start, lines, parse).eventName
    ensures Run(d, lines, parse).dataLines == Run(Start, lines, parse).dataLines
    decreases |lines|
  {
    if lines != [] {
      FramesAreIndependentStep(d, Start, lines, parse);
    }
  }

  /** Generalisation used by FramesAreIndependent: two decoders that agree on the pending frame
      stay `prefix`-apart for the whole run. */
  lemma {:induction false} FramesAreIndependentStep(d: Decoder, e: Decoder, lines: seq<string>, parse: string -> Option<Json>)
    requires d.eventName == e.eventName && d.dataLines == e.dataLines
    requires |e.events| <= |d.events| && d.events == d.events[..|d.events| - |e.events|] + e.events
    ensures Run(d, lines, parse).eventName == Run(e, lines, parse).eventName
    ensures Run(d, lines, parse).dataLines == Run(e, lines, parse).dataLines
    ensures Run(d, lines, parse).events
         == d.events[..|d.events| - |e.events|] + Run(e, lines, parse).events
    decreases |lines|
  {
    var prefix := d.events[..|d.events| - |e.events|];
    if lines != [] {
      var d', e' := Step(d, lines[0], parse), Step(e, lines[0], parse);
      assert d'.events == prefix + e'.events;
      FramesAreIndependentStep(d', e', lines[1..], parse);
    }
  }

  // ---------------------------------------------------------------------------------------
  // CRLF input decodes as LF input

  /** Replace every line feed by carriage return + line feed. */
  function CrLf(s: string): string {
    if s == [] then [] else (if s[0] == '\n' then "\r\n" else [s[0]]) + CrLf(s[1..])
  }

  /** `a` is `b`, possibly with one carriage return appended. */
  predicate SameUpToCr(a: string, b: string) {
    a == b || a == b + "\r"
  }

  ghost predicate LinesUpToCr(xs: seq<string>, ys: seq<string>) {
    |xs| == |ys| && forall i :: 0 <= i < |xs| ==> SameUpToCr(xs[i], ys[i])
  }

  lemma {:induction false} SplitCrLf(s: string)
    ensures LinesUpToCr(Split(CrLf(s), '\n'), Split(s, '\n'))
  {
    if s != [] {
      SplitCrLf(s[1..]);
      var x := CrLf(s[1..]);
      var rest', rest := Split(x, '\n'), Split(s[1..], '\n');
      if s[0] == '\n' {
        var t := "\n" + x;
        assert t[1..] == x;
        assert Split(t, '\n') == [[]] + rest';
        var u := ['\r'] + t;
        assert CrLf(s) == u;
        assert u[1..] == t;
        assert Split(t, '\n')[0] == [] && Split(t, '\n')[1..] == rest';
        assert Split(u, '\n') == [['\r'] + Split(t, '\n')[0]] + Split(t, '\n')[1..];
        assert ['\r'] + [] == ['\r'];
        assert Split(s, '\n') == [[]] + rest;
      } else {
        var u := [s[0]] + x;
        assert CrLf(s) == u;
        assert u[1..] == x;
        assert Split(u, '\n') == [[s[0]] + rest'[0]] + rest'[1..];
        assert Split(s, '\n') == [[s[0]] + rest[0]] + rest[1..];
        assert SameUpToCr([s[0]] + rest'[0], [s[0]] + rest[0]);
      }
    }
  }

  lemma StepIgnoresCr(d: Decoder, line: string, parse: string -> Option<Json>)
    ensures Step(d, line + "\r", parse) == Step(d, line, parse)
  {
    TrimEndIgnoresTrailingWhitespace(line, '\r');
  }

  lemma {:induction false} RunIgnoresCr(d: Decoder, xs: seq<string>, ys: seq<string>, parse: string -> Option<Json>)
    requires LinesUpToCr(xs, ys)
    ensures Run(d, xs, parse) == Run(d, ys, parse)
    decreases |xs|
  {
    if xs != [] {
      if xs[0] != ys[0] {
        StepIgnoresCr(d, ys[0], parse);
      }
      RunIgnoresCr(Step(d, xs[0], parse), xs[1..], ys[1..], parse);
    }
  }

  /** Right-trimming every line makes CRLF line endings decode exactly as LF line endings. */
  lemma CrLfDecodesAsLf(text: string, parse: string -> Option<Json>)
    ensures Decode(CrLf(text), parse) == Decode(text, parse)
  {
    SplitCrLf(text);
    RunIgnoresCr(Start, Split(CrLf(text), '\n'), Split(text, '\n'), parse);
  }

  // ---------------------------------------------------------------------------------------
  // Single-line behaviour

  /** A line that opens with `data:` and does not end in whitespace is a data line. */
  lemma DataLineStep(d: Decoder, line: string, parse: string -> Option<Json>)
    requires line != [] && !IsWhitespace(line[|line| - 1]) && StartsWith(line, "data:")
    ensures Step(d, line, parse) == d.(dataLines := d.dataLines + [DataValue(line)])
  {
    assert TrimEnd(line) == line;
    assert line[0] == line[..5][0] == 'd';
    assert !StartsWith(line, ":") by {
      assert line[..1][0] == 'd';
    }
    assert !StartsWith(line, "event:") by {
      if |line| >= 6 {
        assert line[..6][0] == 'd';
      }
    }
  }

  /** A `data:` line appends its value, less exactly one leading space, to the pending frame. */
  lemma DataLine(d: Decoder, value: string, parse: string -> Option<Json>)
    requires value != [] && !IsWhitespace(value[|value| - 1])
    ensures Step(d, "data: " + value, parse) == d.(dataLines := d.dataLines + [value])
    ensures Step(d, "data:" + value, parse)
         == d.(dataLines := d.dataLines + [if value[0] == ' ' then value[1..] else value])
  {
    var l1, l2 := "data: " + value, "data:" + value;
    assert l1[..5] == "data:" && l1[|l1| - 1] == value[|value| - 1];
    assert l1[5..] == " " + value && (" " + value)[..1] == " " && (" " + value)[1..] == value;
    DataLineStep(d, l1, parse);
    assert l2[..5] == "data:" && l2[|l2| - 1] == value[|value| - 1];
    assert l2[5..] == value && (|value| >= 1 ==> value[..1] == [value[0]]);
    DataLineStep(d, l2, parse);
  }

  /** An `event:` line replaces the pending name by its trimmed value, keeping the data. */
  lemma EventLine(d: Decoder, value: string, parse: string -> Option<Json>)
    requires value != [] && !IsWhitespace(value[|value| - 1])
    ensures Step(d, "event:" + value, parse) == d.(eventName := Trim(value))
  {
    var l := "event:" + value;
    assert l[|l| - 1] == value[|value| - 1];
    assert TrimEnd(l) == l;
    assert l[0] == 'e' && l[..6] == "event:";
    assert l[6..] == value;
  }

  /** Comment lines and lines of any other field leave the decoder unchanged. */
  lemma IgnoredLines(d: Decoder, line: string, parse: string -> Option<Json>)
    requires TrimEnd(line) != []
    requires StartsWith(TrimEnd(line), ":")
          || (!StartsWith(TrimEnd(line), "event:") && !StartsWith(TrimEnd(line), "data:"))
    ensures Step(d, line, parse) == d
  {
  }

  /** Consuming one line, then the rest. */
  lemma RunCons(d: Decoder, line: string, rest: seq<string>, parse: string -> Option<Json>)
    ensures Run(d, [line] + rest, parse) == Run(Step(d, line, parse), rest, parse)
  {
    assert ([line] + rest)[1..] == rest;
  }

  /** Two lines without a line feed, joined by one, split back into those two lines. */
  lemma SplitTwoLines(l1: string, l2: string)
    requires '\n' !in l1 && '\n' !in l2
    ensures Split(l1 + ['\n'] + l2, '\n') == [l1, l2]
  {
    SplitNoSeparator(l2, '\n');
    SplitAtFirstSeparator(l1, '\n', l2);
  }

  /** A frame closed by the end of input, without a trailing blank line, is still emitted. */
  lemma UnterminatedFrameIsEmitted(name: string, value: string, parse: string -> Option<Json>)
    requires '\n' !in name && '\n' !in value
    requires name != [] && !IsWhitespace(name[|name| - 1])
    requires value != [] && !IsWhitespace(value[|value| - 1])
    ensures Decode("event:" + name + "\n" + "data: " + value, parse)
         == [SseEvent(Trim(name), FramePayload([value], parse))]
  {
    var l1, l2 := "event:" + name, "data: " + value;
    var d1 := Start.(eventName := Trim(name));
    var d2 := d1.(dataLines := [value]);
    assert '\n' !in "event:" && '\n' !in "data: ";
    assert "event:" + name + "\n" + "data: " + value == l1 + ['\n'] + l2;
    SplitTwoLines(l1, l2);
    EventLine(Start, name, parse);
    DataLine(d1, value, parse);
    RunCons(Start, l1, [l2], parse);
    RunCons(d1, l2, [], parse);
    assert Run(Start, [l1, l2], parse) == d2;
    assert Trim(name) != [] by {
      assert TrimEnd(name) == name;
    }
  }

  /** A frame with a name but no data produces no record. */
  lemma NamedFrameWithoutDataIsDropped(name: string, parse: string -> Option<Json>)
    requires '\n' !in name
    requires name != [] && !IsWhitespace(name[|name| - 1])
    ensures Decode("event:" + name + "\n\n", parse) == []
  {
    var l1 := "event:" + name;
    assert '\n' !in l1;
    SplitNoSeparator([], '\n');
    SplitAtFirstSeparator([], '\n', []);
    SplitAtFirstSeparator(l1, '\n', "\n");
    assert "event:" + name + "\n\n" == l1 + ['\n'] + "\n";
    assert "\n" == [] + ['\n'] + [];
    var d1 := Start.(eventName := Trim(name));
    EventLine(Start, name, parse);
    RunCons(Start, l1, [[], []], parse);
    RunCons(d1, [], [[]], parse);
    RunCons(Start, [], [], parse);
  }
}
