/**
 Docker's log stream: the frames it is cut into when no terminal is attached, and the
 three shutdown markers that count as evidence of a graceful stop.
 */
module DockerLog {
  import opened Octets

  // ---- Framing ----------------------------------------------------------------

  datatype Frame = Frame(stream: byte, content: seq<byte>)

  function Big32(n: nat): seq<byte>
    requires n < 0x1_0000_0000
  {
    [n / 0x100_0000, n / 0x1_0000 % 256, n / 256 % 256, n % 256]
  }

  function Size(s: seq<byte>): nat
    requires |s| >= 8
  {
    Value(s[4], s[5], s[6], s[7])
  }

  /** The number with these four bytes, the most significant first. */
  function Value(a: int, b: int, c: int, d: int): int {
    ((a * 256 + b) * 256 + c) * 256 + d
  }

  function Header(stream: byte, n: nat): seq<byte>
    requires n < 0x1_0000_0000
  {
    [stream, 0, 0, 0] + Big32(n)
  }

  ghost predicate Encodable(frames: seq<Frame>) {
    forall k :: 0 <= k < |frames| ==> |frames[k].content| < 0x1_0000_0000
  }

  function Encode(frames: seq<Frame>): seq<byte>
    requires forall k :: 0 <= k < |frames| ==> |frames[k].content| < 0x1_0000_0000
  {
    if frames == [] then []
    else Header(frames[0].stream, |frames[0].content|) + frames[0].content + Encode(frames[1..])
  }

  function Contents(frames: seq<Frame>): seq<byte> {
    if frames == [] then [] else frames[0].content + Contents(frames[1..])
  }

  /** A complete frame at the start of the stream: a zero-padded stream byte, a size, and that many bytes. */
  predicate StartsWithFrame(s: seq<byte>) {
    |s| >= 8 && s[1] == 0 && s[2] == 0 && s[3] == 0 && Size(s) <= |s| - 8
  }

  /** The frames of a whole stream, or nothing if it is not one. */
  function Parse(s: seq<byte>): Option<seq<Frame>> {
    if s == [] then Some([])
    else if !StartsWithFrame(s) then None
    else
      match Parse(s[8 + Size(s)..])
      case None => None
      case Some(rest) => Some([Frame(s[0], s[8..8 + Size(s)])] + rest)
  }

  predicate Multiplexed(payload: seq<byte>) {
    payload != [] && (payload[0] == 1 || payload[0] == 2)
  }

  function Text(payload: seq<byte>): Option<seq<byte>> {
    if !Multiplexed(payload) then Some(payload)
    else
      match Parse(payload)
      case None => None
      case Some(frames) => Some(Contents(frames))
  }

  /** Removes the framing; a stream that does not start like a frame is plain text and stays as it is. */
  method DockerLogText(input: seq<byte>) returns (r: Option<seq<byte>>)
    ensures r == Text(input)
  {
    if |input| == 0 || (input[0] != 1 && input[0] != 2) {
      return Some(input);
    }
    var payload := input;
    var output := [];
    ghost var done: seq<Frame> := [];
    assert Parse(input).Some? ==> done + Parse(input).value == Parse(input).value;
    while |payload| > 0
      invariant Parse(input) == match Parse(payload) { case None => None case Some(rest) => Some(done + rest) }
      invariant output == Contents(done)
      decreases |payload|
    {
      if |payload| < 8 || payload[1] != 0 || payload[2] != 0 || payload[3] != 0 {
        return None;
      }
      var size := Size(payload);
      if size > |payload| - 8 {
        return None;
      }
      ghost var frame := Frame(payload[0], payload[8..8 + size]);
      ContentsAppends(done, frame);
      output := output + payload[8..8 + size];
      ghost var rest := Parse(payload[8 + size..]);
      assert rest.Some? ==> done + ([frame] + rest.value) == done + [frame] + rest.value;
      done := done + [frame];
      payload := payload[8 + size..];
    }
    assert done + [] == done;
    return Some(output);
  }

  lemma {:induction false} ContentsAppends(frames: seq<Frame>, frame: Frame)
    ensures Contents(frames + [frame]) == Contents(frames) + frame.content
  {
    if frames == [] {
      assert frames + [frame] == [frame];
    } else {
      assert (frames + [frame])[1..] == frames[1..] + [frame];
      ContentsAppends(frames[1..], frame);
    }
  }

  lemma BigEndian(n: nat)
    requires n < 0x1_0000_0000
    ensures Value(Big32(n)[0], Big32(n)[1], Big32(n)[2], Big32(n)[3]) == n
  {
    assert n / 0x1_0000 == n / 0x100_0000 * 256 + n / 0x1_0000 % 256;
    assert n / 256 == n / 0x1_0000 * 256 + n / 256 % 256;
  }

  lemma BigEndianBack(s: seq<byte>)
    requires |s| >= 8
    ensures Size(s) < 0x1_0000_0000 && Big32(Size(s)) == s[4..8]
  {
    var x: int, y: int, z: int, w: int := s[4], s[5], s[6], s[7];
    Digits((x * 256 + y) * 256 + z, w);
    Digits(x * 256 + y, z);
    Digits(x, y);
    var n := Size(s);
    assert n / 0x1_0000 == n / 256 / 256 && n / 0x100_0000 == n / 256 / 256 / 256;
  }

  lemma Digits(high: nat, low: byte)
    ensures (high * 256 + low) / 256 == high && (high * 256 + low) % 256 == low
  {
  }

  lemma HeaderSize(stream: byte, n: nat, rest: seq<byte>)
    requires n < 0x1_0000_0000 && n <= |rest|
    ensures |Header(stream, n)| == 8
    ensures var s := Header(stream, n) + rest; StartsWithFrame(s) && s[0] == stream && Size(s) == n
  {
    BigEndian(n);
  }

  lemma ParseOne(frame: Frame, rest: seq<byte>)
    requires |frame.content| < 0x1_0000_0000
    ensures Parse(Header(frame.stream, |frame.content|) + frame.content + rest) ==
            match Parse(rest) { case None => None case Some(frames) => Some([frame] + frames) }
  {
    hide Big32, Value, Size, StartsWithFrame, Header;
    var c := frame.content;
    var s := Header(frame.stream, |c|) + c + rest;
    HeaderSize(frame.stream, |c|, c + rest);
    assert s == Header(frame.stream, |c|) + (c + rest);
    assert s[8..8 + |c|] == c;
    assert s[8 + |c|..] == rest;
  }

  lemma EncodeOne(frame: Frame, rest: seq<Frame>)
    requires |frame.content| < 0x1_0000_0000 && Encodable(rest)
    ensures Encodable([frame] + rest)
    ensures Encode([frame] + rest) == Header(frame.stream, |frame.content|) + frame.content + Encode(rest)
  {
    hide Header;
    assert ([frame] + rest)[1..] == rest;
  }

  /** Parsing a stream made of frames gives those frames... */
  lemma {:induction false} ParseInvertsEncode(frames: seq<Frame>)
    requires forall k :: 0 <= k < |frames| ==> |frames[k].content| < 0x1_0000_0000
    ensures Parse(Encode(frames)) == Some(frames)
  {
    if frames == [] {
    } else {
      hide Header, Parse, Encode;
      var rest := frames[1..];
      assert frames == [frames[0]] + rest && Encodable(rest);
      EncodeOne(frames[0], rest);
      ParseOne(frames[0], Encode(rest));
      ParseInvertsEncode(rest);
    }
  }

  lemma SplitOne(s: seq<byte>)
    requires StartsWithFrame(s)
    ensures Size(s) < 0x1_0000_0000
    ensures s == Header(s[0], Size(s)) + s[8..8 + Size(s)] + s[8 + Size(s)..]
  {
    BigEndianBack(s);
    hide Big32, Value, Size;
    assert s[..8] == [s[0], 0, 0, 0] + s[4..8];
    assert s == s[..8] + s[8..8 + Size(s)] + s[8 + Size(s)..];
  }

  /** ...and a stream that parses is made of exactly the frames found. */
  lemma {:induction false} EncodeInvertsParse(s: seq<byte>)
    requires Parse(s).Some?
    ensures Encodable(Parse(s).value) && Encode(Parse(s).value) == s
    decreases |s|
  {
    hide Big32, Value, Size, Header;
    if s == [] {
    } else {
      hide Encode, Encodable;
      var rest := s[8 + Size(s)..];
      EncodeInvertsParse(rest);
      SplitOne(s);
      EncodeOne(Frame(s[0], s[8..8 + Size(s)]), Parse(rest).value);
    }
  }

  /** Multiplexed logs have a text exactly if they are a sequence of frames, and the text is their contents. */
  lemma TextIsContents(payload: seq<byte>, text: seq<byte>)
    requires Multiplexed(payload)
    ensures Text(payload) == Some(text) <==>
            exists frames :: Encodable(frames) && Encode(frames) == payload && Contents(frames) == text
  {
    if Text(payload) == Some(text) {
      EncodeInvertsParse(payload);
    }
    forall frames | Encodable(frames) && Encode(frames) == payload && Contents(frames) == text
      ensures Text(payload) == Some(text)
    {
      ParseInvertsEncode(frames);
    }
  }

  // ---- Shutdown markers ----------------------------------------------------------

  type Time = int

  const NEWLINE: byte := 10
  const RETURN: byte := 13
  const SPACE: byte := 32
  const MAX_LINE := 0x10_0000

  const MARKERS := ["Stopping server", "All dimensions are saved", "mc-server-runner\tDone"]
  const REFERENCES := ["docker-log:paper-stop", "docker-log:worlds-saved", "docker-log:runner-done"]

  function IndexOf(s: seq<byte>, b: byte): (n: nat)
    ensures n <= |s| && (n < |s| ==> s[n] == b) && forall m :: 0 <= m < n ==> s[m] != b
  {
    if s == [] || s[0] == b then 0 else 1 + IndexOf(s[1..], b)
  }

  function WithoutReturn(line: seq<byte>): seq<byte> {
    if line != [] && line[|line| - 1] == RETURN then line[..|line| - 1] else line
  }

  /** The lines of a text as the scanner cuts them, ends of line included in its limit. */
  function Lines(text: seq<byte>): seq<seq<byte>> {
    if text == [] then []
    else
      var n := IndexOf(text, NEWLINE);
      if n == |text| then [text] else [text[..n]] + Lines(text[n + 1..])
  }

  function Unlines(lines: seq<seq<byte>>): seq<byte> {
    if lines == [] then [] else lines[0] + [NEWLINE] + Unlines(lines[1..])
  }

  /** The lines are the text cut at its newlines: none contains one, and joined they give the text back. */
  lemma {:induction false} LinesCutAtNewlines(text: seq<byte>)
    ensures forall k :: 0 <= k < |Lines(text)| ==> NEWLINE !in Lines(text)[k]
    ensures Unlines(Lines(text)) == text || Unlines(Lines(text)) == text + [NEWLINE]
    decreases |text|
  {
    if text != [] {
      hide IndexOf;
      var n := IndexOf(text, NEWLINE);
      if n == |text| {
        assert Unlines(Lines(text)) == text + [NEWLINE] + Unlines([]);
      } else {
        var rest := Lines(text[n + 1..]);
        LinesCutAtNewlines(text[n + 1..]);
        assert Lines(text) == [text[..n]] + rest && Lines(text)[1..] == rest;
        assert text == text[..n] + [NEWLINE] + text[n + 1..];
      }
    }
  }

  predicate IsAt(s: seq<byte>, marker: string, k: nat)
    requires k + |marker| <= |s|
  {
    forall m :: 0 <= m < |marker| ==> s[k + m] == marker[m] as int
  }

  predicate Contains(s: seq<byte>, marker: string) {
    exists k :: 0 <= k <= |s| - |marker| && IsAt(s, marker, k)
  }

  /** A line with a readable time stamp no earlier than `since`. */
  predicate Counts(line: seq<byte>, since: Time, parse: seq<byte> -> Option<Time>) {
    var separator := IndexOf(line, SPACE);
    && 1 <= separator < |line|
    && parse(line[..separator]).Some? && parse(line[..separator]).value >= since
  }

  predicate Shows(line: seq<byte>, since: Time, parse: seq<byte> -> Option<Time>, marker: string) {
    Counts(line, since, parse) && Contains(line[IndexOf(line, SPACE) + 1..], marker)
  }

  /** The text in ASCII. */
  function Ascii(marker: string): seq<int> {
    seq(|marker|, m requires 0 <= m < |marker| => marker[m] as int)
  }

  /** The marker, after any prefix. */
  ghost predicate Holds(text: seq<byte>, marker: string) {
    exists before: seq<byte>, after: seq<byte> :: text == before + Ascii(marker) + after
  }

  /** The line is a readable stamp, no earlier than `since`, a space, and a text that holds the marker. */
  ghost predicate Says(line: seq<byte>, since: Time, parse: seq<byte> -> Option<Time>, marker: string) {
    exists stamp: seq<byte>, text: seq<byte> ::
      && line == stamp + [SPACE] + text && Holds(text, marker)
      && stamp != [] && SPACE !in stamp && parse(stamp).Some? && since <= parse(stamp).value
  }

  lemma ContainsIff(s: seq<byte>, marker: string)
    ensures Contains(s, marker) <==> Holds(s, marker)
  {
    if k :| 0 <= k <= |s| - |marker| && IsAt(s, marker, k) {
      assert s == s[..k] + Ascii(marker) + s[k + |marker|..];
    }
    forall before: seq<byte>, after: seq<byte> | s == before + Ascii(marker) + after ensures Contains(s, marker) {
      assert IsAt(s, marker, |before|);
    }
  }

  lemma {:induction false} StampIsUpToSpace(stamp: seq<byte>, text: seq<byte>)
    requires SPACE !in stamp
    ensures IndexOf(stamp + [SPACE] + text, SPACE) == |stamp|
  {
    if stamp != [] {
      StampIsUpToSpace(stamp[1..], text);
      assert (stamp + [SPACE] + text)[1..] == stamp[1..] + [SPACE] + text;
    }
  }

  lemma ShowsIff(line: seq<byte>, since: Time, parse: seq<byte> -> Option<Time>, marker: string)
    ensures Shows(line, since, parse, marker) <==> Says(line, since, parse, marker)
  {
    hide Contains, Holds, IndexOf;
    if Shows(line, since, parse, marker) {
      var n := IndexOf(line, SPACE);
      ContainsIff(line[n + 1..], marker);
      assert line == line[..n] + [SPACE] + line[n + 1..];
    }
    if Says(line, since, parse, marker) {
      var stamp: seq<byte>, text: seq<byte> :|
        && line == stamp + [SPACE] + text && Holds(text, marker)
        && stamp != [] && SPACE !in stamp && parse(stamp).Some? && since <= parse(stamp).value;
      StampIsUpToSpace(stamp, text);
      assert line[..|stamp|] == stamp && line[|stamp| + 1..] == text;
      ContainsIff(text, marker);
    }
  }

  ghost predicate Shown(lines: seq<seq<byte>>, since: Time, parse: seq<byte> -> Option<Time>, marker: string) {
    exists k :: 0 <= k < |lines| && Shows(WithoutReturn(lines[k]), since, parse, marker)
  }

  ghost predicate Bounded(lines: seq<seq<byte>>) {
    forall k :: 0 <= k < |lines| ==> |lines[k]| < MAX_LINE
  }

  /** The log proves a graceful stop: readable, no line too long, and every marker shown since the request. */
  ghost predicate ShowsGracefulStop(payload: seq<byte>, since: Time, parse: seq<byte> -> Option<Time>) {
    && Text(payload).Some?
    && Bounded(Lines(Text(payload).value))
    && forall m :: 0 <= m < |MARKERS| ==> Shown(Lines(Text(payload).value), since, parse, MARKERS[m])
  }

  ghost predicate SaidBy(lines: seq<seq<byte>>, since: Time, parse: seq<byte> -> Option<Time>, marker: string) {
    exists k :: 0 <= k < |lines| && Says(WithoutReturn(lines[k]), since, parse, marker)
  }

  lemma ShownIff(lines: seq<seq<byte>>, since: Time, parse: seq<byte> -> Option<Time>, marker: string)
    ensures Shown(lines, since, parse, marker) <==> SaidBy(lines, since, parse, marker)
  {
    hide Shows, Says, WithoutReturn;
    forall k | 0 <= k < |lines|
      ensures Shows(WithoutReturn(lines[k]), since, parse, marker) <==>
              Says(WithoutReturn(lines[k]), since, parse, marker)
    {
      ShowsIff(WithoutReturn(lines[k]), since, parse, marker);
    }
  }

  /**
   A readable log without an overlong line proves a graceful stop exactly if some line since the request says that the
   server is stopping, some line that the worlds are saved, and some line that the runner is done.
   */
  lemma GracefulStopIff(payload: seq<byte>, since: Time, parse: seq<byte> -> Option<Time>)
    ensures ShowsGracefulStop(payload, since, parse) <==>
            && Text(payload).Some?
            && var lines := Lines(Text(payload).value);
            && (forall k :: 0 <= k < |lines| ==> |lines[k]| < 0x10_0000)
            && SaidBy(lines, since, parse, "Stopping server")
            && SaidBy(lines, since, parse, "All dimensions are saved")
            && SaidBy(lines, since, parse, "mc-server-runner\tDone")
  {
    hide Shown, SaidBy, Lines, Text;
    if Text(payload).Some? {
      var lines := Lines(Text(payload).value);
      ShownIff(lines, since, parse, "Stopping server");
      ShownIff(lines, since, parse, "All dimensions are saved");
      ShownIff(lines, since, parse, "mc-server-runner\tDone");
      assert MARKERS[0] == "Stopping server" && MARKERS[1] == "All dimensions are saved";
      assert MARKERS[2] == "mc-server-runner\tDone";
    }
  }

  /** Scans line by line, then asks for every marker. */
  method GracefulStopReferences(payload: seq<byte>, since: Time, parse: seq<byte> -> Option<Time>)
    returns (r: Option<seq<string>>)
    ensures r == if ShowsGracefulStop(payload, since, parse) then Some(REFERENCES) else None
  {
    hide Shown, Lines, Text, Bounded;
    var text := DockerLogText(payload);
    if text.None? { return None; }
    var found := ScanLines(text.value, since, parse);
    if found.None? { return None; }
    var references: seq<string> := [];
    var m := 0;
    while m < |MARKERS|
      invariant 0 <= m <= |MARKERS| && references == REFERENCES[..m]
      invariant forall x :: 0 <= x < m ==> x in found.value
    {
      if m !in found.value { return None; }
      references := references + [REFERENCES[m]];
      m := m + 1;
    }
    assert REFERENCES[..m] == REFERENCES;
    forall x | 0 <= x < |MARKERS| ensures Shown(Lines(text.value), since, parse, MARKERS[x]) {
      assert x in found.value;
    }
    return Some(references);
  }

  /** The markers shown by any line, unless a line is too long to scan. */
  method ScanLines(text: seq<byte>, since: Time, parse: seq<byte> -> Option<Time>) returns (r: Option<set<nat>>)
    ensures r.Some? <==> Bounded(Lines(text))
    ensures r.Some? ==> forall m: nat :: m in r.value <==> m < |MARKERS| && Shown(Lines(text), since, parse, MARKERS[m])
  {
    hide Shown, Shows, Bounded, Lines, WithoutReturn;
    var found: set<nat> := {};
    var rest := text;
    ghost var all, seen := Lines(text), 0;
    assert all[..0] == [] && all[0..] == all;
    NothingShown(since, parse);
    NoLines();
    while rest != []
      invariant 0 <= seen <= |all| && all[seen..] == Lines(rest)
      invariant Bounded(all[..seen])
      invariant forall m: nat :: m in found <==> m < |MARKERS| && Shown(all[..seen], since, parse, MARKERS[m])
      decreases |rest|
    {
      var n := IndexOf(rest, NEWLINE);
      FirstLine(rest);
      assert all[seen] == all[seen..][0] && all[seen + 1..] == all[seen..][1..];
      BoundedSoFar(all, seen);
      if n >= MAX_LINE { return None; }
      found := FindMarkers(WithoutReturn(rest[..n]), since, parse, found);
      OneMoreLine(all, seen, since, parse);
      rest := if n == |rest| then [] else rest[n + 1..];
      seen := seen + 1;
    }
    assert all[..seen] == all;
    return Some(found);
  }

  lemma NoLines()
    ensures Lines([]) == []
  {
  }

  lemma FirstLine(text: seq<byte>)
    requires text != []
    ensures Lines(text) != []
    ensures var n := IndexOf(text, NEWLINE);
            Lines(text)[0] == text[..n] && Lines(text)[1..] == Lines(if n == |text| then [] else text[n + 1..])
  {
  }

  lemma NothingShown(since: Time, parse: seq<byte> -> Option<Time>)
    ensures Bounded([])
    ensures forall marker :: !Shown([], since, parse, marker)
  {
  }

  lemma BoundedSoFar(lines: seq<seq<byte>>, n: nat)
    requires n < |lines| && Bounded(lines[..n])
    ensures |lines[n]| < MAX_LINE ==> Bounded(lines[..n + 1])
    ensures |lines[n]| >= MAX_LINE ==> !Bounded(lines)
  {
    var longer, shorter := lines[..n + 1], lines[..n];
    assert longer[n] == lines[n] && forall k :: 0 <= k < n ==> longer[k] == shorter[k];
  }

  method FindMarkers(line: seq<byte>, since: Time, parse: seq<byte> -> Option<Time>, found: set<nat>)
    returns (r: set<nat>)
    ensures forall m: nat :: m in r <==> m in found || (m < |MARKERS| && Shows(line, since, parse, MARKERS[m]))
  {
    r := found;
    var separator := IndexOf(line, SPACE);
    if separator == |line| || separator < 1 { return; }
    var stamp := parse(line[..separator]);
    if stamp.None? || stamp.value < since { return; }
    var m := 0;
    while m < |MARKERS|
      invariant 0 <= m <= |MARKERS|
      invariant forall x: nat :: x in r <==> x in found || (x < m && Shows(line, since, parse, MARKERS[x]))
    {
      if Contains(line[separator + 1..], MARKERS[m]) { r := r + {m}; }
      m := m + 1;
    }
  }

  lemma OneMoreLine(lines: seq<seq<byte>>, n: nat, since: Time, parse: seq<byte> -> Option<Time>)
    requires n < |lines|
    ensures forall marker :: Shown(lines[..n + 1], since, parse, marker) <==>
                             Shown(lines[..n], since, parse, marker) ||
                               Shows(WithoutReturn(lines[n]), since, parse, marker)
  {
    hide Shows, WithoutReturn;
    var longer, shorter := lines[..n + 1], lines[..n];
    assert longer[n] == lines[n] && forall k :: 0 <= k < n ==> longer[k] == shorter[k];
  }
}
