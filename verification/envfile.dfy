/** The environment file's parser and printer. A file is its decoded text; the printer
    works on its bytes, whose line breaks are the same characters. */
module EnvFile {
  import opened Common

  const ENABLED_KEY := "AI_RUNTIME_ENABLED"
  const SECRET_KEY := "OPENROUTER_API_KEY"
  const BASE_URL_KEY := "OPENROUTER_BASE_URL"
  const AI_KEYS := [ENABLED_KEY, SECRET_KEY, BASE_URL_KEY]
  const PINNED_BASE_URL := "https://openrouter.ai/api/v1"
  const MINIMUM_SECRET_LENGTH := 20
  const MAXIMUM_SECRET_LENGTH := 512

  // --------------------------------------------------------------------- lines

  /** Two notions of a line: the printer splits bytes, at LF, CR and CRLF; the parser
      splits the decoded text, at eight more characters. */
  datatype Breaks = Bytes | Text

  /** Vertical tab, form feed, the file, group and record separators, next line, line
      separator and paragraph separator. */
  predicate IsTextBreak(c: char) {
    c == '\U{b}' || c == '\U{c}' || '\U{1c}' <= c <= '\U{1e}' || c == '\U{85}' || c == '\U{2028}' || c == '\U{2029}'
  }

  predicate IsBreak(b: Breaks, c: char) {
    c == '\n' || c == '\r' || (b.Text? && IsTextBreak(c))
  }

  /** How much of the text its first line takes, its line break included. */
  function FirstLine(b: Breaks, s: string): (n: nat)
    requires s != ""
    ensures 1 <= n <= |s|
  {
    if s[0] == '\r' && |s| > 1 && s[1] == '\n' then 2
    else if IsBreak(b, s[0]) || |s| == 1 then 1
    else 1 + FirstLine(b, s[1..])
  }

  function SplitLines(b: Breaks, s: string): seq<string>
    decreases s
  {
    if s == "" then [] else [s[..FirstLine(b, s)]] + SplitLines(b, s[FirstLine(b, s)..])
  }

  function Join(lines: seq<string>): string {
    if lines == [] then "" else lines[0] + Join(lines[1..])
  }

  /** A line without the break that ends it. */
  function StripBreaks(b: Breaks, line: string): string
    decreases line
  {
    if line != "" && IsBreak(b, line[|line| - 1]) then StripBreaks(b, line[..|line| - 1]) else line
  }

  /** White space as Python strips it. */
  predicate IsSpace(c: char) {
    || c == ' ' || '\t' <= c <= '\r' || '\U{1c}' <= c <= '\U{1f}' || c == '\U{85}' || c == '\U{a0}' || c == '\U{1680}'
    || '\U{2000}' <= c <= '\U{200a}' || c == '\U{2028}' || c == '\U{2029}' || c == '\U{202f}' || c == '\U{205f}'
      || c == '\U{3000}'
  }

  function StripLeft(s: string): string {
    if s != "" && IsSpace(s[0]) then StripLeft(s[1..]) else s
  }

  // ------------------------------------------------------------------- entries

  predicate KeyChar(c: char) { 'A' <= c <= 'Z' || '0' <= c <= '9' || c == '_' }

  function KeyLength(s: string): (n: nat)
    ensures n <= |s|
  {
    if s != "" && KeyChar(s[0]) then 1 + KeyLength(s[1..]) else 0
  }

  /** The key and value of a line of the form KEY=value. */
  function KeyLine(s: string): Option<(string, string)> {
    var n := KeyLength(s);
    if n >= 1 && 'A' <= s[0] <= 'Z' && n < |s| && s[n] == '=' && '\n' !in s[n + 1..]
    then Some((s[..n], s[n + 1..])) else None
  }

  /** The managed key the body of a line sets, if any, and its value. */
  function EntryOf(body: string): Option<(string, string)> {
    var entry := KeyLine(StripLeft(body));
    if entry.Some? && entry.value.0 in AI_KEYS then entry else None
  }

  function ManagedEntry(b: Breaks, line: string): Option<(string, string)> { EntryOf(StripBreaks(b, line)) }

  predicate Managed(b: Breaks, line: string) { ManagedEntry(b, line).Some? }

  // ------------------------------------------------------------------- parsing

  datatype Parsed = Values(values: map<string, string>) | Duplicate(key: string)

  /** The managed values, read from the first line to the last. */
  function Collect(lines: seq<string>): Parsed {
    if lines == [] then Values(map[])
    else Add(Collect(lines[..|lines| - 1]), lines[|lines| - 1])
  }

  function Add(before: Parsed, line: string): Parsed {
    match before
    case Duplicate(_) => before
    case Values(values) =>
      (match ManagedEntry(Text, line)
       case None => before
       case Some((key, value)) => if key in values then Duplicate(key) else Values(values[key := value]))
  }

  lemma {:induction false} DuplicateStays(lines: seq<string>, n: nat)
    requires n <= |lines| && Collect(lines[..n]).Duplicate?
    ensures Collect(lines) == Collect(lines[..n])
    decreases |lines|
  {
    if n == |lines| {
      assert lines[..n] == lines;
    } else {
      assert lines[..|lines| - 1][..n] == lines[..n];
      DuplicateStays(lines[..|lines| - 1], n);
    }
  }

  /** What the parser makes of a file. */
  function Parse(content: string): Parsed { Collect(SplitLines(Text, content)) }

  method ParseEnv(content: string) returns (lines: seq<string>, r: Parsed)
    ensures lines == SplitLines(Bytes, content) && r == Parse(content)
  {
    lines := SplitLines(Bytes, content);
    r := CollectValues(SplitLines(Text, content));
  }

  method CollectValues(lines: seq<string>) returns (r: Parsed)
    ensures r == Collect(lines)
  {
    var values: map<string, string> := map[];
    for i := 0 to |lines|
      invariant Collect(lines[..i]) == Values(values)
    {
      hide ManagedEntry;
      assert lines[..i + 1][..i] == lines[..i];
      match ManagedEntry(Text, lines[i]) {
        case None =>
        case Some((key, value)) =>
          if key in values {
            DuplicateStays(lines, i + 1);
            return Duplicate(key);
          }
          values := values[key := value];
      }
    }
    assert lines[..|lines|] == lines;
    r := Values(values);
  }

  predicate ValidSecret(secret: string) {
    && MINIMUM_SECRET_LENGTH <= |secret| <= MAXIMUM_SECRET_LENGTH
    && forall c :: c in secret ==> '!' <= c <= '~' && c != '\'' && c != '"' && c != '\\' && c != '$'
  }

  predicate ConfigurationValid(values: map<string, string>) {
    && ENABLED_KEY in values && values[ENABLED_KEY] == "true"
    && SECRET_KEY in values && ValidSecret(values[SECRET_KEY])
    && BASE_URL_KEY in values && values[BASE_URL_KEY] == PINNED_BASE_URL
  }

  // ------------------------------------------------------------------ printing

  function Unmanaged(lines: seq<string>): seq<string> {
    if lines == [] then []
    else if Managed(Bytes, lines[0]) then Unmanaged(lines[1..])
    else [lines[0]] + Unmanaged(lines[1..])
  }

  predicate Terminated(b: Breaks, s: string) { s == "" || IsBreak(b, s[|s| - 1]) }

  /** The text kept: every line that is not managed, and a line feed if the last of
      them has no line break. */
  function Kept(lines: seq<string>): string {
    var kept := Join(Unmanaged(lines));
    if Terminated(Bytes, kept) then kept else kept + "\n"
  }

  function Setting(key: string, value: string): string { key + "=" + value + "\n" }

  function Settings(secret: string): seq<string> {
    [Setting(ENABLED_KEY, "true"), Setting(SECRET_KEY, secret), Setting(BASE_URL_KEY, PINNED_BASE_URL)]
  }

  function Render(lines: seq<string>, secret: string): string {
    Kept(lines) + Join(Settings(secret))
  }

  /** The text a file keeps, and the file rendered with a secret. */
  function KeptOf(content: string): string { Kept(SplitLines(Bytes, content)) }

  function Rendered(content: string, secret: string): string { Render(SplitLines(Bytes, content), secret) }

  lemma {:induction false} JoinAppend(a: seq<string>, b: seq<string>)
    ensures Join(a + b) == Join(a) + Join(b)
  {
    if a == [] {
      assert a + b == b;
    } else {
      var rest := a[1..];
      assert (a + b)[0] == a[0] && (a + b)[1..] == rest + b;
      JoinAppend(rest, b);
      assert a[0] + (Join(rest) + Join(b)) == (a[0] + Join(rest)) + Join(b);
    }
  }

  lemma {:induction false} UnmanagedAppend(a: seq<string>, b: seq<string>)
    ensures Unmanaged(a + b) == Unmanaged(a) + Unmanaged(b)
  {
    hide Managed;
    if a == [] {
      assert a + b == b;
    } else {
      var rest := a[1..];
      assert (a + b)[0] == a[0] && (a + b)[1..] == rest + b;
      UnmanagedAppend(rest, b);
      assert [a[0]] + (Unmanaged(rest) + Unmanaged(b)) == ([a[0]] + Unmanaged(rest)) + Unmanaged(b);
    }
  }

  lemma {:induction false} UnmanagedIn(lines: seq<string>)
    ensures forall line :: line in Unmanaged(lines) <==> line in lines && !Managed(Bytes, line)
  {
    hide Managed;
    if lines != [] {
      UnmanagedIn(lines[1..]);
      assert lines == [lines[0]] + lines[1..];
    }
  }

  method RenderEnv(lines: seq<string>, secret: string) returns (rendered: string)
    requires "" !in lines
    ensures rendered == Render(lines, secret)
  {
    hide Managed;
    var retained: seq<string> := [];
    for i := 0 to |lines|
      invariant retained == Unmanaged(lines[..i])
    {
      assert lines[..i + 1] == lines[..i] + [lines[i]];
      UnmanagedAppend(lines[..i], [lines[i]]);
      if !Managed(Bytes, lines[i]) {
        retained := retained + [lines[i]];
      }
    }
    assert lines[..|lines|] == lines;
    UnmanagedIn(lines);
    retained := TerminateLast(retained);
    JoinAppend(retained, Settings(secret));
    rendered := Join(retained + Settings(secret));
  }

  method TerminateLast(lines: seq<string>) returns (r: seq<string>)
    requires "" !in lines
    ensures Join(r) == if Terminated(Bytes, Join(lines)) then Join(lines) else Join(lines) + "\n"
  {
    r := lines;
    if lines != [] {
      var n := |lines| - 1;
      var last := lines[n];
      assert last in lines;
      assert lines == lines[..n] + [last];
      JoinAppend(lines[..n], [last]);
      assert Join([last]) == last;
      if !IsBreak(Bytes, last[|last| - 1]) {
        r := lines[..n] + [last + "\n"];
        JoinAppend(lines[..n], [last + "\n"]);
        assert Join([last + "\n"]) == last + "\n";
        assert Join(lines[..n]) + (last + "\n") == Join(lines) + "\n";
      }
    }
  }

  // ------------------------------------------------------- splitting and joining

  /** A line as splitting makes it: one line, all of it. */
  predicate IsLine(b: Breaks, line: string) { line != "" && FirstLine(b, line) == |line| }

  predicate AllButLastEnd(b: Breaks, lines: seq<string>) {
    forall i :: 0 <= i < |lines| - 1 ==> Terminated(b, lines[i])
  }

  lemma {:induction false} FirstLineIsLine(b: Breaks, s: string)
    requires s != ""
    ensures IsLine(b, s[..FirstLine(b, s)])
    ensures FirstLine(b, s) < |s| ==> IsBreak(b, s[FirstLine(b, s) - 1])
    decreases |s|
  {
    hide IsTextBreak;
    var n := FirstLine(b, s);
    if !IsBreak(b, s[0]) && |s| > 1 {
      FirstLineIsLine(b, s[1..]);
      assert s[..n][1..] == s[1..][..n - 1];
    }
  }

  /** Splitting keeps every character: the lines joined are the text. */
  lemma {:induction false} JoinOfSplit(b: Breaks, s: string)
    ensures Join(SplitLines(b, s)) == s
    ensures forall line :: line in SplitLines(b, s) ==> IsLine(b, line)
    ensures AllButLastEnd(b, SplitLines(b, s))
    decreases |s|
  {
    hide IsBreak, FirstLine;
    if s != "" {
      FirstLineIsLine(b, s);
      JoinOfSplit(b, s[FirstLine(b, s)..]);
    }
  }

  /** Text appended after a line that has ended does not change it, unless it turns a
      final CR into a CRLF. */
  lemma {:induction false} FirstLineAppend(b: Breaks, s: string, t: string)
    requires s != "" && IsBreak(b, s[FirstLine(b, s) - 1])
    requires t != "" && s[|s| - 1] == '\r' ==> t[0] != '\n'
    ensures FirstLine(b, s + t) == FirstLine(b, s)
    decreases |s|
  {
    hide IsTextBreak;
    if !IsBreak(b, s[0]) {
      FirstLineAppend(b, s[1..], t);
      assert (s + t)[1..] == s[1..] + t;
    }
  }

  lemma SplitFirst(b: Breaks, s: string)
    ensures SplitLines(b, s) == if s == "" then [] else [s[..FirstLine(b, s)]] + SplitLines(b, s[FirstLine(b, s)..])
  {
  }

  lemma TailTerminated(b: Breaks, s: string)
    requires s != "" && Terminated(b, s)
    ensures IsBreak(b, s[FirstLine(b, s) - 1])
    ensures var rest := s[FirstLine(b, s)..]; Terminated(b, rest) && (rest != "" ==> rest[|rest| - 1] == s[|s| - 1])
  {
    hide FirstLine;
    FirstLineIsLine(b, s);
  }

  lemma {:induction false} SplitAppend(b: Breaks, s: string, t: string)
    requires Terminated(b, s)
    requires s != "" && t != "" && s[|s| - 1] == '\r' ==> t[0] != '\n'
    ensures SplitLines(b, s + t) == SplitLines(b, s) + SplitLines(b, t)
    decreases |s|
  {
    hide *;
    if s == "" {
      SplitFirst(b, s);
      assert s + t == t;
    } else {
      TailTerminated(b, s);
      FirstLineAppend(b, s, t);
      var n := FirstLine(b, s);
      SplitAppend(b, s[n..], t);
      SplitFirst(b, s);
      SplitStep(b, s + t, s[..n], s[n..] + t);
      ConsAppend(s[..n], SplitLines(b, s[n..]), SplitLines(b, t));
    }
  }

  lemma SplitStep(b: Breaks, s: string, head: string, rest: string)
    requires s != "" && s == head + rest && |head| == FirstLine(b, s)
    ensures SplitLines(b, s) == [head] + SplitLines(b, rest)
  {
    hide *;
    SplitFirst(b, s);
    assert s[..|head|] == head && s[|head|..] == rest;
  }

  lemma ConsAppend(x: string, xs: seq<string>, ys: seq<string>)
    ensures [x] + (xs + ys) == [x] + xs + ys
  {
    hide *;
  }

  lemma SplitOfLine(b: Breaks, line: string)
    requires IsLine(b, line)
    ensures SplitLines(b, line) == [line]
  {
    assert line[..|line|] == line;
  }

  /** The bodies of the lines that have one. Joining lines and splitting again may
      turn a CR and a blank line's LF into one CRLF, and keeps these as they are. */
  function Bodies(lines: seq<string>): seq<string> {
    if lines == [] then []
    else if StripBreaks(Bytes, lines[0]) == "" then Bodies(lines[1..])
    else [StripBreaks(Bytes, lines[0])] + Bodies(lines[1..])
  }

  lemma {:induction false} BodiesAppend(a: seq<string>, b: seq<string>)
    ensures Bodies(a + b) == Bodies(a) + Bodies(b)
  {
    hide StripBreaks;
    if a == [] {
      assert a + b == b;
    } else {
      var rest := a[1..];
      assert (a + b)[0] == a[0] && (a + b)[1..] == rest + b;
      BodiesAppend(rest, b);
      var body := [StripBreaks(Bytes, a[0])];
      assert body + (Bodies(rest) + Bodies(b)) == (body + Bodies(rest)) + Bodies(b);
    }
  }

  /** A line feed after a line that ends in CR, or that has not ended, completes it. */
  lemma {:induction false} CompletedLine(b: Breaks, line: string)
    requires IsLine(b, line) && (line[|line| - 1] == '\r' || !IsBreak(b, line[|line| - 1]))
    ensures IsLine(b, line + "\n") && StripBreaks(b, line + "\n") == StripBreaks(b, line)
    decreases |line|
  {
    hide IsTextBreak;
    var whole := line + "\n";
    assert whole[..|whole| - 1] == line;
    if !IsBreak(b, line[0]) && |line| > 1 {
      CompletedLine(b, line[1..]);
      assert whole[1..] == line[1..] + "\n";
    }
  }

  /** Joining any lines and splitting again gives back their non-empty bodies. */
  lemma {:induction false} SplitOfJoin(lines: seq<string>)
    requires (forall line :: line in lines ==> IsLine(Bytes, line)) && AllButLastEnd(Bytes, lines)
    ensures Bodies(SplitLines(Bytes, Join(lines))) == Bodies(lines)
    decreases |lines|
  {
    if lines != [] {
      var line, rest := lines[0], lines[1..];
      assert line in lines && forall l :: l in rest ==> l in lines;
      assert AllButLastEnd(Bytes, rest) by {
        assert forall i :: 0 <= i < |rest| - 1 ==> rest[i] == lines[i + 1];
      }
      SplitOfLine(Bytes, line);
      if rest == [] {
        assert Join(lines) == line;
      } else if line[|line| - 1] == '\r' && Join(rest) != "" && Join(rest)[0] == '\n' {
        MergedBreak(lines);
      } else {
        SplitAppend(Bytes, line, Join(rest));
        SplitOfJoin(rest);
      }
    }
  }

  /** A CR at the end of a line and the LF of a blank line after it run together. */
  ghost predicate Merges(lines: seq<string>) {
    && (forall line :: line in lines ==> IsLine(Bytes, line)) && AllButLastEnd(Bytes, lines) && |lines| >= 2
    && lines[0] != "" && lines[0][|lines[0]| - 1] == '\r' && Join(lines[1..]) != "" && Join(lines[1..])[0] == '\n'
  }

  lemma JoinTwo(lines: seq<string>)
    requires |lines| >= 2
    ensures Join(lines) == (lines[0] + lines[1]) + Join(lines[2..])
  {
    assert lines[1..][1..] == lines[2..];
    assert Join(lines[1..]) == lines[1] + Join(lines[2..]);
    assert lines[0] + (lines[1] + Join(lines[2..])) == (lines[0] + lines[1]) + Join(lines[2..]);
  }

  /** A line that starts with LF is a blank line. */
  lemma StartsBlank(lines: seq<string>)
    requires lines != [] && IsLine(Bytes, lines[0]) && Join(lines) != "" && Join(lines)[0] == '\n'
    ensures lines[0] == "\n"
  {
    hide IsTextBreak;
  }

  lemma MergedLines(lines: seq<string>)
    requires Merges(lines)
    ensures lines == [lines[0], "\n"] + lines[2..] && IsLine(Bytes, lines[0])
    ensures (forall line :: line in lines[2..] ==> IsLine(Bytes, line)) && AllButLastEnd(Bytes, lines[2..])
    ensures Join(lines) == (lines[0] + "\n") + Join(lines[2..])
  {
    hide IsLine, Terminated, Join;
    assert lines[0] in lines && lines[1] in lines;
    StartsBlank(lines[1..]);
    JoinTwo(lines);
    assert forall i :: 0 <= i < |lines[2..]| - 1 ==> lines[2..][i] == lines[i + 2];
  }

  lemma {:induction false} MergedBreak(lines: seq<string>)
    requires Merges(lines)
    ensures Bodies(SplitLines(Bytes, Join(lines))) == Bodies(lines)
    decreases |lines|, 0
  {
    MergedLines(lines);
    var line, rest := lines[0], lines[2..];
    var whole := line + "\n";
    CompletedLine(Bytes, line);
    SplitOfLine(Bytes, whole);
    SplitOfJoin(rest);
    hide IsLine, FirstLine, AllButLastEnd, Join, SplitLines, Merges;
    SplitAppend(Bytes, whole, Join(rest));
    BodiesAppend([whole], SplitLines(Bytes, Join(rest)));
    BodiesAppend([line, "\n"], rest);
    SameBody(line, whole);
    BodiesAppend([line], ["\n"]);
    BlankHasNoBody();
    assert [line] + ["\n"] == [line, "\n"];
  }

  lemma BlankHasNoBody()
    ensures Bodies(["\n"]) == []
  {
    assert "\n"[..0] == "" && StripBreaks(Bytes, "\n") == "";
    assert ["\n"][1..] == [];
  }

  // ------------------------------------------------------------ the kept text

  predicate AllUnmanaged(b: Breaks, lines: seq<string>) { forall line :: line in lines ==> !Managed(b, line) }

  predicate NoEntries(bodies: seq<string>) { forall b :: b in bodies ==> EntryOf(b).None? }

  /** Only a line with a body can be managed, and whether it is depends on its body. */
  lemma {:induction false} ManagedByBody(lines: seq<string>)
    ensures AllUnmanaged(Bytes, lines) <==> NoEntries(Bodies(lines))
  {
    hide EntryOf;
    if lines != [] {
      var b, rest := StripBreaks(Bytes, lines[0]), lines[1..];
      ManagedByBody(rest);
      BlankIsNoEntry();
      assert AllUnmanaged(Bytes, lines) <==> !Managed(Bytes, lines[0]) && AllUnmanaged(Bytes, rest) by {
        assert lines[0] in lines && forall line :: line in lines <==> line == lines[0] || line in rest;
      }
      if b != "" {
        assert b in Bodies(lines) && forall c :: c in Bodies(lines) <==> c == b || c in Bodies(rest);
      }
    }
  }

  lemma BlankIsNoEntry()
    ensures EntryOf("").None?
  {
  }

  lemma KeptIs(lines: seq<string>)
    ensures var text := Join(Unmanaged(lines)); Kept(lines) == text + (if Terminated(Bytes, text) then "" else "\n")
    ensures Terminated(Bytes, Kept(lines)) && Terminated(Text, Kept(lines))
  {
  }

  /** A file and the text it keeps: the bodies of its unmanaged lines, in order. */
  lemma KeptBodies(content: string)
    ensures Bodies(SplitLines(Bytes, KeptOf(content))) == Bodies(Unmanaged(SplitLines(Bytes, content)))
  {
    hide Kept, SplitLines, Bodies, Unmanaged, Join, IsLine, AllButLastEnd, Terminated;
    var lines := SplitLines(Bytes, content);
    JoinOfSplit(Bytes, content);
    UnmanagedIn(lines);
    UnmanagedEnd(lines);
    KeptJoins(Unmanaged(lines));
    KeptIs(lines);
  }

  lemma {:induction false} UnmanagedEnd(lines: seq<string>)
    requires AllButLastEnd(Bytes, lines)
    ensures AllButLastEnd(Bytes, Unmanaged(lines))
  {
    hide Managed, Terminated;
    if lines != [] {
      UnmanagedIn(lines[1..]);
      assert AllButLastEnd(Bytes, lines[1..]) by {
        assert forall i :: 0 <= i < |lines[1..]| - 1 ==> lines[1..][i] == lines[i + 1];
      }
      UnmanagedEnd(lines[1..]);
    }
  }

  lemma KeptJoins(lines: seq<string>)
    requires (forall line :: line in lines ==> IsLine(Bytes, line)) && AllButLastEnd(Bytes, lines)
    ensures var text := Join(lines);
      Bodies(SplitLines(Bytes, text + (if Terminated(Bytes, text) then "" else "\n"))) == Bodies(lines)
  {
    hide FirstLine, SplitLines, Bodies;
    assert Join(lines) + "" == Join(lines);
    if Terminated(Bytes, Join(lines)) {
      SplitOfJoin(lines);
    } else if lines != [] {
      var n := |lines| - 1;
      var last := lines[n];
      assert last in lines && lines == lines[..n] + [last];
      JoinAppend(lines[..n], [last]);
      assert Join([last]) == last;
      CompletedLine(Bytes, last);
      var ended := lines[..n] + [last + "\n"];
      JoinAppend(lines[..n], [last + "\n"]);
      assert Join([last + "\n"]) == last + "\n";
      assert Join(ended) == Join(lines) + "\n";
      SplitOfJoin(ended);
      BodiesAppend(lines[..n], [last]);
      BodiesAppend(lines[..n], [last + "\n"]);
      SameBody(last, last + "\n");
    }
  }

  lemma SameBody(a: string, b: string)
    requires StripBreaks(Bytes, a) == StripBreaks(Bytes, b)
    ensures Bodies([a]) == Bodies([b])
  {
    hide StripBreaks;
    assert [a][1..] == [] && [b][1..] == [];
  }

  /** No line of the kept text is managed, as the printer splits it. */
  lemma KeptIsUnmanaged(content: string)
    ensures AllUnmanaged(Bytes, SplitLines(Bytes, KeptOf(content)))
  {
    hide Managed, EntryOf, Bodies, Kept, Unmanaged, SplitLines;
    KeptBodies(content);
    UnmanagedIn(SplitLines(Bytes, content));
    ManagedByBody(Unmanaged(SplitLines(Bytes, content)));
    ManagedByBody(SplitLines(Bytes, KeptOf(content)));
  }

  lemma {:induction false} UnmanagedAll(lines: seq<string>)
    requires AllUnmanaged(Bytes, lines)
    ensures Unmanaged(lines) == lines
  {
    hide Managed;
    if lines != [] {
      assert lines[0] in lines;
      UnmanagedAll(lines[1..]);
    }
  }

  // -------------------------------------------------------------- the settings

  predicate NoBreaks(s: string) { forall c :: c in s ==> !IsBreak(Text, c) }

  lemma BodyAndFeed(b: Breaks, body: string)
    requires NoBreaks(body)
    ensures IsLine(b, body + "\n") && StripBreaks(b, body + "\n") == body
  {
    LineAndFeed(b, body);
    hide FirstLine, IsTextBreak;
    var line := body + "\n";
    assert line[..|line| - 1] == body;
    assert body != "" ==> body[|body| - 1] in body;
    assert StripBreaks(b, body) == body;
  }

  lemma {:induction false} LineAndFeed(b: Breaks, body: string)
    requires NoBreaks(body)
    ensures FirstLine(b, body + "\n") == |body| + 1
    decreases |body|
  {
    hide IsTextBreak;
    if body != "" {
      assert body[0] in body;
      LineAndFeed(b, body[1..]);
      assert (body + "\n")[1..] == body[1..] + "\n";
    }
  }

  predicate IsKey(key: string) { key != "" && 'A' <= key[0] <= 'Z' && forall c :: c in key ==> KeyChar(c) }

  lemma {:induction false} KeyLengthOf(key: string, value: string)
    requires forall c :: c in key ==> KeyChar(c)
    ensures KeyLength(key + "=" + value) == |key|
  {
    if key != "" {
      assert key[0] in key;
      KeyLengthOf(key[1..], value);
      assert (key + "=" + value)[1..] == key[1..] + "=" + value;
    }
  }

  /** A printed setting is one line, and reads back as its key and value. */
  lemma SettingReadsBack(b: Breaks, key: string, value: string)
    requires key in AI_KEYS && IsKey(key) && NoBreaks(value)
    ensures IsLine(b, Setting(key, value)) && ManagedEntry(b, Setting(key, value)) == Some((key, value))
    ensures var s := Setting(key, value); s != "" && s[0] == key[0] && s[|s| - 1] == '\n'
  {
    hide IsLine, EntryOf, StripBreaks, IsTextBreak;
    var body := key + "=" + value;
    assert Setting(key, value) == body + "\n";
    KeyHasNoBreaks(key);
    assert NoBreaks(body) by {
      forall c | c in body ensures !IsBreak(Text, c) { assert c in key || c == '=' || c in value; EqualsIsNoBreak(); }
    }
    BodyAndFeed(b, body);
    EntryReadsBack(key, value);
  }

  lemma EqualsIsNoBreak()
    ensures !IsBreak(Text, '=')
  {
  }

  lemma KeyHasNoBreaks(key: string)
    requires IsKey(key)
    ensures NoBreaks(key)
  {
  }

  lemma EntryReadsBack(key: string, value: string)
    requires key in AI_KEYS && IsKey(key) && NoBreaks(value)
    ensures EntryOf(key + "=" + value) == Some((key, value))
  {
    var body := key + "=" + value;
    KeyLengthOf(key, value);
    hide KeyLength, IsTextBreak;
    assert body[|key|] == '=' && body[..|key|] == key && body[|key| + 1..] == value;
    assert StripLeft(body) == body;
  }

  lemma KeysAreKeys()
    ensures forall k :: k in AI_KEYS ==> IsKey(k)
    ensures ENABLED_KEY != SECRET_KEY && ENABLED_KEY != BASE_URL_KEY && SECRET_KEY != BASE_URL_KEY
    ensures NoBreaks("true") && NoBreaks(PINNED_BASE_URL)
  {
    hide IsKey, NoBreaks;
    AllKeys();
    ValuesHaveNoBreaks();
    KeysDiffer();
  }

  lemma KeysDiffer()
    ensures ENABLED_KEY != SECRET_KEY && ENABLED_KEY != BASE_URL_KEY && SECRET_KEY != BASE_URL_KEY
  {
    assert 'Y' in SECRET_KEY && 'P' in BASE_URL_KEY;
    assert 'Y' !in ENABLED_KEY && 'P' !in ENABLED_KEY && 'Y' !in BASE_URL_KEY;
  }

  lemma AllKeys()
    ensures IsKey(ENABLED_KEY) && IsKey(SECRET_KEY) && IsKey(BASE_URL_KEY)
  {
  }

  predicate Printable(s: string) { forall c :: c in s ==> '!' <= c <= '~' }

  lemma PrintableHasNoBreaks(s: string)
    requires Printable(s)
    ensures NoBreaks(s)
  {
  }

  lemma ValuesHaveNoBreaks()
    ensures NoBreaks("true") && NoBreaks(PINNED_BASE_URL)
  {
    hide NoBreaks;
    PrintableHasNoBreaks("true");
    PrintableHasNoBreaks(PINNED_BASE_URL);
  }

  lemma SecretHasNoBreaks(secret: string)
    requires ValidSecret(secret)
    ensures NoBreaks(secret)
  {
    hide NoBreaks;
    PrintableHasNoBreaks(secret);
  }

  lemma JoinThree(x: string, y: string, z: string)
    ensures Join([x, y, z]) == x + (y + z)
  {
    assert [x, y, z][1..] == [y, z] && [y, z][1..] == [z] && [z][1..] == [];
    assert Join([z]) == z + "" == z;
    assert Join([y, z]) == y + Join([z]);
  }

  lemma KeyStart(key: string)
    requires IsKey(key)
    ensures key != "" && key[0] != '\n'
  {
  }

  /** The printed settings, split again, are the three lines that were printed. */
  lemma SettingsSplit(b: Breaks, secret: string)
    requires NoBreaks(secret)
    ensures SplitLines(b, Join(Settings(secret))) == Settings(secret)
    ensures Join(Settings(secret)) != "" && Join(Settings(secret))[0] != '\n'
  {
    hide ManagedEntry, SplitLines, IsLine, FirstLine, IsKey, Setting, IsTextBreak, NoBreaks;
    KeysAreKeys();
    var x, y, z := Settings(secret)[0], Settings(secret)[1], Settings(secret)[2];
    SettingReadsBack(b, ENABLED_KEY, "true");
    SettingReadsBack(b, SECRET_KEY, secret);
    SettingReadsBack(b, BASE_URL_KEY, PINNED_BASE_URL);
    SplitOfLine(b, x);
    SplitOfLine(b, y);
    SplitOfLine(b, z);
    SplitAppend(b, y, z);
    SplitAppend(b, x, y + z);
    JoinThree(x, y, z);
    assert Settings(secret) == [x, y, z];
    KeyStart(ENABLED_KEY);
    assert x[0] == ENABLED_KEY[0] && Join(Settings(secret))[0] == x[0];
  }

  /** Splitting a rendered file: the lines of the kept text, then the three settings. */
  lemma RenderedLines(b: Breaks, content: string, secret: string)
    requires NoBreaks(secret)
    ensures SplitLines(b, Rendered(content, secret)) == SplitLines(b, KeptOf(content)) + Settings(secret)
  {
    hide SplitLines, Kept, Settings, Join, NoBreaks, Terminated;
    KeptIs(SplitLines(Bytes, content));
    SettingsSplit(b, secret);
    SplitAppend(b, KeptOf(content), Join(Settings(secret)));
  }

  lemma SettingsAreManaged(secret: string)
    requires NoBreaks(secret)
    ensures Unmanaged(Settings(secret)) == []
  {
    hide ManagedEntry, IsLine, IsKey, NoBreaks, Setting;
    KeysAreKeys();
    SettingReadsBack(Bytes, ENABLED_KEY, "true");
    SettingReadsBack(Bytes, SECRET_KEY, secret);
    SettingReadsBack(Bytes, BASE_URL_KEY, PINNED_BASE_URL);
    var all := Settings(secret);
    assert all[1..] == [all[1], all[2]] && all[1..][1..] == [all[2]] && all[1..][1..][1..] == [];
    assert Unmanaged([all[2]]) == [];
  }

  // ------------------------------------------------------- parsing the rendered

  /** What reading the three settings after some lines gives. */
  function ThreeMore(r: Parsed, secret: string): Parsed {
    Add(Add(Add(r, Setting(ENABLED_KEY, "true")), Setting(SECRET_KEY, secret)), Setting(BASE_URL_KEY, PINNED_BASE_URL))
  }

  lemma CollectSettings(lines: seq<string>, secret: string)
    ensures Collect(lines + Settings(secret)) == ThreeMore(Collect(lines), secret)
  {
    hide Add, Setting;
    var all, n := lines + Settings(secret), |lines|;
    assert all[..n + 2][..n + 1][..n] == lines;
    assert all[..n + 2][..n + 1] == all[..n + 1] && all[..|all| - 1] == all[..n + 2];
    assert Collect(all[..n + 1]) == Add(Collect(lines), all[n]);
    assert Collect(all[..n + 2]) == Add(Collect(all[..n + 1]), all[n + 1]);
  }

  function Provisioned(secret: string): map<string, string> {
    map[ENABLED_KEY := "true", SECRET_KEY := secret, BASE_URL_KEY := PINNED_BASE_URL]
  }

  /** Only after lines that set no managed key do the settings read back. */
  lemma ThreeMoreAre(r: Parsed, secret: string)
    requires NoBreaks(secret) && (r.Values? ==> forall k :: k in r.values ==> k in AI_KEYS)
    ensures ThreeMore(r, secret) == Values(Provisioned(secret)) <==> r == Values(map[])
    ensures ThreeMore(r, secret).Values? ==> r == Values(map[])
  {
    hide ManagedEntry, IsLine, IsKey, NoBreaks, Setting;
    KeysAreKeys();
    SettingReadsBack(Text, ENABLED_KEY, "true");
    SettingReadsBack(Text, SECRET_KEY, secret);
    SettingReadsBack(Text, BASE_URL_KEY, PINNED_BASE_URL);
    if r.Values? && r.values != map[] {
      var k :| k in r.values;
      assert k == ENABLED_KEY || k == SECRET_KEY || k == BASE_URL_KEY;
    }
  }

  lemma {:induction false} CollectedKeys(lines: seq<string>)
    ensures Collect(lines).Values? ==> forall k :: k in Collect(lines).values ==> k in AI_KEYS
    ensures Collect(lines) == Values(map[]) <==> AllUnmanaged(Text, lines)
  {
    hide KeyLine, StripBreaks, StripLeft;
    if lines != [] {
      var front, last := lines[..|lines| - 1], lines[|lines| - 1];
      CollectedKeys(front);
      assert AllUnmanaged(Text, lines) <==> AllUnmanaged(Text, front) && !Managed(Text, last) by {
        assert lines == front + [last];
      }
    }
  }

  /** No managed line in a text, as the parser splits it. */
  predicate Clean(s: string) { AllUnmanaged(Text, SplitLines(Text, s)) }

  /** Nothing in the kept text is a managed line to the parser. The printer has made
      sure of it up to the eight further breaks. */
  predicate NothingHidden(content: string) {
    Clean(KeptOf(content))
  }

  /** Parser and printer agree: parsing what is rendered gives exactly the three managed
      values, and they are valid, if and only if the kept text hides no setting from
      the printer; otherwise parsing fails. */
  lemma RenderedParses(content: string, secret: string)
    requires ValidSecret(secret)
    ensures Parse(Rendered(content, secret)) == Values(Provisioned(secret)) <==> NothingHidden(content)
    ensures Parse(Rendered(content, secret)).Values? <==> NothingHidden(content)
    ensures ConfigurationValid(Provisioned(secret))
  {
    SecretHasNoBreaks(secret);
    ValuesValid(secret);
    hide Rendered, KeptOf, SplitLines, Settings, ThreeMore, AllUnmanaged, ValidSecret, ConfigurationValid, Provisioned,
      NoBreaks;
    var kept := SplitLines(Text, KeptOf(content));
    RenderedLines(Text, content, secret);
    CollectedKeys(kept);
    CollectSettings(kept, secret);
    ThreeMoreAre(Collect(kept), secret);
  }

  lemma UnmanagedParts(b: Breaks, x: seq<string>, y: seq<string>)
    ensures AllUnmanaged(b, x + y) <==> AllUnmanaged(b, x) && AllUnmanaged(b, y)
  {
    hide Managed;
    if AllUnmanaged(b, x + y) {
      assert forall line :: line in x ==> line in x + y;
      assert forall line :: line in y ==> line in x + y;
    }
  }

  lemma CleanAppend(s: string, t: string)
    requires Terminated(Text, s)
    requires s != "" && t != "" && s[|s| - 1] == '\r' ==> t[0] != '\n'
    ensures Clean(s + t) <==> Clean(s) && Clean(t)
  {
    hide AllUnmanaged, SplitLines, Terminated;
    SplitAppend(Text, s, t);
    UnmanagedParts(Text, SplitLines(Text, s), SplitLines(Text, t));
  }

  lemma CleanLine(line: string)
    requires IsLine(Text, line)
    ensures Clean(line) <==> !Managed(Text, line)
  {
    hide Managed, SplitLines;
    SplitOfLine(Text, line);
  }

  lemma FeedIsClean()
    ensures Clean("\n")
  {
    CleanLine("\n");
    hide KeyLine;
    assert "\n"[..0] == "";
    assert StripBreaks(Text, "\n") == "";
    BlankIsNoEntry();
  }

  /** Whatever follows, a first line that is not the whole text stays the first. */
  lemma {:induction false} FirstLineInside(b: Breaks, s: string, t: string)
    requires s != "" && FirstLine(b, s) < |s|
    ensures FirstLine(b, s + t) == FirstLine(b, s)
    decreases |s|
  {
    hide IsTextBreak;
    if !IsBreak(b, s[0]) {
      FirstLineInside(b, s[1..], t);
      assert (s + t)[1..] == s[1..] + t;
    } else {
      assert (s + t)[0] == s[0] && (s + t)[1] == s[1];
    }
  }

  lemma OneLineAndFeed(line: string)
    requires IsLine(Text, line) && line[|line| - 1] != '\n'
    ensures Clean(line + "\n") <==> Clean(line)
  {
    hide SplitLines, StripBreaks, FirstLine, IsTextBreak, AllUnmanaged, Clean;
    if line[|line| - 1] != '\r' && IsBreak(Text, line[|line| - 1]) {
      CleanAppend(line, "\n");
      FeedIsClean();
    } else {
      CompletedLine(Text, line);
      CleanLine(line);
      CleanLine(line + "\n");
    }
  }

  /** A line feed at the end hides nothing and shows nothing: it completes the last line,
      or adds a blank one. */
  lemma {:induction false} CleanAndFeed(s: string)
    requires s == "" || s[|s| - 1] != '\n'
    ensures Clean(s + "\n") <==> Clean(s)
    decreases |s|
  {
    hide *;
    if s == "" {
      assert s + "\n" == "\n";
      FeedIsClean();
      EmptyIsClean();
    } else if FirstLine(Text, s) == |s| {
      WholeLine(s);
      OneLineAndFeed(s);
    } else {
      var n := FirstLine(Text, s);
      CleanAndFeed(s[n..]);
      FirstLineInside(Text, s, "\n");
      CleanFirst(s, s[..n], s[n..]);
      CleanFirst(s + "\n", s[..n], s[n..] + "\n");
    }
  }

  lemma EmptyIsClean()
    ensures Clean("")
  {
  }

  lemma WholeLine(s: string)
    requires s != "" && FirstLine(Text, s) == |s|
    ensures IsLine(Text, s)
  {
  }

  lemma CleanFirst(s: string, head: string, rest: string)
    requires s != "" && s == head + rest && |head| == FirstLine(Text, s)
    ensures Clean(s) <==> !Managed(Text, head) && Clean(rest)
  {
    hide Managed, SplitLines, FirstLine;
    SplitStep(Text, s, head, rest);
    UnmanagedParts(Text, [head], SplitLines(Text, rest));
  }

  /** Joined lines are clean exactly when each of them is, whatever breaks merge. */
  lemma {:induction false} CleanJoin(lines: seq<string>)
    requires (forall line :: line in lines ==> IsLine(Bytes, line)) && AllButLastEnd(Bytes, lines)
    ensures Clean(Join(lines)) <==> forall line :: line in lines ==> Clean(line)
    decreases |lines|
  {
    hide Clean;
    if lines == [] {
      EmptyIsClean();
    } else {
      var line, rest := lines[0], lines[1..];
      assert line in lines && lines == [line] + rest;
      assert AllButLastEnd(Bytes, rest) by {
        assert forall i :: 0 <= i < |rest| - 1 ==> rest[i] == lines[i + 1];
      }
      if rest == [] {
        assert Join(lines) == line;
      } else if line[|line| - 1] == '\r' && Join(rest) != "" && Join(rest)[0] == '\n' {
        CleanMerged(lines);
      } else {
        CleanJoin(rest);
        assert Terminated(Bytes, line);
        hide IsLine, FirstLine, AllButLastEnd;
        CleanAppend(line, Join(rest));
      }
    }
  }

  lemma {:induction false} CleanMerged(lines: seq<string>)
    requires Merges(lines)
    ensures Clean(Join(lines)) <==> forall line :: line in lines ==> Clean(line)
    decreases |lines|, 0
  {
    hide Clean, IsLine, AllButLastEnd, Join;
    MergedLines(lines);
    var line, rest := lines[0], lines[2..];
    CleanJoin(rest);
    hide Merges;
    CleanAndFeed(line);
    FeedIsClean();
    CleanAppend(line + "\n", Join(rest));
    assert forall l :: l in lines <==> l == line || l == "\n" || l in rest;
  }

  /** The same condition on the file's own lines: no line the printer keeps holds a line
      that is managed to the parser. */
  lemma HiddenByOwnLines(content: string)
    ensures NothingHidden(content) <==>
      forall line :: line in SplitLines(Bytes, content) && !Managed(Bytes, line) ==> Clean(line)
  {
    hide Clean, SplitLines, Kept, Unmanaged, IsLine, Managed, AllButLastEnd, Join;
    var lines := SplitLines(Bytes, content);
    var text := Join(Unmanaged(lines));
    JoinOfSplit(Bytes, content);
    UnmanagedIn(lines);
    UnmanagedEnd(lines);
    CleanJoin(Unmanaged(lines));
    KeptIs(lines);
    assert text + "" == text;
    if !Terminated(Bytes, text) { CleanAndFeed(text); }
  }

  lemma ValuesValid(secret: string)
    requires ValidSecret(secret)
    ensures ConfigurationValid(Provisioned(secret))
  {
    KeysAreKeys();
    hide ValidSecret, IsKey, NoBreaks;
  }

  // ------------------------------------------------- what the parser looks for

  /** A valid secret, by its code points: 20 to 512 of the visible ASCII characters, without
      the quotation mark, the dollar sign, the apostrophe and the backslash. */
  lemma SecretMeans(secret: string)
    ensures ValidSecret(secret) <==>
      && 20 <= |secret| <= 512
      && forall i :: 0 <= i < |secret| ==>
           0x21 <= secret[i] as int <= 0x7e && secret[i] as int !in {0x22, 0x24, 0x27, 0x5c}
  {
    assert forall i :: 0 <= i < |secret| ==> secret[i] in secret;
  }

  /** The white space that is stripped and the characters that end a line, by code point. */
  lemma CodePoints(c: char)
    ensures IsSpace(c) <==>
      var n := c as int;
      || n == 0x20 || 0x09 <= n <= 0x0d || 0x1c <= n <= 0x1f || 0x2000 <= n <= 0x200a
      || n in {0x85, 0xa0, 0x1680, 0x2028, 0x2029, 0x202f, 0x205f, 0x3000}
    ensures IsBreak(Bytes, c) <==> c as int in {0x0a, 0x0d}
    ensures IsBreak(Text, c) <==> c as int in {0x0a, 0x0b, 0x0c, 0x0d, 0x1c, 0x1d, 0x1e, 0x85, 0x2028, 0x2029}
  {
  }

  /** The runtime is configured exactly by what a provisioning writes, for some valid secret. */
  lemma ConfiguredMeans(values: map<string, string>)
    requires forall k :: k in values ==> k in AI_KEYS
    ensures ConfigurationValid(values) <==> exists secret :: ValidSecret(secret) && values == Provisioned(secret)
  {
    KeysDiffer();
    hide ValidSecret;
    if ConfigurationValid(values) {
      var secret := values[SECRET_KEY];
      forall k | k in values ensures k in Provisioned(secret) && Provisioned(secret)[k] == values[k] {
        assert k == ENABLED_KEY || k == SECRET_KEY || k == BASE_URL_KEY;
      }
      assert values == Provisioned(secret);
    } else if secret :| ValidSecret(secret) && values == Provisioned(secret) {
      ValuesValid(secret);
    }
  }

  /** The file parses, to the three values with a valid secret and nothing else. */
  ghost predicate IsConfigured(content: string) {
    exists secret :: ValidSecret(secret) && Parse(content) == Values(
      map["AI_RUNTIME_ENABLED" := "true", "OPENROUTER_API_KEY" := secret,
          "OPENROUTER_BASE_URL" := "https://openrouter.ai/api/v1"])
  }

  lemma ConfiguredFiles(content: string)
    ensures Parse(content).Values? && ConfigurationValid(Parse(content).values) <==> IsConfigured(content)
  {
    hide ConfigurationValid, ValidSecret, Collect;
    CollectedKeys(SplitLines(Text, content));
    if Parse(content).Values? { ConfiguredMeans(Parse(content).values); }
  }

  ghost predicate SetsAfter(lead: string, body: string, key: string, value: string) {
    (forall c :: c in lead ==> IsSpace(c)) && body == lead + key + "=" + value
  }

  /** A line sets a managed key exactly if it is that key, an equals sign and the value,
      after nothing but white space, with no line feed in the value. */
  lemma EntryMeans(body: string, key: string, value: string)
    ensures EntryOf(body) == Some((key, value)) <==>
      key in AI_KEYS && '\n' !in value && exists lead :: SetsAfter(lead, body, key, value)
  {
    hide EntryOf;
    if EntryOf(body) == Some((key, value)) { EntryIsThere(body, key, value); }
    if lead :| key in AI_KEYS && '\n' !in value && SetsAfter(lead, body, key, value) {
      hide *;
      EntryAfterLead(lead, body, key, value);
    }
  }

  lemma EntryIsThere(body: string, key: string, value: string)
    requires EntryOf(body) == Some((key, value))
    ensures key in AI_KEYS && '\n' !in value && exists lead :: SetsAfter(lead, body, key, value)
  {
    var rest := StripLeft(body);
    var lead := StrippedLead(body);
    KeyLineParts(rest, key, value);
    hide *;
    assert lead + (key + "=" + value) == lead + key + "=" + value;
    SetsAfterLead(lead, body, key, value);
  }

  lemma SetsAfterLead(lead: string, body: string, key: string, value: string)
    requires (forall c :: c in lead ==> IsSpace(c)) && body == lead + key + "=" + value
    ensures exists l :: SetsAfter(l, body, key, value)
  {
    hide IsSpace;
    assert SetsAfter(lead, body, key, value);
  }

  lemma KeyLineParts(s: string, key: string, value: string)
    requires KeyLine(s) == Some((key, value))
    ensures s == key + "=" + value && '\n' !in value
  {
    hide KeyLength;
    var n := KeyLength(s);
    assert s == s[..n] + [s[n]] + s[n + 1..];
  }

  lemma {:induction false} StrippedLead(s: string) returns (lead: string)
    ensures s == lead + StripLeft(s) && forall c :: c in lead ==> IsSpace(c)
  {
    if s != "" && IsSpace(s[0]) {
      var rest := StrippedLead(s[1..]);
      lead := [s[0]] + rest;
    } else {
      lead := "";
    }
  }

  lemma {:induction false} StripsLead(lead: string, rest: string)
    requires (forall c :: c in lead ==> IsSpace(c)) && (rest != "" ==> !IsSpace(rest[0]))
    ensures StripLeft(lead + rest) == rest
  {
    hide IsSpace;
    if lead == "" {
      assert lead + rest == rest;
    } else {
      assert lead[0] in lead && (lead + rest)[1..] == lead[1..] + rest;
      StripsLead(lead[1..], rest);
    }
  }

  lemma EntryAfterLead(lead: string, body: string, key: string, value: string)
    requires SetsAfter(lead, body, key, value) && key in AI_KEYS && '\n' !in value
    ensures EntryOf(body) == Some((key, value))
  {
    AllKeys();
    assert IsKey(key) by { hide IsKey; }
    var rest := key + "=" + value;
    assert body == lead + rest;
    KeyLengthOf(key, value);
    assert !IsSpace(rest[0]);
    hide IsSpace, StripLeft, KeyLength;
    StripsLead(lead, rest);
    assert rest[|key|] == '=' && rest[..|key|] == key && rest[|key| + 1..] == value;
  }

  ghost predicate Sets(lines: seq<string>, i: int, key: string, value: string) {
    0 <= i < |lines| && ManagedEntry(Text, lines[i]) == Some((key, value))
  }

  /** Two lines set one key. */
  ghost predicate SetTwice(lines: seq<string>, i: int, j: int, key: string) {
    && 0 <= i < j < |lines|
    && Managed(Text, lines[i]) && ManagedEntry(Text, lines[i]).value.0 == key
    && Managed(Text, lines[j]) && ManagedEntry(Text, lines[j]).value.0 == key
  }

  /** What these lines set, without a key set twice. */
  ghost predicate AreSet(lines: seq<string>, values: map<string, string>) {
    && (forall k :: k in values ==> exists i :: Sets(lines, i, k, values[k]))
    && (forall i, k, v :: Sets(lines, i, k, v) ==> k in values && values[k] == v)
    && (forall i, j, k :: !SetTwice(lines, i, j, k))
  }

  /** The values of a file are those its lines set, and it has values exactly if no two lines
      set one key; otherwise the key reported is set twice. */
  lemma {:induction false} CollectMeans(lines: seq<string>)
    ensures match Collect(lines)
      case Values(values) => AreSet(lines, values)
      case Duplicate(key) => exists i, j :: SetTwice(lines, i, j, key)
  {
    hide ManagedEntry, AreSet;
    if lines == [] {
      NoLines();
    } else {
      var front, line := lines[..|lines| - 1], lines[|lines| - 1];
      assert lines == front + [line];
      CollectMeans(front);
      match Collect(front)
      case Duplicate(key) =>
        assert Collect(lines) == Duplicate(key);
        var i, j :| SetTwice(front, i, j, key);
        assert SetTwice(lines, i, j, key);
      case Values(values) =>
        if ManagedEntry(Text, line).None? {
          NothingSet(front, line, values);
        } else {
          var (key, value) := ManagedEntry(Text, line).value;
          if key in values {
            SetAgain(front, line, values);
            assert Collect(lines) == Duplicate(key);
          } else {
            OneMoreSet(front, line, values, key, value);
          }
        }
    }
  }

  lemma NoLines()
    ensures AreSet([], map[])
  {
  }

  lemma SetAgain(front: seq<string>, line: string, values: map<string, string>)
    requires AreSet(front, values) && ManagedEntry(Text, line).Some? && ManagedEntry(Text, line).value.0 in values
    ensures exists i, j :: SetTwice(front + [line], i, j, ManagedEntry(Text, line).value.0)
  {
    hide ManagedEntry;
    var key := ManagedEntry(Text, line).value.0;
    var i :| Sets(front, i, key, values[key]);
    assert SetTwice(front + [line], i, |front|, key);
  }

  lemma NothingSet(front: seq<string>, line: string, values: map<string, string>)
    requires AreSet(front, values) && ManagedEntry(Text, line).None?
    ensures AreSet(front + [line], values)
  {
    hide ManagedEntry;
    var lines := front + [line];
    forall k | k in values ensures exists i :: Sets(lines, i, k, values[k]) {
      var i :| Sets(front, i, k, values[k]);
      assert Sets(lines, i, k, values[k]);
    }
    forall i, k, v | Sets(lines, i, k, v) ensures k in values && values[k] == v { assert Sets(front, i, k, v); }
    forall i, j, k ensures !SetTwice(lines, i, j, k) { assert !SetTwice(front, i, j, k); }
  }

  lemma OneMoreSet(front: seq<string>, line: string, values: map<string, string>, key: string, value: string)
    requires AreSet(front, values) && ManagedEntry(Text, line) == Some((key, value)) && key !in values
    ensures AreSet(front + [line], values[key := value])
  {
    hide ManagedEntry;
    var lines, more := front + [line], values[key := value];
    assert Sets(lines, |front|, key, value);
    forall k | k in more ensures exists i :: Sets(lines, i, k, more[k]) {
      if k != key {
        var i :| Sets(front, i, k, values[k]);
        assert Sets(lines, i, k, more[k]);
      }
    }
    forall i, k, v | Sets(lines, i, k, v) ensures k in more && more[k] == v {
      assert i < |front| ==> Sets(front, i, k, v);
    }
    forall i, j, k ensures !SetTwice(lines, i, j, k) {
      assert !SetTwice(front, i, j, k);
      if 0 <= i < |front| && Managed(Text, front[i]) {
        assert Sets(front, i, ManagedEntry(Text, front[i]).value.0, ManagedEntry(Text, front[i]).value.1);
      }
    }
  }

  /** A line: it breaks nowhere but at its end, where a CR and an LF are one break. */
  lemma {:induction false} LineMeans(b: Breaks, line: string)
    ensures IsLine(b, line) <==>
      line != "" && forall i :: 0 <= i < |line| - 1 && IsBreak(b, line[i]) ==>
        i == |line| - 2 && line[i] == '\r' && line[i + 1] == '\n'
  {
    hide IsTextBreak;
    if |line| > 1 {
      LineMeans(b, line[1..]);
      assert forall i :: 0 <= i < |line[1..]| ==> line[1..][i] == line[i + 1];
    }
  }

  /** And no CRLF is split between two lines. With `JoinOfSplit` and `LineMeans` this is
      what splitting a text means. */
  lemma {:induction false} NoCrLfApart(b: Breaks, s: string)
    ensures var lines := SplitLines(b, s);
      forall i :: 0 <= i < |lines| - 1 && lines[i] != "" && lines[i][|lines[i]| - 1] == '\r' ==>
        lines[i + 1] != "" && lines[i + 1][0] != '\n'
    decreases |s|
  {
    if s != "" {
      var n := FirstLine(b, s);
      var lines, rest := SplitLines(b, s), SplitLines(b, s[n..]);
      NoCrLfApart(b, s[n..]);
      CrEndsBeforeNoLf(b, s);
      hide SplitLines, FirstLine;
      SplitFirst(b, s);
      SplitFirst(b, s[n..]);
      assert forall i :: 0 <= i < |rest| ==> lines[i + 1] == rest[i];
      forall i | 0 <= i < |lines| - 1 && lines[i] != "" && lines[i][|lines[i]| - 1] == '\r'
        ensures lines[i + 1] != "" && lines[i + 1][0] != '\n'
      {
        if i > 0 { assert lines[i] == rest[i - 1] && lines[i + 1] == rest[i]; }
      }
    }
  }

  lemma {:induction false} CrEndsBeforeNoLf(b: Breaks, s: string)
    requires s != ""
    ensures var n := FirstLine(b, s); n < |s| && s[n - 1] == '\r' ==> s[n] != '\n'
    decreases |s|
  {
    hide IsTextBreak;
    if !IsBreak(b, s[0]) && |s| > 1 { CrEndsBeforeNoLf(b, s[1..]); }
  }

  /** No further breaks at all: the files the two notions of a line agree on. */
  predicate Plain(s: string) { forall c :: c in s ==> !IsTextBreak(c) }

  lemma {:induction false} PlainFirstLine(s: string)
    requires s != "" && Plain(s)
    ensures FirstLine(Text, s) == FirstLine(Bytes, s)
    decreases |s|
  {
    hide IsTextBreak;
    assert s[0] in s;
    if |s| > 1 { PlainFirstLine(s[1..]); }
  }

  lemma {:induction false} PlainStrip(s: string)
    requires Plain(s)
    ensures StripBreaks(Text, s) == StripBreaks(Bytes, s)
    decreases |s|
  {
    hide IsTextBreak;
    if s != "" {
      assert s[|s| - 1] in s;
      PlainStrip(s[..|s| - 1]);
    }
  }

  lemma {:induction false} PlainSplit(s: string)
    requires Plain(s)
    ensures SplitLines(Text, s) == SplitLines(Bytes, s)
    ensures forall line :: line in SplitLines(Bytes, s) ==> Plain(line)
    decreases |s|
  {
    hide IsTextBreak, IsBreak, FirstLine;
    if s != "" {
      PlainFirstLine(s);
      PlainSplit(s[FirstLine(Bytes, s)..]);
    }
  }

  lemma {:induction false} PlainJoin(lines: seq<string>)
    requires forall line :: line in lines ==> Plain(line)
    ensures Plain(Join(lines))
  {
    hide IsTextBreak;
    if lines != [] {
      assert lines[0] in lines;
      PlainJoin(lines[1..]);
    }
  }

  lemma PlainAllUnmanaged(lines: seq<string>)
    requires (forall line :: line in lines ==> Plain(line)) && AllUnmanaged(Bytes, lines)
    ensures AllUnmanaged(Text, lines)
  {
    hide EntryOf, StripBreaks, Plain;
    forall line | line in lines ensures !Managed(Text, line) {
      PlainStrip(line);
      assert !Managed(Bytes, line);
    }
  }

  lemma FeedIsPlain(s: string)
    requires Plain(s)
    ensures Plain(s + "\n")
  {
    forall c | c in s + "\n" ensures !IsTextBreak(c) {
      assert c in s || c == '\n';
    }
  }

  /** In a file whose only line breaks are LF, CR and CRLF nothing can be hidden. */
  lemma PlainHidesNothing(content: string)
    requires Plain(content)
    ensures NothingHidden(content)
  {
    hide Plain, SplitLines, Kept, Unmanaged, AllUnmanaged, Join;
    var lines := SplitLines(Bytes, content);
    PlainSplit(content);
    UnmanagedIn(lines);
    PlainJoin(Unmanaged(lines));
    FeedIsPlain(Join(Unmanaged(lines)));
    KeptIs(lines);
    var text := Join(Unmanaged(lines));
    assert KeptOf(content) == text + "" || KeptOf(content) == text + "\n";
    assert text + "" == text;
    PlainSplit(KeptOf(content));
    KeptIsUnmanaged(content);
    PlainAllUnmanaged(SplitLines(Bytes, KeptOf(content)));
  }

  /** A comment, a form feed and a setting on one line: the parser accepts the file and
      sees the setting, the printer keeps the line, and the rendered file does not
      parse. */
  lemma HiddenSetting(secret: string)
    requires ValidSecret(secret)
    ensures var content := "#\U{c}" + Setting(ENABLED_KEY, "true");
      && Parse(content) == Values(map[ENABLED_KEY := "true"]) && !ConfigurationValid(map[ENABLED_KEY := "true"])
      && !NothingHidden(content) && Parse(Rendered(content, secret)).Duplicate?
  {
    var setting := Setting(ENABLED_KEY, "true");
    var content := "#\U{c}" + setting;
    RenderedParses(content, secret);
    KeptComment(setting);
    KeysAreKeys();
    SettingReadsBack(Text, ENABLED_KEY, "true");
    HiddenLines(setting);
    hide Setting, ManagedEntry, Kept, SplitLines, ValidSecret, IsKey, NoBreaks, Rendered, Provisioned, Collect;
    CommentThenSetting(setting);
    assert setting in SplitLines(Text, content);
  }

  lemma HiddenLines(setting: string)
    requires IsLine(Text, setting)
    ensures SplitLines(Text, "#\U{c}" + setting) == ["#\U{c}", setting]
  {
    SplitOfLine(Text, setting);
    assert "#\U{c}"[1..] == "\U{c}";
    assert IsLine(Text, "#\U{c}");
    SplitOfLine(Text, "#\U{c}");
    hide SplitLines, FirstLine;
    SplitAppend(Text, "#\U{c}", setting);
  }

  lemma CommentThenSetting(setting: string)
    requires ManagedEntry(Text, setting) == Some((ENABLED_KEY, "true"))
    ensures Collect(["#\U{c}", setting]) == Values(map[ENABLED_KEY := "true"])
  {
    CommentIsUnmanaged(Text, "#\U{c}");
    hide ManagedEntry;
    var lines := ["#\U{c}", setting];
    assert lines[..1] == ["#\U{c}"] && lines[..1][..0] == [];
    assert Collect(lines[..1]) == Add(Collect([]), "#\U{c}");
  }

  lemma KeptComment(setting: string)
    requires setting == Setting(ENABLED_KEY, "true")
    ensures KeptOf("#\U{c}" + setting) == "#\U{c}" + setting
  {
    var content := "#\U{c}" + setting;
    KeysAreKeys();
    SettingReadsBack(Bytes, ENABLED_KEY, "true");
    assert content[1..] == "\U{c}" + setting && content[1..][1..] == setting;
    assert FirstLine(Bytes, content) == |content|;
    hide FirstLine, Setting, IsKey, NoBreaks, ManagedEntry;
    SplitOfLine(Bytes, content);
    assert content[|content| - 1] == '\n';
    CommentIsUnmanaged(Bytes, content);
    OneLine(content);
  }

  lemma OneLine(line: string)
    requires !Managed(Bytes, line)
    ensures Unmanaged([line]) == [line] && Join([line]) == line
  {
    hide Managed;
    assert [line][1..] == [];
    assert line + "" == line;
  }

  lemma CommentIsUnmanaged(b: Breaks, line: string)
    requires line != "" && line[0] == '#'
    ensures !Managed(b, line)
  {
    StripKeepsFirst(b, line);
    hide StripBreaks;
  }

  lemma {:induction false} StripKeepsFirst(b: Breaks, line: string)
    requires line != "" && !IsBreak(b, line[0])
    ensures StripBreaks(b, line) != "" && StripBreaks(b, line)[0] == line[0]
    decreases |line|
  {
    hide IsTextBreak;
    if IsBreak(b, line[|line| - 1]) { StripKeepsFirst(b, line[..|line| - 1]); }
  }

  // ------------------------------------------------------------ rendering again

  /** Rendering a rendered file only changes the secret; with the same secret it
      changes nothing. */
  lemma RenderAgain(content: string, secret: string, next: string)
    requires ValidSecret(secret)
    ensures Rendered(Rendered(content, secret), next) == Rendered(content, next)
  {
    SecretHasNoBreaks(secret);
    RenderedIs(content, next);
    RenderedIs(Rendered(content, secret), next);
    hide *;
    var kept := KeptOf(content);
    var lines := SplitLines(Bytes, kept);
    RenderedLines(Bytes, content, secret);
    KeptIsUnmanaged(content);
    UnmanagedAll(lines);
    UnmanagedAppend(lines, Settings(secret));
    SettingsAreManaged(secret);
    JoinOfSplit(Bytes, kept);
    assert lines + [] == lines;
    KeptAgain(content, Rendered(content, secret));
  }

  lemma RenderedIs(content: string, secret: string)
    ensures Rendered(content, secret) == KeptOf(content) + Join(Settings(secret))
  {
  }

  lemma KeptAgain(content: string, rendered: string)
    requires Join(Unmanaged(SplitLines(Bytes, rendered))) == KeptOf(content)
    ensures KeptOf(rendered) == KeptOf(content)
  {
  }

  /** Rendering keeps every other line: the text kept is the file with its managed
      lines cut out, and the bodies of its unmanaged lines come back in order. */
  lemma OthersAreKept(content: string, secret: string)
    requires ValidSecret(secret)
    ensures Join(SplitLines(Bytes, content)) == content
    ensures var kept := Join(Unmanaged(SplitLines(Bytes, content)));
      Rendered(content, secret) == kept + (if Terminated(Bytes, kept) then "" else "\n") + Join(Settings(secret))
    ensures Bodies(Unmanaged(SplitLines(Bytes, Rendered(content, secret))))
      == Bodies(Unmanaged(SplitLines(Bytes, content)))
  {
    SecretHasNoBreaks(secret);
    JoinOfSplit(Bytes, content);
    KeptIs(SplitLines(Bytes, content));
    RenderedIs(content, secret);
    hide Bodies, Unmanaged, SplitLines, Kept, Join, Settings, Rendered, NoBreaks, ValidSecret, IsLine, AllButLastEnd,
      AllUnmanaged;
    RenderedLines(Bytes, content, secret);
    KeptIsUnmanaged(content);
    var kept := SplitLines(Bytes, KeptOf(content));
    UnmanagedAll(kept);
    UnmanagedAppend(kept, Settings(secret));
    SettingsAreManaged(secret);
    KeptBodies(content);
    assert kept + [] == kept;
  }
}
