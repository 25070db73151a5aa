/**
 The append-only migration log (migrations/migration_log.py): one JSON object per
 line, read leniently, written one line at a time, torn writes included.

 Text is modelled as characters.  `splitlines` and `strip` are spelled out; the
 JSON library is a parameter with the few properties of RFC 8259 text the log
 relies on (`Lawful`).
 */
module MigrationLog {
  import opened Options
  import opened Strings

  datatype Entry = Entry(version: int, timestamp: string, success: bool, error: Option<string>)

  /** What reading one non-blank line does: yield an entry, be skipped with a warning
      (bad JSON, missing key), or raise (valid JSON that is not an object). */
  datatype Line = Parsed(entry: Entry) | Malformed | Raises

  datatype Log = Entries(entries: seq<Entry>) | ReadRaises

  datatype Json = Json(dumps: Entry -> string, loads: string -> Line)

  // ---- str.splitlines ------------------------------------------------

  predicate IsLineBreak(c: char) {
    var n := c as int;
    0x0A <= n <= 0x0D || 0x1C <= n <= 0x1E || n == 0x85 || n == 0x2028 || n == 0x2029
  }

  /** Length of the line break `s` starts with: "\r\n" counts as one. */
  function BreakLength(s: string): (n: nat)
    requires s != ""
    ensures 1 <= n <= |s|
  {
    if |s| > 1 && s[0] == '\r' && s[1] == '\n' then 2 else 1
  }

  /** Puts `c` in front of the first line. */
  function Onto(c: char, lines: seq<string>): seq<string> {
    if lines == [] then [[c]] else [[c] + lines[0]] + lines[1..]
  }

  /** `s.splitlines()`: a final line break starts no further line. */
  function SplitLines(s: string): (lines: seq<string>)
    ensures lines == [] <==> s == ""
    decreases |s|
  {
    if s == "" then []
    else if IsLineBreak(s[0]) then [""] + SplitLines(s[BreakLength(s)..])
    else Onto(s[0], SplitLines(s[1..]))
  }

  // ---- reading ------------------------------------------------------------------

  function Prepend(e: Entry, rest: Log): Log {
    if rest.ReadRaises? then ReadRaises else Entries([e] + rest.entries)
  }

  function ReadLines(json: Json, lines: seq<string>): Log {
    if lines == [] then Entries([])
    else
      var line := Strip(lines[0]);
      var rest := ReadLines(json, lines[1..]);
      if line == "" then rest
      else match json.loads(line)
           case Parsed(e) => Prepend(e, rest)
           case Malformed => rest
           case Raises => ReadRaises
  }

  function ReadText(json: Json, text: string): Log { ReadLines(json, SplitLines(text)) }

  /** `None` is a file that does not exist. */
  function ReadFile(json: Json, file: Option<string>): Log {
    if file == None then Entries([]) else ReadText(json, file.value)
  }

  method ReadLog(json: Json, file: Option<string>) returns (log: Log)
    ensures log == ReadFile(json, file)
  {
    if file == None { return Entries([]); }
    var lines := SplitLines(file.value);
    var entries: seq<Entry> := [];
    var i := 0;
    while i < |lines|
      invariant 0 <= i <= |lines|
      invariant ReadLines(json, lines) == After(entries, ReadLines(json, lines[i..]))
    {
      var line := Strip(lines[i]);
      assert lines[i..][1..] == lines[i + 1..];
      i := i + 1;
      if line == "" { continue; }
      match json.loads(line) {
        case Parsed(e) =>
          AfterPrepend(entries, e, ReadLines(json, lines[i..]));
          entries := entries + [e];
        case Malformed =>
        case Raises => return ReadRaises;
      }
    }
    return Entries(entries);
  }

  /** `es` followed by what `rest` reads to; raising wins. */
  function After(es: seq<Entry>, rest: Log): Log {
    if rest.ReadRaises? then ReadRaises else Entries(es + rest.entries)
  }

  lemma AfterPrepend(es: seq<Entry>, e: Entry, rest: Log)
    ensures After(es, Prepend(e, rest)) == After(es + [e], rest)
  {
    if rest.Entries? {
      assert es + ([e] + rest.entries) == es + [e] + rest.entries;
    }
  }

  function CurrentHostVersion(entries: seq<Entry>): int {
    if entries == [] then 0
    else if entries[|entries| - 1].success then entries[|entries| - 1].version
    else CurrentHostVersion(entries[..|entries| - 1])
  }

  // ---- writing ------------------------------------------------------------------

  predicate EndsWithNewline(s: string) { s != "" && s[|s| - 1] == '\n' }

  /** The bytes one append writes after `existing`. */
  function Appended(json: Json, existing: string, e: Entry): string {
    (if existing != "" && !EndsWithNewline(existing) then "\n" else "") + (json.dumps(e) + "\n")
  }

  function Text(file: Option<string>): string { if file == None then "" else file.value }

  /** The file after the first `written` characters of an append of `e` reached the disk. */
  function Torn(json: Json, file: Option<string>, e: Entry, written: nat): Option<string> {
    var line := Appended(json, Text(file), e);
    Some(Text(file) + if written < |line| then line[..written] else line)
  }

  class LogFile {
    var content: Option<string>

    method AppendEntry(json: Json, e: Entry)
      modifies this
      ensures content == Some(Text(old(content)) + Appended(json, Text(old(content)), e))
      ensures Lawful(json) ==> ReadFile(json, content) == WithEntry(ReadFile(json, old(content)), e)
    {
      ghost var before := content;
      var line := json.dumps(e) + "\n";
      var existing := Text(content);
      if existing != "" && !EndsWithNewline(existing) {
        line := "\n" + line;
      }
      content := Some(existing + line);
      assert line == Appended(json, existing, e);
      if Lawful(json) {
        AppendReadsBack(json, before, e);
      }
    }
  }

  // ---- what is asked of the JSON library -----------------------------------------

  predicate SingleLine(s: string) { forall i :: 0 <= i < |s| ==> !IsLineBreak(s[i]) }

  /** `dumps` writes one object on one line with no surrounding blanks; `loads` reads it
      back; no proper prefix of it is a JSON document (an object ends with its brace). */
  ghost predicate Lawful(json: Json) {
    forall e :: LawfulFor(json, e)
  }

  ghost predicate LawfulFor(json: Json, e: Entry) {
    var text := json.dumps(e);
    && SingleLine(text) && Trimmed(text)
    && json.loads(text) == Parsed(e)
    && forall k :: 0 < k < |text| ==> json.loads(Strip(text[..k])) == Malformed
  }

  // ---- splitting around an append -------------------------------------------------

  lemma OntoAppend(c: char, lines: seq<string>, more: seq<string>)
    requires lines != []
    ensures Onto(c, lines + more) == Onto(c, lines) + more
  {
  }

  lemma OntoOne(c: char, line: string)
    ensures Onto(c, [line]) == [[c] + line]
    ensures Onto(c, [""]) == Onto(c, [])
  {
    assert [line][1..] == [] && [""][1..] == [];
    assert [c] + "" == [c];
  }

  /** Text that ends its last line can be split apart from whatever follows it. */
  lemma {:induction false} SplitAfterNewline(s: string, t: string)
    requires s == "" || EndsWithNewline(s)
    ensures SplitLines(s + t) == SplitLines(s) + SplitLines(t)
    decreases |s|
  {
    if s == "" {
      assert s + t == t;
    } else if IsLineBreak(s[0]) {
      var n := BreakLength(s);
      assert BreakLength(s + t) == n;
      assert (s + t)[n..] == s[n..] + t;
      SplitAfterNewline(s[n..], t);
      assert SplitLines(s + t) == [""] + (SplitLines(s[n..]) + SplitLines(t));
    } else {
      assert (s + t)[1..] == s[1..] + t;
      assert (s + t)[0] == s[0];
      SplitAfterNewline(s[1..], t);
      OntoAppend(s[0], SplitLines(s[1..]), SplitLines(t));
    }
  }

  lemma {:induction false} ReadConcat(json: Json, a: seq<string>, b: seq<string>)
    ensures ReadLines(json, a + b) ==
            if ReadLines(json, a).ReadRaises? then ReadRaises
            else After(ReadLines(json, a).entries, ReadLines(json, b))
  {
    if a == [] {
      assert a + b == b;
    } else {
      assert (a + b)[1..] == a[1..] + b;
      ReadConcat(json, a[1..], b);
      var rest := ReadLines(json, a[1..]);
      if rest.Entries? && ReadLines(json, b).Entries? {
        match json.loads(Strip(a[0]))
        case Parsed(e) =>
          assert [e] + (rest.entries + ReadLines(json, b).entries) == [e] + rest.entries + ReadLines(json, b).entries;
        case Malformed =>
        case Raises =>
      }
    }
  }

  lemma {:induction false} SplitOneLine(s: string)
    requires SingleLine(s)
    ensures SplitLines(s) == if s == "" then [] else [s]
    ensures SplitLines(s + "\n") == [s]
  {
    if s != "" {
      assert (s + "\n")[1..] == s[1..] + "\n";
      assert (s + "\n")[0] == s[0];
      SplitOneLine(s[1..]);
      OntoOne(s[0], s[1..]);
      assert [s[0]] + s[1..] == s;
    } else {
      assert s + "\n" == "\n";
      assert SplitLines("\n") == [""] + SplitLines("\n"[1..]);
    }
  }

  lemma ReadBlank(json: Json, text: string)
    requires Strip(text) == "" || json.loads(Strip(text)) == Malformed
    ensures ReadLines(json, [text]) == ReadLines(json, []) == Entries([])
  {
    assert [text][1..] == [];
  }

  /** Ending the last line adds no line, or one blank line. */
  lemma {:induction false} NewlineSplit(s: string)
    ensures SplitLines(s + "\n") == SplitLines(s) || SplitLines(s + "\n") == SplitLines(s) + [""]
    decreases |s|
  {
    var t := s + "\n";
    if s == "" {
      assert t == "\n";
      assert SplitLines("\n") == [""] + SplitLines("\n"[1..]);
    } else if s == "\r" {
      // the new "\n" joins a final "\r" into one break
      assert t[2..] == s[1..] == "";
    } else if IsLineBreak(s[0]) {
      var n := BreakLength(s);
      assert BreakLength(t) == n;
      assert t[n..] == s[n..] + "\n";
      NewlineSplit(s[n..]);
      assert [""] + (SplitLines(s[n..]) + [""]) == [""] + SplitLines(s[n..]) + [""];
    } else {
      assert t[1..] == s[1..] + "\n" && t[0] == s[0];
      NewlineSplit(s[1..]);
      OntoOne(s[0], "");
      if s[1..] != "" {
        OntoAppend(s[0], SplitLines(s[1..]), [""]);
      }
    }
  }

  /** Ending the last line changes nothing that is read. */
  lemma NewlineReadsAlike(json: Json, s: string)
    ensures ReadText(json, s + "\n") == ReadText(json, s)
  {
    NewlineSplit(s);
    ReadConcat(json, SplitLines(s), [""]);
    ReadBlank(json, "");
  }

  /** `log` with one more entry at the end. */
  function WithEntry(log: Log, e: Entry): Log {
    if log.ReadRaises? then ReadRaises else Entries(log.entries + [e])
  }

  lemma ReadOneLine(json: Json, text: string, e: Entry)
    requires SingleLine(text) && Trimmed(text) && json.loads(text) == Parsed(e)
    ensures ReadText(json, text) == ReadText(json, text + "\n") == Entries([e])
  {
    SplitOneLine(text);
    StripTrimmed(text);
    ReadBlank(json, "");
    assert [text][1..] == [];
  }

  lemma ReadOneFragment(json: Json, text: string)
    requires SingleLine(text)
    requires Strip(text) == "" || json.loads(Strip(text)) == Malformed
    ensures ReadText(json, text) == Entries([])
  {
    SplitOneLine(text);
    ReadBlank(json, text);
  }

  /** Reading `s` and then `tail`, once the last line of `s` is ended. */
  lemma ReadThen(json: Json, s: string, tail: string)
    ensures s == "" || EndsWithNewline(s) ==>
              ReadText(json, s + tail) == ReadBoth(ReadText(json, s), ReadText(json, tail))
    ensures ReadText(json, s + ("\n" + tail)) == ReadBoth(ReadText(json, s), ReadText(json, tail))
  {
    if s == "" || EndsWithNewline(s) {
      SplitAfterNewline(s, tail);
      ReadConcat(json, SplitLines(s), SplitLines(tail));
    }
    assert s + ("\n" + tail) == (s + "\n") + tail;
    SplitAfterNewline(s + "\n", tail);
    ReadConcat(json, SplitLines(s + "\n"), SplitLines(tail));
    NewlineReadsAlike(json, s);
  }

  function ReadBoth(first: Log, second: Log): Log {
    if first.ReadRaises? then ReadRaises else After(first.entries, second)
  }

  // ---- the log's promise ------------------------------------------------------------

  /** A whole line, after text that ends its last line and after text that does not. */
  lemma LineReads(json: Json, s: string, e: Entry)
    requires Lawful(json)
    ensures s == "" || EndsWithNewline(s) ==>
              ReadText(json, s + (json.dumps(e) + "\n")) == WithEntry(ReadText(json, s), e)
    ensures ReadText(json, s + ("\n" + (json.dumps(e) + "\n"))) == WithEntry(ReadText(json, s), e)
  {
    assert LawfulFor(json, e);
    ReadOneLine(json, json.dumps(e), e);
    ReadThen(json, s, json.dumps(e) + "\n");
  }

  lemma AppendedReads(json: Json, s: string, e: Entry)
    requires Lawful(json)
    ensures ReadText(json, s + Appended(json, s, e)) == WithEntry(ReadText(json, s), e)
  {
    LineReads(json, s, e);
    if s == "" || EndsWithNewline(s) {
      assert Appended(json, s, e) == json.dumps(e) + "\n";
    }
  }

  lemma ReadFileIsReadText(json: Json, file: Option<string>)
    ensures ReadFile(json, file) == ReadText(json, Text(file))
  {
    assert SplitLines("") == [];
    assert ReadLines(json, []) == Entries([]);
  }

  /** For every existing content, torn or without a final newline included, the log read
      after an append is the log read before it plus the new entry. */
  lemma AppendReadsBack(json: Json, file: Option<string>, e: Entry)
    requires Lawful(json)
    ensures ReadFile(json, Some(Text(file) + Appended(json, Text(file), e))) == WithEntry(ReadFile(json, file), e)
  {
    AppendedReads(json, Text(file), e);
    ReadFileIsReadText(json, file);
  }

  /** A write torn anywhere either left the whole entry or left nothing that is read. */
  lemma TornWriteIsAllOrNothing(json: Json, file: Option<string>, e: Entry, written: nat)
    requires Lawful(json)
    ensures ReadFile(json, Torn(json, file, e, written)) ==
            if written + 1 >= |Appended(json, Text(file), e)| then WithEntry(ReadFile(json, file), e)
            else ReadFile(json, file)
  {
    var line := Appended(json, Text(file), e);
    if written >= |line| {
      AppendReadsBack(json, file, e);
    } else {
      TornLine(json, Text(file), e, written);
      ReadFileIsReadText(json, file);
    }
  }

  lemma TornLine(json: Json, s: string, e: Entry, written: nat)
    requires Lawful(json) && written < |Appended(json, s, e)|
    ensures ReadText(json, s + Appended(json, s, e)[..written]) ==
            if written + 1 == |Appended(json, s, e)| then WithEntry(ReadText(json, s), e) else ReadText(json, s)
  {
    var text, line := json.dumps(e), Appended(json, s, e);
    if s == "" || EndsWithNewline(s) {
      assert line == text + "\n";
      assert line[..written] == text[..written];
      TornText(json, s, e, written);
    } else {
      assert line == "\n" + (text + "\n");
      if written == 0 {
        assert s + line[..written] == s;
      } else {
        assert line[..written] == "\n" + text[..written - 1];
        TornText(json, s, e, written - 1);
      }
    }
  }

  /** What is read once the first `k` characters of the JSON text itself are on disk. */
  lemma TornText(json: Json, s: string, e: Entry, k: nat)
    requires Lawful(json) && k <= |json.dumps(e)|
    ensures var part := json.dumps(e)[..k];
            var expected := if k == |json.dumps(e)| then WithEntry(ReadText(json, s), e) else ReadText(json, s);
            && (s == "" || EndsWithNewline(s) ==> ReadText(json, s + part) == expected)
            && ReadText(json, s + ("\n" + part)) == expected
  {
    assert LawfulFor(json, e);
    var part := json.dumps(e)[..k];
    ReadThen(json, s, part);
    if k == |json.dumps(e)| {
      assert part == json.dumps(e);
      ReadOneLine(json, part, e);
    } else {
      FragmentReadsAsNothing(json, e, k);
    }
  }

  lemma FragmentReadsAsNothing(json: Json, e: Entry, k: nat)
    requires LawfulFor(json, e) && k < |json.dumps(e)|
    ensures ReadText(json, json.dumps(e)[..k]) == Entries([])
  {
    var part := json.dumps(e)[..k];
    if k > 0 {
      assert json.loads(Strip(part)) == Malformed;
      ReadOneFragment(json, part);
    }
  }

  // ---- when reading raises ------------------------------------------------------------

  /** A line that is JSON, but no object. */
  predicate Raising(json: Json, line: string) { Strip(line) != "" && json.loads(Strip(line)).Raises? }

  lemma {:induction false} LinesRaiseExactlyWhen(json: Json, lines: seq<string>)
    ensures ReadLines(json, lines).ReadRaises? <==> exists l :: l in lines && Raising(json, l)
  {
    if lines != [] {
      LinesRaiseExactlyWhen(json, lines[1..]);
      if l :| l in lines[1..] && Raising(json, l) {
        assert l in lines;
      }
      if l :| l in lines && Raising(json, l) {
        assert l == lines[0] || l in lines[1..];
        assert lines[0] in lines;
      }
      if Raising(json, lines[0]) {
        assert lines[0] in lines;
      }
    }
  }

  /** Reading the log raises exactly if some line of it is JSON that is no object: other bad lines,
      torn ones among them, are skipped as promised. */
  lemma ReadRaisesExactlyWhen(json: Json, file: Option<string>)
    ensures ReadFile(json, file).ReadRaises? <==>
            exists l :: l in SplitLines(Text(file)) && Raising(json, l)
  {
    LinesRaiseExactlyWhen(json, SplitLines(Text(file)));
  }

  /** One such line is enough: a log that holds the empty list. */
  lemma ListLineRaises(json: Json)
    requires json.loads("[]").Raises?
    ensures ReadFile(json, Some("[]\n")).ReadRaises?
  {
    var text := "[]\n";
    assert text[1..] == "]\n" && text[1..][1..] == "\n";
    assert SplitLines(text[1..][1..]) == [""] by {
      assert "\n"[BreakLength("\n")..] == "" && SplitLines("") == [];
    }
    assert SplitLines(text[1..]) == Onto(']', [""]) && Onto(']', [""])[0] == "]";
    var lines := SplitLines(text);
    assert lines == Onto('[', SplitLines(text[1..]));
    assert lines[0] == "[]" && lines[0] in lines;
    StripTrimmed("[]");
    assert Raising(json, lines[0]);
    ReadRaisesExactlyWhen(json, Some(text));
  }

  /** No later append makes such a log readable again. */
  lemma RaisingLogStaysRaising(json: Json, file: Option<string>, e: Entry)
    requires Lawful(json) && ReadFile(json, file).ReadRaises?
    ensures ReadFile(json, Some(Text(file) + Appended(json, Text(file), e))).ReadRaises?
  {
    AppendReadsBack(json, file, e);
  }
}
