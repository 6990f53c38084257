/**
 The environment file that the setup wizard writes and the command line loads
 (oxenclaw/config/env_loader.py): an upserting printer and a forgiving parser.
 */
module EnvFile {
  import opened Wrappers
  import Seqs

  /**
   Character classes: what `str.strip` removes, the line boundaries of
   `str.splitlines`, and `isalpha` and `isalnum` on one character.
   */
  datatype Alphabet = Alphabet(space: char -> bool, lineBreak: char -> bool, alpha: char -> bool, alnum: char -> bool)

  const PUNCTUATION := "=#_\"'"

  /** What the classes must satisfy; letters are alphanumeric, and blanks are not. */
  ghost predicate Sane(a: Alphabet) {
    && (forall c :: a.alpha(c) ==> a.alnum(c))
    && (forall c :: a.alnum(c) ==> !a.space(c) && c !in PUNCTUATION)
    && (forall c :: c in PUNCTUATION || c in "export" ==> !a.space(c))
    && (forall c :: a.lineBreak(c) ==> a.space(c))
    && a.lineBreak('\n') && !a.lineBreak(' ')
  }

  predicate IsBreak(c: char) {
    c == '\n' || c == '\r' || c == '\U{0B}' || c == '\U{0C}' || c == '\U{1C}' || c == '\U{1D}' || c == '\U{1E}'
    || c == '\U{85}' || c == '\U{2028}' || c == '\U{2029}'
  }

  predicate IsSpace(c: char) {
    IsBreak(c) || c == ' ' || c == '\t' || c == '\U{1F}' || c == '\U{A0}' || c == '\U{1680}'
    || '\U{2000}' <= c <= '\U{200A}' || c == '\U{202F}' || c == '\U{205F}' || c == '\U{3000}'
  }

  /** Python's blanks and line boundaries are such classes, with any letters and digits apart from them. */
  lemma PythonIsSane(alpha: char -> bool, alnum: char -> bool)
    requires forall c :: alpha(c) ==> alnum(c)
    requires forall c :: alnum(c) ==> !IsSpace(c) && c !in PUNCTUATION
    ensures Sane(Alphabet(IsSpace, IsBreak, alpha, alnum))
  {
    assert forall c :: c in PUNCTUATION ==> c == '=' || c == '#' || c == '_' || c == '"' || c == '\'';
    assert forall c :: c in "export" ==> c == 'e' || c == 'x' || c == 'p' || c == 'o' || c == 'r' || c == 't';
  }

  // ---- Python's string methods ---------------------------------------------

  function LStrip(a: Alphabet, s: string): string { if s != "" && a.space(s[0]) then LStrip(a, s[1..]) else s }

  function RStrip(a: Alphabet, s: string): string {
    if s != "" && a.space(s[|s| - 1]) then RStrip(a, s[..|s| - 1]) else s
  }

  function Strip(a: Alphabet, s: string): string { RStrip(a, LStrip(a, s)) }

  /** The position of the first line break, or the length. */
  function BreakAt(a: Alphabet, s: string): (n: nat)
    ensures n <= |s|
    ensures forall i :: 0 <= i < n ==> !a.lineBreak(s[i])
    ensures n < |s| ==> a.lineBreak(s[n])
  {
    if s == "" || a.lineBreak(s[0]) then 0 else 1 + BreakAt(a, s[1..])
  }

  /** A carriage return followed by a line feed is one boundary. */
  function BreakLen(s: string, n: nat): nat
    requires n < |s|
  {
    if n + 1 < |s| && s[n] == '\r' && s[n + 1] == '\n' then 2 else 1
  }

  function SplitLines(a: Alphabet, s: string): seq<string>
    decreases |s|
  {
    if s == "" then []
    else
      var n := BreakAt(a, s);
      if n == |s| then [s] else [s[..n]] + SplitLines(a, s[n + BreakLen(s, n)..])
  }

  /** `"\n".join(lines) + "\n"` for a non-empty list. */
  function JoinLines(lines: seq<string>): string {
    if lines == [] then "" else lines[0] + "\n" + JoinLines(lines[1..])
  }

  /** `s.find("=")`, or the length. */
  function EqAt(s: string): (n: nat)
    ensures n <= |s|
    ensures forall i :: 0 <= i < n ==> s[i] != '='
    ensures n < |s| ==> s[n] == '='
  {
    if s == "" || s[0] == '=' then 0 else 1 + EqAt(s[1..])
  }

  function StripQuotes(v: string): string {
    if |v| >= 2 && v[0] == v[|v| - 1] && (v[0] == '"' || v[0] == '\'') then v[1..|v| - 1] else v
  }

  const EXPORT := "export "

  /** A stripped line without its `export ` prefix. */
  function Body(a: Alphabet, line: string): string {
    if EXPORT <= line then LStrip(a, line[|EXPORT|..]) else line
  }

  // ---- the parser ----------------------------------------------------------

  /** `key.replace("_", "")` */
  function WithoutUnderscores(s: string): string {
    if s == "" then "" else (if s[0] == '_' then "" else [s[0]]) + WithoutUnderscores(s[1..])
  }

  /** The parser's rule for keys; a key of underscores alone fails the `isalnum` check. */
  predicate ValidKey(a: Alphabet, key: string) {
    && key != "" && (a.alpha(key[0]) || key[0] == '_')
    && WithoutUnderscores(key) != ""
    && forall i :: 0 <= i < |WithoutUnderscores(key)| ==> a.alnum(WithoutUnderscores(key)[i])
  }

  /** The assignment on one line, if the parser sees one. */
  function ParseLine(a: Alphabet, raw: string): Option<(string, string)> {
    var line := Strip(a, raw);
    if line == "" || line[0] == '#' then None
    else
      var body := Body(a, line);
      var n := EqAt(body);
      if n == |body| then None
      else
        var key := Strip(a, body[..n]);
        if ValidKey(a, key) then Some((key, StripQuotes(Strip(a, body[n + 1..])))) else None
  }

  function Put(out: map<string, string>, found: Option<(string, string)>): map<string, string> {
    if found.Some? then out[found.value.0 := found.value.1] else out
  }

  function ParseLines(a: Alphabet, lines: seq<string>): map<string, string> {
    if lines == [] then map[]
    else
      Put(ParseLines(a, lines[..|lines| - 1]), ParseLine(a, lines[|lines| - 1]))
  }

  /** `parse_env_file` */
  function Parse(a: Alphabet, text: string): map<string, string> { ParseLines(a, SplitLines(a, text)) }

  // ---- the printer ---------------------------------------------------------

  /** The name that `persist_env_var` thinks a line assigns. */
  function PriorKey(a: Alphabet, raw: string): string {
    var body := Body(a, Strip(a, raw));
    Strip(a, body[..EqAt(body)])
  }

  function Kept(a: Alphabet, lines: seq<string>, key: string): seq<string> {
    if lines == [] then []
    else Kept(a, lines[..|lines| - 1], key) + (if PriorKey(a, lines[|lines| - 1]) == key then [] else [lines[|lines| - 1]])
  }

  function Assignment(key: string, value: string): string { EXPORT + key + "=\"" + value + "\"" }

  /** The new text of the file. */
  function Persist(a: Alphabet, text: string, key: string, value: string): string {
    JoinLines(Kept(a, SplitLines(a, text), key) + [Assignment(key, value)])
  }

  // ---- splitting what was joined -------------------------------------------

  ghost predicate NoBreaks(a: Alphabet, s: string) { forall i :: 0 <= i < |s| ==> !a.lineBreak(s[i]) }

  ghost predicate AllUnbroken(a: Alphabet, lines: seq<string>) { forall i :: 0 <= i < |lines| ==> NoBreaks(a, lines[i]) }

  lemma {:induction false} LinesAreUnbroken(a: Alphabet, s: string)
    ensures AllUnbroken(a, SplitLines(a, s))
    decreases |s|
  {
    if s != "" {
      var n := BreakAt(a, s);
      if n < |s| {
        LinesAreUnbroken(a, s[n + BreakLen(s, n)..]);
      }
    }
  }

  lemma BreakAfter(a: Alphabet, line: string, rest: string)
    requires Sane(a) && NoBreaks(a, line)
    ensures BreakAt(a, line + "\n" + rest) == |line| && BreakLen(line + "\n" + rest, |line|) == 1
    ensures (line + "\n" + rest)[..|line|] == line && (line + "\n" + rest)[|line| + 1..] == rest
  {
    var s := line + "\n" + rest;
    assert s[|line|] == '\n' && forall i :: 0 <= i < |line| ==> s[i] == line[i];
  }

  lemma UnbrokenTail(a: Alphabet, lines: seq<string>)
    requires lines != [] && AllUnbroken(a, lines)
    ensures NoBreaks(a, lines[0]) && AllUnbroken(a, lines[1..])
    ensures [lines[0]] + lines[1..] == lines
  {
  }

  lemma SplitFirst(a: Alphabet, line: string, rest: string)
    requires Sane(a) && NoBreaks(a, line)
    ensures SplitLines(a, line + "\n" + rest) == [line] + SplitLines(a, rest)
  {
    BreakAfter(a, line, rest);
  }

  lemma {:induction false} SplitJoined(a: Alphabet, lines: seq<string>)
    requires Sane(a) && AllUnbroken(a, lines)
    ensures SplitLines(a, JoinLines(lines)) == lines
  {
    if lines != [] {
      UnbrokenTail(a, lines);
      SplitFirst(a, lines[0], JoinLines(lines[1..]));
      SplitJoined(a, lines[1..]);
    }
  }

  // ---- the new line parses back --------------------------------------------

  lemma {:induction false} KeyCharacters(a: Alphabet, key: string)
    requires Sane(a)
    requires forall i :: 0 <= i < |WithoutUnderscores(key)| ==> a.alnum(WithoutUnderscores(key)[i])
    ensures forall i :: 0 <= i < |key| ==> key[i] == '_' || a.alnum(key[i])
  {
    if key != "" {
      var rest := WithoutUnderscores(key[1..]);
      if key[0] == '_' {
        assert WithoutUnderscores(key) == rest;
      } else {
        assert WithoutUnderscores(key) == [key[0]] + rest;
        forall i | 0 <= i < |rest| ensures a.alnum(rest[i]) { assert rest[i] == WithoutUnderscores(key)[i + 1]; }
        assert WithoutUnderscores(key)[0] == key[0];
      }
      KeyCharacters(a, key[1..]);
      forall i | 0 <= i < |key| ensures key[i] == '_' || a.alnum(key[i]) {
        assert i > 0 ==> key[i] == key[1..][i - 1];
      }
    }
  }

  lemma KeyIsPlain(a: Alphabet, key: string)
    requires Sane(a) && ValidKey(a, key)
    ensures key != "" && forall i :: 0 <= i < |key| ==> !a.space(key[i]) && key[i] != '='
    ensures Strip(a, key) == key
  {
    KeyCharacters(a, key);
  }

  lemma {:induction false} EqAfter(key: string, rest: string)
    requires forall i :: 0 <= i < |key| ==> key[i] != '='
    ensures EqAt(key + "=" + rest) == |key|
  {
    var s := key + "=" + rest;
    assert s[|key|] == '=' && forall i :: 0 <= i < |key| ==> s[i] == key[i];
  }

  lemma NoStrip(a: Alphabet, s: string)
    requires s != "" && !a.space(s[0]) && !a.space(s[|s| - 1])
    ensures Strip(a, s) == s && LStrip(a, s) == s
  {
  }

  function Quoted(value: string): string { "\"" + value + "\"" }

  /** The written line without its prefix. */
  function Written(key: string, value: string): string { key + "=" + Quoted(value) }

  lemma AssignmentShape(key: string, value: string)
    ensures Assignment(key, value) == EXPORT + Written(key, value)
    ensures EXPORT <= Assignment(key, value) && Assignment(key, value)[|EXPORT|..] == Written(key, value)
    ensures Assignment(key, value)[0] == 'e' && Assignment(key, value)[|Assignment(key, value)| - 1] == '"'
  {
    var line := Assignment(key, value);
    assert line == EXPORT + Written(key, value);
    assert line[0] == EXPORT[0];
  }

  lemma WrittenShape(key: string, value: string)
    requires key != ""
    ensures Written(key, value)[0] == key[0] && Written(key, value)[|Written(key, value)| - 1] == '"'
    ensures Written(key, value)[..|key|] == key && Written(key, value)[|key| + 1..] == Quoted(value)
  {
  }

  lemma QuoteAndExport(a: Alphabet)
    requires Sane(a)
    ensures !a.space('e') && !a.space('"')
  {
    assert "export"[0] == 'e' && PUNCTUATION[3] == '"';
  }

  /** What both functions see in the line just written. */
  lemma AssignmentParts(a: Alphabet, key: string, value: string)
    requires Sane(a) && key != "" && forall i :: 0 <= i < |key| ==> !a.space(key[i]) && key[i] != '='
    ensures Strip(a, Assignment(key, value)) == Assignment(key, value)
    ensures Body(a, Assignment(key, value)) == Written(key, value)
    ensures EqAt(Written(key, value)) == |key|
  {
    QuoteAndExport(a);
    AssignmentShape(key, value);
    NoStrip(a, Assignment(key, value));
    WrittenShape(key, value);
    NoStrip(a, Written(key, value));
    EqAfter(key, Quoted(value));
  }

  lemma AssignmentUnbroken(a: Alphabet, key: string, value: string)
    requires Sane(a) && NoBreaks(a, key) && NoBreaks(a, value)
    ensures NoBreaks(a, Assignment(key, value))
  {
    QuoteAndExport(a);
    assert PUNCTUATION[0] == '=';
    forall c | c in EXPORT ensures !a.lineBreak(c) {
      assert EXPORT == "export" + " ";
      assert c in "export" || c == ' ';
    }
    forall c | c in Assignment(key, value) ensures !a.lineBreak(c) {
      assert c in EXPORT || c in key || c in value || c == '=' || c == '"';
    }
  }

  lemma UnquotesBack(a: Alphabet, value: string)
    requires Sane(a)
    ensures StripQuotes(Strip(a, Quoted(value))) == value
  {
    QuoteAndExport(a);
    NoStrip(a, Quoted(value));
    assert Quoted(value)[1..|Quoted(value)| - 1] == value;
  }

  lemma AssignmentParses(a: Alphabet, key: string, value: string)
    requires Sane(a) && ValidKey(a, key)
    ensures ParseLine(a, Assignment(key, value)) == Some((key, value))
    ensures PriorKey(a, Assignment(key, value)) == key
  {
    KeyIsPlain(a, key);
    AssignmentParts(a, key, value);
    AssignmentShape(key, value);
    WrittenShape(key, value);
    UnquotesBack(a, value);
  }

  // ---- dropping the prior assignments --------------------------------------

  /** Where the parser sees an assignment, the printer sees the same name. */
  lemma SameName(a: Alphabet, raw: string)
    ensures ParseLine(a, raw).Some? ==> ParseLine(a, raw).value.0 == PriorKey(a, raw)
  {
  }

  lemma ParseSnoc(a: Alphabet, lines: seq<string>, line: string)
    ensures ParseLines(a, lines + [line]) == Put(ParseLines(a, lines), ParseLine(a, line))
  {
    assert (lines + [line])[..|lines|] == lines;
  }

  lemma EqFound(line: string)
    ensures '=' in line <==> EqAt(line) < |line|
  {
    if '=' in line {
      var j :| 0 <= j < |line| && line[j] == '=';
    }
  }

  lemma ParseNext(a: Alphabet, lines: seq<string>, i: nat)
    requires i < |lines|
    ensures ParseLines(a, lines[..i + 1]) == Put(ParseLines(a, lines[..i]), ParseLine(a, lines[i]))
  {
    Seqs.NextSlice(lines, i);
    ParseSnoc(a, lines[..i], lines[i]);
  }

  lemma PutOrDrop(before: map<string, string>, found: Option<(string, string)>, prior: string, key: string)
    requires found.Some? ==> found.value.0 == prior
    ensures Put(before, found) - {key} == if prior == key then before - {key} else Put(before - {key}, found)
  {
  }

  /** Dropping the lines of one name changes the mapping at that name only. */
  lemma {:induction false} KeptParses(a: Alphabet, lines: seq<string>, key: string)
    ensures ParseLines(a, Kept(a, lines, key)) == ParseLines(a, lines) - {key}
  {
    if lines != [] {
      var front, last := lines[..|lines| - 1], lines[|lines| - 1];
      KeptParses(a, front, key);
      SameName(a, last);
      PutOrDrop(ParseLines(a, front), ParseLine(a, last), PriorKey(a, last), key);
      ParseSnoc(a, Kept(a, front, key), last);
      Seqs.AppendNothing(Kept(a, front, key));
    }
  }

  lemma {:induction false} KeptUnbroken(a: Alphabet, lines: seq<string>, key: string)
    requires AllUnbroken(a, lines)
    ensures AllUnbroken(a, Kept(a, lines, key))
  {
    if lines != [] { KeptUnbroken(a, lines[..|lines| - 1], key); }
  }

  /** The lines of the file after the write, when no line break got in. */
  lemma PersistedLines(a: Alphabet, text: string, key: string, value: string)
    requires Sane(a) && NoBreaks(a, key) && NoBreaks(a, value)
    ensures SplitLines(a, Persist(a, text, key, value)) == Kept(a, SplitLines(a, text), key) + [Assignment(key, value)]
  {
    LinesAreUnbroken(a, text);
    KeptUnbroken(a, SplitLines(a, text), key);
    AssignmentUnbroken(a, key, value);
    SplitJoined(a, Kept(a, SplitLines(a, text), key) + [Assignment(key, value)]);
  }

  /** Parsing the file after `persist_env_var` gives the old mapping updated at the key. */
  lemma PersistThenParse(a: Alphabet, text: string, key: string, value: string)
    requires Sane(a) && ValidKey(a, key) && NoBreaks(a, value)
    ensures Parse(a, Persist(a, text, key, value)) == Parse(a, text)[key := value]
  {
    KeyIsPlain(a, key);
    PersistedLines(a, text, key, value);
    AssignmentParses(a, key, value);
    ParseSnoc(a, Kept(a, SplitLines(a, text), key), Assignment(key, value));
    KeptParses(a, SplitLines(a, text), key);
  }

  // ---- when it does not ----------------------------------------------------

  lemma {:induction false} StripInside(a: Alphabet, s: string)
    ensures exists lo: nat, hi: nat :: lo <= hi <= |s| && Strip(a, s) == s[lo..hi]
  {
    LStripInside(a, s);
    var lo: nat :| lo <= |s| && LStrip(a, s) == s[lo..];
    RStripInside(a, LStrip(a, s));
    var n: nat :| n <= |LStrip(a, s)| && RStrip(a, LStrip(a, s)) == LStrip(a, s)[..n];
    assert s[lo..lo + n] == s[lo..][..n];
  }

  lemma {:induction false} LStripInside(a: Alphabet, s: string)
    ensures exists lo: nat :: lo <= |s| && LStrip(a, s) == s[lo..]
  {
    if s != "" && a.space(s[0]) {
      LStripInside(a, s[1..]);
      var lo: nat :| lo <= |s[1..]| && LStrip(a, s[1..]) == s[1..][lo..];
      assert s[lo + 1..] == s[1..][lo..];
    } else {
      assert s[0..] == s;
    }
  }

  lemma {:induction false} RStripInside(a: Alphabet, s: string)
    ensures exists n: nat :: n <= |s| && RStrip(a, s) == s[..n]
  {
    if s != "" && a.space(s[|s| - 1]) {
      RStripInside(a, s[..|s| - 1]);
      var n: nat :| n <= |s| - 1 && RStrip(a, s[..|s| - 1]) == s[..|s| - 1][..n];
      assert s[..n] == s[..|s| - 1][..n];
    } else {
      assert s[..|s|] == s;
    }
  }

  lemma StripUnbroken(a: Alphabet, s: string)
    requires NoBreaks(a, s)
    ensures NoBreaks(a, Strip(a, s)) && NoBreaks(a, LStrip(a, s))
  {
    StripInside(a, s);
    LStripInside(a, s);
  }

  /** What the parser reads from one line has a valid name and no line break. */
  lemma ParsedIsClean(a: Alphabet, raw: string)
    requires NoBreaks(a, raw) && ParseLine(a, raw).Some?
    ensures ValidKey(a, ParseLine(a, raw).value.0) && NoBreaks(a, ParseLine(a, raw).value.1)
  {
    StripUnbroken(a, raw);
    var line := Strip(a, raw);
    if EXPORT <= line { StripUnbroken(a, line[|EXPORT|..]); }
    var body := Body(a, line);
    StripUnbroken(a, body[EqAt(body) + 1..]);
  }

  lemma {:induction false} MappingIsClean(a: Alphabet, lines: seq<string>, key: string)
    requires AllUnbroken(a, lines) && key in ParseLines(a, lines)
    ensures ValidKey(a, key) && NoBreaks(a, ParseLines(a, lines)[key])
  {
    var front, last := lines[..|lines| - 1], lines[|lines| - 1];
    if ParseLine(a, last).Some? && ParseLine(a, last).value.0 == key {
      ParsedIsClean(a, last);
    } else {
      MappingIsClean(a, front, key);
    }
  }

  /**
   For every file, key and value: the file parses back to the old mapping updated at
   the key if and only if the parser accepts the key and the value has no line break.
   */
  lemma PersistRoundTripsExactly(a: Alphabet, text: string, key: string, value: string)
    requires Sane(a)
    ensures Parse(a, Persist(a, text, key, value)) == Parse(a, text)[key := value] <==> ValidKey(a, key) && NoBreaks(a, value)
  {
    if ValidKey(a, key) && NoBreaks(a, value) {
      PersistThenParse(a, text, key, value);
    } else if Parse(a, Persist(a, text, key, value)) == Parse(a, text)[key := value] {
      LinesAreUnbroken(a, Persist(a, text, key, value));
      MappingIsClean(a, SplitLines(a, Persist(a, text, key, value)), key);
    }
  }

  /** A key of underscores only is written but never read back. */
  lemma UnderscoreKeyIsLost(a: Alphabet, text: string, value: string)
    requires Sane(a)
    ensures "_" !in Parse(a, Persist(a, text, "_", value))
    ensures Parse(a, Persist(a, text, "_", value)) != Parse(a, text)["_" := value]
  {
    assert WithoutUnderscores("_") == "" + WithoutUnderscores("");
    assert !ValidKey(a, "_");
    var lines := SplitLines(a, Persist(a, text, "_", value));
    LinesAreUnbroken(a, Persist(a, text, "_", value));
    if "_" in ParseLines(a, lines) { MappingIsClean(a, lines, "_"); }
    PersistRoundTripsExactly(a, text, "_", value);
  }

  /** A two-line value reads back as something else. */
  lemma TwoLineValueIsLost(a: Alphabet, text: string)
    requires Sane(a)
    ensures Parse(a, Persist(a, text, "A", "x\ny")) != Parse(a, text)["A" := "x\ny"]
  {
    assert "x\ny"[1] == '\n';
    PersistRoundTripsExactly(a, text, "A", "x\ny");
  }

  lemma {:induction false} KeptTwice(a: Alphabet, lines: seq<string>, key: string)
    ensures Kept(a, Kept(a, lines, key), key) == Kept(a, lines, key)
  {
    if lines != [] {
      var front, last := lines[..|lines| - 1], lines[|lines| - 1];
      KeptTwice(a, front, key);
      KeptSnoc(a, Kept(a, front, key), last, key);
      Seqs.AppendNothing(Kept(a, front, key));
    }
  }

  lemma KeptSnoc(a: Alphabet, lines: seq<string>, line: string, key: string)
    ensures Kept(a, lines + [line], key) == Kept(a, lines, key) + (if PriorKey(a, line) == key then [] else [line])
  {
    assert (lines + [line])[..|lines|] == lines;
  }

  lemma KeptNext(a: Alphabet, lines: seq<string>, i: nat, key: string)
    requires i < |lines|
    ensures Kept(a, lines[..i + 1], key) ==
            if PriorKey(a, lines[i]) == key then Kept(a, lines[..i], key) else Kept(a, lines[..i], key) + [lines[i]]
  {
    Seqs.NextSlice(lines, i);
    KeptSnoc(a, lines[..i], lines[i], key);
    Seqs.AppendNothing(Kept(a, lines[..i], key));
  }

  /** Persisting the same pair again leaves the text as it is. */
  lemma PersistTwice(a: Alphabet, text: string, key: string, value: string)
    requires Sane(a) && ValidKey(a, key) && NoBreaks(a, value)
    ensures Persist(a, Persist(a, text, key, value), key, value) == Persist(a, text, key, value)
  {
    KeyIsPlain(a, key);
    PersistedLines(a, text, key, value);
    AssignmentParses(a, key, value);
    var kept := Kept(a, SplitLines(a, text), key);
    KeptSnoc(a, kept, Assignment(key, value), key);
    KeptTwice(a, SplitLines(a, text), key);
    Seqs.AppendNothing(kept);
  }

  // ---- the file ------------------------------------------------------------

  class EnvironmentFile {
    var present: bool
    var text: string

    constructor ()
      ensures !present && text == ""
    {
      present, text := false, "";
    }

    /** `persist_env_var` */
    method PersistVar(a: Alphabet, key: string, value: string)
      requires !present ==> text == ""
      modifies this
      ensures present && text == Persist(a, old(text), key, value)
    {
      var kept: seq<string> := [];
      if present {
        var lines := SplitLines(a, text);
        for i := 0 to |lines|
          invariant kept == Kept(a, lines[..i], key)
        {
          KeptNext(a, lines, i, key);
          var body := Strip(a, lines[i]);
          if EXPORT <= body {
            body := LStrip(a, body[|EXPORT|..]);
          }
          if Strip(a, body[..EqAt(body)]) == key {
            continue;
          }
          kept := kept + [lines[i]];
        }
        assert lines[..|lines|] == lines;
      }
      kept := kept + [Assignment(key, value)];
      present, text := true, JoinLines(kept);
    }

    /** `parse_env_file` on the file's text. */
    method ParseText(a: Alphabet) returns (out: map<string, string>)
      ensures out == Parse(a, text)
    {
      out := map[];
      var lines := SplitLines(a, text);
      for i := 0 to |lines|
        invariant out == ParseLines(a, lines[..i])
      {
        ParseNext(a, lines, i);
        var line := Strip(a, lines[i]);
        if line == "" || line[0] == '#' {
          continue;
        }
        if EXPORT <= line {
          line := LStrip(a, line[|EXPORT|..]);
        }
        EqFound(line);
        if '=' !in line {
          continue;
        }
        var n := EqAt(line);
        var key := Strip(a, line[..n]);
        if !ValidKey(a, key) {
          continue;
        }
        out := out[key := StripQuotes(Strip(a, line[n + 1..]))];
      }
      assert lines[..|lines|] == lines;
    }
  }
}
