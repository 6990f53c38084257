/**
 Finding a tool call that a model wrote as text (oxenclaw/agents/pseudo_tool.py):
 the one-pass brace scanner and the schema matcher.
 */
module PseudoTool {
  import opened Wrappers
  import Seqs

  // ---- the scanner ---------------------------------------------------------

  /** What the scanner knows between two characters, apart from positions. */
  datatype Mode = Mode(depth: nat, inString: bool, escape: bool)

  const NEUTRAL := Mode(0, false, false)

  function NextMode(m: Mode, ch: char): Mode {
    if m.inString then
      if m.escape then m.(escape := false)
      else if ch == '\\' then m.(escape := true)
      else if ch == '"' then m.(inString := false)
      else m
    else if ch == '"' then m.(inString := true)
    else if ch == '{' then m.(depth := m.depth + 1)
    else if ch == '}' && m.depth > 0 then m.(depth := m.depth - 1)
    else m
  }

  /** The mode before the `i`th character. */
  function ModeAt(text: string, i: nat): Mode
    requires i <= |text|
  {
    if i == 0 then NEUTRAL else NextMode(ModeAt(text, i - 1), text[i - 1])
  }

  function DepthAt(text: string, i: nat): nat
    requires i <= |text|
  {
    ModeAt(text, i).depth
  }

  /**
   A maximal balanced span: nesting starts from zero at `a`, returns to zero at `b`,
   and stays positive in between.
   */
  ghost predicate IsSpan(text: string, a: nat, b: nat) {
    && a + 1 < b <= |text|
    && DepthAt(text, a) == 0 && DepthAt(text, b) == 0
    && forall j :: a < j < b ==> DepthAt(text, j) > 0
  }

  /** `start` before the `i`th character: where the open top-level object began, or -1. */
  function StartAt(text: string, i: nat): int
    requires i <= |text|
  {
    if i == 0 then -1
    else if DepthAt(text, i) == 0 then -1
    else if DepthAt(text, i - 1) == 0 then i - 1
    else StartAt(text, i - 1)
  }

  /** The spans closed before the `i`th character. */
  function SpansBefore(text: string, i: nat): seq<(int, int)>
    requires i <= |text|
  {
    if i == 0 then []
    else if DepthAt(text, i) == 0 && DepthAt(text, i - 1) > 0 then
      SpansBefore(text, i - 1) + [(StartAt(text, i - 1), i)]
    else SpansBefore(text, i - 1)
  }

  function Spans(text: string): seq<(int, int)> { SpansBefore(text, |text|) }

  lemma {:induction false} StartMeaning(text: string, i: nat)
    requires i <= |text|
    ensures StartAt(text, i) >= 0 <==> DepthAt(text, i) > 0
    ensures StartAt(text, i) >= 0 ==>
              var a := StartAt(text, i);
              && a < i && DepthAt(text, a) == 0
              && forall j :: a < j <= i ==> DepthAt(text, j) > 0
    ensures StartAt(text, i) >= -1
  {
    if i > 0 { StartMeaning(text, i - 1); }
  }

  ghost predicate InOrder(spans: seq<(int, int)>, hi: int) {
    && (forall k :: 0 <= k < |spans| ==> 0 <= spans[k].0 < spans[k].1 <= hi)
    && (forall k, l :: 0 <= k < l < |spans| ==> spans[k].1 <= spans[l].0)
  }

  lemma OrderedSnoc(spans: seq<(int, int)>, a: int, b: int)
    requires InOrder(spans, a) && 0 <= a < b
    ensures InOrder(spans + [(a, b)], b)
  {
  }

  lemma {:induction false} SpansOrdered(text: string, i: nat)
    requires i <= |text|
    ensures InOrder(SpansBefore(text, i), i)
    ensures DepthAt(text, i) > 0 ==> InOrder(SpansBefore(text, i), StartAt(text, i))
  {
    if i > 0 {
      StartMeaning(text, i - 1);
      SpansOrdered(text, i - 1);
      if DepthAt(text, i) == 0 && DepthAt(text, i - 1) > 0 {
        OrderedSnoc(SpansBefore(text, i - 1), StartAt(text, i - 1), i);
      }
    }
  }

  lemma WithinText(text: string, i: nat)
    requires i <= |text|
    ensures InOrder(SpansBefore(text, i), |text|)
  {
    SpansOrdered(text, i);
  }

  lemma {:induction false} SpansComplete(text: string, i: nat, a: nat, b: nat)
    requires i <= |text|
    ensures (a, b) in SpansBefore(text, i) <==> b <= i && IsSpan(text, a, b)
  {
    if i > 0 {
      SpansComplete(text, i - 1, a, b);
      StartMeaning(text, i - 1);
      if DepthAt(text, i) == 0 && DepthAt(text, i - 1) > 0 {
        var s := StartAt(text, i - 1);
        assert IsSpan(text, s, i);
        if b == i && IsSpan(text, a, b) { SameStart(text, a, s, i); }
      } else {
        assert DepthAt(text, i) == 0 ==> DepthAt(text, i - 1) == 0;
      }
    }
  }

  lemma SameStart(text: string, a: nat, s: nat, b: nat)
    requires IsSpan(text, a, b) && IsSpan(text, s, b)
    ensures a == s
  {
  }

  // ---- scanning parts ------------------------------------------------------

  lemma {:induction false} EscapeInString(text: string, i: nat)
    requires i <= |text|
    ensures ModeAt(text, i).escape ==> ModeAt(text, i).inString
  {
    if i > 0 { EscapeInString(text, i - 1); }
  }

  /** From a neutral position on, the modes are those of the rest scanned alone. */
  lemma {:induction false} ModeShift(text: string, cut: nat, part: string, j: nat)
    requires cut + |part| <= |text| && part == text[cut..cut + |part|] && j <= |part|
    requires ModeAt(text, cut) == NEUTRAL
    ensures ModeAt(text, cut + j) == ModeAt(part, j)
  {
    if j > 0 {
      ModeShift(text, cut, part, j - 1);
      assert part[j - 1] == text[cut + j - 1];
    }
  }

  lemma {:induction false} StartShift(text: string, cut: nat, part: string, j: nat)
    requires cut + |part| <= |text| && part == text[cut..cut + |part|] && j <= |part|
    requires ModeAt(text, cut) == NEUTRAL && DepthAt(part, j) > 0
    ensures StartAt(text, cut + j) == cut + StartAt(part, j)
  {
    ModeShift(text, cut, part, j);
    ModeShift(text, cut, part, j - 1);
    if DepthAt(part, j - 1) > 0 { StartShift(text, cut, part, j - 1); }
  }

  lemma ClosedShift(text: string, cut: nat, part: string, j: nat)
    requires cut + |part| <= |text| && part == text[cut..cut + |part|] && 0 < j <= |part|
    requires ModeAt(text, cut) == NEUTRAL
    ensures DepthAt(text, cut + j) == DepthAt(part, j) && DepthAt(text, cut + j - 1) == DepthAt(part, j - 1)
    ensures DepthAt(part, j - 1) > 0 ==> StartAt(text, cut + j - 1) == cut + StartAt(part, j - 1)
  {
    ModeShift(text, cut, part, j);
    ModeShift(text, cut, part, j - 1);
    if DepthAt(part, j - 1) > 0 { StartShift(text, cut, part, j - 1); }
  }

  /** The substrings a list of spans stands for. */
  function Pick(text: string, spans: seq<(int, int)>): seq<string>
    requires InOrder(spans, |text|)
  {
    if spans == [] then []
    else Pick(text, spans[..|spans| - 1]) + [text[spans[|spans| - 1].0..spans[|spans| - 1].1]]
  }

  lemma PickSnoc(text: string, spans: seq<(int, int)>, last: (int, int))
    requires InOrder(spans + [last], |text|) && InOrder(spans, |text|) && 0 <= last.0 <= last.1 <= |text|
    ensures Pick(text, spans + [last]) == Pick(text, spans) + [text[last.0..last.1]]
  {
    assert (spans + [last])[..|spans|] == spans;
  }

  /** The `i`th character closes a top-level object. */
  predicate Closes(text: string, i: nat)
    requires i < |text|
  {
    DepthAt(text, i) > 0 && DepthAt(text, i + 1) == 0
  }

  /** The object it closes. */
  function ClosedBy(text: string, i: nat): string
    requires i < |text| && Closes(text, i)
  {
    StartMeaning(text, i);
    text[StartAt(text, i)..i + 1]
  }

  /** The objects closed before the `i`th character. */
  function FoundBefore(text: string, i: nat): seq<string>
    requires i <= |text|
  {
    if i == 0 then []
    else if Closes(text, i - 1) then FoundBefore(text, i - 1) + [ClosedBy(text, i - 1)]
    else FoundBefore(text, i - 1)
  }

  /** What `_bare_top_level_objects` returns. */
  function Objects(text: string): seq<string> { FoundBefore(text, |text|) }

  /** The objects are the substrings of the spans. */
  lemma {:induction false} FoundIsPick(text: string, i: nat)
    requires i <= |text|
    ensures InOrder(SpansBefore(text, i), |text|) && FoundBefore(text, i) == Pick(text, SpansBefore(text, i))
  {
    WithinText(text, i);
    if i > 0 {
      FoundIsPick(text, i - 1);
      if Closes(text, i - 1) {
        StartMeaning(text, i - 1);
        PickSnoc(text, SpansBefore(text, i - 1), (StartAt(text, i - 1), i));
      }
    }
  }

  /** What the scan of one more character does to `start`. */
  lemma ScanOne(text: string, i: nat)
    requires i < |text|
    ensures ModeAt(text, i + 1) == NextMode(ModeAt(text, i), text[i])
    ensures StartAt(text, i) >= -1 && (StartAt(text, i) >= 0 <==> DepthAt(text, i) > 0) && StartAt(text, i) <= i
    ensures Closes(text, i) ==> StartAt(text, i + 1) == -1
    ensures !Closes(text, i) ==>
              StartAt(text, i + 1) == if DepthAt(text, i) == 0 && DepthAt(text, i + 1) > 0 then i else StartAt(text, i)
  {
    StartMeaning(text, i);
  }

  /**
   The objects found are those of exactly the maximal balanced spans, disjoint and in order; and
   `start` is set exactly while the depth is positive.
   */
  lemma ScanIsExact(text: string)
    ensures InOrder(Spans(text), |text|) && Objects(text) == Pick(text, Spans(text))
    ensures forall a: nat, b: nat :: (a, b) in Spans(text) <==> IsSpan(text, a, b)
    ensures forall i: nat :: i <= |text| ==> (StartAt(text, i) >= 0 <==> DepthAt(text, i) > 0)
  {
    FoundIsPick(text, |text|);
    forall a: nat, b: nat ensures (a, b) in Spans(text) <==> IsSpan(text, a, b) {
      SpansComplete(text, |text|, a, b);
    }
    forall i: nat | i <= |text| ensures StartAt(text, i) >= 0 <==> DepthAt(text, i) > 0 {
      StartMeaning(text, i);
    }
  }

  lemma SliceOfPart(text: string, cut: nat, part: string, lo: nat, hi: nat)
    requires cut + |part| <= |text| && part == text[cut..cut + |part|] && lo <= hi <= |part|
    ensures text[cut + lo..cut + hi] == part[lo..hi]
  {
    forall i | 0 <= i < hi - lo ensures text[cut + lo..cut + hi][i] == part[lo..hi][i] {
      assert part[lo + i] == text[cut + lo + i];
    }
  }

  lemma ClosesAlike(text: string, cut: nat, part: string, i: nat)
    requires cut + |part| <= |text| && part == text[cut..cut + |part|] && i < |part|
    requires ModeAt(text, cut) == NEUTRAL
    ensures Closes(text, cut + i) <==> Closes(part, i)
    ensures Closes(part, i) ==> ClosedBy(text, cut + i) == ClosedBy(part, i)
  {
    ClosedShift(text, cut, part, i + 1);
    if Closes(part, i) {
      StartMeaning(part, i);
      SliceOfPart(text, cut, part, StartAt(part, i), i + 1);
    }
  }

  lemma BothGrow(before: seq<string>, all: seq<string>, own: seq<string>, more: seq<string>)
    requires all == before + own
    ensures all + more == before + (own + more)
  {
  }

  lemma FoundStep(text: string, cut: nat, part: string, i: nat)
    requires cut + |part| <= |text| && part == text[cut..cut + |part|] && i < |part|
    requires ModeAt(text, cut) == NEUTRAL
    requires FoundBefore(text, cut + i) == FoundBefore(text, cut) + FoundBefore(part, i)
    ensures FoundBefore(text, cut + i + 1) == FoundBefore(text, cut) + FoundBefore(part, i + 1)
  {
    ClosesAlike(text, cut, part, i);
    if Closes(part, i) {
      BothGrow(FoundBefore(text, cut), FoundBefore(text, cut + i), FoundBefore(part, i), [ClosedBy(part, i)]);
    }
  }

  /** From a neutral position on, the scan finds what it finds in the rest alone. */
  lemma {:induction false} FoundShift(text: string, cut: nat, part: string, j: nat)
    requires cut + |part| <= |text| && part == text[cut..cut + |part|] && j <= |part|
    requires ModeAt(text, cut) == NEUTRAL
    ensures FoundBefore(text, cut + j) == FoundBefore(text, cut) + FoundBefore(part, j)
  {
    if j == 0 {
      Seqs.AppendNothing(FoundBefore(text, cut));
    } else {
      FoundShift(text, cut, part, j - 1);
      FoundStep(text, cut, part, j - 1);
    }
  }

  lemma {:induction false} ScanInPrefix(text: string, a: string, i: nat)
    requires i <= |a| <= |text| && a == text[0..|a|]
    ensures ModeAt(text, i) == ModeAt(a, i) && StartAt(text, i) == StartAt(a, i)
  {
    if i > 0 {
      ScanInPrefix(text, a, i - 1);
      assert a[i - 1] == text[i - 1];
    }
  }

  lemma ClosesInPrefix(text: string, a: string, i: nat)
    requires i < |a| <= |text| && a == text[0..|a|]
    ensures Closes(text, i) <==> Closes(a, i)
    ensures Closes(a, i) ==> ClosedBy(text, i) == ClosedBy(a, i)
  {
    ScanInPrefix(text, a, i);
    ScanInPrefix(text, a, i + 1);
    if Closes(a, i) {
      StartMeaning(a, i);
      SliceOfPart(text, 0, a, StartAt(a, i), i + 1);
    }
  }

  lemma {:induction false} FoundInPrefix(text: string, a: string, i: nat)
    requires i <= |a| <= |text| && a == text[0..|a|]
    ensures FoundBefore(text, i) == FoundBefore(a, i)
  {
    if i > 0 {
      FoundInPrefix(text, a, i - 1);
      ClosesInPrefix(text, a, i - 1);
    }
  }

  lemma FoundInParts(text: string, cut: nat, n: nat, a: string, b: string)
    requires cut == |a| && n == |text| == cut + |b| && a == text[0..|a|] && b == text[cut..cut + |b|]
    requires ModeAt(text, cut) == NEUTRAL && FoundBefore(text, cut) == FoundBefore(a, |a|)
    ensures FoundBefore(text, n) == FoundBefore(a, |a|) + FoundBefore(b, |b|)
  {
    FoundShift(text, cut, b, |b|);
  }

  lemma Halves(a: string, b: string)
    ensures a == (a + b)[0..|a|] && b == (a + b)[|a|..|a| + |b|]
  {
  }

  lemma CutScan(text: string, cut: nat, n: nat, a: string, b: string)
    requires cut == |a| && n == |text| == cut + |b| && a == text[0..|a|] && b == text[cut..cut + |b|]
    requires ModeAt(a, cut) == NEUTRAL
    ensures FoundBefore(text, n) == FoundBefore(a, |a|) + FoundBefore(b, |b|)
  {
    ScanInPrefix(text, a, cut);
    FoundInPrefix(text, a, cut);
    FoundInParts(text, cut, n, a, b);
  }

  lemma CutObjects(text: string, a: string, b: string)
    requires |text| == |a| + |b| && a == text[0..|a|] && b == text[|a|..|a| + |b|] && ModeAt(a, |a|) == NEUTRAL
    ensures Objects(text) == Objects(a) + Objects(b)
  {
    CutScan(text, |a|, |text|, a, b);
  }

  /** A text cut where the scanner is neutral scans as its two parts do. */
  lemma ScanConcat(a: string, b: string)
    requires ModeAt(a, |a|) == NEUTRAL
    ensures Objects(a + b) == Objects(a) + Objects(b)
  {
    Halves(a, b);
    CutObjects(a + b, a, b);
  }

  lemma NeutralAtSpan(text: string, a: nat, b: nat)
    requires IsSpan(text, a, b)
    ensures ModeAt(text, a) == NEUTRAL
  {
    EscapeInString(text, a);
    assert DepthAt(text, a + 1) > 0;
  }

  /** Rescanning any returned span alone returns just that span. */
  lemma RescanIsIdentity(text: string, a: nat, b: nat)
    requires IsSpan(text, a, b)
    ensures Objects(text[a..b]) == [text[a..b]]
  {
    var part := text[a..b];
    NeutralAtSpan(text, a, b);
    forall j | 0 <= j <= |part| ensures DepthAt(part, j) == DepthAt(text, a + j) {
      ModeShift(text, a, part, j);
    }
    OneSpan(part);
    FoundIsPick(part, |part|);
    PickWhole(part, SpansBefore(part, |part|));
  }

  lemma PickWhole(text: string, spans: seq<(int, int)>)
    requires spans == [(0, |text|)] && InOrder(spans, |text|)
    ensures Pick(text, spans) == [text]
  {
    assert spans[..0] == [];
    assert text[0..|text|] == text;
  }

  /** A text that is one span from end to end has no other. */
  lemma {:induction false} OneSpan(part: string)
    requires part != "" && DepthAt(part, |part|) == 0 && forall j :: 0 < j < |part| ==> DepthAt(part, j) > 0
    requires DepthAt(part, 1) > 0
    ensures Spans(part) == [(0, |part|)]
  {
    NoSpanYet(part, |part| - 1);
  }

  lemma {:induction false} NoSpanYet(part: string, i: nat)
    requires i <= |part| && forall j :: 0 < j <= i ==> DepthAt(part, j) > 0
    ensures SpansBefore(part, i) == [] && (i > 0 ==> StartAt(part, i) == 0)
  {
    if i > 0 { NoSpanYet(part, i - 1); }
  }

  /** `_bare_top_level_objects`: the one-pass scan. */
  method BareTopLevelObjects(text: string) returns (out: seq<string>)
    ensures out == Objects(text)
  {
    out := [];
    var depth, start, inString, escape := 0, -1, false, false;
    for i := 0 to |text|
      invariant Mode(depth, inString, escape) == ModeAt(text, i) && start == StartAt(text, i)
      invariant out == FoundBefore(text, i)
    {
      ScanOne(text, i);
      var ch := text[i];
      if inString {
        if escape {
          escape := false;
        } else if ch == '\\' {
          escape := true;
        } else if ch == '"' {
          inString := false;
        }
        continue;
      }
      if ch == '"' {
        inString := true;
        continue;
      }
      if ch == '{' {
        if depth == 0 {
          start := i;
        }
        depth := depth + 1;
      } else if ch == '}' {
        if depth > 0 {
          depth := depth - 1;
          if depth == 0 && start >= 0 {
            out := out + [text[start..i + 1]];
            start := -1;
          }
        }
      }
    }
  }

  // ---- the schema matcher --------------------------------------------------

  /** A tool's input schema; `NotADict` is skipped. */
  datatype Schema = NotADict | Schema(properties: set<string>, required: set<string>, allowExtras: bool)

  datatype Tool = Tool(name: string, schema: Schema)

  predicate Eligible(keys: set<string>, schema: Schema) {
    && schema.Schema?
    && schema.required != {} && schema.required <= keys
    && (schema.allowExtras || keys <= schema.properties)
  }

  function Specificity(keys: set<string>, schema: Schema): nat
    requires schema.Schema?
  {
    |schema.required| + |keys * schema.properties|
  }

  /** Tool `t` is eligible and strictly more specific than every other eligible one. */
  ghost predicate BestOf(keys: set<string>, tools: seq<Tool>, t: Tool) {
    && t in tools && Eligible(keys, t.schema)
    && forall u :: u in tools && u != t && Eligible(keys, u.schema) ==>
         Specificity(keys, u.schema) < Specificity(keys, t.schema)
  }

  /** A mapping's keys are distinct. */
  ghost predicate DistinctNames(tools: seq<Tool>) {
    forall i, j :: 0 <= i < j < |tools| ==> tools[i].name != tools[j].name
  }

  /** What `best` says after a prefix of the loop. */
  ghost predicate BestSoFar(keys: set<string>, tools: seq<Tool>, best: Option<(nat, string)>) {
    match best
    case None => forall u :: u in tools ==> !Eligible(keys, u.schema)
    case Some((most, name)) =>
      && (exists u :: u in tools && Eligible(keys, u.schema) && Specificity(keys, u.schema) == most)
      && (forall u :: u in tools && Eligible(keys, u.schema) ==> Specificity(keys, u.schema) <= most)
      && (name != "" ==> exists t :: BestOf(keys, tools, t) && t.name == name)
      && (name == "" ==> forall t :: BestOf(keys, tools, t) ==> t.name == "")
  }

  lemma BestIsUnique(keys: set<string>, tools: seq<Tool>, t: Tool, u: Tool)
    requires BestOf(keys, tools, t) && BestOf(keys, tools, u)
    ensures t == u
  {
  }

  /** The non-empty name of the best tool, or nothing. */
  ghost predicate IsAnswer(keys: set<string>, tools: seq<Tool>, name: Option<string>) {
    if keys != {} && exists t :: BestOf(keys, tools, t) && t.name != ""
    then name.Some? && exists t :: BestOf(keys, tools, t) && t.name == name.value
    else name.None?
  }

  /** The answer is determined by which tools there are, whatever their order. */
  lemma AnswerIgnoresOrder(keys: set<string>, tools: seq<Tool>, others: seq<Tool>, a: Option<string>, b: Option<string>)
    requires forall u :: u in tools <==> u in others
    requires IsAnswer(keys, tools, a) && IsAnswer(keys, others, b)
    ensures a == b
  {
    forall t ensures BestOf(keys, tools, t) <==> BestOf(keys, others, t) { }
    forall t, u | BestOf(keys, tools, t) && BestOf(keys, tools, u) ensures t == u { BestIsUnique(keys, tools, t, u); }
  }

  lemma SkipTool(keys: set<string>, tools: seq<Tool>, tool: Tool, best: Option<(nat, string)>)
    requires BestSoFar(keys, tools, best) && !Eligible(keys, tool.schema)
    ensures BestSoFar(keys, tools + [tool], best)
  {
    forall t ensures BestOf(keys, tools + [tool], t) <==> BestOf(keys, tools, t) { }
  }

  lemma WeakerTool(keys: set<string>, tools: seq<Tool>, tool: Tool, best: Option<(nat, string)>)
    requires BestSoFar(keys, tools, best) && best.Some? && Eligible(keys, tool.schema)
    requires Specificity(keys, tool.schema) < best.value.0
    ensures BestSoFar(keys, tools + [tool], best)
  {
    var more := tools + [tool];
    forall t ensures BestOf(keys, more, t) <==> BestOf(keys, tools, t) {
      if BestOf(keys, tools, t) {
        assert Specificity(keys, t.schema) == best.value.0;
      }
      if BestOf(keys, more, t) {
        var u :| u in tools && Eligible(keys, u.schema) && Specificity(keys, u.schema) == best.value.0;
        assert u in more;
      }
    }
  }

  lemma StrongerTool(keys: set<string>, tools: seq<Tool>, tool: Tool, best: Option<(nat, string)>)
    requires BestSoFar(keys, tools, best) && Eligible(keys, tool.schema)
    requires best.Some? ==> Specificity(keys, tool.schema) > best.value.0
    ensures BestSoFar(keys, tools + [tool], Some((Specificity(keys, tool.schema), tool.name)))
  {
    var more := tools + [tool];
    assert BestOf(keys, more, tool);
    forall t | BestOf(keys, more, t) ensures t == tool { BestIsUnique(keys, more, t, tool); }
  }

  lemma TiedTool(keys: set<string>, tools: seq<Tool>, tool: Tool, best: Option<(nat, string)>)
    requires BestSoFar(keys, tools, best) && best.Some? && Eligible(keys, tool.schema) && tool !in tools
    requires Specificity(keys, tool.schema) == best.value.0
    ensures BestSoFar(keys, tools + [tool], Some((best.value.0, "")))
  {
    var more := tools + [tool];
    var u :| u in tools && Eligible(keys, u.schema) && Specificity(keys, u.schema) == best.value.0;
    assert u in more && tool in more && u != tool;
    forall t ensures !BestOf(keys, more, t) {
      assert t == u || t != u;
    }
  }

  /**
   `_match_to_schema`: the non-empty name of the one eligible schema of strictly
   greatest specificity, and nothing otherwise.
   */
  method MatchToSchema(keys: set<string>, tools: seq<Tool>) returns (name: Option<string>)
    requires DistinctNames(tools)
    ensures IsAnswer(keys, tools, name)
  {
    if keys == {} {
      return None;
    }
    var best: Option<(nat, string)> := None;
    for i := 0 to |tools|
      invariant BestSoFar(keys, tools[..i], best)
    {
      assert tools[..i + 1] == tools[..i] + [tools[i]];
      assert tools[i] !in tools[..i];
      var tool := tools[i];
      var schema := tool.schema;
      if !Eligible(keys, schema) {
        SkipTool(keys, tools[..i], tool, best);
        continue;
      }
      var specificity := Specificity(keys, schema);
      if best.None? || specificity > best.value.0 {
        StrongerTool(keys, tools[..i], tool, best);
        best := Some((specificity, tool.name));
      } else if specificity == best.value.0 {
        TiedTool(keys, tools[..i], tool, best);
        best := Some((specificity, ""));
      } else {
        WeakerTool(keys, tools[..i], tool, best);
      }
    }
    assert tools[..|tools|] == tools;
    if best.None? || best.value.1 == "" {
      return None;
    }
    name := Some(best.value.1);
  }
}
