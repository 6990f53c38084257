/**
 Collapsing a streamed chat completion into one response
 (`_consume_sse` in oxenclaw/agents/local_agent.py).
 */
module SseAssembly {
  import opened Wrappers
  import Seqs

  /** One entry of `delta.tool_calls`; an absent or falsy field is `""`. */
  datatype CallDelta = CallDelta(index: int, id: string, kind: string, name: string, arguments: string)

  /** One decoded event; `usage` when it is a dictionary, `content` when it is a string. */
  datatype Chunk = Chunk(usage: Option<int>, hasChoice: bool, finish: string, content: Option<string>, calls: seq<CallDelta>)

  /** A line of the response: not data, data that is not JSON, `[DONE]`, or an event. */
  datatype Line = NotData | BadJson | DoneMark | Data(chunk: Chunk)

  datatype Slot = Slot(id: string, kind: string, name: string, arguments: string)

  /** The envelope: the message's content and tool calls, the finish reason and the usage. */
  datatype Envelope = Envelope(content: Option<string>, calls: Option<seq<Slot>>, finish: string, usage: Option<int>)

  const EMPTY_SLOT := Slot("", "function", "", "")

  // ---- what the stream carries ---------------------------------------------

  /** The events up to the end mark. */
  function Chunks(lines: seq<Line>): seq<Chunk> {
    if lines == [] || lines[0].DoneMark? then []
    else (if lines[0].Data? then [lines[0].chunk] else []) + Chunks(lines[1..])
  }

  /** The content text of the events. */
  function ContentOf(chunks: seq<Chunk>): string {
    if chunks == [] then "" else
    var c := chunks[|chunks| - 1];
    ContentOf(chunks[..|chunks| - 1]) + (if c.hasChoice && c.content.Some? then c.content.value else "")
  }

  /** The tool-call deltas of the events. */
  function DeltasOf(chunks: seq<Chunk>): seq<CallDelta> {
    if chunks == [] then [] else
    var c := chunks[|chunks| - 1];
    DeltasOf(chunks[..|chunks| - 1]) + (if c.hasChoice then c.calls else [])
  }

  /** The last finish reason given, or `""`. */
  function FinishOf(chunks: seq<Chunk>): string {
    if chunks == [] then "" else
    var c := chunks[|chunks| - 1];
    if c.hasChoice && c.finish != "" then c.finish else FinishOf(chunks[..|chunks| - 1])
  }

  function UsageOf(chunks: seq<Chunk>): Option<int> {
    if chunks == [] then None else
    var c := chunks[|chunks| - 1];
    if c.usage.Some? then c.usage else UsageOf(chunks[..|chunks| - 1])
  }

  /** The deltas of one index, in stream order. */
  function OfIndex(deltas: seq<CallDelta>, i: int): seq<CallDelta> {
    if deltas == [] then [] else
    var d := deltas[|deltas| - 1];
    OfIndex(deltas[..|deltas| - 1], i) + (if d.index == i then [d] else [])
  }

  /** A slot with one more delta taken in: later ids and types win, names and arguments grow. */
  function Grown(s: Slot, d: CallDelta): Slot {
    Slot(if d.id != "" then d.id else s.id, if d.kind != "" then d.kind else s.kind,
         s.name + d.name, s.arguments + d.arguments)
  }

  /** What a list of deltas for one call amounts to. */
  function SlotOf(deltas: seq<CallDelta>): Slot {
    if deltas == [] then EMPTY_SLOT else Grown(SlotOf(deltas[..|deltas| - 1]), deltas[|deltas| - 1])
  }

  /** `sorted` on distinct indices. */
  function Insert(order: seq<int>, i: int): seq<int> {
    if order == [] then [i]
    else if i == order[0] then order
    else if i < order[0] then [i] + order
    else [order[0]] + Insert(order[1..], i)
  }

  function Sorted(ids: seq<int>): seq<int> {
    if ids == [] then [] else Insert(Sorted(ids[..|ids| - 1]), ids[|ids| - 1])
  }

  function Indices(deltas: seq<CallDelta>): seq<int> {
    if deltas == [] then [] else Indices(deltas[..|deltas| - 1]) + [deltas[|deltas| - 1].index]
  }

  /** One slot per index, built from that index's own deltas. */
  function SlotsFor(order: seq<int>, deltas: seq<CallDelta>): seq<Slot> {
    if order == [] then [] else [SlotOf(OfIndex(deltas, order[0]))] + SlotsFor(order[1..], deltas)
  }

  function Calls(deltas: seq<CallDelta>): seq<Slot> { SlotsFor(Sorted(Indices(deltas)), deltas) }

  /** The response that a stream of events stands for. */
  function Assembled(chunks: seq<Chunk>): Envelope {
    var content, deltas, finish := ContentOf(chunks), DeltasOf(chunks), FinishOf(chunks);
    Envelope(if content == "" then None else Some(content),
             if deltas == [] then None else Some(Calls(deltas)),
             if finish != "" then finish else if deltas != [] then "tool_calls" else "stop",
             UsageOf(chunks))
  }

  // ---- index order ---------------------------------------------------------

  ghost predicate StrictlyIncreasing(s: seq<int>) { forall i, j :: 0 <= i < j < |s| ==> s[i] < s[j] }

  lemma IncreasingCons(x: int, rest: seq<int>)
    requires StrictlyIncreasing(rest) && forall y :: y in rest ==> x < y
    ensures StrictlyIncreasing([x] + rest)
    ensures forall y :: y in [x] + rest <==> y == x || y in rest
  {
    var all := [x] + rest;
    forall j | 1 <= j < |all| ensures all[j] == rest[j - 1] && x < all[j] { assert rest[j - 1] in rest; }
  }

  lemma IncreasingTail(s: seq<int>)
    requires StrictlyIncreasing(s) && s != []
    ensures StrictlyIncreasing(s[1..]) && forall y :: y in s[1..] ==> s[0] < y
    ensures forall y :: y in s <==> y == s[0] || y in s[1..]
  {
    assert s == [s[0]] + s[1..];
  }

  lemma {:induction false} InsertMeaning(order: seq<int>, i: int)
    requires StrictlyIncreasing(order)
    ensures StrictlyIncreasing(Insert(order, i))
    ensures forall x :: x in Insert(order, i) <==> x == i || x in order
  {
    if order != [] {
      IncreasingTail(order);
      if i < order[0] {
        IncreasingCons(i, order);
      } else if i > order[0] {
        InsertMeaning(order[1..], i);
        IncreasingCons(order[0], Insert(order[1..], i));
      }
    }
  }

  lemma {:induction false} SortedMeaning(ids: seq<int>)
    ensures StrictlyIncreasing(Sorted(ids))
    ensures forall x :: x in Sorted(ids) <==> x in ids
  {
    if ids != [] {
      SortedMeaning(ids[..|ids| - 1]);
      InsertMeaning(Sorted(ids[..|ids| - 1]), ids[|ids| - 1]);
      assert ids == ids[..|ids| - 1] + [ids[|ids| - 1]];
    }
  }

  /** A strictly increasing list is determined by its elements. */
  lemma {:induction false} SortedUnique(a: seq<int>, b: seq<int>)
    requires StrictlyIncreasing(a) && StrictlyIncreasing(b)
    requires forall x :: x in a <==> x in b
    ensures a == b
    decreases |a|
  {
    if a == [] {
      Seqs.HeadIn(b);
    } else {
      Seqs.HeadIn(a);
      Seqs.HeadIn(b);
      FirstIsLeast(a, b);
      FirstIsLeast(b, a);
      assert a == [a[0]] + a[1..] && b == [b[0]] + b[1..];
      NotInTail(a);
      NotInTail(b);
      SortedUnique(a[1..], b[1..]);
    }
  }

  lemma FirstIsLeast(a: seq<int>, b: seq<int>)
    requires StrictlyIncreasing(a) && a != [] && b != [] && b[0] in a
    ensures a[0] <= b[0]
  {
    var i :| 0 <= i < |a| && a[i] == b[0];
  }

  lemma NotInTail(a: seq<int>)
    requires StrictlyIncreasing(a) && a != []
    ensures StrictlyIncreasing(a[1..]) && forall x :: x in a[1..] <==> x in a && x != a[0]
  {
    assert a == [a[0]] + a[1..];
    forall k | 0 <= k < |a[1..]| ensures a[1..][k] != a[0] { assert a[1..][k] == a[k + 1]; }
  }

  // ---- what the result depends on ------------------------------------------

  lemma {:induction false} OfIndexConcat(a: seq<CallDelta>, b: seq<CallDelta>, i: int)
    ensures OfIndex(a + b, i) == OfIndex(a, i) + OfIndex(b, i)
  {
    if b == [] {
      Seqs.AppendNothing(a);
      Seqs.AppendNothing(OfIndex(a, i));
    } else {
      OfIndexConcat(a, b[..|b| - 1], i);
      assert (a + b)[..|a + b| - 1] == a + b[..|b| - 1];
      Seqs.Regroup(OfIndex(a, i), OfIndex(b[..|b| - 1], i), if b[|b| - 1].index == i then [b[|b| - 1]] else []);
    }
  }

  lemma {:induction false} IndicesMeaning(deltas: seq<CallDelta>, i: int)
    ensures i in Indices(deltas) <==> OfIndex(deltas, i) != []
  {
    if deltas != [] { IndicesMeaning(deltas[..|deltas| - 1], i); }
  }

  lemma {:induction false} SlotsDepend(order: seq<int>, a: seq<CallDelta>, b: seq<CallDelta>)
    requires forall i :: SlotOf(OfIndex(a, i)) == SlotOf(OfIndex(b, i))
    ensures SlotsFor(order, a) == SlotsFor(order, b)
  {
    if order != [] { SlotsDepend(order[1..], a, b); }
  }

  /** Two delta lists with the same indices and, index by index, the same amounts give the same calls. */
  lemma CallsDepend(a: seq<CallDelta>, b: seq<CallDelta>)
    requires forall i :: SlotOf(OfIndex(a, i)) == SlotOf(OfIndex(b, i))
    requires forall i :: OfIndex(a, i) == [] <==> OfIndex(b, i) == []
    ensures Calls(a) == Calls(b) && (a == [] <==> b == [])
  {
    SortedMeaning(Indices(a));
    SortedMeaning(Indices(b));
    forall i ensures i in Indices(a) <==> i in Indices(b) {
      IndicesMeaning(a, i);
      IndicesMeaning(b, i);
    }
    SortedUnique(Sorted(Indices(a)), Sorted(Indices(b)));
    SlotsDepend(Sorted(Indices(a)), a, b);
    EmptyByIndex(a);
    EmptyByIndex(b);
  }

  lemma EmptyByIndex(deltas: seq<CallDelta>)
    ensures deltas == [] <==> forall i :: OfIndex(deltas, i) == []
  {
    if deltas != [] {
      var last := deltas[|deltas| - 1];
      assert OfIndex(deltas, last.index) == OfIndex(deltas[..|deltas| - 1], last.index) + [last];
      assert OfIndex(deltas, last.index) != [];
    }
  }

  /**
   The response depends only on the content text, the last finish reason, the last
   usage, and each index's own deltas; how they interleave does not matter.
   */
  lemma DependsOnlyOnParts(a: seq<Chunk>, b: seq<Chunk>)
    requires ContentOf(a) == ContentOf(b) && FinishOf(a) == FinishOf(b) && UsageOf(a) == UsageOf(b)
    requires forall i :: OfIndex(DeltasOf(a), i) == OfIndex(DeltasOf(b), i)
    ensures Assembled(a) == Assembled(b)
  {
    CallsDepend(DeltasOf(a), DeltasOf(b));
  }

  /** The two streams agree but for their tool-call deltas. */
  ghost predicate AgreeBesides(a: seq<Chunk>, b: seq<Chunk>) {
    ContentOf(a) == ContentOf(b) && FinishOf(a) == FinishOf(b) && UsageOf(a) == UsageOf(b)
  }

  /**
   Swapping two neighbouring deltas of different indices, inside an event or across
   events, leaves the response unchanged.
   */
  lemma SwapDeltas(a: seq<Chunk>, b: seq<Chunk>, before: seq<CallDelta>, x: CallDelta, y: CallDelta, after: seq<CallDelta>)
    requires AgreeBesides(a, b) && x.index != y.index
    requires DeltasOf(a) == before + [x, y] + after && DeltasOf(b) == before + [y, x] + after
    ensures Assembled(a) == Assembled(b)
  {
    var da, db := DeltasOf(a), DeltasOf(b);
    forall i ensures OfIndex(da, i) == OfIndex(db, i) {
      SwapAtIndex(before, x, y, after, i);
    }
    CallsDepend(da, db);
  }

  lemma AroundPair(before: seq<CallDelta>, x: CallDelta, y: CallDelta, after: seq<CallDelta>, i: int)
    ensures OfIndex(before + [x, y] + after, i) ==
            OfIndex(before, i) + ((if x.index == i then [x] else []) + (if y.index == i then [y] else [])) + OfIndex(after, i)
  {
    OfIndexConcat(before + [x, y], after, i);
    OfIndexConcat(before, [x, y], i);
    PairOfIndex(x, y, i);
  }

  lemma SwapAtIndex(before: seq<CallDelta>, x: CallDelta, y: CallDelta, after: seq<CallDelta>, i: int)
    requires x.index != y.index
    ensures OfIndex(before + [x, y] + after, i) == OfIndex(before + [y, x] + after, i)
  {
    AroundPair(before, x, y, after, i);
    AroundPair(before, y, x, after, i);
  }

  lemma PairOfIndex(x: CallDelta, y: CallDelta, i: int)
    ensures OfIndex([x, y], i) == (if x.index == i then [x] else []) + (if y.index == i then [y] else [])
  {
    OfIndexConcat([x], [y], i);
    assert [x] + [y] == [x, y] && [x][..0] == [] && [y][..0] == [];
  }

  /** The first part of a delta cut in two, which keeps the id and the type. */
  function Head(d: CallDelta, n: nat, m: nat): CallDelta
    requires n <= |d.name| && m <= |d.arguments|
  {
    d.(name := d.name[..n], arguments := d.arguments[..m])
  }

  function Tail(d: CallDelta, n: nat, m: nat): CallDelta
    requires n <= |d.name| && m <= |d.arguments|
  {
    CallDelta(d.index, "", "", d.name[n..], d.arguments[m..])
  }

  lemma {:induction false} SlotConcat(a: seq<CallDelta>, b: seq<CallDelta>, c: seq<CallDelta>)
    requires SlotOf(a) == SlotOf(b)
    ensures SlotOf(a + c) == SlotOf(b + c)
  {
    if c == [] {
      Seqs.AppendNothing(a);
      Seqs.AppendNothing(b);
    } else {
      SlotConcat(a, b, c[..|c| - 1]);
      assert (a + c)[..|a + c| - 1] == a + c[..|c| - 1];
      assert (b + c)[..|b + c| - 1] == b + c[..|c| - 1];
    }
  }

  lemma SplitSlot(deltas: seq<CallDelta>, d: CallDelta, n: nat, m: nat)
    requires n <= |d.name| && m <= |d.arguments|
    ensures SlotOf(deltas + [d]) == SlotOf(deltas + [Head(d, n, m), Tail(d, n, m)])
  {
    var h, t := Head(d, n, m), Tail(d, n, m);
    assert (deltas + [d])[..|deltas|] == deltas;
    assert (deltas + [h, t])[..|deltas| + 1] == deltas + [h];
    assert (deltas + [h])[..|deltas|] == deltas;
    var s := SlotOf(deltas);
    assert d.name == d.name[..n] + d.name[n..] && d.arguments == d.arguments[..m] + d.arguments[m..];
    Seqs.Regroup(s.name, d.name[..n], d.name[n..]);
    Seqs.Regroup(s.arguments, d.arguments[..m], d.arguments[m..]);
  }

  /**
   Cutting a delta's name and argument fragments anywhere, whether the second part
   stays in the event or comes in a later one, leaves the response unchanged.
   */
  lemma SplitDelta(
    a: seq<Chunk>, b: seq<Chunk>, before: seq<CallDelta>, d: CallDelta, n: nat, m: nat, after: seq<CallDelta>)
    requires n <= |d.name| && m <= |d.arguments| && AgreeBesides(a, b)
    requires DeltasOf(a) == before + [d] + after
    requires DeltasOf(b) == before + [Head(d, n, m), Tail(d, n, m)] + after
    ensures Assembled(a) == Assembled(b)
  {
    var da, db := DeltasOf(a), DeltasOf(b);
    forall i ensures SlotOf(OfIndex(da, i)) == SlotOf(OfIndex(db, i)) && (OfIndex(da, i) == [] <==> OfIndex(db, i) == []) {
      SplitAtIndex(before, d, n, m, after, i);
    }
    CallsDepend(da, db);
  }

  /** An event whose deltas are cut inside one of them, the rest coming in an event of its own. */
  lemma SplitEvent(
    before: seq<Chunk>, c: Chunk, pre: seq<CallDelta>, d: CallDelta, post: seq<CallDelta>, n: nat, m: nat, after: seq<Chunk>)
    requires c.hasChoice && c.calls == pre + [d] + post && n <= |d.name| && m <= |d.arguments|
    ensures var first := c.(calls := pre + [Head(d, n, m)]);
            var second := Chunk(None, true, "", None, [Tail(d, n, m)] + post);
            Assembled(before + [c] + after) == Assembled(before + [first, second] + after)
  {
    var first := c.(calls := pre + [Head(d, n, m)]);
    var second := Chunk(None, true, "", None, [Tail(d, n, m)] + post);
    var a, b := before + [c], before + [first, second];
    CutEvent(before, c, first, second);
    AgreeAfter(a, b, after);
    DeltasConcat(a, after);
    DeltasConcat(b, after);
    CutDeltas(DeltasOf(before), pre, d, post, Head(d, n, m), Tail(d, n, m), DeltasOf(after));
    SplitDelta(a + after, b + after, DeltasOf(before) + pre, d, n, m, post + DeltasOf(after));
  }

  /** Moving deltas of an event into one of their own touches no other part. */
  lemma CutEvent(before: seq<Chunk>, c: Chunk, first: Chunk, second: Chunk)
    requires c.hasChoice && first == c.(calls := first.calls) && second == Chunk(None, true, "", None, second.calls)
    ensures var a, b := before + [c], before + [first, second];
            && ContentOf(a) == ContentOf(b) && FinishOf(a) == FinishOf(b) && UsageOf(a) == UsageOf(b)
            && DeltasOf(a) == DeltasOf(before) + c.calls
            && DeltasOf(b) == (DeltasOf(before) + first.calls) + second.calls
  {
    OneMoreChunk(before, c);
    OneMoreChunk(before, first);
    OneMoreChunk(before + [first], second);
    assert before + [first, second] == (before + [first]) + [second];
    Seqs.AppendNothing(ContentOf(before + [first]));
  }

  lemma CutDeltas(
    x: seq<CallDelta>, pre: seq<CallDelta>, d: CallDelta, post: seq<CallDelta>, h: CallDelta, t: CallDelta, y: seq<CallDelta>)
    ensures x + (pre + [d] + post) + y == (x + pre) + [d] + (post + y)
    ensures (x + (pre + [h])) + ([t] + post) + y == (x + pre) + [h, t] + (post + y)
  {
  }

  lemma {:induction false} AgreeAfter(a: seq<Chunk>, b: seq<Chunk>, after: seq<Chunk>)
    requires AgreeBesides(a, b)
    ensures AgreeBesides(a + after, b + after)
  {
    if after == [] {
      Seqs.AppendNothing(a);
      Seqs.AppendNothing(b);
    } else {
      var front, last := after[..|after| - 1], after[|after| - 1];
      AgreeAfter(a, b, front);
      OneMoreChunk(a + front, last);
      OneMoreChunk(b + front, last);
      Seqs.SnocConcat(a, after);
      Seqs.SnocConcat(b, after);
    }
  }

  lemma {:induction false} DeltasConcat(a: seq<Chunk>, b: seq<Chunk>)
    ensures DeltasOf(a + b) == DeltasOf(a) + DeltasOf(b)
  {
    if b == [] {
      Seqs.AppendNothing(a);
      Seqs.AppendNothing(DeltasOf(a));
    } else {
      var front, last := b[..|b| - 1], b[|b| - 1];
      DeltasConcat(a, front);
      OneMoreChunk(a + front, last);
      Seqs.SnocConcat(a, b);
      Seqs.AppendNothing(DeltasOf(front));
      Seqs.Regroup(DeltasOf(a), DeltasOf(front), if last.hasChoice then last.calls else []);
    }
  }

  lemma SplitAtIndex(before: seq<CallDelta>, d: CallDelta, n: nat, m: nat, after: seq<CallDelta>, i: int)
    requires n <= |d.name| && m <= |d.arguments|
    ensures var a, b := before + [d] + after, before + [Head(d, n, m), Tail(d, n, m)] + after;
            SlotOf(OfIndex(a, i)) == SlotOf(OfIndex(b, i)) && (OfIndex(a, i) == [] <==> OfIndex(b, i) == [])
  {
    var h, t := Head(d, n, m), Tail(d, n, m);
    OfIndexConcat(before + [d], after, i);
    OfIndexConcat(before, [d], i);
    assert [d][..0] == [];
    OfIndexConcat(before + [h, t], after, i);
    OfIndexConcat(before, [h, t], i);
    PairOfIndex(h, t, i);
    var own := OfIndex(before, i);
    if d.index == i {
      SplitSlot(own, d, n, m);
      assert [h] + [t] == [h, t];
      SlotConcat(own + [d], own + [h, t], OfIndex(after, i));
    }
  }

  /** An event cut in two: the first keeps everything but the end of its content. */
  lemma SplitContent(before: seq<Chunk>, c: Chunk, n: nat, after: seq<Chunk>)
    requires c.hasChoice && c.content.Some? && n <= |c.content.value|
    ensures var first := c.(content := Some(c.content.value[..n]));
            var second := Chunk(None, true, "", Some(c.content.value[n..]), []);
            Assembled(before + [c] + after) == Assembled(before + [first, second] + after)
  {
    var first := c.(content := Some(c.content.value[..n]));
    var second := Chunk(None, true, "", Some(c.content.value[n..]), []);
    SplitContentParts(before, c, first, second);
    SameAfter(before + [c], before + [first, second], after);
    DependsOnlyOnParts(before + [c] + after, before + [first, second] + after);
  }

  lemma SplitContentParts(before: seq<Chunk>, c: Chunk, first: Chunk, second: Chunk)
    requires c.hasChoice && c.content.Some? && first.content.Some? && second.content.Some?
    requires first == c.(content := first.content) && second == Chunk(None, true, "", second.content, [])
    requires c.content.value == first.content.value + second.content.value
    ensures var a, b := before + [c], before + [first, second];
            && ContentOf(a) == ContentOf(b) && FinishOf(a) == FinishOf(b)
            && UsageOf(a) == UsageOf(b) && DeltasOf(a) == DeltasOf(b)
  {
    assert (before + [c])[..|before|] == before;
    assert (before + [first, second])[..|before| + 1] == before + [first];
    assert (before + [first])[..|before|] == before;
    Seqs.Regroup(ContentOf(before), first.content.value, second.content.value);
    Seqs.AppendNothing(DeltasOf(before + [first]));
  }

  lemma SameMore(a: seq<Chunk>, b: seq<Chunk>, c: Chunk)
    requires ContentOf(a) == ContentOf(b) && FinishOf(a) == FinishOf(b)
    requires UsageOf(a) == UsageOf(b) && DeltasOf(a) == DeltasOf(b)
    ensures ContentOf(a + [c]) == ContentOf(b + [c]) && FinishOf(a + [c]) == FinishOf(b + [c])
    ensures UsageOf(a + [c]) == UsageOf(b + [c]) && DeltasOf(a + [c]) == DeltasOf(b + [c])
  {
    OneMoreChunk(a, c);
    OneMoreChunk(b, c);
  }

  lemma {:induction false} SameAfter(a: seq<Chunk>, b: seq<Chunk>, after: seq<Chunk>)
    requires ContentOf(a) == ContentOf(b) && FinishOf(a) == FinishOf(b)
    requires UsageOf(a) == UsageOf(b) && DeltasOf(a) == DeltasOf(b)
    ensures ContentOf(a + after) == ContentOf(b + after) && FinishOf(a + after) == FinishOf(b + after)
    ensures UsageOf(a + after) == UsageOf(b + after) && DeltasOf(a + after) == DeltasOf(b + after)
  {
    if after == [] {
      Seqs.AppendNothing(a);
      Seqs.AppendNothing(b);
    } else {
      var front := after[..|after| - 1];
      SameAfter(a, b, front);
      SameMore(a + front, b + front, after[|after| - 1]);
      Seqs.SnocConcat(a, after);
      Seqs.SnocConcat(b, after);
    }
  }

  /** The tool calls come out in strictly increasing index order, one per index, each with all its fragments. */
  lemma CallsInOrder(deltas: seq<CallDelta>)
    ensures var order := Sorted(Indices(deltas));
            && StrictlyIncreasing(order) && |Calls(deltas)| == |order|
            && (forall i :: i in order <==> OfIndex(deltas, i) != [])
            && (forall k :: 0 <= k < |order| ==> Calls(deltas)[k] == SlotOf(OfIndex(deltas, order[k])))
  {
    SortedMeaning(Indices(deltas));
    forall i ensures i in Indices(deltas) <==> OfIndex(deltas, i) != [] { IndicesMeaning(deltas, i); }
    SlotsAt(Sorted(Indices(deltas)), deltas);
  }

  lemma {:induction false} SlotsAt(order: seq<int>, deltas: seq<CallDelta>)
    ensures |SlotsFor(order, deltas)| == |order|
    ensures forall k :: 0 <= k < |order| ==> SlotsFor(order, deltas)[k] == SlotOf(OfIndex(deltas, order[k]))
  {
    if order != [] {
      SlotsAt(order[1..], deltas);
      forall k | 0 <= k < |order| ensures SlotsFor(order, deltas)[k] == SlotOf(OfIndex(deltas, order[k])) {
        if k > 0 { assert order[k] == order[1..][k - 1]; }
      }
    }
  }

  function Fragments(deltas: seq<CallDelta>): string {
    if deltas == [] then "" else Fragments(deltas[..|deltas| - 1]) + deltas[|deltas| - 1].arguments
  }

  lemma {:induction false} ArgumentsAreFragments(deltas: seq<CallDelta>)
    ensures SlotOf(deltas).arguments == Fragments(deltas)
  {
    if deltas != [] { ArgumentsAreFragments(deltas[..|deltas| - 1]); }
  }

  // ---- the loop ------------------------------------------------------------

  /** The slot of index `i` says what the deltas seen say. */
  ghost predicate HoldsAt(slots: map<int, Slot>, deltas: seq<CallDelta>, i: int) {
    && (i in slots <==> OfIndex(deltas, i) != [])
    && (i in slots ==> slots[i] == SlotOf(OfIndex(deltas, i)))
  }

  /** `tool_buf` after the given deltas: its keys in insertion order, and each key's slot. */
  ghost predicate Holds(order: seq<int>, slots: map<int, Slot>, deltas: seq<CallDelta>) {
    && (forall i :: i in order <==> i in slots)
    && (forall i :: HoldsAt(slots, deltas, i))
  }

  lemma OneMore(deltas: seq<CallDelta>, d: CallDelta, i: int)
    ensures OfIndex(deltas + [d], i) == if d.index == i then OfIndex(deltas, i) + [d] else OfIndex(deltas, i)
    ensures SlotOf(OfIndex(deltas, i) + [d]) == Grown(SlotOf(OfIndex(deltas, i)), d)
  {
    assert (deltas + [d])[..|deltas|] == deltas;
    assert (OfIndex(deltas, i) + [d])[..|OfIndex(deltas, i)|] == OfIndex(deltas, i);
    Seqs.AppendNothing(OfIndex(deltas, i));
  }

  lemma TakeInAt(slots: map<int, Slot>, deltas: seq<CallDelta>, d: CallDelta, i: int)
    requires HoldsAt(slots, deltas, i)
    ensures HoldsAt(slots[d.index := Grown(if d.index in slots then slots[d.index] else EMPTY_SLOT, d)], deltas + [d], i)
  {
    OneMore(deltas, d, i);
    if i !in slots { assert SlotOf(OfIndex(deltas, i)) == EMPTY_SLOT; }
  }

  lemma TakeIn(order: seq<int>, slots: map<int, Slot>, deltas: seq<CallDelta>, d: CallDelta)
    requires Holds(order, slots, deltas)
    ensures Holds(if d.index in slots then order else order + [d.index],
                  slots[d.index := Grown(if d.index in slots then slots[d.index] else EMPTY_SLOT, d)], deltas + [d])
  {
    var slots' := slots[d.index := Grown(if d.index in slots then slots[d.index] else EMPTY_SLOT, d)];
    forall i ensures HoldsAt(slots', deltas + [d], i) {
      TakeInAt(slots, deltas, d, i);
    }
  }

  lemma EmptyBuffer(order: seq<int>, slots: map<int, Slot>, deltas: seq<CallDelta>)
    requires Holds(order, slots, deltas)
    ensures slots == map[] <==> deltas == []
  {
    if deltas == [] {
      forall i ensures i !in slots { assert HoldsAt(slots, deltas, i); }
    } else {
      assert HoldsAt(slots, deltas, deltas[|deltas| - 1].index);
    }
  }

  /** What one more event adds to each part. */
  lemma OneMoreChunk(seen: seq<Chunk>, c: Chunk)
    ensures ContentOf(seen + [c]) == ContentOf(seen) + (if c.hasChoice && c.content.Some? then c.content.value else "")
    ensures FinishOf(seen + [c]) == if c.hasChoice && c.finish != "" then c.finish else FinishOf(seen)
    ensures UsageOf(seen + [c]) == if c.usage.Some? then c.usage else UsageOf(seen)
    ensures DeltasOf(seen + [c]) == if c.hasChoice then DeltasOf(seen) + c.calls else DeltasOf(seen)
  {
    assert (seen + [c])[..|seen|] == seen;
    Seqs.AppendNothing(DeltasOf(seen));
    Seqs.AppendNothing(ContentOf(seen));
  }

  /** The events of the lines read and still to read. */
  lemma ChunksStep(seen: seq<Chunk>, lines: seq<Line>, i: nat)
    requires i < |lines| && !lines[i].DoneMark?
    ensures seen + Chunks(lines[i..]) ==
            (if lines[i].Data? then seen + [lines[i].chunk] else seen) + Chunks(lines[i + 1..])
  {
    assert lines[i..][1..] == lines[i + 1..];
    if lines[i].Data? { Seqs.Regroup(seen, [lines[i].chunk], Chunks(lines[i + 1..])); }
  }

  /** One delta taken into its slot. */
  method TakeInto(slot0: Slot, d: CallDelta) returns (slot: Slot)
    ensures slot == Grown(slot0, d)
  {
    slot := slot0;
    if d.id != "" {
      slot := slot.(id := d.id);
    }
    if d.kind != "" {
      slot := slot.(kind := d.kind);
    }
    slot := slot.(name := slot.name + d.name);
    slot := slot.(arguments := slot.arguments + d.arguments);
  }

  /** One round of the inner loop: `setdefault`, then the fields. */
  method TakeCall(d: CallDelta, ghost seen: seq<CallDelta>, order0: seq<int>, slots0: map<int, Slot>)
    returns (order: seq<int>, slots: map<int, Slot>)
    requires Holds(order0, slots0, seen)
    ensures Holds(order, slots, seen + [d])
  {
    TakeIn(order0, slots0, seen, d);
    var slot := EMPTY_SLOT;
    order := order0;
    if d.index in slots0 {
      slot := slots0[d.index];
    } else {
      order := order + [d.index];
    }
    slot := TakeInto(slot, d);
    slots := slots0[d.index := slot];
  }

  method TakeCalls(calls: seq<CallDelta>, ghost deltas: seq<CallDelta>, order0: seq<int>, slots0: map<int, Slot>)
    returns (order: seq<int>, slots: map<int, Slot>)
    requires Holds(order0, slots0, deltas)
    ensures Holds(order, slots, deltas + calls)
  {
    order, slots := order0, slots0;
    ghost var seen := deltas;
    Seqs.AppendNothing(deltas);
    for j := 0 to |calls|
      invariant seen == deltas + calls[..j] && Holds(order, slots, seen)
    {
      NextDelta(deltas, calls, j);
      order, slots := TakeCall(calls[j], seen, order, slots);
      seen := seen + [calls[j]];
    }
    assert calls[..|calls|] == calls;
  }

  lemma NextDelta(deltas: seq<CallDelta>, calls: seq<CallDelta>, j: nat)
    requires j < |calls|
    ensures deltas + calls[..j + 1] == (deltas + calls[..j]) + [calls[j]]
  {
  }

  lemma SortedKeys(order: seq<int>, slots: map<int, Slot>, deltas: seq<CallDelta>)
    requires Holds(order, slots, deltas)
    ensures Sorted(order) == Sorted(Indices(deltas))
    ensures forall i :: i in Sorted(order) ==> i in slots
  {
    SortedMeaning(order);
    SortedMeaning(Indices(deltas));
    forall i ensures i in Sorted(order) <==> i in Sorted(Indices(deltas)) {
      assert HoldsAt(slots, deltas, i);
      IndicesMeaning(deltas, i);
    }
    SortedUnique(Sorted(order), Sorted(Indices(deltas)));
  }

  lemma NextSlot(sorted: seq<int>, slots: map<int, Slot>, deltas: seq<CallDelta>, k: nat)
    requires k < |sorted| && sorted[k] in slots && HoldsAt(slots, deltas, sorted[k])
    ensures SlotsFor(sorted[k..], deltas) == [slots[sorted[k]]] + SlotsFor(sorted[k + 1..], deltas)
  {
    assert sorted[k..][1..] == sorted[k + 1..];
  }

  /** `[tool_buf[i] for i in sorted(tool_buf)]` */
  method InOrder(order: seq<int>, slots: map<int, Slot>, ghost deltas: seq<CallDelta>) returns (calls: seq<Slot>)
    requires Holds(order, slots, deltas)
    ensures calls == Calls(deltas)
  {
    var sorted := Sorted(order);
    SortedKeys(order, slots, deltas);
    calls := [];
    for k := 0 to |sorted|
      invariant calls + SlotsFor(sorted[k..], deltas) == SlotsFor(sorted, deltas)
    {
      assert sorted[k] in sorted;
      assert HoldsAt(slots, deltas, sorted[k]);
      NextSlot(sorted, slots, deltas, k);
      Seqs.Regroup(calls, [slots[sorted[k]]], SlotsFor(sorted[k + 1..], deltas));
      calls := calls + [slots[sorted[k]]];
    }
    Seqs.AppendNothing(calls);
  }

  /** Everything the loop remembers about the events seen so far. */
  method ConsumeSse(lines: seq<Line>) returns (envelope: Envelope)
    ensures envelope == Assembled(Chunks(lines))
  {
    var content, finish, usage := "", "", None;
    var order: seq<int> := [];
    var slots: map<int, Slot> := map[];
    ghost var seen: seq<Chunk> := [];
    var i := 0;
    while i < |lines|
      invariant i <= |lines| && seen + Chunks(lines[i..]) == Chunks(lines)
      invariant content == ContentOf(seen) && finish == FinishOf(seen) && usage == UsageOf(seen)
      invariant Holds(order, slots, DeltasOf(seen))
    {
      var line := lines[i];
      if line.DoneMark? {
        break;
      }
      ChunksStep(seen, lines, i);
      i := i + 1;
      if !line.Data? {
        continue;
      }
      var chunk := line.chunk;
      ghost var deltas := DeltasOf(seen);
      OneMoreChunk(seen, chunk);
      seen := seen + [chunk];
      if chunk.usage.Some? {
        usage := chunk.usage;
      }
      if !chunk.hasChoice {
        continue;
      }
      if chunk.finish != "" {
        finish := chunk.finish;
      }
      if chunk.content.Some? {
        content := content + chunk.content.value;
      }
      order, slots := TakeCalls(chunk.calls, deltas, order, slots);
    }
    Seqs.AppendNothing(seen);
    var calls := InOrder(order, slots, DeltasOf(seen));
    EmptyBuffer(order, slots, DeltasOf(seen));
    envelope := Envelope(if content == "" then None else Some(content),
                         if slots == map[] then None else Some(calls),
                         if finish != "" then finish else if slots != map[] then "tool_calls" else "stop",
                         usage);
  }
}
