/**
 The two in-place rewrites of a message list that make it acceptable to a
 provider: `repair_incomplete_turn` (oxenclaw/agents/incomplete_turn.py) and
 `merge_consecutive_same_role` (oxenclaw/agents/message_merge.py).
 */
module Transcript {
  import opened Wrappers
  import opened Json
  import Seqs

  datatype UserBlock = Text(text: string) | Image(mediaType: string, data: string)

  datatype UserContent = Plain(s: string) | Blocks(blocks: seq<UserBlock>)

  datatype AssistantBlock =
    | Say(text: string)
    | ToolUse(id: string, name: string, input: Json)
    | Thinking(thought: string, signature: Option<string>)

  datatype ToolResult = ToolResult(toolUseId: string, content: UserContent, isError: bool)

  datatype Message =
    | System(content: string)
    | User(body: UserContent)
    | Assistant(blocks: seq<AssistantBlock>, stopReason: Option<string>, usage: Option<Object>)
    | ToolResults(results: seq<ToolResult>)

  const INTERRUPTED := Plain(
    "(tool execution interrupted: previous turn aborted before this tool finished. Re-emit the call if you still need the result.)")

  /** The values `f` reads off each message, in list order. */
  function FlatMap<T>(f: Message -> seq<T>, msgs: seq<Message>): seq<T> {
    if msgs == [] then [] else FlatMap(f, msgs[..|msgs| - 1]) + f(msgs[|msgs| - 1])
  }

  lemma FlatMapSnoc<T>(f: Message -> seq<T>, msgs: seq<Message>, m: Message)
    ensures FlatMap(f, msgs + [m]) == FlatMap(f, msgs) + f(m)
  {
    assert (msgs + [m])[..|msgs|] == msgs;
  }

  lemma FlatMapNext<T>(f: Message -> seq<T>, msgs: seq<Message>, i: nat)
    requires i < |msgs|
    ensures FlatMap(f, msgs[..i + 1]) == FlatMap(f, msgs[..i]) + f(msgs[i])
  {
    assert msgs[..i + 1][..i] == msgs[..i];
  }

  // ---- what the conservation laws observe ----------------------------------

  function AssistantBlocks(m: Message): seq<AssistantBlock> { if m.Assistant? then m.blocks else [] }

  function UseIds(blocks: seq<AssistantBlock>): seq<string> {
    if blocks == [] then []
    else UseIds(blocks[..|blocks| - 1]) + (if blocks[|blocks| - 1].ToolUse? then [blocks[|blocks| - 1].id] else [])
  }

  function ToolUseIds(m: Message): seq<string> { UseIds(AssistantBlocks(m)) }

  function ResultMessages(m: Message): seq<Message> { if m.ToolResults? then [m] else [] }

  function IdsOf(results: seq<ToolResult>): seq<string> {
    seq(|results|, i requires 0 <= i < |results| => results[i].toolUseId)
  }

  function AnsweredIds(m: Message): seq<string> { if m.ToolResults? then IdsOf(m.results) else [] }

  function Images(blocks: seq<UserBlock>): seq<UserBlock> {
    if blocks == [] then []
    else Images(blocks[..|blocks| - 1]) + (if blocks[|blocks| - 1].Image? then [blocks[|blocks| - 1]] else [])
  }

  /** `_user_to_blocks` */
  function UserBlocks(c: UserContent): seq<UserBlock> {
    match c
    case Plain(s) => if s == "" then [] else [Text(s)]
    case Blocks(blocks) => blocks
  }

  function UserImages(m: Message): seq<UserBlock> { if m.User? then Images(UserBlocks(m.body)) else [] }

  lemma {:induction false} UseIdsConcat(a: seq<AssistantBlock>, b: seq<AssistantBlock>)
    ensures UseIds(a + b) == UseIds(a) + UseIds(b)
  {
    if b == [] {
      assert a + b == a;
      Seqs.AppendNothing(UseIds(a));
    } else {
      UseIdsConcat(a, b[..|b| - 1]);
      assert (a + b)[..|a + b| - 1] == a + b[..|b| - 1];
      Seqs.Regroup(UseIds(a), UseIds(b[..|b| - 1]), if b[|b| - 1].ToolUse? then [b[|b| - 1].id] else []);
    }
  }

  lemma {:induction false} ImagesConcat(a: seq<UserBlock>, b: seq<UserBlock>)
    ensures Images(a + b) == Images(a) + Images(b)
  {
    if b == [] {
      assert a + b == a;
      Seqs.AppendNothing(Images(a));
    } else {
      ImagesConcat(a, b[..|b| - 1]);
      assert (a + b)[..|a + b| - 1] == a + b[..|b| - 1];
      Seqs.Regroup(Images(a), Images(b[..|b| - 1]), if b[|b| - 1].Image? then [b[|b| - 1]] else []);
    }
  }

  lemma {:induction false} NoImages(blocks: seq<UserBlock>)
    requires forall i :: 0 <= i < |blocks| ==> blocks[i].Text?
    ensures Images(blocks) == []
  {
    if blocks != [] { NoImages(blocks[..|blocks| - 1]); }
  }

  // ---- usage ---------------------------------------------------------------

  /** `isinstance(v, (int, float))`, which a bool also is. */
  predicate Numeric(v: Json) { v.Num? || v.Float? || v.NonFinite? || v.Bool? }

  /** The value of a number; none for an infinity or not a number. */
  function Amount(v: Json): Option<real>
    requires Numeric(v)
  {
    if v.NonFinite? then None else if v.Float? then Some(v.r) else Some(AsInt(v) as real)
  }

  /** What is not finite absorbs what is added to it. */
  function Plus(a: Option<real>, b: Option<real>): Option<real> {
    if a.Some? && b.Some? then Some(a.value + b.value) else None
  }

  function Add(a: Json, b: Json): (sum: Json)
    requires Numeric(a) && Numeric(b)
    ensures Numeric(sum) && Amount(sum) == Plus(Amount(a), Amount(b))
  {
    if a.NonFinite? || b.NonFinite? then NonFinite
    else if a.Float? || b.Float? then Float(Amount(a).value + Amount(b).value)
    else Num(AsInt(a) + AsInt(b))
  }

  function UsageOf(m: Message): Object { if m.Assistant? && m.usage.Some? then m.usage.value else map[] }

  /** Adding a number to an accumulated value that is not one raises `TypeError`. */
  predicate ClashOn(acc: Object, d: Object, k: string) {
    k in acc && k in d && !Numeric(acc[k]) && Numeric(d[k])
  }

  function PutKey(acc: Object, d: Object, k: string): Json
    requires k in acc || k in d
    requires !ClashOn(acc, d, k)
  {
    if k in d && Numeric(d[k]) then Add(if k in acc then acc[k] else Num(0), d[k])
    else if k in acc then acc[k]
    else d[k]
  }

  const TYPE_ERROR := "unsupported operand type(s) for +"

  /** The inner loop of `_merge_assistant` for one of the two dictionaries. */
  ghost function Accumulate(acc: Object, d: Object): Result<Object, string> {
    if exists k :: ClashOn(acc, d, k) then Err(TYPE_ERROR)
    else Ok(map k | k in acc.Keys + d.Keys :: PutKey(acc, d, k))
  }

  ghost function MergeUsage(a: Object, b: Object): Result<Option<Object>, string> {
    if a == map[] && b == map[] then Ok(None)
    else match Accumulate(map[], a)
         case Err(e) => Err(e)
         case Ok(acc) =>
           match Accumulate(acc, b)
           case Err(e) => Err(e)
           case Ok(usage) => Ok(Some(usage))
  }

  // ---- merging two messages ------------------------------------------------

  predicate AllText(blocks: seq<UserBlock>) { forall i :: 0 <= i < |blocks| ==> blocks[i].Text? }

  /** `"\n\n".join` of the non-empty texts. */
  function JoinTexts(blocks: seq<UserBlock>): string
    requires AllText(blocks)
  {
    if blocks == [] then "" else
    Glue(JoinTexts(blocks[..|blocks| - 1]), blocks[|blocks| - 1].text)
  }

  function Glue(a: string, b: string): string {
    if a == "" then b else if b == "" then a else a + "\n\n" + b
  }

  function Concatenated(a: seq<UserBlock>, b: seq<UserBlock>): seq<UserBlock> {
    if a != [] && b != [] then a + [Text("---")] + b else a + b
  }

  function MergeUser(a: UserContent, b: UserContent): UserContent {
    var blocks := Concatenated(UserBlocks(a), UserBlocks(b));
    if AllText(blocks) then Plain(JoinTexts(blocks)) else Blocks(blocks)
  }

  /** `b or a` on optional strings. */
  function Later(a: Option<string>, b: Option<string>): Option<string> {
    if b.Some? && b.value != "" then b else a
  }

  predicate SameRole(a: Message, b: Message) { (a.User? && b.User?) || (a.Assistant? && b.Assistant?) }

  ghost function Joined(a: Message, b: Message): Result<Message, string>
    requires SameRole(a, b)
  {
    if a.User? then Ok(User(MergeUser(a.body, b.body)))
    else match MergeUsage(UsageOf(a), UsageOf(b))
         case Err(e) => Err(e)
         case Ok(usage) => Ok(Assistant(a.blocks + b.blocks, Later(a.stopReason, b.stopReason), usage))
  }

  /** One round of the merge loop. */
  ghost function Attach(out: seq<Message>, msg: Message): Result<seq<Message>, string> {
    if out == [] || !SameRole(out[|out| - 1], msg) then Ok(out + [msg])
    else match Joined(out[|out| - 1], msg)
         case Err(e) => Err(e)
         case Ok(m) => Ok(out[..|out| - 1] + [m])
  }

  ghost function MergeFrom(out: seq<Message>, msgs: seq<Message>, i: nat): Result<seq<Message>, string>
    requires i <= |msgs|
    decreases |msgs| - i
  {
    if i == |msgs| then Ok(out)
    else match Attach(out, msgs[i])
         case Err(e) => Err(e)
         case Ok(out') => MergeFrom(out', msgs, i + 1)
  }

  /** The merged list, or the exception, after which the caller's list is as it was. */
  ghost function Merged(msgs: seq<Message>): Result<seq<Message>, string> { MergeFrom([], msgs, 0) }

  // ---- conservation --------------------------------------------------------

  /** Merging two messages concatenates what `f` reads off them. */
  ghost predicate Concatenates<T(!new)>(f: Message -> seq<T>) {
    forall a, b :: SameRole(a, b) && Joined(a, b).Ok? ==> f(Joined(a, b).value) == f(a) + f(b)
  }

  lemma AttachConserves<T(!new)>(f: Message -> seq<T>, out: seq<Message>, msg: Message)
    requires Concatenates(f) && Attach(out, msg).Ok?
    ensures FlatMap(f, Attach(out, msg).value) == FlatMap(f, out) + f(msg)
  {
    FlatMapSnoc(f, out, msg);
    if out != [] && SameRole(out[|out| - 1], msg) {
      var front, last := out[..|out| - 1], out[|out| - 1];
      FlatMapSnoc(f, front, Joined(last, msg).value);
      Seqs.Regroup(FlatMap(f, front), f(last), f(msg));
    }
  }

  lemma {:induction false} MergeConserves<T(!new)>(f: Message -> seq<T>, out: seq<Message>, msgs: seq<Message>, i: nat)
    requires Concatenates(f) && i <= |msgs| && MergeFrom(out, msgs, i).Ok?
    requires FlatMap(f, out) == FlatMap(f, msgs[..i])
    ensures FlatMap(f, MergeFrom(out, msgs, i).value) == FlatMap(f, msgs)
    decreases |msgs| - i
  {
    if i == |msgs| {
      assert msgs[..i] == msgs;
    } else {
      AttachConserves(f, out, msgs[i]);
      FlatMapNext(f, msgs, i);
      MergeConserves(f, Attach(out, msgs[i]).value, msgs, i + 1);
    }
  }

  lemma MergedImages(a: UserContent, b: UserContent)
    ensures Images(UserBlocks(MergeUser(a, b))) == Images(UserBlocks(a)) + Images(UserBlocks(b))
  {
    var x, y := UserBlocks(a), UserBlocks(b);
    var blocks := Concatenated(x, y);
    ImagesConcat(x, y);
    ImagesConcat(x + [Text("---")], y);
    ImagesConcat(x, [Text("---")]);
    NoImages([Text("---")]);
    Seqs.AppendNothing(Images(x));
    if AllText(blocks) {
      NoImages(blocks);
      NoImages(UserBlocks(MergeUser(a, b)));
    }
  }

  /**
   A merge that succeeds keeps the exact sequence of assistant blocks, of tool-use
   ids, of tool-result messages and of user images.
   */
  lemma MergeKeepsContent(msgs: seq<Message>)
    requires Merged(msgs).Ok?
    ensures var out := Merged(msgs).value;
            && FlatMap(AssistantBlocks, out) == FlatMap(AssistantBlocks, msgs)
            && FlatMap(ToolUseIds, out) == FlatMap(ToolUseIds, msgs)
            && FlatMap(ResultMessages, out) == FlatMap(ResultMessages, msgs)
            && FlatMap(AnsweredIds, out) == FlatMap(AnsweredIds, msgs)
            && FlatMap(UserImages, out) == FlatMap(UserImages, msgs)
  {
    assert Concatenates(AssistantBlocks);
    assert Concatenates(ToolUseIds) by {
      forall a, b | SameRole(a, b) && Joined(a, b).Ok?
        ensures ToolUseIds(Joined(a, b).value) == ToolUseIds(a) + ToolUseIds(b)
      {
        UseIdsConcat(AssistantBlocks(a), AssistantBlocks(b));
      }
    }
    assert Concatenates(ResultMessages);
    assert Concatenates(AnsweredIds);
    assert Concatenates(UserImages) by {
      forall a, b | SameRole(a, b) && Joined(a, b).Ok?
        ensures UserImages(Joined(a, b).value) == UserImages(a) + UserImages(b)
      {
        if a.User? { MergedImages(a.body, b.body); }
      }
    }
    MergeConserves(AssistantBlocks, [], msgs, 0);
    MergeConserves(ToolUseIds, [], msgs, 0);
    MergeConserves(ResultMessages, [], msgs, 0);
    MergeConserves(AnsweredIds, [], msgs, 0);
    MergeConserves(UserImages, [], msgs, 0);
  }

  /** The sum of the numbers under usage key `k`. */
  function Total(k: string, msgs: seq<Message>): Option<real> {
    if msgs == [] then Some(0.0) else Plus(Total(k, msgs[..|msgs| - 1]), UsageAmount(k, msgs[|msgs| - 1]))
  }

  function UsageAmount(k: string, m: Message): Option<real> {
    if k in UsageOf(m) && Numeric(UsageOf(m)[k]) then Amount(UsageOf(m)[k]) else Some(0.0)
  }

  lemma TotalSnoc(k: string, msgs: seq<Message>, m: Message)
    ensures Total(k, msgs + [m]) == Plus(Total(k, msgs), UsageAmount(k, m))
  {
    assert (msgs + [m])[..|msgs|] == msgs;
  }

  lemma JoinedAmount(k: string, a: Message, b: Message)
    requires a.Assistant? && b.Assistant? && Joined(a, b).Ok?
    ensures UsageAmount(k, Joined(a, b).value) == Plus(UsageAmount(k, a), UsageAmount(k, b))
  {
    var x, y := UsageOf(a), UsageOf(b);
    if x != map[] || y != map[] {
      var acc := Accumulate(map[], x).value;
      assert k in x <==> k in acc;
      assert !ClashOn(acc, y, k);
    }
  }

  /** Joining two neighbours adds their amounts. */
  lemma NeighbourAmount(k: string, last: Message, msg: Message)
    requires SameRole(last, msg) && Joined(last, msg).Ok?
    ensures UsageAmount(k, Joined(last, msg).value) == Plus(UsageAmount(k, last), UsageAmount(k, msg))
  {
    if msg.Assistant? { JoinedAmount(k, last, msg); }
  }

  lemma PlusRegroup(a: Option<real>, b: Option<real>, c: Option<real>)
    ensures Plus(a, Plus(b, c)) == Plus(Plus(a, b), c)
  {
  }

  lemma AttachKeepsTotal(k: string, out: seq<Message>, msg: Message)
    requires Attach(out, msg).Ok?
    ensures Total(k, Attach(out, msg).value) == Plus(Total(k, out), UsageAmount(k, msg))
  {
    TotalSnoc(k, out, msg);
    if out != [] && SameRole(out[|out| - 1], msg) {
      var front, last := out[..|out| - 1], out[|out| - 1];
      TotalSnoc(k, front, Joined(last, msg).value);
      NeighbourAmount(k, last, msg);
      PlusRegroup(Total(k, front), UsageAmount(k, last), UsageAmount(k, msg));
    }
  }

  lemma TotalNext(k: string, msgs: seq<Message>, i: nat)
    requires i < |msgs|
    ensures Total(k, msgs[..i + 1]) == Plus(Total(k, msgs[..i]), UsageAmount(k, msgs[i]))
  {
    assert msgs[..i + 1][..i] == msgs[..i];
  }

  lemma {:induction false} MergeKeepsTotal(k: string, out: seq<Message>, msgs: seq<Message>, i: nat)
    requires i <= |msgs| && MergeFrom(out, msgs, i).Ok? && Total(k, out) == Total(k, msgs[..i])
    ensures Total(k, MergeFrom(out, msgs, i).value) == Total(k, msgs)
    decreases |msgs| - i
  {
    if i == |msgs| {
      assert msgs[..i] == msgs;
    } else {
      TotalNext(k, msgs, i);
      AttachKeepsTotal(k, out, msgs[i]);
      MergeKeepsTotal(k, Attach(out, msgs[i]).value, msgs, i + 1);
    }
  }

  /** Every numeric usage key keeps its total over the list. */
  lemma MergeKeepsTotals(msgs: seq<Message>, k: string)
    requires Merged(msgs).Ok?
    ensures Total(k, Merged(msgs).value) == Total(k, msgs)
  {
    MergeKeepsTotal(k, [], msgs, 0);
  }

  // ---- user text -----------------------------------------------------------

  lemma GlueAssociative(a: string, b: string, c: string)
    ensures Glue(Glue(a, b), c) == Glue(a, Glue(b, c))
  {
    if a != "" && b != "" && c != "" {
      assert a + "\n\n" + b + "\n\n" + c == a + "\n\n" + (b + "\n\n" + c);
    }
  }

  lemma {:induction false} JoinConcat(a: seq<UserBlock>, b: seq<UserBlock>)
    requires AllText(a) && AllText(b)
    ensures AllText(a + b) && JoinTexts(a + b) == Glue(JoinTexts(a), JoinTexts(b))
  {
    if b == [] {
      assert a + b == a;
    } else {
      JoinConcat(a, b[..|b| - 1]);
      assert (a + b)[..|a + b| - 1] == a + b[..|b| - 1];
      GlueAssociative(JoinTexts(a), JoinTexts(b[..|b| - 1]), b[|b| - 1].text);
    }
  }

  /** Two text-only user messages keep their texts, in order, with a rule between them. */
  lemma MergedUserText(a: UserContent, b: UserContent)
    requires AllText(UserBlocks(a)) && AllText(UserBlocks(b))
    ensures var x, y := UserBlocks(a), UserBlocks(b);
            MergeUser(a, b) == Plain(if x != [] && y != [] then Glue(Glue(JoinTexts(x), "---"), JoinTexts(y))
                                     else Glue(JoinTexts(x), JoinTexts(y)))
  {
    var x, y, rule := UserBlocks(a), UserBlocks(b), [Text("---")];
    JoinConcat(x, y);
    JoinConcat(x, rule);
    JoinConcat(x + rule, y);
    assert rule[..0] == [];
    assert JoinTexts(rule) == Glue(JoinTexts([]), "---") == "---";
  }

  // ---- shape of the result -------------------------------------------------

  /** No two neighbours are both user or both assistant messages. */
  ghost predicate Alternates(msgs: seq<Message>) {
    forall i :: 0 < i < |msgs| ==> !SameRole(msgs[i - 1], msgs[i])
  }

  /** How many messages have the role of the message before them. */
  function Repeats(msgs: seq<Message>): nat {
    if |msgs| < 2 then 0
    else Repeats(msgs[..|msgs| - 1]) + (if SameRole(msgs[|msgs| - 2], msgs[|msgs| - 1]) then 1 else 0)
  }

  lemma RepeatsSnoc(msgs: seq<Message>, m: Message)
    ensures Repeats(msgs + [m]) == Repeats(msgs) + (if msgs != [] && SameRole(msgs[|msgs| - 1], m) then 1 else 0)
  {
    assert (msgs + [m])[..|msgs|] == msgs;
  }

  predicate RoleOf(a: Message, b: Message) { a.User? == b.User? && a.Assistant? == b.Assistant? }

  lemma AttachShape(out: seq<Message>, msg: Message)
    requires Alternates(out) && Attach(out, msg).Ok?
    ensures var out' := Attach(out, msg).value;
            && Alternates(out') && out' != [] && RoleOf(out'[|out'| - 1], msg)
            && |out'| == |out| + (if out != [] && SameRole(out[|out| - 1], msg) then 0 else 1)
  {
  }

  lemma RepeatsNext(msgs: seq<Message>, i: nat)
    requires i < |msgs|
    ensures Repeats(msgs[..i + 1]) == Repeats(msgs[..i]) + (if i > 0 && SameRole(msgs[i - 1], msgs[i]) then 1 else 0)
  {
    assert msgs[..i + 1] == msgs[..i] + [msgs[i]];
    RepeatsSnoc(msgs[..i], msgs[i]);
  }

  lemma {:induction false} MergeShape(out: seq<Message>, msgs: seq<Message>, i: nat)
    requires i <= |msgs| && MergeFrom(out, msgs, i).Ok? && Alternates(out)
    requires (i == 0 <==> out == []) && (i > 0 ==> RoleOf(out[|out| - 1], msgs[i - 1]))
    requires |out| + Repeats(msgs[..i]) == i
    ensures var res := MergeFrom(out, msgs, i).value;
            && Alternates(res) && |res| + Repeats(msgs) == |msgs|
            && (msgs != [] ==> res != [] && RoleOf(res[|res| - 1], msgs[|msgs| - 1]))
    decreases |msgs| - i
  {
    if i == |msgs| {
      assert msgs[..i] == msgs;
    } else {
      RepeatsNext(msgs, i);
      AttachShape(out, msgs[i]);
      MergeShape(Attach(out, msgs[i]).value, msgs, i + 1);
    }
  }

  lemma {:induction false} NothingToMerge(out: seq<Message>, msgs: seq<Message>, i: nat)
    requires i <= |msgs| && out == msgs[..i] && Alternates(msgs)
    ensures MergeFrom(out, msgs, i) == Ok(msgs)
    decreases |msgs| - i
  {
    if i == |msgs| {
      assert msgs[..i] == msgs;
    } else {
      assert msgs[..i] + [msgs[i]] == msgs[..i + 1];
      assert i > 0 ==> out[|out| - 1] == msgs[i - 1];
      NothingToMerge(msgs[..i + 1], msgs, i + 1);
    }
  }

  /** The result alternates, is shorter by exactly the repeats, and merging it again changes nothing. */
  lemma MergeNormalises(msgs: seq<Message>)
    requires Merged(msgs).Ok?
    ensures var out := Merged(msgs).value;
            && Alternates(out) && |msgs| - |out| == Repeats(msgs) && Merged(out) == Ok(out)
            && (Repeats(msgs) == 0 ==> out == msgs)
  {
    MergeShape([], msgs, 0);
    NothingToMerge([], Merged(msgs).value, 0);
    if Repeats(msgs) == 0 {
      NoRepeats(msgs);
      NothingToMerge([], msgs, 0);
    }
  }

  lemma {:induction false} NoRepeats(msgs: seq<Message>)
    requires Repeats(msgs) == 0
    ensures Alternates(msgs)
  {
    if |msgs| >= 2 {
      NoRepeats(msgs[..|msgs| - 1]);
      forall i | 0 < i < |msgs| ensures !SameRole(msgs[i - 1], msgs[i]) {
        if i < |msgs| - 1 {
          assert msgs[i - 1] == msgs[..|msgs| - 1][i - 1] && msgs[i] == msgs[..|msgs| - 1][i];
        }
      }
    }
  }

  // ---- when the merge raises -----------------------------------------------

  /** Where the run of assistant messages that ends before `i` starts. */
  function RunStart(msgs: seq<Message>, i: nat): (lo: nat)
    requires i <= |msgs|
    ensures lo <= i
  {
    if i > 0 && msgs[i - 1].Assistant? then RunStart(msgs, i - 1) else i
  }

  /** The first value under key `k` among the messages from `lo` up to `i`. */
  function FirstValue(msgs: seq<Message>, lo: nat, i: nat, k: string): Option<Json>
    requires lo <= i <= |msgs|
    decreases i
  {
    if lo == i then None
    else if FirstValue(msgs, lo, i - 1, k).Some? then FirstValue(msgs, lo, i - 1, k)
    else if k in UsageOf(msgs[i - 1]) then Some(UsageOf(msgs[i - 1])[k])
    else None
  }

  /**
   Message `j` has a number under `k`, while the first value under `k` in the
   assistant run it continues is not a number.
   */
  predicate Clashes(msgs: seq<Message>, j: nat, k: string) {
    && 0 < j < |msgs| && msgs[j].Assistant? && msgs[j - 1].Assistant?
    && k in UsageOf(msgs[j]) && Numeric(UsageOf(msgs[j])[k])
    && FirstValue(msgs, RunStart(msgs, j), j, k).Some?
    && !Numeric(FirstValue(msgs, RunStart(msgs, j), j, k).value)
  }

  /** The accumulated usage has the keys of the run, and each is a number iff its first value is. */
  ghost predicate Tracks(usage: Object, msgs: seq<Message>, i: nat)
    requires i <= |msgs|
  {
    forall k :: KeyOk(usage, msgs, i, k)
  }

  ghost predicate KeyOk(usage: Object, msgs: seq<Message>, i: nat, k: string)
    requires i <= |msgs|
  {
    TracksKey(usage, FirstValue(msgs, RunStart(msgs, i), i, k), k)
  }

  predicate TracksKey(usage: Object, first: Option<Json>, k: string) {
    && (k in usage <==> first.Some?)
    && (k in usage ==> (Numeric(usage[k]) <==> Numeric(first.value)))
  }

  lemma JoinedTracks(msgs: seq<Message>, i: nat, prev: Message)
    requires 0 < i < |msgs| && prev.Assistant? && msgs[i].Assistant? && msgs[i - 1].Assistant?
    requires Tracks(UsageOf(prev), msgs, i)
    ensures Joined(prev, msgs[i]).Err? <==> exists k :: Clashes(msgs, i, k)
    ensures Joined(prev, msgs[i]).Ok? ==> Tracks(UsageOf(Joined(prev, msgs[i]).value), msgs, i + 1)
  {
    var x, y := UsageOf(prev), UsageOf(msgs[i]);
    var acc := Accumulate(map[], x).value;
    forall k ensures KeyOk(acc, msgs, i, k) {
      assert KeyOk(x, msgs, i, k);
    }
    forall k ensures ClashOn(acc, y, k) <==> Clashes(msgs, i, k) {
      assert KeyOk(acc, msgs, i, k);
    }
    if Joined(prev, msgs[i]).Ok? {
      var usage := UsageOf(Joined(prev, msgs[i]).value);
      var n := i + 1;
      forall k ensures KeyOk(usage, msgs, n, k) {
        assert KeyOk(acc, msgs, i, k);
        assert !ClashOn(acc, y, k);
      }
    }
  }

  lemma StartsTracking(msgs: seq<Message>, i: nat)
    requires i < |msgs| && msgs[i].Assistant? && (i > 0 ==> !msgs[i - 1].Assistant?)
    ensures Tracks(UsageOf(msgs[i]), msgs, i + 1)
  {
    assert RunStart(msgs, i) == i == RunStart(msgs, i + 1);
    var n := i + 1;
    forall k ensures KeyOk(UsageOf(msgs[i]), msgs, n, k) {
      assert FirstValue(msgs, i, i, k) == None;
    }
  }

  lemma {:induction false} RaisesFrom(out: seq<Message>, msgs: seq<Message>, i: nat)
    requires i <= |msgs|
    requires (i == 0 <==> out == []) && (i > 0 ==> RoleOf(out[|out| - 1], msgs[i - 1]))
    requires i > 0 && msgs[i - 1].Assistant? ==> Tracks(UsageOf(out[|out| - 1]), msgs, i)
    ensures MergeFrom(out, msgs, i).Err? <==> exists j, k :: i <= j && Clashes(msgs, j, k)
    decreases |msgs| - i
  {
    if i < |msgs| {
      var m := msgs[i];
      if i > 0 && m.Assistant? && msgs[i - 1].Assistant? {
        JoinedTracks(msgs, i, out[|out| - 1]);
      } else if m.Assistant? {
        StartsTracking(msgs, i);
      }
      if Attach(out, m).Ok? {
        RaisesFrom(Attach(out, m).value, msgs, i + 1);
        assert forall k :: !Clashes(msgs, i, k);
      }
    }
  }

  /**
   The merge raises, leaving the list untouched, if and only if some run of
   assistant messages has a usage key whose first value is not a number and a later
   one is.
   */
  lemma MergeRaisesExactly(msgs: seq<Message>)
    ensures Merged(msgs).Err? <==> exists j, k :: Clashes(msgs, j, k)
  {
    RaisesFrom([], msgs, 0);
    assert forall j: nat, k :: Clashes(msgs, j, k) ==> 0 <= j;
  }

  /** A provider that reports a missing count as null and later as a number. */
  lemma NullThenNumberRaises()
    ensures Merged([Assistant([], None, Some(map["cached" := Null])), Assistant([], None, Some(map["cached" := Num(5)]))]).Err?
  {
    var msgs := [Assistant([], None, Some(map["cached" := Null])), Assistant([], None, Some(map["cached" := Num(5)]))];
    assert RunStart(msgs, 0) == 0 == RunStart(msgs, 1);
    assert FirstValue(msgs, 0, 0, "cached") == None;
    assert FirstValue(msgs, 0, 1, "cached") == Some(Null);
    assert Clashes(msgs, 1, "cached");
    MergeRaisesExactly(msgs);
  }

  // ---- repair --------------------------------------------------------------

  function DropUsers(msgs: seq<Message>): seq<Message> {
    if msgs != [] && msgs[|msgs| - 1].User? then DropUsers(msgs[..|msgs| - 1]) else msgs
  }

  function ToSet(ids: seq<string>): set<string> { set x | x in ids }

  /** The first occurrences, in order, of the ids that are not in `answered`. */
  function Unanswered(ids: seq<string>, answered: set<string>): seq<string> {
    if ids == [] then []
    else
      var prior := Unanswered(ids[..|ids| - 1], answered);
      var id := ids[|ids| - 1];
      if id in answered || id in prior then prior else prior + [id]
  }

  function Pending(msgs: seq<Message>): seq<string> {
    Unanswered(FlatMap(ToolUseIds, msgs), ToSet(FlatMap(AnsweredIds, msgs)))
  }

  function Synthetic(ids: seq<string>): seq<ToolResult> {
    seq(|ids|, i requires 0 <= i < |ids| => ToolResult(ids[i], INTERRUPTED, true))
  }

  /** The balanced list: at most one synthetic message is appended. */
  function Balanced(msgs: seq<Message>): seq<Message> {
    if Pending(msgs) == [] then msgs else msgs + [ToolResults(Synthetic(Pending(msgs)))]
  }

  function Repaired(msgs: seq<Message>): seq<Message> { Balanced(DropUsers(msgs)) }

  ghost predicate AllAnswered(msgs: seq<Message>) {
    forall id :: id in FlatMap(ToolUseIds, msgs) ==> id in FlatMap(AnsweredIds, msgs)
  }

  lemma {:induction false} DropUsersMeaning(msgs: seq<Message>)
    ensures var kept := DropUsers(msgs);
            && kept <= msgs
            && (forall i :: |kept| <= i < |msgs| ==> msgs[i].User?)
            && (kept != [] ==> !kept[|kept| - 1].User?)
  {
    if msgs != [] && msgs[|msgs| - 1].User? { DropUsersMeaning(msgs[..|msgs| - 1]); }
  }

  /** The position of the first occurrence. */
  function FirstAt(ids: seq<string>, id: string): nat
    requires id in ids
  {
    if id in ids[..|ids| - 1] then FirstAt(ids[..|ids| - 1], id) else |ids| - 1
  }

  ghost predicate InFirstOrder(out: seq<string>, ids: seq<string>) {
    && (forall i :: 0 <= i < |out| ==> out[i] in ids)
    && (forall i, j :: 0 <= i < j < |out| ==> FirstAt(ids, out[i]) < FirstAt(ids, out[j]))
  }

  lemma {:induction false} FirstAtBound(ids: seq<string>, id: string)
    requires id in ids
    ensures FirstAt(ids, id) < |ids| && ids[FirstAt(ids, id)] == id
    ensures forall i :: 0 <= i < FirstAt(ids, id) ==> ids[i] != id
  {
    var front := ids[..|ids| - 1];
    if id in front {
      FirstAtBound(front, id);
      assert forall i :: 0 <= i < |front| ==> ids[i] == front[i];
    } else {
      forall i | 0 <= i < |front| ensures ids[i] != id { assert ids[i] == front[i]; }
    }
  }

  /** Each unanswered id exactly once, in first-occurrence order. */
  lemma {:induction false} UnansweredMeaning(ids: seq<string>, answered: set<string>)
    ensures var out := Unanswered(ids, answered);
            && (forall id :: id in out <==> id in ids && id !in answered)
            && InFirstOrder(out, ids)
  {
    if ids != [] {
      var front, last := ids[..|ids| - 1], ids[|ids| - 1];
      UnansweredMeaning(front, answered);
      assert ids == front + [last];
      var prior, out := Unanswered(front, answered), Unanswered(ids, answered);
      forall i | 0 <= i < |prior| ensures prior[i] in front && FirstAt(ids, prior[i]) == FirstAt(front, prior[i]) < |front| {
        assert prior[i] in prior;
        FirstAtBound(front, prior[i]);
      }
      if out != prior {
        assert last !in front;
        assert FirstAt(ids, last) == |front|;
      }
    }
  }

  lemma {:induction false} SyntheticIds(ids: seq<string>)
    ensures IdsOf(Synthetic(ids)) == ids
  {
  }

  lemma BalancedMeaning(msgs: seq<Message>)
    ensures FlatMap(ToolUseIds, Balanced(msgs)) == FlatMap(ToolUseIds, msgs)
    ensures FlatMap(AnsweredIds, Balanced(msgs)) == FlatMap(AnsweredIds, msgs) + Pending(msgs)
    ensures AllAnswered(Balanced(msgs)) && Pending(Balanced(msgs)) == []
  {
    var pending := Pending(msgs);
    UnansweredMeaning(FlatMap(ToolUseIds, msgs), ToSet(FlatMap(AnsweredIds, msgs)));
    if pending != [] {
      var m := ToolResults(Synthetic(pending));
      FlatMapSnoc(ToolUseIds, msgs, m);
      FlatMapSnoc(AnsweredIds, msgs, m);
      Seqs.AppendNothing(FlatMap(ToolUseIds, msgs));
      SyntheticIds(pending);
    } else {
      Seqs.AppendNothing(FlatMap(AnsweredIds, msgs));
    }
    AllAnsweredHere(Balanced(msgs), msgs);
  }

  lemma AllAnsweredHere(balanced: seq<Message>, msgs: seq<Message>)
    requires FlatMap(ToolUseIds, balanced) == FlatMap(ToolUseIds, msgs)
    requires FlatMap(AnsweredIds, balanced) == FlatMap(AnsweredIds, msgs) + Pending(msgs)
    ensures AllAnswered(balanced) && Pending(balanced) == []
  {
    var uses, answers := FlatMap(ToolUseIds, msgs), FlatMap(AnsweredIds, msgs);
    UnansweredMeaning(uses, ToSet(answers));
    UnansweredMeaning(uses, ToSet(answers + Pending(msgs)));
    forall id | id in uses ensures id in answers + Pending(msgs) {
      if id !in answers { assert id in Pending(msgs); }
    }
    var left := Pending(balanced);
    assert forall id :: id in left <==> id in uses && id !in ToSet(answers + Pending(msgs));
    Seqs.HeadIn(left);
  }

  /**
   Repair only drops the maximal trailing run of user messages and appends at most
   one message, which answers each unanswered tool-use id once, in the order the ids
   first occur; then every id is answered.
   */
  lemma RepairMeaning(msgs: seq<Message>)
    ensures var kept := DropUsers(msgs); var out := Repaired(msgs);
            && kept <= msgs && (forall i :: |kept| <= i < |msgs| ==> msgs[i].User?)
            && (kept != [] ==> !kept[|kept| - 1].User?)
            && kept <= out && |out| <= |kept| + 1
            && (|out| == |kept| + 1 ==>
                  && out[|kept|].ToolResults? && out[|kept|].results != []
                  && InFirstOrder(IdsOf(out[|kept|].results), FlatMap(ToolUseIds, kept)))
            && (forall id :: id in FlatMap(ToolUseIds, kept) && id !in FlatMap(AnsweredIds, kept) ==>
                  |out| == |kept| + 1 && id in IdsOf(out[|kept|].results))
            && AllAnswered(out)
  {
    var kept := DropUsers(msgs);
    DropUsersMeaning(msgs);
    BalancedMeaning(kept);
    UnansweredMeaning(FlatMap(ToolUseIds, kept), ToSet(FlatMap(AnsweredIds, kept)));
    SyntheticIds(Pending(kept));
    forall id | id in FlatMap(ToolUseIds, kept) && id !in FlatMap(AnsweredIds, kept) ensures id in Pending(kept) { }
  }

  lemma RepairEndsWell(msgs: seq<Message>)
    ensures var out := Repaired(msgs); out != [] ==> !out[|out| - 1].User?
  {
    DropUsersMeaning(msgs);
  }

  lemma RepairIdempotent(msgs: seq<Message>)
    ensures Repaired(Repaired(msgs)) == Repaired(msgs)
  {
    RepairEndsWell(msgs);
    BalancedMeaning(DropUsers(msgs));
  }

  // ---- the composition -----------------------------------------------------

  /** Appending a user message that follows a non-user message, then merging, leaves it alone at the end. */
  lemma {:induction false} LastUserStays(out: seq<Message>, msgs: seq<Message>, i: nat, u: Message)
    requires i <= |msgs| && u.User? && (msgs != [] ==> !msgs[|msgs| - 1].User?)
    requires (i == 0 <==> out == []) && (i > 0 ==> RoleOf(out[|out| - 1], msgs[i - 1]))
    ensures MergeFrom(out, msgs + [u], i).Err? <==> MergeFrom(out, msgs, i).Err?
    ensures MergeFrom(out, msgs, i).Ok? ==>
              MergeFrom(out, msgs + [u], i) == Ok(MergeFrom(out, msgs, i).value + [u])
    decreases |msgs| - i
  {
    if i == |msgs| {
      assert (msgs + [u])[i] == u;
      assert Attach(out, u) == Ok(out + [u]);
      assert MergeFrom(out + [u], msgs + [u], i + 1) == Ok(out + [u]);
    } else {
      assert (msgs + [u])[i] == msgs[i];
      if Attach(out, msgs[i]).Ok? {
        LastUserStays(Attach(out, msgs[i]).value, msgs, i + 1, u);
      }
    }
  }

  /**
   Repair a stored transcript, append the new user message, merge: unless the merge
   raises, no two neighbours share a role, every tool use is answered, and the list
   ends with exactly the new user message.
   */
  lemma TranscriptIsLegal(stored: seq<Message>, body: UserContent)
    requires Merged(Repaired(stored) + [User(body)]).Ok?
    ensures var out := Merged(Repaired(stored) + [User(body)]).value;
            && Alternates(out) && AllAnswered(out)
            && out != [] && out[|out| - 1] == User(body)
            && Merged(out) == Ok(out)
  {
    var r, u := Repaired(stored), User(body);
    RepairMeaning(stored);
    RepairEndsWell(stored);
    LastUserStays([], r, 0, u);
    MergeNormalises(r + [u]);
    MergeKeepsContent(r + [u]);
    FlatMapSnoc(ToolUseIds, r, u);
    FlatMapSnoc(AnsweredIds, r, u);
    assert UseIds([]) == [];
    Seqs.AppendNothing(FlatMap(ToolUseIds, r));
    Seqs.AppendNothing(FlatMap(AnsweredIds, r));
  }

  /** The merge after a repair raises only for a usage clash that the stored list already had. */
  lemma CompositionRaisesExactly(stored: seq<Message>, body: UserContent)
    ensures Merged(Repaired(stored) + [User(body)]).Err? <==> exists j, k :: Clashes(Repaired(stored), j, k)
  {
    RepairEndsWell(stored);
    LastUserStays([], Repaired(stored), 0, User(body));
    MergeRaisesExactly(Repaired(stored));
  }

  // ---- the list object -----------------------------------------------------

  class MessageList {
    var items: seq<Message>

    constructor (messages: seq<Message>)
      ensures items == messages
    {
      items := messages;
    }

    /** Pass 1: drop the trailing user messages. */
    method DropTrailingUsers() returns (dropped: nat)
      modifies this
      ensures items == DropUsers(old(items)) && dropped == |old(items)| - |items|
    {
      dropped := 0;
      while items != [] && items[|items| - 1].User?
        invariant DropUsers(items) == DropUsers(old(items)) && |items| + dropped == |old(items)|
        decreases |items|
      {
        items := items[..|items| - 1];
        dropped := dropped + 1;
      }
    }

    static method AddAnswers(rs: seq<ToolResult>, sofar: set<string>) returns (answered: set<string>)
      ensures answered == sofar + ToSet(IdsOf(rs))
    {
      answered := sofar;
      for j := 0 to |rs|
        invariant answered == sofar + ToSet(IdsOf(rs[..j]))
      {
        assert IdsOf(rs[..j + 1]) == IdsOf(rs[..j]) + [rs[j].toolUseId];
        ToSetConcat(IdsOf(rs[..j]), [rs[j].toolUseId]);
        answered := answered + {rs[j].toolUseId};
      }
      assert rs[..|rs|] == rs;
    }

    /** The ids that some tool-result message answers. */
    method CollectAnswered() returns (answered: set<string>)
      ensures answered == ToSet(FlatMap(AnsweredIds, items))
    {
      answered := {};
      for i := 0 to |items|
        invariant answered == ToSet(FlatMap(AnsweredIds, items[..i]))
      {
        FlatMapNext(AnsweredIds, items, i);
        ToSetConcat(FlatMap(AnsweredIds, items[..i]), AnsweredIds(items[i]));
        if items[i].ToolResults? {
          answered := AddAnswers(items[i].results, answered);
        }
      }
      assert items[..|items|] == items;
    }

    /** The inner loop over one assistant message; `ids` are the tool-use ids before it. */
    static method AddPending(bs: seq<AssistantBlock>, ghost ids: seq<string>, ghost answered: set<string>,
                             before: seq<string>, seenBefore: set<string>)
      returns (pending: seq<string>, seen: set<string>)
      requires before == Unanswered(ids, answered) && seenBefore == answered + ToSet(before)
      ensures pending == Unanswered(ids + UseIds(bs), answered) && seen == answered + ToSet(pending)
    {
      pending, seen := before, seenBefore;
      Seqs.AppendNothing(ids);
      for j := 0 to |bs|
        invariant pending == Unanswered(ids + UseIds(bs[..j]), answered)
        invariant seen == answered + ToSet(pending)
      {
        PendingStep(ids, bs, j, answered);
        if bs[j].ToolUse? && bs[j].id !in seen {
          ToSetConcat(pending, [bs[j].id]);
          pending := pending + [bs[j].id];
          seen := seen + {bs[j].id};
        }
      }
      assert bs[..|bs|] == bs;
    }

    /** The unanswered ids, each once; `seen` grows as they are found. */
    method CollectPending(answered: set<string>) returns (pending: seq<string>)
      ensures pending == Unanswered(FlatMap(ToolUseIds, items), answered)
    {
      pending := [];
      var seen := answered;
      for i := 0 to |items|
        invariant pending == Unanswered(FlatMap(ToolUseIds, items[..i]), answered)
        invariant seen == answered + ToSet(pending)
      {
        FlatMapNext(ToolUseIds, items, i);
        Seqs.AppendNothing(FlatMap(ToolUseIds, items[..i]));
        if items[i].Assistant? {
          pending, seen := AddPending(items[i].blocks, FlatMap(ToolUseIds, items[..i]), answered, pending, seen);
        }
      }
      assert items[..|items|] == items;
    }

    /** `repair_incomplete_turn` */
    method Repair() returns (dropped: nat, added: nat)
      modifies this
      ensures items == Repaired(old(items))
      ensures dropped == |old(items)| - |DropUsers(old(items))|
      ensures added == |Pending(DropUsers(old(items)))|
    {
      dropped := DropTrailingUsers();
      var answered := CollectAnswered();
      var pending := CollectPending(answered);
      added := |pending|;
      if pending != [] {
        items := items + [ToolResults(Synthetic(pending))];
      }
    }

    /** One dictionary of `_merge_assistant`. */
    static method AddUsage(acc: Object, d: Object) returns (res: Result<Object, string>)
      ensures res == Accumulate(acc, d)
    {
      var usage, keys := acc, d.Keys;
      while keys != {}
        invariant keys <= d.Keys
        invariant forall k :: k in d.Keys - keys ==> !ClashOn(acc, d, k)
        invariant usage.Keys == acc.Keys + (d.Keys - keys)
        invariant forall k :: k in usage ==> usage[k] == if k in d.Keys - keys then PutKey(acc, d, k) else acc[k]
        decreases keys
      {
        var k :| k in keys;
        var v := d[k];
        if Numeric(v) {
          if k in usage && !Numeric(usage[k]) {
            assert ClashOn(acc, d, k);
            return Err(TYPE_ERROR);
          }
          usage := usage[k := Add(if k in usage then usage[k] else Num(0), v)];
        } else if k !in usage {
          usage := usage[k := v];
        }
        keys := keys - {k};
      }
      assert forall k :: !ClashOn(acc, d, k);
      assert usage == map k | k in acc.Keys + d.Keys :: PutKey(acc, d, k);
      res := Ok(usage);
    }

    static method MergeAssistants(a: Message, b: Message) returns (res: Result<Message, string>)
      requires a.Assistant? && b.Assistant?
      ensures res == Joined(a, b)
    {
      var usage: Option<Object> := None;
      var x := if a.usage.Some? then a.usage.value else map[];
      var y := if b.usage.Some? then b.usage.value else map[];
      if x != map[] || y != map[] {
        var first := AddUsage(map[], x);
        if first.Err? {
          return Err(first.error);
        }
        var both := AddUsage(first.value, y);
        if both.Err? {
          return Err(both.error);
        }
        usage := Some(both.value);
      }
      res := Ok(Assistant(a.blocks + b.blocks, Later(a.stopReason, b.stopReason), usage));
    }

    /** `merge_consecutive_same_role`; an exception leaves the list untouched. */
    method Merge() returns (res: Result<nat, string>)
      modifies this
      ensures res.Ok? <==> Merged(old(items)).Ok?
      ensures res.Ok? ==> items == Merged(old(items)).value && res.value == |old(items)| - |items|
      ensures res.Err? ==> items == old(items)
    {
      if |items| < 2 {
        NothingToMerge([], items, 0);
        return Ok(0);
      }
      var out: seq<Message> := [];
      var merged := 0;
      for i := 0 to |items|
        invariant items == old(items)
        invariant Merged(items) == MergeFrom(out, items, i) && |out| + merged == i
      {
        var msg := items[i];
        if out == [] {
          out := out + [msg];
          continue;
        }
        var prev := out[|out| - 1];
        if prev.User? && msg.User? {
          out := out[..|out| - 1] + [User(MergeUser(prev.body, msg.body))];
          merged := merged + 1;
          continue;
        }
        if prev.Assistant? && msg.Assistant? {
          var joined := MergeAssistants(prev, msg);
          if joined.Err? {
            return Err(joined.error);
          }
          out := out[..|out| - 1] + [joined.value];
          merged := merged + 1;
          continue;
        }
        out := out + [msg];
      }
      if merged > 0 {
        items := out;
      } else {
        MergeNormalises(items);
      }
      res := Ok(merged);
    }
  }

  lemma ToSetConcat(a: seq<string>, b: seq<string>)
    ensures ToSet(a + b) == ToSet(a) + ToSet(b)
  {
  }

  lemma PendingStep(ids: seq<string>, bs: seq<AssistantBlock>, j: nat, answered: set<string>)
    requires j < |bs|
    ensures var prior := Unanswered(ids + UseIds(bs[..j]), answered);
            Unanswered(ids + UseIds(bs[..j + 1]), answered) ==
            if bs[j].ToolUse? && bs[j].id !in answered && bs[j].id !in prior then prior + [bs[j].id] else prior
  {
    assert bs[..j + 1][..j] == bs[..j];
    var before, after := ids + UseIds(bs[..j]), ids + UseIds(bs[..j + 1]);
    if bs[j].ToolUse? {
      assert after == before + [bs[j].id];
      assert after[..|after| - 1] == before;
    } else {
      assert UseIds(bs[..j + 1]) == UseIds(bs[..j]) + [];
      assert after == before;
    }
  }
}
