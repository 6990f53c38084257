/**
 Newline-delimited JSON framing of the ACP wire (oxenclaw/acp/framing.py), under an
 abstract JSON codec.
 */
module Framing {
  import opened Wrappers
  import opened Json
  import Seqs

  newtype byte = b: int | 0 <= b < 256

  type Bytes = seq<byte>

  const NEWLINE: byte := 10

  /** The default of `max_line_bytes`. */
  const MAX_LINE_BYTES: nat := 4194304

  /** The line limit of an `asyncio.StreamReader` made without one, as on both real pipes. */
  const STREAM_LIMIT: nat := 65536

  /** The limit of the reader itself, if it has one, and `max_line_bytes`. */
  datatype Limits = Limits(stream: Option<nat>, cap: nat)

  const PIPE_LIMITS: Limits := Limits(Some(STREAM_LIMIT), MAX_LINE_BYTES)

  /** `json.loads` on bytes: a value, `JSONDecodeError`, or bytes that are not text at all. */
  datatype Loaded = Value(j: Json) | Malformed | Undecodable

  /** `dumps` is `json.dumps` followed by the UTF-8 encoding. */
  datatype Codec = Codec(loads: Bytes -> Loaded, dumps: Object -> Bytes)

  /** What `bytes.strip` removes. */
  predicate IsBlank(b: byte) { b == 32 || 9 <= b <= 13 }

  /** The object is dumped as one non-blank line that loads back as itself. */
  predicate Dumped(c: Codec, m: Object) {
    var d := c.dumps(m);
    && d != [] && NEWLINE !in d && !IsBlank(d[0]) && !IsBlank(d[|d| - 1])
    && c.loads(d) == Value(Obj(m))
  }

  ghost predicate AllDumped(c: Codec, ms: seq<Object>) { forall i :: 0 <= i < |ms| ==> Dumped(c, ms[i]) }

  /** The first `n` bytes of the dumped object do not load. */
  predicate CutFails(c: Codec, m: Object, n: nat) {
    0 < n < |c.dumps(m)| ==> Strip(c.dumps(m)[..n]) != [] && !c.loads(Strip(c.dumps(m)[..n])).Value?
  }

  function LStrip(s: Bytes): Bytes { if s != [] && IsBlank(s[0]) then LStrip(s[1..]) else s }

  function RStrip(s: Bytes): Bytes { if s != [] && IsBlank(s[|s| - 1]) then RStrip(s[..|s| - 1]) else s }

  function Strip(s: Bytes): Bytes { RStrip(LStrip(s)) }

  /** The length of the line that `readline` returns, with its newline when there is one. */
  function LineLen(s: Bytes): (n: nat)
    ensures n <= |s| && (s != [] ==> n > 0)
    ensures forall i :: 0 <= i < n - 1 ==> s[i] != NEWLINE
  {
    if s == [] then 0 else if s[0] == NEWLINE then 1 else 1 + LineLen(s[1..])
  }

  /** How the stream stops: at the end of the input, with `AcpFramingError`, or with another exception. */
  datatype End = Eof | FramingError | Crash

  datatype Outcome = Outcome(msgs: seq<Object>, end: End)

  /**
   How reading stops at a line that is too long: `readline` raises a `ValueError` when
   what precedes the newline is over the reader's limit, and otherwise the whole line
   counts against `max_line_bytes`.
   */
  function TooLong(lim: Limits, body: nat, line: nat): Option<End> {
    if lim.stream.Some? && body > lim.stream.value then Some(Crash)
    else if line > lim.cap then Some(FramingError)
    else None
  }

  /** The length of a line without its newline. */
  function BodyLen(line: Bytes): nat { if line != [] && line[|line| - 1] == NEWLINE then |line| - 1 else |line| }

  /** What one line gives. */
  datatype LineResult = Blank | Message(m: Object) | Stop(end: End)

  function ReadLine(c: Codec, lim: Limits, line: Bytes): LineResult {
    if TooLong(lim, BodyLen(line), |line|).Some? then Stop(TooLong(lim, BodyLen(line), |line|).value)
    else if Strip(line) == [] then Blank
    else match c.loads(Strip(line))
         case Undecodable => Stop(Crash)
         case Malformed => Stop(FramingError)
         case Value(j) => if j.Obj? then Message(j.fields) else Stop(FramingError)
  }

  /** `read_messages` on the bytes that the peer sends before it closes. */
  function Read(c: Codec, lim: Limits, input: Bytes): Outcome
    decreases |input|
  {
    if input == [] then Outcome([], Eof)
    else
      var n := LineLen(input);
      match ReadLine(c, lim, input[..n])
      case Stop(end) => Outcome([], end)
      case Blank => Read(c, lim, input[n..])
      case Message(m) => Prepend(m, Read(c, lim, input[n..]))
  }

  function Prepend(m: Object, out: Outcome): Outcome { out.(msgs := [m] + out.msgs) }

  /** `encode_message` */
  function Encode(c: Codec, m: Object): Bytes { c.dumps(m) + [NEWLINE] }

  function EncodeAll(c: Codec, ms: seq<Object>): Bytes {
    if ms == [] then [] else Encode(c, ms[0]) + EncodeAll(c, ms[1..])
  }

  /** What stops the reading of an encoded message, if anything does. */
  function Refused(c: Codec, lim: Limits, m: Object): Option<End> { TooLong(lim, |c.dumps(m)|, |Encode(c, m)|) }

  ghost predicate Fits(c: Codec, lim: Limits, ms: seq<Object>) {
    forall i :: 0 <= i < |ms| ==> Refused(c, lim, ms[i]).None?
  }

  function MessageOr(m: Object, refused: Option<End>): LineResult {
    if refused.Some? then Stop(refused.value) else Message(m)
  }

  // ---- one line ------------------------------------------------------------

  lemma {:induction false} LineOf(body: Bytes, rest: Bytes)
    requires NEWLINE !in body
    ensures LineLen(body + [NEWLINE] + rest) == |body| + 1
  {
    var s := body + [NEWLINE] + rest;
    if body != [] {
      assert body[0] in body && s[0] == body[0];
      assert s[1..] == body[1..] + [NEWLINE] + rest;
      forall b | b in body[1..] ensures b != NEWLINE { assert b in body; }
      LineOf(body[1..], rest);
    }
  }

  lemma {:induction false} WholeLine(body: Bytes)
    requires NEWLINE !in body
    ensures LineLen(body) == |body|
  {
    if body != [] {
      assert body[0] in body;
      forall b | b in body[1..] ensures b != NEWLINE { assert b in body; }
      WholeLine(body[1..]);
    }
  }

  lemma StripLine(body: Bytes)
    requires body != [] && !IsBlank(body[0]) && !IsBlank(body[|body| - 1])
    ensures Strip(body) == body && Strip(body + [NEWLINE]) == body
  {
    var line := body + [NEWLINE];
    assert line[0] == body[0] && LStrip(line) == line;
    assert line[..|line| - 1] == body;
    assert RStrip(line) == RStrip(body);
  }

  lemma EncodedLine(c: Codec, lim: Limits, m: Object)
    requires Dumped(c, m)
    ensures ReadLine(c, lim, Encode(c, m)) == MessageOr(m, Refused(c, lim, m))
    ensures ReadLine(c, lim, c.dumps(m)) == MessageOr(m, TooLong(lim, |c.dumps(m)|, |c.dumps(m)|))
  {
    var d := c.dumps(m);
    assert d[|d| - 1] in d;
    StripLine(d);
  }

  /** The first line of what follows an encoded message. */
  lemma FirstLine(c: Codec, m: Object, tail: Bytes)
    requires Dumped(c, m)
    ensures var s := Encode(c, m) + tail; s != [] && LineLen(s) == |Encode(c, m)|
    ensures (Encode(c, m) + tail)[..|Encode(c, m)|] == Encode(c, m) && (Encode(c, m) + tail)[|Encode(c, m)|..] == tail
  {
    LineOf(c.dumps(m), tail);
  }

  lemma ReadOne(c: Codec, lim: Limits, m: Object, tail: Bytes)
    requires Dumped(c, m)
    ensures Read(c, lim, Encode(c, m) + tail) ==
            if Refused(c, lim, m).None? then Prepend(m, Read(c, lim, tail)) else Outcome([], Refused(c, lim, m).value)
  {
    FirstLine(c, m, tail);
    EncodedLine(c, lim, m);
  }

  // ---- whole streams -------------------------------------------------------

  /** `ms` before everything `out` holds. */
  function After(ms: seq<Object>, out: Outcome): Outcome { Outcome(ms + out.msgs, out.end) }

  lemma AfterNothing(out: Outcome)
    ensures After([], out) == out
  {
    assert [] + out.msgs == out.msgs;
  }

  lemma AfterCons(ms: seq<Object>, out: Outcome)
    requires ms != []
    ensures Prepend(ms[0], After(ms[1..], out)) == After(ms, out)
  {
    assert [ms[0]] + (ms[1..] + out.msgs) == ms + out.msgs;
  }

  /** Whatever follows, encoded messages that fit are read first, in order. */
  lemma {:induction false} ReadThrough(c: Codec, lim: Limits, ms: seq<Object>, tail: Bytes)
    requires AllDumped(c, ms) && Fits(c, lim, ms)
    ensures Read(c, lim, EncodeAll(c, ms) + tail) == After(ms, Read(c, lim, tail))
    decreases |ms|
  {
    if ms == [] {
      assert EncodeAll(c, ms) + tail == tail;
      AfterNothing(Read(c, lim, tail));
    } else {
      ReadThrough(c, lim, ms[1..], tail);
      ReadOne(c, lim, ms[0], EncodeAll(c, ms[1..]) + tail);
      Seqs.Regroup(Encode(c, ms[0]), EncodeAll(c, ms[1..]), tail);
      AfterCons(ms, Read(c, lim, tail));
    }
  }

  lemma {:induction false} EncodeConcat(c: Codec, a: seq<Object>, b: seq<Object>)
    ensures EncodeAll(c, a + b) == EncodeAll(c, a) + EncodeAll(c, b)
  {
    if a == [] {
      assert a + b == b && [] + EncodeAll(c, b) == EncodeAll(c, b);
    } else {
      Seqs.Uncons(a, b);
      EncodeConcat(c, a[1..], b);
      Seqs.Regroup(Encode(c, a[0]), EncodeAll(c, a[1..]), EncodeAll(c, b));
    }
  }

  /** The longest prefix of messages that fit. */
  function Fitting(c: Codec, lim: Limits, ms: seq<Object>): (k: nat)
    ensures k <= |ms| && forall i :: 0 <= i < k ==> Refused(c, lim, ms[i]).None?
    ensures k < |ms| ==> Refused(c, lim, ms[k]).Some?
  {
    if ms == [] || Refused(c, lim, ms[0]).Some? then 0 else 1 + Fitting(c, lim, ms[1..])
  }

  /**
   Reading back what was encoded gives the messages up to the first one over a limit,
   which raises what that limit raises; so it gives exactly the messages and a clean
   end if and only if every message fits.
   */
  lemma ReadsBackExactly(c: Codec, lim: Limits, ms: seq<Object>)
    requires AllDumped(c, ms)
    ensures var k := Fitting(c, lim, ms);
            Read(c, lim, EncodeAll(c, ms)) == Outcome(ms[..k], if k == |ms| then Eof else Refused(c, lim, ms[k]).value)
    ensures Read(c, lim, EncodeAll(c, ms)) == Outcome(ms, Eof) <==> Fits(c, lim, ms)
  {
    var k := Fitting(c, lim, ms);
    var rest := ms[k..];
    assert ms == ms[..k] + rest;
    EncodeConcat(c, ms[..k], rest);
    ReadThrough(c, lim, ms[..k], EncodeAll(c, rest));
    if k < |ms| {
      assert rest[0] == ms[k];
      ReadOne(c, lim, rest[0], EncodeAll(c, rest[1..]));
    }
    Seqs.AppendNothing(ms[..k]);
    assert k == |ms| ==> ms[..k] == ms;
    assert k < |ms| ==> !Fits(c, lim, ms);
  }

  /** Blank lines within the limit are skipped. */
  lemma BlankLinesSkipped(c: Codec, lim: Limits, blank: Bytes, tail: Bytes)
    requires NEWLINE !in blank && Strip(blank + [NEWLINE]) == [] && TooLong(lim, |blank|, |blank| + 1).None?
    ensures Read(c, lim, blank + [NEWLINE] + tail) == Read(c, lim, tail)
  {
    LineOf(blank, tail);
    var s := blank + [NEWLINE] + tail;
    assert s[..|blank| + 1] == blank + [NEWLINE] && s[|blank| + 1..] == tail;
  }

  lemma PrefixHasNoNewline(d: Bytes, n: nat)
    requires NEWLINE !in d && n <= |d|
    ensures NEWLINE !in d[..n]
  {
    forall b | b in d[..n] ensures b in d { }
  }

  /**
   A peer that closes in the middle of a message: the messages before it are read;
   the cut one is read if only its newline is missing, and otherwise the stream ends
   with an error and not cleanly.
   */
  lemma TruncatedStream(c: Codec, lim: Limits, ms: seq<Object>, m: Object, n: nat)
    requires AllDumped(c, ms) && Dumped(c, m) && CutFails(c, m, n)
    requires Fits(c, lim, ms) && 0 < n <= |c.dumps(m)| && TooLong(lim, |c.dumps(m)|, |c.dumps(m)|).None?
    ensures var out := Read(c, lim, EncodeAll(c, ms) + c.dumps(m)[..n]);
            if n == |c.dumps(m)| then out == Outcome(ms + [m], Eof) else out.msgs == ms && out.end != Eof
  {
    var cut := c.dumps(m)[..n];
    PrefixHasNoNewline(c.dumps(m), n);
    WholeLine(cut);
    assert cut[..n] == cut && cut[n..] == [];
    ReadThrough(c, lim, ms, cut);
    Seqs.AppendNothing(ms);
    if n == |c.dumps(m)| {
      assert cut == c.dumps(m);
      EncodedLine(c, lim, m);
      assert Read(c, lim, cut) == Prepend(m, Outcome([], Eof));
      assert [m] + [] == [m];
    }
  }

  // ---- the two limits ------------------------------------------------------

  /** A line as `readline` returns it: a newline can only be its last byte. */
  ghost predicate IsLine(line: Bytes) { forall i :: 0 <= i < |line| - 1 ==> line[i] != NEWLINE }

  /** Some line is refused because of `max_line_bytes`. */
  ghost predicate CapMatters(limit: nat, cap: nat) {
    exists line :: IsLine(line) && TooLong(Limits(Some(limit), cap), BodyLen(line), |line|) == Some(FramingError)
  }

  /** On a reader with a limit of its own, `max_line_bytes` is ever reached if and only if it is not above that limit. */
  lemma CapMattersExactly(limit: nat, cap: nat)
    ensures CapMatters(limit, cap) <==> cap <= limit
  {
    if cap <= limit {
      FillingMeaning(limit);
      var line := Filling(limit) + [NEWLINE];
      assert IsLine(line) && BodyLen(line) == limit;
    }
  }

  /** Every value of `max_line_bytes` above the reader's limit gives the same reading of every input. */
  lemma {:induction false} CapIsMoot(c: Codec, limit: nat, cap: nat, other: nat, input: Bytes)
    requires limit < cap && limit < other
    ensures Read(c, Limits(Some(limit), cap), input) == Read(c, Limits(Some(limit), other), input)
    decreases |input|
  {
    if input != [] {
      var n := LineLen(input);
      assert ReadLine(c, Limits(Some(limit), cap), input[..n]) == ReadLine(c, Limits(Some(limit), other), input[..n]);
      CapIsMoot(c, limit, cap, other, input[n..]);
    }
  }

  /** So on the real pipes a message over 64 KiB crashes the reader, and the framing error of the 4 MiB limit never comes. */
  lemma LongMessageCrashes(c: Codec, m: Object, tail: Bytes)
    requires Dumped(c, m) && |c.dumps(m)| > STREAM_LIMIT
    ensures Read(c, PIPE_LIMITS, Encode(c, m) + tail) == Outcome([], Crash)
    ensures |Encode(c, m)| <= MAX_LINE_BYTES ==>
              Read(c, Limits(None, MAX_LINE_BYTES), Encode(c, m) + tail) ==
              Prepend(m, Read(c, Limits(None, MAX_LINE_BYTES), tail))
  {
    ReadOne(c, PIPE_LIMITS, m, tail);
    ReadOne(c, Limits(None, MAX_LINE_BYTES), m, tail);
  }

  // ---- such codecs exist ---------------------------------------------------

  const OPEN: byte := 123
  const SHUT: byte := 125
  const FILL: byte := 97

  function Filling(n: nat): Bytes { if n == 0 then [] else [FILL] + Filling(n - 1) }

  /** A code word: braces around `n` letters. */
  function Code(n: nat): Bytes { [OPEN] + Filling(n) + [SHUT] }

  /** The position of the first occurrence, or the length. */
  function IndexOf(ms: seq<Object>, m: Object): (n: nat)
    ensures n <= |ms| && (n < |ms| ==> ms[n] == m) && (m in ms ==> n < |ms|)
  {
    if ms == [] || ms[0] == m then 0 else 1 + IndexOf(ms[1..], m)
  }

  /** The message whose code word `b` is. */
  function Decoded(ms: seq<Object>, b: Bytes): Loaded {
    if |b| >= 2 && |b| - 2 < |ms| && b == Code(|b| - 2) then Value(Obj(ms[|b| - 2])) else Malformed
  }

  function CodecFor(ms: seq<Object>): Codec {
    Codec((b: Bytes) => Decoded(ms, b), (m: Object) => Code(IndexOf(ms, m)))
  }

  lemma {:induction false} FillingMeaning(n: nat)
    ensures |Filling(n)| == n && forall i :: 0 <= i < n ==> Filling(n)[i] == FILL
  {
    if n > 0 { FillingMeaning(n - 1); }
  }

  lemma CodeShape(n: nat)
    ensures |Code(n)| == n + 2 && Code(n)[0] == OPEN && Code(n)[n + 1] == SHUT
    ensures forall i :: 0 < i < n + 1 ==> Code(n)[i] == FILL
  {
    FillingMeaning(n);
  }

  lemma {:induction false} NothingToStrip(s: Bytes)
    requires forall b :: b in s ==> !IsBlank(b)
    ensures Strip(s) == s
  {
    Seqs.HeadIn(s);
    assert s != [] ==> s[|s| - 1] in s;
  }

  lemma CodeCutFails(ms: seq<Object>, k: nat, n: nat)
    requires 0 < n < |Code(k)|
    ensures Strip(Code(k)[..n]) != [] && !Decoded(ms, Strip(Code(k)[..n])).Value?
  {
    CodeShape(k);
    var cut := Code(k)[..n];
    NothingToStrip(cut);
    assert cut[n - 1] != SHUT;
    if n >= 2 { CodeShape(n - 2); }
  }

  /** For every list of messages some codec dumps them all as assumed, and no cut loads. */
  lemma CodecsExist(ms: seq<Object>)
    ensures AllDumped(CodecFor(ms), ms)
    ensures forall m: Object, n: nat :: CutFails(CodecFor(ms), m, n)
  {
    var c := CodecFor(ms);
    forall i | 0 <= i < |ms| ensures Dumped(c, ms[i]) {
      var k := IndexOf(ms, ms[i]);
      CodeShape(k);
      assert forall b :: b in Code(k) ==> b == OPEN || b == FILL || b == SHUT;
      assert c.dumps(ms[i]) == Code(k);
    }
    forall m: Object, n: nat ensures CutFails(c, m, n) {
      if 0 < n < |c.dumps(m)| { CodeCutFails(ms, IndexOf(ms, m), n); }
    }
  }

  /**
   A peer that closes one byte before the end of a message, which is one line without
   its newline: the stream ends with an error although the documentation promises a
   clean end.
   */
  lemma CutMessageExample()
    ensures var m: Object := map[]; var c := CodecFor([m]);
            && Dumped(c, m) && c.dumps(m) == [OPEN, SHUT]
            && Read(c, PIPE_LIMITS, [OPEN]) == Outcome([], FramingError)
            && Read(c, PIPE_LIMITS, [OPEN, SHUT]) == Outcome([m], Eof)
  {
    var m: Object := map[];
    var c := CodecFor([m]);
    CodecsExist([m]);
    assert Dumped(c, [m][0]);
    assert IndexOf([m], m) == 0 && Code(0) == [OPEN, SHUT];
    assert CutFails(c, m, 1);
    TruncatedStream(c, PIPE_LIMITS, [], m, 1);
    TruncatedStream(c, PIPE_LIMITS, [], m, 2);
    assert EncodeAll(c, []) + c.dumps(m)[..1] == [OPEN] && EncodeAll(c, []) + c.dumps(m)[..2] == [OPEN, SHUT];
    OneByte(c, PIPE_LIMITS);
    assert [] + [m] == [m];
  }

  /** A lone brace is one line that does not load. */
  lemma OneByte(c: Codec, lim: Limits)
    requires TooLong(lim, 1, 1).None? && c.loads([OPEN]) == Malformed
    ensures Read(c, lim, [OPEN]) == Outcome([], FramingError)
  {
    assert Strip([OPEN]) == [OPEN];
    assert [OPEN][..1] == [OPEN] && [OPEN][1..] == [];
    assert LineLen([OPEN]) == 1;
  }

  // ---- the loop ------------------------------------------------------------

  method ReadMessages(c: Codec, lim: Limits, input: Bytes) returns (out: Outcome)
    ensures out == Read(c, lim, input)
  {
    var msgs: seq<Object> := [];
    var rest := input;
    while rest != []
      invariant Read(c, lim, input) == Outcome(msgs + Read(c, lim, rest).msgs, Read(c, lim, rest).end)
      decreases |rest|
    {
      var n := LineLen(rest);
      var line := rest[..n];
      ghost var later := Read(c, lim, rest[n..]);
      var body := if line[n - 1] == NEWLINE then n - 1 else n;
      if lim.stream.Some? && body > lim.stream.value {
        Seqs.AppendNothing(msgs);
        return Outcome(msgs, Crash);
      }
      if |line| > lim.cap {
        Seqs.AppendNothing(msgs);
        return Outcome(msgs, FramingError);
      }
      var stripped := Strip(line);
      if stripped == [] {
        rest := rest[n..];
        continue;
      }
      match c.loads(stripped) {
        case Undecodable =>
          Seqs.AppendNothing(msgs);
          return Outcome(msgs, Crash);
        case Malformed =>
          Seqs.AppendNothing(msgs);
          return Outcome(msgs, FramingError);
        case Value(j) =>
          if !j.Obj? {
            Seqs.AppendNothing(msgs);
            return Outcome(msgs, FramingError);
          }
          Seqs.Regroup(msgs, [j.fields], later.msgs);
          msgs := msgs + [j.fields];
          rest := rest[n..];
      }
    }
    Seqs.AppendNothing(msgs);
    out := Outcome(msgs, Eof);
  }
}
