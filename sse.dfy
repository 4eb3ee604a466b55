/**
 * The line framing and `data:` classification shared by the three streaming clients
 * (roadmap generation, roadmap chat and the assistant page), as pure specifications.
 *
 * A client keeps a text buffer. After appending a decoded chunk it repeatedly cuts the
 * buffer at its first "\n", strips one trailing "\r" from the cut line, and classifies
 * it: comment, blank and non-`data: ` lines are skipped, the payload `[DONE]` ends the
 * current scan, and any other payload is handed to the JSON parser. What a parse
 * failure does is the one point where the clients differ (`Policy`).
 */
module Sse {
  import opened Wrappers
  import opened Text

  /**
   * What `JSON.parse(payload)` followed by reading `choices?.[0]?.delta?.content`
   * gives: `Fail` when either step throws, otherwise the content field if present.
   */
  datatype ParseOutcome = Fail | Parsed(content: Option<string>)

  /** The JSON parser and field access, supplied by the environment. */
  type Parser = string -> ParseOutcome

  /** The text a parse outcome appends: the content when it is truthy, i.e. a non-empty string. */
  function DeltaOf(o: ParseOutcome): (d: string)
    ensures d != "" <==> o.Parsed? && o.content.Some? && o.content.value != ""
    ensures d != "" ==> o.content.value == d
  {
    if o.Parsed? && o.content.Some? then o.content.value else ""
  }

  /** What appending a delta adds to the list of deltas: nothing when it is empty (`if (content)`). */
  function Added(d: string): seq<string> {
    if d == "" then [] else [d]
  }

  /** `if (line.endsWith("\r")) line = line.slice(0, -1)`. */
  function StripCr(raw: string): (line: string)
    ensures line == raw || raw == line + "\r"
    ensures |raw| > 0 && raw[|raw| - 1] == '\r' ==> raw == line + "\r"
  {
    if |raw| > 0 && raw[|raw| - 1] == '\r' then raw[..|raw| - 1] else raw
  }

  datatype LineKind = Ignored | Done | Payload(json: string)

  const DataPrefix: string := "data: "

  /**
   * The classification of one line (carriage return already stripped). A line counts
   * exactly when it starts with "data: " (space included): every such line is neither
   * a comment nor blank. Its payload is the rest of the line, trimmed.
   */
  function Classify(line: string): (k: LineKind)
    ensures k.Ignored? <==> !StartsWith(line, DataPrefix)
    ensures StartsWith(line, DataPrefix) ==> (k.Done? <==> Trim(line[6..]) == "[DONE]")
    ensures k.Payload? ==> StartsWith(line, DataPrefix) && k.json == Trim(line[6..])
  {
    DataLineIsNotBlank(line);
    if StartsWith(line, ":") || Trim(line) == "" then Ignored
    else if !StartsWith(line, DataPrefix) then Ignored
    else
      var payload := Trim(line[|DataPrefix|..]);
      if payload == "[DONE]" then Done else Payload(payload)
  }

  lemma DataLineIsNotBlank(line: string)
    ensures StartsWith(line, DataPrefix) ==> !StartsWith(line, ":") && Trim(line) != ""
  {
    if StartsWith(line, DataPrefix) {
      assert line[0] == DataPrefix[0] == 'd';
      assert !IsWhitespace(line[0]);
    }
  }

  /** Stripping a carriage return never changes how a line is classified. */
  lemma ClassifyIgnoresCr(s: string)
    ensures Classify(StripCr(s)) == Classify(s)
  {
    var t := StripCr(s);
    if t != s {
      assert s == t + "\r";
      if |t| >= 6 {
        assert s[..6] == t[..6];
        assert s[6..] == t[6..] + "\r";
        TrimDropsTrailingCr(t[6..]);
        assert StartsWith(s, DataPrefix) == StartsWith(t, DataPrefix);
      } else {
        assert !StartsWith(s, DataPrefix) by {
          assert |s| <= 6;
          assert |s| == 6 ==> s[5] == '\r';
        }
      }
    }
  }

  /** A `data: ` line whose payload has no surrounding whitespace carries exactly that payload. */
  lemma ClassifyData(p: string)
    requires p != "" && !IsWhitespace(p[0]) && !IsWhitespace(p[|p| - 1])
    ensures Classify(DataPrefix + p) == if p == "[DONE]" then Done else Payload(p)
  {
    var line := DataPrefix + p;
    assert line[..6] == DataPrefix;
    assert line[6..] == p;
    TrimNoop(p);
  }

  lemma TrimNoop(p: string)
    requires p != "" && !IsWhitespace(p[0]) && !IsWhitespace(p[|p| - 1])
    ensures Trim(p) == p
  {
    assert TrimStart(p) == p;
    assert TrimEnd(p) == p;
  }

  datatype Policy =
    | Requeue  // useCareerRoadmap: put the failed line back and stop the scan
    | Drop     // AIAssistant: consume the line and go on

  datatype Stop =
    | Exhausted   // no "\n" left in the buffer
    | Terminated  // a `[DONE]` payload ended the scan
    | Requeued    // a payload failed to parse and was put back

  /**
   * The result of one scan: what stays buffered, the raw lines consumed (without
   * their "\n"), the non-empty deltas appended, and why the scan stopped.
   */
  datatype Scanned = Scanned(rest: string, lines: seq<string>, deltas: seq<string>, stop: Stop)

  /** Lines, each followed by the newline it was cut at. */
  function Framed(lines: seq<string>): string {
    if |lines| == 0 then "" else lines[0] + "\n" + Framed(lines[1..])
  }

  lemma {:induction false} FramedAppend(xs: seq<string>, ys: seq<string>)
    ensures Framed(xs + ys) == Framed(xs) + Framed(ys)
  {
    if |xs| == 0 {
      assert xs + ys == ys;
    } else {
      assert (xs + ys)[1..] == xs[1..] + ys;
      FramedAppend(xs[1..], ys);
    }
  }

  function FirstLine(s: string): string
    requires '\n' in s
  {
    s[..IndexOf(s, '\n')]
  }

  function AfterFirstLine(s: string): string
    requires '\n' in s
  {
    s[IndexOf(s, '\n') + 1..]
  }

  /** What a parse failure puts back: the line without its "\r", a newline, and what followed it. */
  function PutBack(s: string): string
    requires '\n' in s
  {
    StripCr(FirstLine(s)) + "\n" + AfterFirstLine(s)
  }

  /** The buffer's first complete line is a payload the parser rejects. */
  predicate HeadFails(s: string, parse: Parser) {
    '\n' in s &&
    var k := Classify(StripCr(FirstLine(s)));
    k.Payload? && parse(k.json).Fail?
  }

  /** A line with its newline, in front of anything, is the first line. */
  lemma FirstLineOf(line: string, more: string)
    requires '\n' !in line
    ensures '\n' in line + "\n" + more
    ensures FirstLine(line + "\n" + more) == line
    ensures AfterFirstLine(line + "\n" + more) == more
  {
    var s := line + "\n" + more;
    assert s[|line|] == '\n' && s[..|line|] == line;
    IndexOfAt(s, '\n', |line|);
    assert s[|line| + 1..] == more;
  }

  function Consumed(raw: string, delta: string, r: Scanned): Scanned {
    r.(lines := [raw] + r.lines, deltas := Added(delta) + r.deltas)
  }

  /**
   * What a scan of `buf` promises. Every consumed line is exactly a prefix of the
   * buffer up to and including a "\n" (the line itself holds none), and only
   * non-empty deltas are appended. Unless a payload was put back, what stays
   * buffered is precisely the unconsumed rest, and it holds no "\n" when the buffer
   * ran out. A put-back happens only under `Requeue`, loses nothing but the failed
   * line's "\r", and leaves that line first, so the buffer still starts with a
   * payload the parser rejects.
   */
  predicate WellScanned(buf: string, parse: Parser, policy: Policy, r: Scanned) {
    && (forall i | 0 <= i < |r.lines| :: '\n' !in r.lines[i])
    && (forall i | 0 <= i < |r.deltas| :: |r.deltas[i]| > 0)
    && StartsWith(buf, Framed(r.lines))
    && (r.stop != Requeued ==> buf == Framed(r.lines) + r.rest)
    && (r.stop == Exhausted ==> '\n' !in r.rest)
    && (r.stop == Requeued ==>
          && policy == Requeue
          && '\n' in buf[|Framed(r.lines)|..]
          && r.rest == PutBack(buf[|Framed(r.lines)|..])
          && HeadFails(r.rest, parse))
  }

  lemma FramedCons(raw: string, lines: seq<string>)
    ensures Framed([raw] + lines) == raw + "\n" + Framed(lines)
  {
    assert ([raw] + lines)[1..] == lines;
  }

  lemma PrefixCons(front: string, rest: string, head: string)
    requires StartsWith(rest, head)
    ensures StartsWith(front + rest, front + head)
    ensures (front + rest)[|front + head|..] == rest[|head|..]
    ensures rest == head + rest[|head|..]
  {
    assert (front + rest)[..|front + head|] == front + rest[..|head|];
  }

  /** Consuming one more line in front keeps a scan well framed. */
  lemma ConsumedIsWellScanned(raw: string, delta: string, rest: string, parse: Parser, policy: Policy, r: Scanned)
    requires '\n' !in raw
    requires WellScanned(rest, parse, policy, r)
    ensures WellScanned(raw + "\n" + rest, parse, policy, Consumed(raw, delta, r))
  {
    var c := Consumed(raw, delta, r);
    ConsumedParts(raw, delta, r);
    FramedCons(raw, r.lines);
    PrefixCons(raw + "\n", rest, Framed(r.lines));
  }

  lemma TerminatedIsWellScanned(raw: string, rest: string, parse: Parser, policy: Policy)
    requires '\n' !in raw
    ensures WellScanned(raw + "\n" + rest, parse, policy, Scanned(rest, [raw], [], Terminated))
  {
    assert Framed([raw]) == raw + "\n";
    assert (raw + "\n" + rest)[..|raw + "\n"|] == raw + "\n";
  }

  lemma RequeuedIsWellScanned(raw: string, rest: string, parse: Parser)
    requires '\n' !in raw
    requires var k := Classify(StripCr(raw)); k.Payload? && parse(k.json).Fail?
    ensures WellScanned(raw + "\n" + rest, parse, Requeue, Scanned(StripCr(raw) + "\n" + rest, [], [], Requeued))
  {
    var buf := raw + "\n" + rest;
    var line := StripCr(raw);
    assert '\n' !in line;
    FirstLineOf(line, rest);
    FirstLineOf(raw, rest);
    ClassifyIgnoresCr(line);
    assert Framed([]) == "" && buf[0..] == buf;
    assert PutBack(buf) == line + "\n" + rest;
  }

  lemma ConsumedParts(raw: string, delta: string, r: Scanned)
    requires '\n' !in raw
    requires forall i | 0 <= i < |r.lines| :: '\n' !in r.lines[i]
    requires forall i | 0 <= i < |r.deltas| :: |r.deltas[i]| > 0
    ensures var c := Consumed(raw, delta, r);
      && (forall i | 0 <= i < |c.lines| :: '\n' !in c.lines[i])
      && (forall i | 0 <= i < |c.deltas| :: |c.deltas[i]| > 0)
      && c.rest == r.rest && c.stop == r.stop
  {
    var c := Consumed(raw, delta, r);
    assert forall i | 1 <= i < |c.lines| :: c.lines[i] == r.lines[i - 1];
    if delta != "" {
      assert forall i | 1 <= i < |c.deltas| :: c.deltas[i] == r.deltas[i - 1];
    }
  }

  /**
   * The inner `while (indexOf("\n") !== -1)` loop run on `buf`: cut the first line,
   * skip it, stop at `[DONE]`, append a parsed payload's content, or act on a parse
   * failure as the policy says; `ScanIsWellScanned` states what it guarantees.
   */
  function Scan(buf: string, parse: Parser, policy: Policy): Scanned
    decreases |buf|
  {
    var i := IndexOf(buf, '\n');
    if i < 0 then Scanned(buf, [], [], Exhausted)
    else
      var raw, rest := buf[..i], buf[i + 1..];
      var line := StripCr(raw);
      match Classify(line)
      case Ignored => Consumed(raw, "", Scan(rest, parse, policy))
      case Done => Scanned(rest, [raw], [], Terminated)
      case Payload(json) =>
        var o := parse(json);
        if o.Fail? && policy == Requeue then Scanned(line + "\n" + rest, [], [], Requeued)
        else Consumed(raw, DeltaOf(o), Scan(rest, parse, policy))
  }

  /**
   * What the scan promises: every consumed line is exactly a prefix of the buffer up to
   * and including a "\n"; unless a payload was put back, what stays buffered is
   * precisely the rest, with no "\n" left when the buffer ran out. A put-back leaves the
   * failed line first, so the buffer still starts with a payload the parser rejects.
   */
  lemma {:induction false} ScanIsWellScanned(buf: string, parse: Parser, policy: Policy)
    ensures WellScanned(buf, parse, policy, Scan(buf, parse, policy))
    decreases |buf|
  {
    var i := IndexOf(buf, '\n');
    if i < 0 {
      assert Framed([]) == "";
    } else {
      var raw, rest := buf[..i], buf[i + 1..];
      assert buf == raw + "\n" + rest;
      var line := StripCr(raw);
      match Classify(line)
      case Ignored =>
        ScanIsWellScanned(rest, parse, policy);
        ConsumedIsWellScanned(raw, "", rest, parse, policy, Scan(rest, parse, policy));
      case Done =>
        TerminatedIsWellScanned(raw, rest, parse, policy);
      case Payload(json) =>
        var o := parse(json);
        if o.Fail? && policy == Requeue {
          RequeuedIsWellScanned(raw, rest, parse);
        } else {
          ScanIsWellScanned(rest, parse, policy);
          ConsumedIsWellScanned(raw, DeltaOf(o), rest, parse, policy, Scan(rest, parse, policy));
        }
    }
  }

  /** The text one consumed line appends: a payload's content, or nothing. */
  function LineDelta(raw: string, parse: Parser): (d: string)
    ensures d != "" ==> Classify(StripCr(raw)).Payload?
  {
    var k := Classify(StripCr(raw));
    if k.Payload? then DeltaOf(parse(k.json)) else ""
  }

  /** The line is consumed and the scan goes on (it is neither `[DONE]` nor put back). */
  predicate Advances(raw: string, parse: Parser, policy: Policy) {
    var k := Classify(StripCr(raw));
    k.Ignored? || (k.Payload? && !(parse(k.json).Fail? && policy == Requeue))
  }

  /** One step of the scan: what happens to the buffer's first line. */
  lemma ScanHead(buf: string, parse: Parser, policy: Policy)
    requires '\n' in buf
    ensures var raw, rest := FirstLine(buf), AfterFirstLine(buf);
            var r := Scan(buf, parse, policy);
            var k := Classify(StripCr(raw));
            && '\n' !in raw && |rest| < |buf|
            && (Advances(raw, parse, policy) ==> r == Consumed(raw, LineDelta(raw, parse), Scan(rest, parse, policy)))
            && (k.Done? ==> r == Scanned(rest, [raw], [], Terminated))
            && (!k.Done? && !Advances(raw, parse, policy) ==> r == Scanned(StripCr(raw) + "\n" + rest, [], [], Requeued))
  {
  }

  lemma FirstLineSplits(buf: string)
    requires '\n' in buf
    ensures buf == FirstLine(buf) + "\n" + AfterFirstLine(buf)
  {
  }

  /** A buffer without a complete line is left as it is. */
  lemma ScanNoLine(buf: string, parse: Parser, policy: Policy)
    requires '\n' !in buf
    ensures Scan(buf, parse, policy) == Scanned(buf, [], [], Exhausted)
  {
    assert IndexOf(buf, '\n') == -1;
  }

  /** The scan steps over a skipped line: it is consumed and appends nothing. */
  lemma SkipStep(buf: string, parse: Parser, policy: Policy)
    requires '\n' in buf && Classify(StripCr(FirstLine(buf))).Ignored?
    ensures var r, next := Scan(buf, parse, policy), Scan(AfterFirstLine(buf), parse, policy);
            r.rest == next.rest && r.deltas == next.deltas
  {
    ScanHead(buf, parse, policy);
  }

  /** The scan consumes a payload that parses (or any payload under `Drop`), appending its content if non-empty. */
  lemma DeltaStep(buf: string, parse: Parser, policy: Policy)
    requires '\n' in buf
    requires var k := Classify(StripCr(FirstLine(buf)));
             k.Payload? && !(parse(k.json).Fail? && policy == Requeue)
    ensures var r, next := Scan(buf, parse, policy), Scan(AfterFirstLine(buf), parse, policy);
            var d := DeltaOf(parse(Classify(StripCr(FirstLine(buf))).json));
            r.rest == next.rest && r.deltas == Added(d) + next.deltas
  {
    ScanHead(buf, parse, policy);
  }

  /** A `[DONE]` line is consumed and ends the scan. */
  lemma DoneStep(buf: string, parse: Parser, policy: Policy)
    requires '\n' in buf && Classify(StripCr(FirstLine(buf))).Done?
    ensures var r := Scan(buf, parse, policy);
            r.rest == AfterFirstLine(buf) && r.deltas == []
  {
    ScanHead(buf, parse, policy);
  }

  /** Under `Requeue` a rejected payload is put back in front of the rest and ends the scan. */
  lemma RequeueStep(buf: string, parse: Parser)
    requires '\n' in buf
    requires var k := Classify(StripCr(FirstLine(buf)));
             k.Payload? && parse(k.json).Fail?
    ensures var r := Scan(buf, parse, Requeue);
            r.rest == StripCr(FirstLine(buf)) + "\n" + AfterFirstLine(buf) && r.deltas == []
  {
    ScanHead(buf, parse, Requeue);
  }

  /** Appending text after a complete line changes neither that line nor what precedes the append. */
  lemma FirstLineAppend(b: string, c: string)
    requires '\n' in b
    ensures '\n' in b + c
    ensures FirstLine(b + c) == FirstLine(b) && AfterFirstLine(b + c) == AfterFirstLine(b) + c
  {
    IndexOfAppend(b, c, '\n');
    var i := IndexOf(b, '\n');
    assert (b + c)[..i] == b[..i];
    assert (b + c)[i + 1..] == b[i + 1..] + c;
  }

  /** Two scans one after the other: the lines and deltas of both, the state the second left. */
  function Then(first: Scanned, second: Scanned): Scanned {
    Scanned(second.rest, first.lines + second.lines, first.deltas + second.deltas, second.stop)
  }

  lemma ConsumedThen(raw: string, d: string, x: Scanned, y: Scanned)
    ensures Consumed(raw, d, Then(x, y)) == Then(Consumed(raw, d, x), y)
  {
    AppendAssoc([raw], x.lines, y.lines);
    AppendAssoc(Added(d), x.deltas, y.deltas);
  }

  /**
   * When a scan ran the buffer out, appending more text and scanning again is the same
   * as scanning the longer buffer at once: the first scan's lines are framed the same
   * whatever follows them.
   */
  lemma {:induction false} ScanComposes(b: string, c: string, parse: Parser, policy: Policy)
    requires Scan(b, parse, policy).stop == Exhausted
    ensures Scan(b + c, parse, policy) == Then(Scan(b, parse, policy), Scan(Scan(b, parse, policy).rest + c, parse, policy))
    decreases |b|
  {
    if '\n' !in b {
      ScanNoLine(b, parse, policy);
      var w := Scan(b + c, parse, policy);
      assert [] + w.lines == w.lines && [] + w.deltas == w.deltas;
    } else {
      var raw, rest := FirstLine(b), AfterFirstLine(b);
      var d := LineDelta(raw, parse);
      var x := Scan(rest, parse, policy);
      assert Advances(raw, parse, policy) && Scan(b, parse, policy) == Consumed(raw, d, x) by {
        ScanHead(b, parse, policy);
      }
      assert Scan(b + c, parse, policy) == Consumed(raw, d, Scan(rest + c, parse, policy)) by {
        FirstLineAppend(b, c);
        ScanHead(b + c, parse, policy);
      }
      ScanComposes(rest, c, parse, policy);
      ConsumedThen(raw, d, x, Scan(x.rest + c, parse, policy));
    }
  }

  /** A scan of a longer buffer that ran out means the scan of its prefix ran out too. */
  lemma {:induction false} ScanPrefixExhausted(b: string, c: string, parse: Parser, policy: Policy)
    requires Scan(b + c, parse, policy).stop == Exhausted
    ensures Scan(b, parse, policy).stop == Exhausted
    decreases |b|
  {
    if '\n' in b {
      FirstLineAppend(b, c);
      ScanHead(b, parse, policy);
      ScanHead(b + c, parse, policy);
      ScanPrefixExhausted(AfterFirstLine(b), c, parse, policy);
    }
  }

  /** What a sequence of scans produced in all: the final buffer, the lines and the deltas. */
  datatype Fed = Fed(rest: string, lines: seq<string>, deltas: seq<string>)

  /** The read loop: every chunk is appended to what the previous scan left, then scanned. */
  function Feeds(buf: string, chunks: seq<string>, parse: Parser, policy: Policy): Fed
    decreases |chunks|
  {
    if |chunks| == 0 then Fed(buf, [], [])
    else
      var first := Scan(buf + chunks[0], parse, policy);
      var more := Feeds(first.rest, chunks[1..], parse, policy);
      Fed(more.rest, first.lines + more.lines, first.deltas + more.deltas)
  }

  lemma FeedsCons(buf: string, c: string, cs: seq<string>, parse: Parser, policy: Policy)
    ensures var first := Scan(buf + c, parse, policy);
            var more := Feeds(first.rest, cs, parse, policy);
            Feeds(buf, [c] + cs, parse, policy) == Fed(more.rest, first.lines + more.lines, first.deltas + more.deltas)
  {
    assert ([c] + cs)[0] == c && ([c] + cs)[1..] == cs;
  }

  /** One more chunk extends the read loop by one scan. */
  lemma {:induction false} FeedsSnoc(buf: string, chunks: seq<string>, c: string, parse: Parser, policy: Policy)
    ensures var f := Feeds(buf, chunks, parse, policy);
            var s := Scan(f.rest + c, parse, policy);
            Feeds(buf, chunks + [c], parse, policy) == Fed(s.rest, f.lines + s.lines, f.deltas + s.deltas)
    decreases |chunks|
  {
    if |chunks| == 0 {
      assert chunks + [c] == [c];
      assert [c][1..] == [];
    } else {
      var first := Scan(buf + chunks[0], parse, policy);
      HeadTail(chunks, c);
      FeedsCons(buf, chunks[0], chunks[1..] + [c], parse, policy);
      FeedsSnoc(first.rest, chunks[1..], c, parse, policy);
      var more := Feeds(first.rest, chunks[1..], parse, policy);
      var s := Scan(more.rest + c, parse, policy);
      AppendAssoc(first.lines, more.lines, s.lines);
      AppendAssoc(first.deltas, more.deltas, s.deltas);
    }
  }

  /**
   * Chunk boundaries do not matter as long as no scan is cut short: if scanning the
   * whole input at once runs the buffer out (no `[DONE]`, no put-back), feeding it in
   * any chunking yields the same lines, the same deltas and the same leftover.
   */
  lemma {:induction false} ChunkingIrrelevant(buf: string, chunks: seq<string>, parse: Parser, policy: Policy)
    requires '\n' !in buf
    requires Scan(buf + Concat(chunks), parse, policy).stop == Exhausted
    ensures var whole := Scan(buf + Concat(chunks), parse, policy);
            Feeds(buf, chunks, parse, policy) == Fed(whole.rest, whole.lines, whole.deltas)
    decreases |chunks|
  {
    if |chunks| == 0 {
      assert buf + Concat(chunks) == buf;
      assert IndexOf(buf, '\n') == -1;
    } else {
      var b := buf + chunks[0];
      var tail := Concat(chunks[1..]);
      assert buf + Concat(chunks) == b + tail;
      ScanPrefixExhausted(b, tail, parse, policy);
      ScanComposes(b, tail, parse, policy);
      var first := Scan(b, parse, policy);
      assert '\n' !in first.rest by {
        ScanIsWellScanned(b, parse, policy);
      }
      ChunkingIrrelevant(first.rest, chunks[1..], parse, policy);
    }
  }

  /**
   * Under `Requeue`, a buffer that starts with a rejected payload stays blocked: appending
   * any text and scanning again consumes nothing, appends nothing, and puts the same line back.
   */
  lemma BlockedStaysBlocked(b: string, c: string, parse: Parser)
    requires HeadFails(b, parse)
    ensures var r := Scan(b + c, parse, Requeue);
            && r.stop == Requeued && r.lines == [] && r.deltas == [] && HeadFails(r.rest, parse)
            && AfterFirstLine(r.rest) == AfterFirstLine(b) + c
  {
    FirstLineAppend(b, c);
    ScanHead(b + c, parse, Requeue);
    ScanIsWellScanned(b + c, parse, Requeue);
    var line := StripCr(FirstLine(b + c));
    assert '\n' !in line;
    FirstLineOf(line, AfterFirstLine(b + c));
  }

  /**
   * Once blocked, the read loop never gets past the rejected line, however many chunks
   * arrive: nothing is consumed, and everything received after the line stays buffered.
   */
  lemma {:induction false} FeedsWhileBlocked(buf: string, chunks: seq<string>, parse: Parser)
    requires HeadFails(buf, parse)
    ensures var f := Feeds(buf, chunks, parse, Requeue);
            && f.lines == [] && f.deltas == [] && HeadFails(f.rest, parse)
            && AfterFirstLine(f.rest) == AfterFirstLine(buf) + Concat(chunks)
    decreases |chunks|
  {
    if |chunks| == 0 {
      assert AfterFirstLine(buf) + Concat(chunks) == AfterFirstLine(buf);
    } else {
      var r := Scan(buf + chunks[0], parse, Requeue);
      assert r.lines == [] && r.deltas == [] && HeadFails(r.rest, parse)
             && AfterFirstLine(r.rest) == AfterFirstLine(buf) + chunks[0] by {
        BlockedStaysBlocked(buf, chunks[0], parse);
      }
      var more := Feeds(r.rest, chunks[1..], parse, Requeue);
      assert Feeds(buf, chunks, parse, Requeue) == Fed(more.rest, [] + more.lines, [] + more.deltas);
      FeedsWhileBlocked(r.rest, chunks[1..], parse);
      assert [] + more.lines == more.lines && [] + more.deltas == more.deltas;
      AppendAssoc(AfterFirstLine(buf), chunks[0], Concat(chunks[1..]));
    }
  }

  /** The deltas of the final flush's pieces, each handled on its own, failures ignored. */
  function PieceDeltas(pieces: seq<string>, parse: Parser): seq<string> {
    if |pieces| == 0 then []
    else
      var d := LineDelta(pieces[0], parse);
      Added(d) + PieceDeltas(pieces[1..], parse)
  }

  /**
   * The final flush after the transport ends: when the buffer holds anything but
   * whitespace, each "\n"-separated piece is handled on its own.
   */
  function FlushDeltas(buf: string, parse: Parser): seq<string> {
    if Trim(buf) == "" then [] else PieceDeltas(Split(buf, '\n'), parse)
  }

  lemma {:induction false} PieceDeltasAppend(xs: seq<string>, ys: seq<string>, parse: Parser)
    ensures PieceDeltas(xs + ys, parse) == PieceDeltas(xs, parse) + PieceDeltas(ys, parse)
  {
    if |xs| == 0 {
      assert xs + ys == ys;
    } else {
      assert (xs + ys)[0] == xs[0];
      assert (xs + ys)[1..] == xs[1..] + ys;
      PieceDeltasAppend(xs[1..], ys, parse);
      var ds := Added(LineDelta(xs[0], parse));
      AppendAssoc(ds, PieceDeltas(xs[1..], parse), PieceDeltas(ys, parse));
    }
  }

  /** A blank piece never contributes. */
  lemma BlankLineAddsNothing(raw: string, parse: Parser)
    requires AllWhitespace(raw)
    ensures LineDelta(raw, parse) == ""
  {
    var line := StripCr(raw);
    assert AllWhitespace(line);
    assert !StartsWith(line, DataPrefix) by {
      assert |line| > 0 ==> IsWhitespace(line[0]);
    }
  }

  lemma {:induction false} BlankSplitAddsNothing(s: string, parse: Parser)
    requires AllWhitespace(s)
    ensures PieceDeltas(Split(s, '\n'), parse) == []
    decreases |s|
  {
    var i := IndexOf(s, '\n');
    if i < 0 {
      BlankLineAddsNothing(s, parse);
    } else {
      assert AllWhitespace(s[..i]);
      BlankLineAddsNothing(s[..i], parse);
      assert AllWhitespace(s[i + 1..]);
      BlankSplitAddsNothing(s[i + 1..], parse);
      assert Split(s, '\n')[1..] == Split(s[i + 1..], '\n');
    }
  }

  /** The flush's whitespace guard changes nothing: a blank buffer yields no deltas either way. */
  lemma FlushGuardRedundant(buf: string, parse: Parser)
    ensures FlushDeltas(buf, parse) == PieceDeltas(Split(buf, '\n'), parse)
  {
    if Trim(buf) == "" {
      BlankSplitAddsNothing(buf, parse);
    }
  }

  /** The final flush treats the lines independently: it distributes over a "\n". */
  lemma FlushPerLine(a: string, b: string, parse: Parser)
    ensures FlushDeltas(a + "\n" + b, parse) == FlushDeltas(a, parse) + FlushDeltas(b, parse)
  {
    FlushGuardRedundant(a + "\n" + b, parse);
    FlushGuardRedundant(a, parse);
    FlushGuardRedundant(b, parse);
    SplitAround(a, b, '\n');
    PieceDeltasAppend(Split(a, '\n'), Split(b, '\n'), parse);
  }

  /** A flush of a single line yields that line's delta, if any. */
  lemma FlushOneLine(line: string, parse: Parser)
    requires '\n' !in line
    ensures var d := LineDelta(line, parse);
            FlushDeltas(line, parse) == Added(d)
  {
    FlushGuardRedundant(line, parse);
    assert IndexOf(line, '\n') == -1;
    assert Split(line, '\n') == [line];
    assert [line][1..] == [];
  }

  /**
   * A terminator line at the very end, with no newline after it, is recognised and
   * appends nothing (`ClassifyData` shows `data: [DONE]` is one).
   */
  lemma FlushSkipsTrailingTerminator(a: string, t: string, parse: Parser)
    requires '\n' !in t && Classify(StripCr(t)).Done?
    ensures FlushDeltas(a + "\n" + t, parse) == FlushDeltas(a, parse)
  {
    FlushPerLine(a, t, parse);
    FlushOneLine(t, parse);
  }

  /** The flush drops a rejected payload silently and goes on with the next line. */
  lemma FlushSkipsFailedHead(buf: string, parse: Parser)
    requires HeadFails(buf, parse)
    ensures FlushDeltas(buf, parse) == FlushDeltas(AfterFirstLine(buf), parse)
  {
    var raw, rest := FirstLine(buf), AfterFirstLine(buf);
    FirstLineSplits(buf);
    FlushPerLine(raw, rest, parse);
    FlushOneLine(raw, parse);
  }

  /** The two policies agree on every scan that puts nothing back. */
  lemma {:induction false} PoliciesAgreeUnlessRequeued(buf: string, parse: Parser)
    requires Scan(buf, parse, Requeue).stop != Requeued
    ensures Scan(buf, parse, Drop) == Scan(buf, parse, Requeue)
    decreases |buf|
  {
    if '\n' !in buf {
      ScanNoLine(buf, parse, Requeue);
      ScanNoLine(buf, parse, Drop);
    } else {
      ScanHead(buf, parse, Requeue);
      ScanHead(buf, parse, Drop);
      var raw := FirstLine(buf);
      if Advances(raw, parse, Requeue) {
        PoliciesAgreeUnlessRequeued(AfterFirstLine(buf), parse);
      }
    }
  }

  /** The deltas of a whole successful stream in the roadmap hook: the read loop, then the final flush. */
  function HookDeltas(chunks: seq<string>, parse: Parser): seq<string> {
    var f := Feeds("", chunks, parse, Requeue);
    f.deltas + FlushDeltas(f.rest, parse)
  }

  /** The deltas of a whole stream on the assistant page: the read loop alone. */
  function AssistantDeltas(chunks: seq<string>, parse: Parser): seq<string> {
    Feeds("", chunks, parse, Drop).deltas
  }

  /**
   * After a rejected line, the hook's read loop appends nothing more: every line
   * received after it is handled, all at once, by the final flush, and the rejected
   * line itself is dropped there.
   */
  lemma FailedLineDefersToFlush(buf: string, chunks: seq<string>, parse: Parser)
    requires HeadFails(buf, parse)
    ensures var f := Feeds(buf, chunks, parse, Requeue);
            f.deltas == [] && FlushDeltas(f.rest, parse) == FlushDeltas(AfterFirstLine(buf) + Concat(chunks), parse)
  {
    FeedsWhileBlocked(buf, chunks, parse);
    FlushSkipsFailedHead(Feeds(buf, chunks, parse, Requeue).rest, parse);
  }

  /** A payload without surrounding whitespace or a newline, as a server writes it. */
  predicate Bare(p: string) {
    p != "" && '\n' !in p && !IsWhitespace(p[0]) && !IsWhitespace(p[|p| - 1])
  }

  lemma DataLineShape(p: string)
    requires Bare(p)
    ensures '\n' !in DataPrefix + p
    ensures StripCr(DataPrefix + p) == DataPrefix + p
    ensures Classify(DataPrefix + p) == if p == "[DONE]" then Done else Payload(p)
  {
    var line := DataPrefix + p;
    assert line[|line| - 1] == p[|p| - 1];
    assert forall i | 0 <= i < |line| :: line[i] != '\n' by {
      forall i | 0 <= i < |line| ensures line[i] != '\n' {
        if i >= 6 { assert line[i] == p[i - 6]; }
      }
    }
    ClassifyData(p);
  }

  /** Scanning a buffer that starts with the `data: ` line of a bare payload. */
  lemma ScanDataLine(p: string, more: string, parse: Parser, policy: Policy)
    requires Bare(p)
    ensures var r := Scan(DataPrefix + p + "\n" + more, parse, policy);
            && (p == "[DONE]" ==> r == Scanned(more, [DataPrefix + p], [], Terminated))
            && (p != "[DONE]" && !(parse(p).Fail? && policy == Requeue) ==>
                  r == Consumed(DataPrefix + p, DeltaOf(parse(p)), Scan(more, parse, policy)))
            && (p != "[DONE]" && parse(p).Fail? && policy == Requeue ==>
                  r == Scanned(DataPrefix + p + "\n" + more, [], [], Requeued))
  {
    DataLineShape(p);
    FirstLineOf(DataPrefix + p, more);
    ScanHead(DataPrefix + p + "\n" + more, parse, policy);
  }

  /**
   * A final `data: ` line that the server sent without a closing newline: the hook's
   * flush still appends its content ...
   */
  lemma HookFlushesUnterminatedLine(chunks: seq<string>, p: string, parse: Parser)
    requires Bare(p) && p != "[DONE]"
    requires Feeds("", chunks, parse, Requeue).rest == ""
    ensures var d := DeltaOf(parse(p));
            HookDeltas(chunks + [DataPrefix + p], parse)
              == HookDeltas(chunks, parse) + Added(d)
  {
    var line := DataPrefix + p;
    DataLineShape(p);
    HookFlushesLastPiece(chunks, line, parse);
    FlushOneLine(line, parse);
  }

  /** An unterminated last chunk, after a read loop that left nothing over, goes to the flush alone. */
  lemma HookFlushesLastPiece(chunks: seq<string>, line: string, parse: Parser)
    requires '\n' !in line
    requires Feeds("", chunks, parse, Requeue).rest == ""
    ensures HookDeltas(chunks + [line], parse) == HookDeltas(chunks, parse) + FlushDeltas(line, parse)
  {
    var f := Feeds("", chunks, parse, Requeue);
    var s := Scan(line, parse, Requeue);
    assert s == Scanned(line, [], [], Exhausted) by {
      ScanNoLine(line, parse, Requeue);
    }
    assert Feeds("", chunks + [line], parse, Requeue) == Fed(line, f.lines + [], f.deltas + []) by {
      FeedsSnoc("", chunks, line, parse, Requeue);
      assert f.rest + line == line;
    }
    assert FlushDeltas(f.rest, parse) == [] by {
      assert AllWhitespace(f.rest);
    }
    assert f.deltas + [] == f.deltas;
  }

  /** ... while the assistant page, having no flush, never processes it. */
  lemma AssistantDropsUnterminatedLine(chunks: seq<string>, frag: string, parse: Parser)
    requires '\n' !in frag
    requires Feeds("", chunks, parse, Drop).rest == ""
    ensures AssistantDeltas(chunks + [frag], parse) == AssistantDeltas(chunks, parse)
  {
    assert "" + frag == frag;
    FeedsSnoc("", chunks, frag, parse, Drop);
    ScanNoLine(frag, parse, Drop);
    var g := Feeds("", chunks, parse, Drop);
    assert g.deltas + [] == g.deltas;
  }

  /** Feeding a single chunk to an empty buffer is one scan. */
  lemma FeedsOne(c: string, parse: Parser, policy: Policy)
    ensures var r := Scan(c, parse, policy);
            Feeds("", [c], parse, policy) == Fed(r.rest, r.lines, r.deltas)
  {
    assert "" + c == c;
    assert [c][1..] == [];
    var r := Scan(c, parse, policy);
    assert r.lines + [] == r.lines && r.deltas + [] == r.deltas;
  }

  /** A terminator line (`data: [DONE]` is one, by `ClassifyData`) ends the scan right after itself. */
  predicate Terminator(t: string) {
    '\n' !in t && Classify(StripCr(t)).Done?
  }

  lemma ScanTerminator(t: string, more: string, parse: Parser, policy: Policy)
    requires Terminator(t)
    ensures Scan(t + "\n" + more, parse, policy) == Scanned(more, [t], [], Terminated)
  {
    FirstLineOf(t, more);
    ScanHead(t + "\n" + more, parse, policy);
  }

  /** A complete `data: ` line alone appends its delta. */
  lemma ScanLoneDataLine(p: string, parse: Parser, policy: Policy)
    requires Bare(p) && p != "[DONE]" && DeltaOf(parse(p)) != ""
    ensures Scan(DataPrefix + p + "\n", parse, policy).deltas == [DeltaOf(parse(p))]
  {
    assert DataPrefix + p + "\n" == DataPrefix + p + "\n" + "";
    ScanDataLine(p, "", parse, policy);
    ScanNoLine("", parse, policy);
  }

  /**
   * On the assistant page a terminator stops the scan and leaves the rest of its chunk
   * buffered until the next chunk arrives. When its chunk is the stream's last, a line
   * behind it there is never read, while the same line sent as a chunk of its own is:
   * the outcome depends on where the transport cut the stream.
   */
  lemma AssistantDoneDependsOnChunking(t: string, p: string, parse: Parser)
    requires Terminator(t)
    requires Bare(p) && p != "[DONE]" && DeltaOf(parse(p)) != ""
    ensures AssistantDeltas([t + "\n" + (DataPrefix + p + "\n")], parse) == []
    ensures AssistantDeltas([t + "\n", DataPrefix + p + "\n"], parse) == [DeltaOf(parse(p))]
  {
    var line := DataPrefix + p + "\n";
    ScanTerminator(t, line, parse, Drop);
    FeedsOne(t + "\n" + line, parse, Drop);
    AssistantSeparateChunks(t, line, parse);
    ScanLoneDataLine(p, parse, Drop);
  }

  lemma AssistantSeparateChunks(t: string, line: string, parse: Parser)
    requires Terminator(t)
    ensures AssistantDeltas([t + "\n", line], parse) == Scan(line, parse, Drop).deltas
  {
    var done := t + "\n";
    assert Scan("" + done, parse, Drop) == Scanned("", [t], [], Terminated) by {
      TerminatorAlone(t, parse, Drop);
      assert "" + done == done;
    }
    assert [done, line][1..] == [line];
    FeedsOne(line, parse, Drop);
  }

  lemma TerminatorAlone(t: string, parse: Parser, policy: Policy)
    requires Terminator(t)
    ensures Scan(t + "\n", parse, policy) == Scanned("", [t], [], Terminated)
  {
    AppendNil(t + "\n");
    ScanTerminator(t, "", parse, policy);
  }

  /** In the hook, the final flush picks up a line that followed the terminator in the same chunk. */
  lemma HookFlushCatchesLineAfterDone(t: string, p: string, parse: Parser)
    requires Terminator(t)
    requires Bare(p) && p != "[DONE]" && DeltaOf(parse(p)) != ""
    ensures HookDeltas([t + "\n" + (DataPrefix + p + "\n")], parse) == [DeltaOf(parse(p))]
  {
    var line := DataPrefix + p + "\n";
    ScanTerminator(t, line, parse, Requeue);
    FeedsOne(t + "\n" + line, parse, Requeue);
    FlushLoneDataLine(p, parse);
  }

  lemma FlushLoneDataLine(p: string, parse: Parser)
    requires Bare(p) && p != "[DONE]"
    ensures var d := DeltaOf(parse(p));
            FlushDeltas(DataPrefix + p + "\n", parse) == Added(d)
  {
    DataLineShape(p);
    FlushTrailingNewline(DataPrefix + p, parse);
    FlushOneLine(DataPrefix + p, parse);
  }

  /** A newline after the last line adds nothing to the flush. */
  lemma FlushTrailingNewline(line: string, parse: Parser)
    ensures FlushDeltas(line + "\n", parse) == FlushDeltas(line, parse)
  {
    assert line + "\n" == line + "\n" + "";
    FlushPerLine(line, "", parse);
    assert FlushDeltas("", parse) == [] by { assert AllWhitespace(""); }
    assert FlushDeltas(line, parse) + [] == FlushDeltas(line, parse);
  }
}
