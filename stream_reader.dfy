/**
 * The streaming state both chat clients keep while a response is read: the text
 * buffer, the accumulated assistant text, and the deltas appended to it so far.
 * `Feed` is the inner scan loop run after each decoded chunk; `FinalFlush` is the
 * roadmap hook's pass over what is left once the transport ends.
 */
module StreamReading {
  import opened Wrappers
  import opened Text
  import opened Sse

  /**
   * A stream body as the client reads it: the decoded chunks `reader.read()` delivers,
   * then either the end of the stream (`failure == None`) or a rejected read.
   */
  datatype Body = Body(chunks: seq<string>, failure: Option<string>)

  /**
   * A `fetch` response: its status, the `error` field of its JSON body when the body
   * parses and has one, and its stream body unless `response.body` is null.
   */
  datatype Response = Response(status: int, errorField: Option<string>, body: Option<Body>)

  /** `response.ok`. */
  predicate IsOk(status: int) {
    200 <= status <= 299
  }

  /** `errorData.error || fallback`: the server's message unless it is missing or empty. */
  function OrDefault(field: Option<string>, fallback: string): (m: string)
    ensures field.Some? && field.value != "" ==> m == field.value
    ensures field.None? || field.value == "" ==> m == fallback
    ensures fallback != "" ==> m != ""
  {
    if field.Some? && field.value != "" then field.value else fallback
  }

  /** The read loop over the first `k + 1` chunks is the loop over `k` of them and one more scan. */
  lemma FeedsStep(buf: string, chunks: seq<string>, k: nat, parse: Parser, policy: Policy)
    requires k < |chunks|
    ensures var f := Feeds(buf, chunks[..k], parse, policy);
            var s := Scan(f.rest + chunks[k], parse, policy);
            Feeds(buf, chunks[..k + 1], parse, policy) == Fed(s.rest, f.lines + s.lines, f.deltas + s.deltas)
  {
    assert chunks[..k + 1] == chunks[..k] + [chunks[k]];
    FeedsSnoc(buf, chunks[..k], chunks[k], parse, policy);
  }

  /** `Concat` of one more part. */
  lemma ConcatSnoc(parts: seq<string>, d: string)
    ensures Concat(parts + [d]) == Concat(parts) + d
  {
    ConcatAppend(parts, [d]);
    assert Concat([d]) == d + Concat([]);
  }

  /**
   * The successive values the accumulator is published with (every `setRoadmapContent`
   * or message update): after the i-th delta, all deltas up to and including it.
   */
  function Published(deltas: seq<string>): (vs: seq<string>)
    ensures |vs| == |deltas|
  {
    seq(|deltas|, i requires 0 <= i < |deltas| => Concat(deltas[..i + 1]))
  }

  /**
   * The accumulator only ever grows by a non-empty delta: every published value is the
   * previous one (the empty text before the first) followed by the next delta, so it
   * strictly extends it, and the last one is the concatenation of all deltas.
   */
  lemma PublishedGrows(deltas: seq<string>)
    requires forall i | 0 <= i < |deltas| :: deltas[i] != ""
    ensures var vs := Published(deltas);
            && (|vs| > 0 ==> vs[0] == deltas[0] && vs[|vs| - 1] == Concat(deltas))
            && (forall i | 0 < i < |vs| :: vs[i] == vs[i - 1] + deltas[i] && |vs[i - 1]| < |vs[i]|)
  {
    var vs := Published(deltas);
    if |vs| > 0 {
      PublishedEnds(deltas);
    }
    forall i | 0 < i < |vs|
      ensures vs[i] == vs[i - 1] + deltas[i] && |vs[i - 1]| < |vs[i]|
    {
      PublishedStep(deltas, i);
    }
  }

  lemma PublishedEnds(deltas: seq<string>)
    requires |deltas| > 0
    ensures Published(deltas)[0] == deltas[0] && Published(deltas)[|deltas| - 1] == Concat(deltas)
  {
    PublishedAt(deltas, 0);
    PublishedAt(deltas, |deltas| - 1);
    ConcatOne(deltas[..1]);
    assert deltas[..|deltas|] == deltas;
  }

  lemma PublishedAt(deltas: seq<string>, i: nat)
    requires i < |deltas|
    ensures Published(deltas)[i] == Concat(deltas[..i + 1])
  {
  }

  lemma ConcatOne(parts: seq<string>)
    requires |parts| == 1
    ensures Concat(parts) == parts[0]
  {
    assert parts[1..] == [];
  }

  lemma PublishedStep(deltas: seq<string>, i: nat)
    requires 0 < i < |deltas|
    ensures Published(deltas)[i] == Published(deltas)[i - 1] + deltas[i]
  {
    assert deltas[..i + 1] == deltas[..i] + [deltas[i]];
    ConcatSnoc(deltas[..i], deltas[i]);
  }

  class StreamReader {
    var buffer: string
    var acc: string
    var deltas: seq<string>
    const parse: Parser
    const policy: Policy

    /** The accumulated text is exactly the deltas appended, and each of them is non-empty. */
    ghost predicate Valid()
      reads this
    {
      acc == Concat(deltas) && forall i | 0 <= i < |deltas| :: deltas[i] != ""
    }

    constructor (parse: Parser, policy: Policy)
      ensures Valid()
      ensures buffer == "" && acc == "" && deltas == []
      ensures this.parse == parse && this.policy == policy
    {
      buffer := "";
      acc := "";
      deltas := [];
      this.parse := parse;
      this.policy := policy;
    }

    /** Appends one delta to the accumulator. */
    method Append(d: string)
      requires Valid() && d != ""
      modifies this
      ensures Valid()
      ensures acc == old(acc) + d && deltas == old(deltas) + [d] && buffer == old(buffer)
    {
      ConcatSnoc(deltas, d);
      acc := acc + d;
      deltas := deltas + [d];
    }

    /**
     * One pass of the inner loop's body, on a buffer whose first "\n" is at `i`: cut the
     * line, strip its "\r", and handle it. `more` is false when the pass ended the scan
     * (`[DONE]`, or a rejected payload put back under `Requeue`). Either way the pass
     * agrees with `Scan`: what it appended, followed by what scanning `next` appends,
     * is what scanning `buf` appends.
     */
    method ScanLine(buf: string, i: int) returns (next: string, more: bool, ghost added: seq<string>)
      requires Valid() && i == IndexOf(buf, '\n') && i >= 0
      modifies this
      ensures Valid() && buffer == old(buffer)
      ensures deltas == old(deltas) + added
      ensures more ==> |next| < |buf| && Scan(buf, parse, policy).rest == Scan(next, parse, policy).rest
                       && Scan(buf, parse, policy).deltas == added + Scan(next, parse, policy).deltas
      ensures !more ==> Scan(buf, parse, policy).rest == next && Scan(buf, parse, policy).deltas == added
    {
      var raw := buf[..i];
      next := buf[i + 1..];
      assert FirstLine(buf) == raw && AfterFirstLine(buf) == next;
      var line := StripCr(raw);
      more, added := true, [];
      match Classify(line) {
        case Ignored =>
          SkipStep(buf, parse, policy);
        case Done =>
          DoneStep(buf, parse, policy);
          more := false;
        case Payload(json) =>
          var o := parse(json);
          if o.Fail? && policy == Requeue {
            RequeueStep(buf, parse);
            next := line + "\n" + next;
            more := false;
          } else {
            DeltaStep(buf, parse, policy);
            var d := DeltaOf(o);
            if d != "" {
              Append(d);
              added := [d];
            }
          }
      }
    }

    /**
     * Appends a decoded chunk and runs the inner scan: the new buffer and the deltas
     * appended are those of `Scan` on the old buffer followed by the chunk.
     */
    method Feed(chunk: string)
      requires Valid()
      modifies this
      ensures Valid()
      ensures var s := Scan(old(buffer) + chunk, parse, policy);
              buffer == s.rest && deltas == old(deltas) + s.deltas
    {
      var buf := buffer + chunk;
      ghost var whole := Scan(buf, parse, policy);
      ghost var got: seq<string> := [];
      while true
        invariant Valid()
        invariant deltas == old(deltas) + got
        invariant whole.rest == Scan(buf, parse, policy).rest
        invariant whole.deltas == got + Scan(buf, parse, policy).deltas
        decreases |buf|
      {
        var i := IndexOf(buf, '\n');
        if i == -1 {
          ScanNoLine(buf, parse, policy);
          assert got + [] == got;
          break;
        }
        var more;
        ghost var step;
        ghost var before := buf;
        buf, more, step := ScanLine(buf, i);
        AppendAssoc(old(deltas), got, step);
        if !more {
          got := got + step;
          break;
        }
        AppendAssoc(got, step, Scan(buf, parse, policy).deltas);
        got := got + step;
      }
      buffer := buf;
    }

    /** One piece of the final flush: skipped when empty, otherwise classified like a scanned line. */
    method FlushPiece(raw: string)
      requires Valid()
      modifies this
      ensures Valid() && buffer == old(buffer)
      ensures var d := LineDelta(raw, parse);
              deltas == old(deltas) + Added(d)
    {
      if raw == "" {
        assert deltas == deltas + [];
        return;
      }
      match Classify(StripCr(raw)) {
        case Payload(json) =>
          var d := DeltaOf(parse(json));
          if d != "" {
            Append(d);
          } else {
            assert deltas == deltas + [];
          }
        case _ =>
          assert deltas == deltas + [];
      }
    }

    /**
     * The final flush: when the buffer holds anything but whitespace, every
     * "\n"-separated piece is classified on its own; `[DONE]` is skipped and a
     * rejected payload is ignored. The buffer itself is left as it is.
     */
    method FinalFlush()
      requires Valid()
      modifies this
      ensures Valid() && buffer == old(buffer)
      ensures deltas == old(deltas) + FlushDeltas(old(buffer), parse)
    {
      if Trim(buffer) != "" {
        FlushPieces(Split(buffer, '\n'));
      } else {
        assert deltas == deltas + [];
      }
    }

    /** The loop of the final flush over the buffer's "\n"-separated pieces. */
    method FlushPieces(pieces: seq<string>)
      requires Valid()
      modifies this
      ensures Valid() && buffer == old(buffer)
      ensures deltas == old(deltas) + PieceDeltas(pieces, parse)
    {
      for k := 0 to |pieces|
        invariant Valid() && buffer == old(buffer)
        invariant deltas == old(deltas) + PieceDeltas(pieces[..k], parse)
      {
        var d := LineDelta(pieces[k], parse);
        ghost var before := PieceDeltas(pieces[..k], parse);
        assert PieceDeltas(pieces[..k + 1], parse) == before + Added(d) by {
          PieceDeltasSnoc(pieces, k, parse);
        }
        AppendAssoc(old(deltas), before, Added(d));
        FlushPiece(pieces[k]);
      }
      TakeAll(pieces);
    }
  }

  lemma TakeAll(pieces: seq<string>)
    ensures pieces[..|pieces|] == pieces
  {
  }

  /** The flush pieces handled so far, one more. */
  lemma PieceDeltasSnoc(pieces: seq<string>, k: nat, parse: Parser)
    requires k < |pieces|
    ensures var d := LineDelta(pieces[k], parse);
            PieceDeltas(pieces[..k + 1], parse) == PieceDeltas(pieces[..k], parse) + Added(d)
  {
    assert pieces[..k + 1] == pieces[..k] + [pieces[k]];
    PieceDeltasAppend(pieces[..k], [pieces[k]], parse);
    PieceDeltasOne(pieces[k], parse);
  }

  lemma PieceDeltasOne(raw: string, parse: Parser)
    ensures var d := LineDelta(raw, parse);
            PieceDeltas([raw], parse) == Added(d)
  {
    var d := LineDelta(raw, parse);
    assert [raw][1..] == [];
    assert Added(d) + [] == Added(d);
  }
}
