/**
 * The streamed chunks of a chat-completions response and what the loop of
 * llm_request (lookahead_client.py, lines 77-122) makes of them, stated as
 * reference functions of the sequence of data chunks received so far.
 */
module Stream {
  import opened Wrappers
  import opened Framing

  /** The fields of a data chunk the client looks at. */
  datatype Delta = Delta(
    content: Option<string>,             // choices[0].delta.content
    numTokens: Option<int>,              // trt_metrics.num_tokens
    decodingIterations: Option<int>)     // trt_metrics.num_decoding_iterations

  /** A decoded payload. */
  datatype Chunk =
    | ErrorChunk(message: Option<string>, code: Option<int>)   // an object with an "error" member
    | DataChunk(delta: Delta)
    | Undecodable   // json.loads failed, or the object has no choices[0].delta

  /** Stands for json.loads followed by the field look-ups. */
  type Decoder = seq<byte> -> Chunk

  /** One line of the response body together with the clock reading taken while it is handled. */
  datatype Line = Line(raw: seq<byte>, tick: int)

  /** A data chunk together with its clock reading. */
  datatype Stamped = Stamped(delta: Delta, tick: int)

  /** What one line does to the loop. */
  datatype Event = Skip | Update(stamped: Stamped) | Raise(chunk: Chunk)

  /**
   * Lines 78-94 for one line: a blank or "[DONE]" line is skipped, a payload
   * that decodes to a data chunk updates the loop, anything else raises.
   */
  function Classify(line: Line, decode: Decoder): Event {
    match Frame(line.raw)
    case Blank => Skip
    case Terminator => Skip
    case Payload(p) =>
      match decode(p)
      case DataChunk(d) => Update(Stamped(d, line.tick))
      case other => Raise(other)
  }

  /**
   * The three outcomes of a line: skipped exactly when it is blank or
   * "[DONE]", an update exactly when its payload decodes to a data chunk, and
   * otherwise it raises with the decoded chunk.
   */
  lemma ClassifyCases(line: Line, decode: Decoder)
    ensures var e := Classify(line, decode);
      && (e.Skip? <==> AllSpace(line.raw) || Frame(line.raw) == Terminator)
      && (e.Update? <==> Frame(line.raw).Payload? && decode(Frame(line.raw).data).DataChunk?)
      && (e.Update? ==> e.stamped == Stamped(decode(Frame(line.raw).data).delta, line.tick))
      && (e.Raise? ==> e.chunk == decode(Frame(line.raw).data) && !e.chunk.DataChunk?)
  {
  }

  /**
   * json.loads(b"") raises, so a line that is at most six bytes long once
   * stripped (and not blank) always takes the exception path.
   */
  lemma ShortLineRaises(line: Line, decode: Decoder)
    requires decode([]).Undecodable?
    requires !AllSpace(line.raw) && |Strip(line.raw)| <= DataPrefixLength
    ensures Classify(line, decode) == Raise(Undecodable)
  {
    assert Frame(line.raw) == Payload([]);
  }

  /** The index of the first line that raises, or the number of lines if none does. */
  function FirstRaise(lines: seq<Line>, decode: Decoder): (n: nat)
    ensures n <= |lines|
    ensures n < |lines| ==> Classify(lines[n], decode).Raise?
  {
    if lines == [] then 0
    else if Classify(lines[0], decode).Raise? then 0
    else 1 + FirstRaise(lines[1..], decode)
  }

  /** No line before FirstRaise raises. */
  lemma {:induction false} FirstRaiseIsFirst(lines: seq<Line>, decode: Decoder, j: nat)
    requires j < FirstRaise(lines, decode)
    ensures !Classify(lines[j], decode).Raise?
  {
    var rest := lines[1..];
    assert FirstRaise(lines, decode) == 1 + FirstRaise(rest, decode);
    if j > 0 {
      FirstRaiseIsFirst(rest, decode, j - 1);
      assert rest[j - 1] == lines[j];
    }
  }

  /** A line at or before FirstRaise that does not raise lies strictly before it. */
  lemma FirstRaiseNotYet(lines: seq<Line>, decode: Decoder, i: nat)
    requires i <= FirstRaise(lines, decode) && i < |lines|
    requires !Classify(lines[i], decode).Raise?
    ensures i < FirstRaise(lines, decode)
  {
  }

  /** A raising line at or before FirstRaise is the one FirstRaise points to. */
  lemma FirstRaiseFound(lines: seq<Line>, decode: Decoder, i: nat)
    requires i <= FirstRaise(lines, decode) && i < |lines|
    requires Classify(lines[i], decode).Raise?
    ensures i == FirstRaise(lines, decode)
  {
    if i < FirstRaise(lines, decode) {
      FirstRaiseIsFirst(lines, decode, i);
    }
  }

  /** The data chunk a line contributes: one if it is a data chunk, none otherwise. */
  function Arrived(line: Line, decode: Decoder): seq<Stamped> {
    var e := Classify(line, decode);
    if e.Update? then [e.stamped] else []
  }

  /** The data chunks among the lines, in order. */
  function Deltas(lines: seq<Line>, decode: Decoder): seq<Stamped> {
    if lines == [] then []
    else Deltas(lines[..|lines| - 1], decode) + Arrived(lines[|lines| - 1], decode)
  }

  /** Reading one more line adds its data chunk, if it is one. */
  lemma DeltasStep(lines: seq<Line>, decode: Decoder, i: nat)
    requires i < |lines|
    ensures Deltas(lines[..i + 1], decode) == Deltas(lines[..i], decode) + Arrived(lines[i], decode)
  {
    assert lines[..i + 1][..i] == lines[..i];
  }

  /** The data chunks the loop processes before it stops. */
  function Received(lines: seq<Line>, decode: Decoder): seq<Stamped> {
    Deltas(lines[..FirstRaise(lines, decode)], decode)
  }

  predicate HasContent(d: Delta) {
    d.content.Some? && d.content.value != []
  }

  predicate CarriesTokens(s: Stamped) {
    s.delta.numTokens.Some?
  }

  /** num_tokens_received: the num_tokens of the last chunk that carries one, 0 if none does. */
  function NumTokens(ds: seq<Stamped>): int {
    if ds == [] then 0
    else if CarriesTokens(ds[|ds| - 1]) then ds[|ds| - 1].delta.numTokens.value
    else NumTokens(ds[..|ds| - 1])
  }

  /** tokens_received: how far the last num_tokens moved the count. */
  function TokenDelta(ds: seq<Stamped>): int {
    if ds == [] then 0
    else if CarriesTokens(ds[|ds| - 1]) then ds[|ds| - 1].delta.numTokens.value - NumTokens(ds[..|ds| - 1])
    else TokenDelta(ds[..|ds| - 1])
  }

  /** decode_iters: the last num_decoding_iterations seen, None if none was. */
  function DecodeIters(ds: seq<Stamped>): Option<int> {
    if ds == [] then None
    else if ds[|ds| - 1].delta.decodingIterations.Some? then ds[|ds| - 1].delta.decodingIterations
    else DecodeIters(ds[..|ds| - 1])
  }

  /** generated_text: the non-empty contents, in order. */
  function Text(ds: seq<Stamped>): string {
    if ds == [] then []
    else Text(ds[..|ds| - 1]) + if HasContent(ds[|ds| - 1].delta) then ds[|ds| - 1].delta.content.value else []
  }

  /**
   * ttft: set from the first content chunk, but only while it is still 0, so a
   * content chunk read at the start tick leaves it unset for the next one.
   */
  function FirstTokenTime(ds: seq<Stamped>, start: int): int {
    if ds == [] then 0
    else
      var earlier := FirstTokenTime(ds[..|ds| - 1], start);
      if earlier == 0 && HasContent(ds[|ds| - 1].delta) then ds[|ds| - 1].tick - start else earlier
  }

  /** The tick of the last content chunk, or the start tick if there was none (most_recent_received_token_time). */
  function LastContentTick(ds: seq<Stamped>, start: int): int {
    if ds == [] then start
    else if HasContent(ds[|ds| - 1].delta) then ds[|ds| - 1].tick
    else LastContentTick(ds[..|ds| - 1], start)
  }

  /** `[x] * n` */
  function Repeat(x: real, n: nat): (r: seq<real>)
    ensures |r| == n
  {
    if n == 0 then [] else Repeat(x, n - 1) + [x]
  }

  /** The number of time_to_next_token entries a content chunk adds when tokens_received is k. */
  function Width(k: int): nat {
    if k > 1 then k else 1
  }

  /** An elapsed time spread evenly over k tokens when k > 1, kept whole otherwise. */
  function Spread(elapsed: int, k: int): seq<real> {
    if k > 1 then Repeat(elapsed as real / k as real, k) else [elapsed as real]
  }

  /**
   * time_to_next_token: each content chunk contributes the time since the
   * previous content chunk (since the start for the first), spread over the
   * tokens_received in force at that chunk.
   */
  function Gaps(ds: seq<Stamped>, start: int): seq<real> {
    if ds == [] then []
    else
      Gaps(ds[..|ds| - 1], start) +
      if HasContent(ds[|ds| - 1].delta)
      then Spread(ds[|ds| - 1].tick - LastContentTick(ds[..|ds| - 1], start), TokenDelta(ds))
      else []
  }

  function Sum(xs: seq<real>): real {
    if xs == [] then 0.0 else Sum(xs[..|xs| - 1]) + xs[|xs| - 1]
  }

  // ---------------------------------------------------------------------------
  // Token accounting: last write wins.

  lemma {:induction false} NumTokensWithoutCarrier(ds: seq<Stamped>)
    requires forall j :: 0 <= j < |ds| ==> !CarriesTokens(ds[j])
    ensures NumTokens(ds) == 0 && TokenDelta(ds) == 0
  {
    if ds != [] {
      NumTokensWithoutCarrier(ds[..|ds| - 1]);
    }
  }

  /** The count is the last carried num_tokens; the delta is its step from the count before that chunk. */
  lemma {:induction false} NumTokensLastCarrier(ds: seq<Stamped>, j: nat)
    requires j < |ds| && CarriesTokens(ds[j])
    requires forall k :: j < k < |ds| ==> !CarriesTokens(ds[k])
    ensures NumTokens(ds) == ds[j].delta.numTokens.value
    ensures TokenDelta(ds) == ds[j].delta.numTokens.value - NumTokens(ds[..j])
  {
    if j < |ds| - 1 {
      var init := ds[..|ds| - 1];
      assert init[..j] == ds[..j];
      NumTokensLastCarrier(init, j);
    } else {
      assert ds[..|ds| - 1] == ds[..j];
    }
  }

  /** The tokens_received of the chunks that carry num_tokens, added up. */
  function CarriedDeltas(ds: seq<Stamped>): int {
    if ds == [] then 0
    else CarriedDeltas(ds[..|ds| - 1]) + if CarriesTokens(ds[|ds| - 1]) then TokenDelta(ds) else 0
  }

  /** The per-chunk tokens_received values add up to num_tokens_received. */
  lemma {:induction false} CarriedDeltasTotal(ds: seq<Stamped>)
    ensures CarriedDeltas(ds) == NumTokens(ds)
  {
    if ds != [] {
      CarriedDeltasTotal(ds[..|ds| - 1]);
    }
  }

  lemma {:induction false} DecodeItersLastWrite(ds: seq<Stamped>, j: nat)
    requires j < |ds| && ds[j].delta.decodingIterations.Some?
    requires forall k :: j < k < |ds| ==> ds[k].delta.decodingIterations.None?
    ensures DecodeIters(ds) == ds[j].delta.decodingIterations
  {
    if j < |ds| - 1 {
      DecodeItersLastWrite(ds[..|ds| - 1], j);
    }
  }

  lemma {:induction false} DecodeItersNeverSeen(ds: seq<Stamped>)
    ensures DecodeIters(ds) == None <==> forall j :: 0 <= j < |ds| ==> ds[j].delta.decodingIterations.None?
  {
    if ds != [] {
      DecodeItersNeverSeen(ds[..|ds| - 1]);
      assert forall j :: 0 <= j < |ds| - 1 ==> ds[..|ds| - 1][j] == ds[j];
    }
  }

  // ---------------------------------------------------------------------------
  // Generated text: in-order concatenation.

  lemma {:induction false} TextAppend(a: seq<Stamped>, b: seq<Stamped>)
    ensures Text(a + b) == Text(a) + Text(b)
  {
    if b == [] {
      assert a + b == a;
    } else {
      var init := b[..|b| - 1];
      assert (a + b)[..|a + b| - 1] == a + init;
      TextAppend(a, init);
    }
  }

  lemma {:induction false} TextOfSingle(s: Stamped)
    ensures Text([s]) == if HasContent(s.delta) then s.delta.content.value else []
  {
    assert [s][..0] == [];
  }

  /** Without a content chunk the text, the gaps and ttft stay empty and the last content tick is the start. */
  lemma {:induction false} TextWithoutContent(ds: seq<Stamped>, start: int)
    requires forall j :: 0 <= j < |ds| ==> !HasContent(ds[j].delta)
    ensures Text(ds) == [] && Gaps(ds, start) == [] && FirstTokenTime(ds, start) == 0
    ensures LastContentTick(ds, start) == start
  {
    if ds != [] {
      TextWithoutContent(ds[..|ds| - 1], start);
    }
  }

  // ---------------------------------------------------------------------------
  // Time to first token.

  /** ttft stays 0 exactly when every content chunk was read at the start tick. */
  lemma {:induction false} FirstTokenTimeZero(ds: seq<Stamped>, start: int)
    ensures FirstTokenTime(ds, start) == 0 <==>
      forall j :: 0 <= j < |ds| && HasContent(ds[j].delta) ==> ds[j].tick == start
  {
    if ds != [] {
      var init := ds[..|ds| - 1];
      FirstTokenTimeZero(init, start);
      assert forall j :: 0 <= j < |init| ==> init[j] == ds[j];
    }
  }

  /** Once ttft is non-zero, later chunks never change it. */
  lemma {:induction false} FirstTokenTimeSettled(ds: seq<Stamped>, more: seq<Stamped>, start: int)
    requires FirstTokenTime(ds, start) != 0
    ensures FirstTokenTime(ds + more, start) == FirstTokenTime(ds, start)
  {
    if more != [] {
      var init := more[..|more| - 1];
      assert (ds + more)[..|ds + more| - 1] == ds + init;
      FirstTokenTimeSettled(ds, init, start);
    } else {
      assert ds + more == ds;
    }
  }

  /** ttft is measured at the first content chunk read after the start tick. */
  lemma FirstTokenTimeAt(ds: seq<Stamped>, j: nat, start: int)
    requires j < |ds| && HasContent(ds[j].delta) && ds[j].tick != start
    requires forall k :: 0 <= k < j && HasContent(ds[k].delta) ==> ds[k].tick == start
    ensures FirstTokenTime(ds, start) == ds[j].tick - start
  {
    var upto := ds[..j + 1];
    assert upto[..j] == ds[..j];
    FirstTokenTimeZero(ds[..j], start);
    assert FirstTokenTime(upto, start) == ds[j].tick - start;
    FirstTokenTimeSettled(upto, ds[j + 1..], start);
    assert upto + ds[j + 1..] == ds;
  }

  /** While ttft is unset, every content chunk so far was read at the start tick. */
  lemma {:induction false} UnsetMeansNoTimeElapsed(ds: seq<Stamped>, start: int)
    requires FirstTokenTime(ds, start) == 0
    ensures LastContentTick(ds, start) == start
  {
    if ds != [] {
      UnsetMeansNoTimeElapsed(ds[..|ds| - 1], start);
    }
  }

  /** The last content time is the clock reading of the last chunk with content. */
  lemma {:induction false} LastContentTickLast(ds: seq<Stamped>, j: nat, start: int)
    requires j < |ds| && HasContent(ds[j].delta)
    requires forall k :: j < k < |ds| ==> !HasContent(ds[k].delta)
    ensures LastContentTick(ds, start) == ds[j].tick
  {
    if j < |ds| - 1 {
      LastContentTickLast(ds[..|ds| - 1], j, start);
    }
  }

  // ---------------------------------------------------------------------------
  // Inter-token gaps.

  function ContentCount(ds: seq<Stamped>): nat {
    if ds == [] then 0
    else ContentCount(ds[..|ds| - 1]) + if HasContent(ds[|ds| - 1].delta) then 1 else 0
  }

  /** The number of time_to_next_token entries: Width(tokens_received) per content chunk. */
  function EntryCount(ds: seq<Stamped>): nat {
    if ds == [] then 0
    else EntryCount(ds[..|ds| - 1]) + if HasContent(ds[|ds| - 1].delta) then Width(TokenDelta(ds)) else 0
  }

  lemma {:induction false} GapsLength(ds: seq<Stamped>, start: int)
    ensures |Gaps(ds, start)| == EntryCount(ds)
    ensures ContentCount(ds) <= |Gaps(ds, start)|
  {
    if ds != [] {
      GapsLength(ds[..|ds| - 1], start);
    }
  }

  lemma {:induction false} SumAppend(a: seq<real>, b: seq<real>)
    ensures Sum(a + b) == Sum(a) + Sum(b)
  {
    if b == [] {
      assert a + b == a;
    } else {
      assert (a + b)[..|a + b| - 1] == a + b[..|b| - 1];
      SumAppend(a, b[..|b| - 1]);
    }
  }

  lemma {:induction false} SumRepeat(x: real, n: nat)
    ensures Sum(Repeat(x, n)) == n as real * x
  {
    if n > 0 {
      assert Repeat(x, n)[..n - 1] == Repeat(x, n - 1);
      SumRepeat(x, n - 1);
    }
  }

  /** Spreading an elapsed time over tokens keeps its total. */
  lemma SpreadTotal(elapsed: int, k: int)
    ensures Sum(Spread(elapsed, k)) == elapsed as real
  {
    if k > 1 {
      SumRepeat(elapsed as real / k as real, k);
      assert k as real * (elapsed as real / k as real) == elapsed as real;
    } else {
      assert [elapsed as real][..0] == [];
    }
  }

  /**
   * The gaps add up to the time from the start to the last content chunk,
   * even though a content chunk read at the start tick leaves ttft unset.
   */
  lemma {:induction false} GapsTelescope(ds: seq<Stamped>, start: int)
    ensures Sum(Gaps(ds, start)) == (LastContentTick(ds, start) - start) as real
  {
    if ds != [] {
      var init, last := ds[..|ds| - 1], ds[|ds| - 1];
      GapsTelescope(init, start);
      if HasContent(last.delta) {
        var before := LastContentTick(init, start);
        var tail := Spread(last.tick - before, TokenDelta(ds));
        assert Gaps(ds, start) == Gaps(init, start) + tail;
        SumAppend(Gaps(init, start), tail);
        SpreadTotal(last.tick - before, TokenDelta(ds));
        assert LastContentTick(ds, start) == last.tick;
      } else {
        assert Gaps(ds, start) == Gaps(init, start) + [];
        assert Gaps(init, start) + [] == Gaps(init, start);
        assert LastContentTick(ds, start) == LastContentTick(init, start);
      }
    }
  }

  // ---------------------------------------------------------------------------
  // One more data chunk.

  /** How the token counts and decode_iters move when one data chunk is appended. */
  lemma AppendCounts(ds: seq<Stamped>, s: Stamped)
    ensures var ds' := ds + [s];
      && NumTokens(ds') == (if CarriesTokens(s) then s.delta.numTokens.value else NumTokens(ds))
      && TokenDelta(ds') == (if CarriesTokens(s) then s.delta.numTokens.value - NumTokens(ds) else TokenDelta(ds))
      && DecodeIters(ds') == (if s.delta.decodingIterations.Some? then s.delta.decodingIterations else DecodeIters(ds))
  {
    assert (ds + [s])[..|ds|] == ds;
  }

  /** A data chunk without content leaves the text and the timings as they were. */
  lemma AppendPlain(ds: seq<Stamped>, s: Stamped, start: int)
    requires !HasContent(s.delta)
    ensures var ds' := ds + [s];
      && Text(ds') == Text(ds)
      && FirstTokenTime(ds', start) == FirstTokenTime(ds, start)
      && LastContentTick(ds', start) == LastContentTick(ds, start)
      && Gaps(ds', start) == Gaps(ds, start)
  {
    assert (ds + [s])[..|ds|] == ds;
    assert Text(ds) + [] == Text(ds);
    assert Gaps(ds, start) + [] == Gaps(ds, start);
  }

  /** A data chunk with content extends the text and the gaps and moves the last content tick. */
  lemma AppendContent(ds: seq<Stamped>, s: Stamped, start: int)
    requires HasContent(s.delta)
    ensures var ds' := ds + [s];
      && Text(ds') == Text(ds) + s.delta.content.value
      && FirstTokenTime(ds', start) == (if FirstTokenTime(ds, start) == 0 then s.tick - start else FirstTokenTime(ds, start))
      && LastContentTick(ds', start) == s.tick
      && Gaps(ds', start) == Gaps(ds, start) + Spread(s.tick - LastContentTick(ds, start), TokenDelta(ds'))
  {
    assert (ds + [s])[..|ds|] == ds;
  }

  lemma {:induction false} DeltasAppend(a: seq<Line>, b: seq<Line>, decode: Decoder)
    ensures Deltas(a + b, decode) == Deltas(a, decode) + Deltas(b, decode)
  {
    if b == [] {
      assert a + b == a;
    } else {
      var init, last := b[..|b| - 1], b[|b| - 1];
      assert (a + b)[..|a + b| - 1] == a + init;
      assert (a + b)[|a + b| - 1] == last;
      DeltasAppend(a, init, decode);
      assert Deltas(a + b, decode) == Deltas(a, decode) + Deltas(init, decode) + Arrived(last, decode);
    }
  }

  /**
   * An error line keeps what came before it: the data chunks of all the lines
   * are those received before the first raising line followed by those from
   * that line on (none when no line raises).
   */
  lemma ReceivedBeforeRaise(lines: seq<Line>, decode: Decoder)
    ensures var n := FirstRaise(lines, decode);
      Deltas(lines, decode) == Received(lines, decode) + Deltas(lines[n..], decode)
  {
    var n := FirstRaise(lines, decode);
    var before, after := lines[..n], lines[n..];
    assert lines == before + after;
    DeltasAppend(before, after, decode);
    assert Received(lines, decode) == Deltas(before, decode);
  }

  // ---------------------------------------------------------------------------
  // A monotonic clock: every reading lies between the start and the finish,
  // and later lines are not read earlier.

  predicate LinesClocked(lines: seq<Line>, start: int, finish: int) {
    && (forall k :: 0 <= k < |lines| ==> start <= lines[k].tick <= finish)
    && (forall i, j :: 0 <= i <= j < |lines| ==> lines[i].tick <= lines[j].tick)
  }

  predicate ChunksClocked(ds: seq<Stamped>, start: int, finish: int) {
    && (forall k :: 0 <= k < |ds| ==> start <= ds[k].tick <= finish)
    && (forall i, j :: 0 <= i <= j < |ds| ==> ds[i].tick <= ds[j].tick)
  }

  /** The data chunks keep the clock order of the lines they came from. */
  lemma {:induction false} DeltasClocked(lines: seq<Line>, decode: Decoder, start: int, finish: int)
    requires LinesClocked(lines, start, finish)
    ensures ChunksClocked(Deltas(lines, decode), start, finish)
  {
    if lines != [] {
      var init, last := lines[..|lines| - 1], lines[|lines| - 1];
      assert LinesClocked(init, start, last.tick);
      DeltasClocked(init, decode, start, last.tick);
      var ds := Deltas(init, decode);
      assert Deltas(lines, decode) == ds + Arrived(last, decode);
      if Classify(last, decode).Update? {
        assert Classify(last, decode).stamped.tick == last.tick;
      }
    }
  }

  /** Under a monotonic clock the first token comes no later than the last content chunk, which comes no later than the finish. */
  lemma {:induction false} TimingsOrdered(ds: seq<Stamped>, start: int, finish: int)
    requires start <= finish
    requires ChunksClocked(ds, start, finish)
    ensures 0 <= FirstTokenTime(ds, start) <= LastContentTick(ds, start) - start <= finish - start
  {
    if ds != [] {
      var init, last := ds[..|ds| - 1], ds[|ds| - 1];
      assert ChunksClocked(init, start, last.tick);
      TimingsOrdered(init, start, last.tick);
    }
  }
}
