/**
 * LookaheadClient.llm_request (lookahead_client.py, lines 18-142): one
 * streamed chat-completions request, its chunk-by-chunk bookkeeping and the
 * metrics record it returns. The HTTP transport and the clock are inputs.
 */
module LookaheadClient {
  import opened Wrappers
  import opened Framing
  import opened Request
  import opened Stream

  /** The two fields of request_config.prompt, the model and the sampling parameters. */
  datatype RequestConfig = RequestConfig(
    prompt: string,
    promptLen: int,
    model: string,
    samplingParams: Option<map<string, Json>>)

  /** What the transport did with the request. */
  datatype Transport =
    | ConnectionFailed   // requests.post raised: connection error or timeout
    | Response(status: int, text: string, lines: seq<Line>)

  /** The request that is sent. */
  datatype HttpRequest = HttpRequest(address: string, headers: map<string, string>, body: map<string, Json>)

  /** The metrics dictionary, one field per key. */
  datatype Metrics = Metrics(
    errorCode: Option<int>,
    errorMsg: string,
    interTokenLatency: real,
    ttft: int,
    e2eLatency: int,
    outputThroughput: real,
    numTotalTokens: int,
    numOutputTokens: int,
    numInputTokens: int,
    lookaheadAcceptance: Option<real>)

  datatype Outcome =
    | ConfigError(message: string)   // the ValueError raised before the request
    | Completed(request: HttpRequest, metrics: Metrics, generatedText: string)

  /** requests' raise_for_status (line 76): only client and server errors raise, so 200 never does. */
  predicate RaisesForStatus(status: int)
    ensures RaisesForStatus(status) ==> status != 200
  {
    400 <= status < 600
  }

  /** The lookahead acceptance ratio, None when decode_iters is None or 0. */
  function Acceptance(numTokens: int, decodeIters: Option<int>): (r: Option<real>)
    ensures r.None? <==> decodeIters.None? || decodeIters.value == 0
    ensures r.Some? ==> r.value * decodeIters.value as real == numTokens as real
  {
    if decodeIters.Some? && decodeIters.value != 0
    then Some(numTokens as real / decodeIters.value as real)
    else None
  }

  /**
   * Lines 90-91: the error message and code after the chunk that stopped the
   * loop. The message is read first; a missing message or code is a KeyError
   * that leaves the rest as it was.
   */
  function Captured(chunk: Chunk, msg: string, code: int): (r: (string, int))
    ensures r.0 == if chunk.ErrorChunk? && chunk.message.Some? then chunk.message.value else msg
    ensures r.1 == if chunk.ErrorChunk? && chunk.message.Some? && chunk.code.Some? then chunk.code.value else code
  {
    match chunk
    case ErrorChunk(Some(m), Some(c)) => (m, c)
    case ErrorChunk(Some(m), None) => (m, code)
    case _ => (msg, code)
  }

  /** The local variables the loop updates from each data chunk. */
  datatype Tally = Tally(
    ttft: int,
    tokensReceived: int,
    numTokensReceived: int,
    decodeIters: Option<int>,
    mostRecent: int,               // most_recent_received_token_time
    generatedText: string,
    timeToNextToken: seq<real>)

  /** What the tally holds after the given data chunks, by the reference functions. */
  function Summary(ds: seq<Stamped>, start: int): Tally {
    Tally(FirstTokenTime(ds, start), TokenDelta(ds), NumTokens(ds), DecodeIters(ds),
          LastContentTick(ds, start), Text(ds), Gaps(ds, start))
  }

  /** The tally before the first line (lines 34-36, 49, 63-64). */
  function InitialTally(start: int): (t: Tally)
    ensures t == Summary([], start)
  {
    Tally(0, 0, 0, None, start, "", [])
  }

  /** Lines 96-102: the trt_metrics of one data chunk update the token counts and decode_iters. */
  method ReadTrtMetrics(t: Tally, delta: Delta, tick: int, start: int, ghost ds: seq<Stamped>) returns (u: Tally)
    requires t == Summary(ds, start)
    ensures var ds' := ds + [Stamped(delta, tick)];
      u == t.(tokensReceived := TokenDelta(ds'), numTokensReceived := NumTokens(ds'), decodeIters := DecodeIters(ds'))
  {
    AppendCounts(ds, Stamped(delta, tick));
    u := t;
    if delta.decodingIterations.Some? {
      u := u.(decodeIters := delta.decodingIterations);
    }
    if delta.numTokens.Some? {
      u := u.(tokensReceived := delta.numTokens.value - u.numTokensReceived, numTokensReceived := delta.numTokens.value);
    }
  }

  /**
   * Lines 105-115: a content chunk read at `tick` sets ttft if it is still
   * unset and yields the time_to_next_token entries for its tokens.
   */
  method TimeEntries(ttft: int, tokensReceived: int, mostRecent: int, tick: int, start: int)
    returns (ttft': int, entries: seq<real>)
    ensures ttft' == if ttft == 0 then tick - start else ttft
    ensures entries == Spread(if ttft == 0 then tick - start else tick - mostRecent, tokensReceived)
  {
    if ttft == 0 {
      ttft' := tick - start;
      if tokensReceived > 1 {
        entries := Repeat(ttft' as real / tokensReceived as real, tokensReceived);
      } else {
        entries := [ttft' as real];
      }
    } else {
      ttft' := ttft;
      var elapsed := tick - mostRecent;
      if tokensReceived > 1 {
        entries := Repeat(elapsed as real / tokensReceived as real, tokensReceived);
      } else {
        entries := [elapsed as real];
      }
    }
  }

  /** The tally after a data chunk, in terms of the tally before it, with the counts already moved. */
  lemma SummaryStep(ds: seq<Stamped>, s: Stamped, start: int)
    ensures var ds' := ds + [s];
      var counted := Summary(ds, start).(tokensReceived := TokenDelta(ds'), numTokensReceived := NumTokens(ds'),
                                         decodeIters := DecodeIters(ds'));
      Summary(ds', start) ==
        if HasContent(s.delta) then
          counted.(ttft := if counted.ttft == 0 then s.tick - start else counted.ttft,
                   timeToNextToken := counted.timeToNextToken + Spread(s.tick - LastContentTick(ds, start), TokenDelta(ds')),
                   mostRecent := s.tick, generatedText := counted.generatedText + s.delta.content.value)
        else counted
  {
    if HasContent(s.delta) {
      AppendContent(ds, s, start);
    } else {
      AppendPlain(ds, s, start);
    }
  }

  /** Lines 104-117: the content of one data chunk updates ttft, the gaps and the text. */
  method ReadContent(t: Tally, delta: Delta, tick: int, start: int, ghost ds: seq<Stamped>) returns (u: Tally)
    requires var ds' := ds + [Stamped(delta, tick)];
      t == Summary(ds, start).(tokensReceived := TokenDelta(ds'), numTokensReceived := NumTokens(ds'), decodeIters := DecodeIters(ds'))
    ensures u == Summary(ds + [Stamped(delta, tick)], start)
  {
    SummaryStep(ds, Stamped(delta, tick), start);
    u := t;
    if delta.content.Some? && delta.content.value != "" {
      if t.ttft == 0 {
        UnsetMeansNoTimeElapsed(ds, start);
      }
      var ttft, entries := TimeEntries(t.ttft, t.tokensReceived, t.mostRecent, tick, start);
      u := t.(ttft := ttft, timeToNextToken := t.timeToNextToken + entries,
              mostRecent := tick, generatedText := t.generatedText + delta.content.value);
    }
  }

  /** Lines 94-117: the update made by one data chunk read at the given tick. */
  method Absorb(t: Tally, delta: Delta, tick: int, start: int, ghost ds: seq<Stamped>) returns (u: Tally)
    requires t == Summary(ds, start)
    ensures u == Summary(ds + [Stamped(delta, tick)], start)
  {
    u := ReadTrtMetrics(t, delta, tick, start, ds);
    u := ReadContent(u, delta, tick, start, ds);
  }

  /** The state of llm_request once the loop is over. */
  datatype StreamResult = StreamResult(tally: Tally, errorMsg: string, errorCode: int, raised: bool)

  /** Lines 78-117 for one line: skip it, absorb its data chunk, or capture its error and stop. */
  method ReadLine(line: Line, decode: Decoder, start: int, t: Tally, ghost ds: seq<Stamped>, msg: string, code: int)
    returns (r: StreamResult)
    requires t == Summary(ds, start)
    ensures r.raised <==> Classify(line, decode).Raise?
    ensures !r.raised ==> r.errorMsg == msg && r.errorCode == code
    ensures !r.raised ==> r.tally == Summary(ds + Arrived(line, decode), start)
    ensures r.raised ==> r.tally == t
    ensures r.raised ==> (r.errorMsg, r.errorCode) == Captured(Classify(line, decode).chunk, msg, code)
  {
    match Classify(line, decode) {
    case Skip =>
      assert ds + Arrived(line, decode) == ds;
      r := StreamResult(t, msg, code, false);
    case Raise(chunk) =>
      var errorMsg, errorCode := msg, code;
      if chunk.ErrorChunk? && chunk.message.Some? {
        errorMsg := chunk.message.value;
        if chunk.code.Some? {
          errorCode := chunk.code.value;
        }
      }
      r := StreamResult(t, errorMsg, errorCode, true);
    case Update(stamped) =>
      var u := Absorb(t, stamped.delta, stamped.tick, start, ds);
      r := StreamResult(u, msg, code, false);
    }
  }

  /** The loop over the response lines, lines 77-122. */
  method ConsumeStream(lines: seq<Line>, decode: Decoder, start: int, errorMsg0: string, errorCode0: int)
    returns (r: StreamResult)
    ensures r.raised <==> FirstRaise(lines, decode) < |lines|
    ensures r.tally == Summary(Received(lines, decode), start)
    ensures !r.raised ==> r.errorMsg == errorMsg0 && r.errorCode == errorCode0
    ensures r.raised ==>
      (r.errorMsg, r.errorCode) == Captured(Classify(lines[FirstRaise(lines, decode)], decode).chunk, errorMsg0, errorCode0)
  {
    var tally := InitialTally(start);
    var i := 0;
    assert lines[..0] == [];
    while i < |lines|
      invariant 0 <= i <= FirstRaise(lines, decode)
      invariant tally == Summary(Deltas(lines[..i], decode), start)
    {
      var step := ReadLine(lines[i], decode, start, tally, Deltas(lines[..i], decode), errorMsg0, errorCode0);
      if step.raised {
        FirstRaiseFound(lines, decode, i);
        return StreamResult(tally, step.errorMsg, step.errorCode, true);
      }
      DeltasStep(lines, decode, i);
      FirstRaiseNotYet(lines, decode, i);
      tally := step.tally;
      i := i + 1;
    }
    assert lines[..i] == lines;
    r := StreamResult(tally, errorMsg0, errorCode0, false);
  }

  /** The error message and code once the stream is over, starting from the given ones. */
  function StreamError(lines: seq<Line>, decode: Decoder, msg0: string, code0: int): (r: (string, int))
    ensures FirstRaise(lines, decode) == |lines| ==> r == (msg0, code0)
    ensures FirstRaise(lines, decode) < |lines| && !Classify(lines[FirstRaise(lines, decode)], decode).chunk.ErrorChunk? ==>
      r == (msg0, code0)
  {
    var n := FirstRaise(lines, decode);
    if n < |lines| then Captured(Classify(lines[n], decode).chunk, msg0, code0) else (msg0, code0)
  }

  /**
   * Lines 127-140 when the exception comes before the first line is read:
   * the error is reported, every time and the throughput stay 0, no token
   * was received and there is no acceptance ratio.
   */
  function FailedBeforeStream(code: int, msg: string, promptLen: int): (m: Metrics)
    ensures m.errorCode == Some(code) && m.errorMsg == msg
    ensures m.interTokenLatency == 0.0 && m.ttft == 0 && m.e2eLatency == 0 && m.outputThroughput == 0.0
    ensures m.numOutputTokens == 0 && m.numInputTokens == promptLen
    ensures m.numTotalTokens == m.numOutputTokens + m.numInputTokens
    ensures m.lookaheadAcceptance == Acceptance(m.numOutputTokens, None)
  {
    Metrics(Some(code), msg, 0.0, 0, 0, 0.0, promptLen, 0, promptLen, None)
  }

  /**
   * llm_request. The server is the function `respond`; `start` and `finish`
   * are the clock readings of lines 48 and 124, and each line carries the
   * reading taken when it was processed.
   */
  method LlmRequest(config: RequestConfig, env: Environment, respond: HttpRequest -> Transport,
                    decode: Decoder, start: int, finish: int)
    returns (o: Outcome)
    ensures Configure(env).Failure? ==> o == ConfigError(Configure(env).error)
    ensures Configure(env).Success? ==>
      o.Completed? &&
      o.request == HttpRequest(Configure(env).value.address, Configure(env).value.headers,
                               RequestBody(config.model, config.prompt, config.samplingParams))
    ensures o.Completed? && respond(o.request).ConnectionFailed? ==>
      o.metrics == FailedBeforeStream(-1, "", config.promptLen) && o.generatedText == ""
    ensures o.Completed? && respond(o.request).Response? && RaisesForStatus(respond(o.request).status) ==>
      o.metrics == FailedBeforeStream(respond(o.request).status, respond(o.request).text, config.promptLen) &&
      o.generatedText == ""
    ensures o.Completed? && respond(o.request).Response? && !RaisesForStatus(respond(o.request).status) ==>
      var reply := respond(o.request);
      var ds := Received(reply.lines, decode);
      var raised := FirstRaise(reply.lines, decode) < |reply.lines|;
      var failed := raised || finish == start;
      var (msg0, code0) := if reply.status == 200 then ("", -1) else (reply.text, reply.status);
      var (msg, code) := StreamError(reply.lines, decode, msg0, code0);
      && o.generatedText == Text(ds)
      && o.metrics.ttft == FirstTokenTime(ds, start)
      && o.metrics.interTokenLatency == (LastContentTick(ds, start) - start) as real
      && o.metrics.numOutputTokens == NumTokens(ds)
      && o.metrics.numTotalTokens == NumTokens(ds) + config.promptLen
      && o.metrics.numInputTokens == config.promptLen
      && o.metrics.lookaheadAcceptance == Acceptance(NumTokens(ds), DecodeIters(ds))
      && o.metrics.errorCode == (if failed then Some(code) else None)
      && o.metrics.errorMsg == (if failed then msg else "")
      && o.metrics.e2eLatency == (if raised then 0 else finish - start)
      && o.metrics.outputThroughput == (if failed then 0.0 else NumTokens(ds) as real / (finish - start) as real)
  {
    var body := RequestBody(config.model, config.prompt, config.samplingParams);
    var target := Configure(env);
    if target.Failure? {
      return ConfigError(target.error);
    }
    var request := HttpRequest(target.value.address, target.value.headers, body);
    var errorResponseCode := -1;
    var errorMsg := "";
    var tally := InitialTally(start);
    var outputThroughput := 0.0;
    var totalRequestTime := 0;
    var failed := false;
    match respond(request) {
    case ConnectionFailed =>
      failed := true;
    case Response(status, text, lines) =>
      if status != 200 {
        errorMsg := text;
        errorResponseCode := status;
        failed := RaisesForStatus(status);
      }
      if !failed {
        var r := ConsumeStream(lines, decode, start, errorMsg, errorResponseCode);
        tally, errorMsg, errorResponseCode, failed := r.tally, r.errorMsg, r.errorCode, r.raised;
        GapsTelescope(Received(lines, decode), start);
        if !failed {
          totalRequestTime := finish - start;
          if totalRequestTime == 0 {
            failed := true;   // the ZeroDivisionError of line 125
          } else {
            outputThroughput := tally.numTokensReceived as real / totalRequestTime as real;
          }
        }
      }
    }
    var metrics := Metrics(
      if failed then Some(errorResponseCode) else None,
      if failed then errorMsg else "",
      Sum(tally.timeToNextToken),
      tally.ttft,
      totalRequestTime,
      outputThroughput,
      tally.numTokensReceived + config.promptLen,
      tally.numTokensReceived,
      config.promptLen,
      Acceptance(tally.numTokensReceived, tally.decodeIters));
    o := Completed(request, metrics, tally.generatedText);
  }

  /**
   * Under a monotonic clock 0 <= TTFT <= INTER_TOKEN_LAT <= finish - start.
   * When no line raised, finish - start is E2E_LAT, so the metrics are
   * ordered, and the comment at line 133 ("should be same as E2E_LAT") holds
   * exactly when the last content chunk is read at the finish reading. After
   * a raising line E2E_LAT is 0 instead; see ErrorAfterContent.
   */
  lemma MetricsOrdered(lines: seq<Line>, decode: Decoder, start: int, finish: int)
    requires start <= finish && LinesClocked(lines, start, finish)
    ensures var ds := Received(lines, decode);
      && 0 <= FirstTokenTime(ds, start)
      && FirstTokenTime(ds, start) as real <= Sum(Gaps(ds, start)) <= (finish - start) as real
      && (Sum(Gaps(ds, start)) == (finish - start) as real <==> LastContentTick(ds, start) == finish)
  {
    var prefix := lines[..FirstRaise(lines, decode)];
    assert LinesClocked(prefix, start, finish);
    DeltasClocked(prefix, decode, start, finish);
    TimingsOrdered(Received(lines, decode), start, finish);
    GapsTelescope(Received(lines, decode), start);
  }

  /** The bytes of "data: ". */
  const DataHeader: seq<byte> := [100, 97, 116, 97, 58, 32]

  /** A server that sends a content chunk for the payload [1] and an error chunk for anything else. */
  function ContentThenErrorDecoder(): Decoder {
    p => if p == [1] then DataChunk(Delta(Some("a"), None, None)) else ErrorChunk(Some("e"), Some(500))
  }

  /** A data line carrying the payload [1], read at clock 5, and one carrying [2], read at clock 6. */
  const ContentLine := Line(DataHeader + [1], 5)
  const ErrorLine := Line(DataHeader + [2], 6)

  lemma ContentLineUpdates()
    ensures Classify(ContentLine, ContentThenErrorDecoder()) == Update(Stamped(Delta(Some("a"), None, None), 5))
  {
    FrameDataLine([], DataHeader, [1], []);
    assert [] + DataHeader + [1] + [] == ContentLine.raw;
  }

  lemma ErrorLineRaises()
    ensures Classify(ErrorLine, ContentThenErrorDecoder()) == Raise(ErrorChunk(Some("e"), Some(500)))
  {
    FrameDataLine([], DataHeader, [2], []);
    assert [] + DataHeader + [2] + [] == ErrorLine.raw;
  }

  /** The content line and the error line are read in clock order between 0 and 10. */
  lemma ContentThenErrorClocked()
    ensures LinesClocked([ContentLine, ErrorLine], 0, 10)
  {
    var lines := [ContentLine, ErrorLine];
    assert lines[0].tick == 5 && lines[1].tick == 6;
  }

  /** The loop over the content line and the error line stops at the error line. */
  lemma ContentThenErrorStops()
    ensures FirstRaise([ContentLine, ErrorLine], ContentThenErrorDecoder()) == 1
  {
    var lines := [ContentLine, ErrorLine];
    ContentLineUpdates();
    ErrorLineRaises();
    assert lines[0] == ContentLine && lines[1..] == [ErrorLine];
    assert FirstRaise([ErrorLine], ContentThenErrorDecoder()) == 0;
  }

  /**
   * After a raising line INTER_TOKEN_LAT can exceed E2E_LAT: a content chunk
   * read at clock 5 and an error chunk at clock 6, with start 0 and finish 10,
   * give INTER_TOKEN_LAT 5 by LlmRequest's contract, while E2E_LAT is 0
   * because a line raised.
   */
  lemma ErrorAfterContent()
    ensures var lines := [ContentLine, ErrorLine];
      var decode := ContentThenErrorDecoder();
      && LinesClocked(lines, 0, 10)
      && FirstRaise(lines, decode) == 1 < |lines|
      && (LastContentTick(Received(lines, decode), 0) - 0) as real == 5.0
  {
    var decode := ContentThenErrorDecoder();
    var lines := [ContentLine, ErrorLine];
    ContentThenErrorClocked();
    ContentThenErrorStops();
    ContentLineUpdates();
    DeltasStep(lines, decode, 0);
    assert lines[..0] == [] && lines[0] == ContentLine;
    var s := Stamped(Delta(Some("a"), None, None), 5);
    assert Received(lines, decode) == [] + [s];
  }
}
