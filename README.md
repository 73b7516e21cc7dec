# LookaheadClient.llm_request in Dafny

This project models the request routine of llmperf's lookahead client
(`LookaheadClient.llm_request` in `src/llmperf/ray_clients/lookahead_client.py`).
The routine sends one streamed chat-completions request, reads the
server-sent-event lines of the response and turns them into the metrics record
of one benchmark request. It covers:

- the JSON body, with the sampling parameters merged over the defaults;
- the chat-completions address and bearer header, built from `OPENAI_API_BASE`
  and `OPENAI_API_KEY`;
- the framing of each response line: strip, skip blank lines, drop the six
  `data: ` bytes without looking at them, skip `[DONE]`;
- the per-chunk bookkeeping of `tokens_received`, `num_tokens_received`,
  `decode_iters`, `ttft`, `time_to_next_token` and `generated_text`;
- the capture of error chunks and of HTTP errors;
- the final metrics record.

Layout:

- `wrappers.dfy` — `Option` and `Result`.
- `framing.dfy` (module `Framing`) — `bytes.strip()` and the framing of a line
  into `Blank`, `Terminator` or `Payload`.
- `request.dfy` (module `Request`) — the body, the address and the environment
  checks.
- `stream.dfy` (module `Stream`) — decoded chunks, the per-line event, and the
  reference functions. Each reference function gives the value of one loop
  variable after a sequence of data chunks. The lemmas about them are here too.
- `client.dfy` (module `LookaheadClient`) — the imperative part:
  - the loop `ConsumeStream`, with its per-line step `ReadLine`;
  - the per-chunk update `Absorb`, split after the source into `ReadTrtMetrics`
    (lines 96-102) and `ReadContent` (lines 104-117);
  - `LlmRequest` itself.

Each method is proved against the reference functions. The loop invariant is
`tally == Summary(Deltas(lines[..i]), start)`: the seven loop variables equal
the reference functions of the data chunks read so far.

How time is modelled. `time.monotonic()` becomes integer clock readings:

- `start` is the reading of line 48.
- `finish` is the reading of line 124.
- Each line carries one reading, which stands for every reading taken while
  that line is handled.

`most_recent_received_token_time` starts at `start`. Its first value (line 49)
is never read: the first content chunk goes through the `not ttft` branch
first, and line 116 overwrites it there. Times and ratios are exact reals.

Two results about time:

- `Stream.GapsTelescope`: the sum of `time_to_next_token` is the time from the
  start to the last content chunk. It holds even when a content chunk read at
  the start reading leaves `ttft` unset.
- `LookaheadClient.MetricsOrdered`: under a monotonic clock,
  0 <= TTFT <= INTER_TOKEN_LAT <= finish - start. When no line raised,
  finish - start is E2E_LAT, so 0 <= TTFT <= INTER_TOKEN_LAT <= E2E_LAT.
  INTER_TOKEN_LAT then equals E2E_LAT, as the comment at line 133 expects,
  exactly when the last content chunk is read at the finish reading.
- `LookaheadClient.ErrorAfterContent`: after a raising line the order breaks.
  Line 124 is skipped, so E2E_LAT stays 0, but INTER_TOKEN_LAT keeps the time
  to the last content chunk. Example: a content chunk at clock 5, then an error
  chunk at clock 6, with start 0 and finish 10. INTER_TOKEN_LAT is 5 and
  E2E_LAT is 0, against the comment at line 133.

## Model

| member | source | states |
|---|---|---|
| Framing.LeadingSpace | src/llmperf/ray_clients/lookahead_client.py:78 | the leading run of whitespace that `strip()` removes: all space, and maximal |
| Framing.TrailingSpace | src/llmperf/ray_clients/lookahead_client.py:78 | the trailing run of whitespace that `strip()` removes: all space, and maximal |
| Framing.Strip | src/llmperf/ray_clients/lookahead_client.py:78-80 | the stripped line is empty exactly when the line is all whitespace; otherwise it starts and ends with a non-space byte |
| Framing.LeadingSpacePadded | src/llmperf/ray_clients/lookahead_client.py:78 | whitespace padding before a core that starts with a non-space byte is exactly what is stripped at the front |
| Framing.TrailingSpacePadded | src/llmperf/ray_clients/lookahead_client.py:78 | whitespace padding after a core that ends with a non-space byte is exactly what is stripped at the back |
| Framing.StripPadded | src/llmperf/ray_clients/lookahead_client.py:78 | stripping whitespace padding off both sides of a core with non-space ends gives back the core |
| Framing.Frame | src/llmperf/ray_clients/lookahead_client.py:78-85 | a line is skipped as blank exactly when it is all whitespace; a payload is never `[DONE]`; a stripped line of at most six bytes yields the empty payload |
| Framing.FrameDataLine | src/llmperf/ray_clients/lookahead_client.py:82-87 | a padded line made of any six-byte header and a payload other than `[DONE]` frames to exactly that payload (the header is not checked) |
| Framing.FrameDoneLine | src/llmperf/ray_clients/lookahead_client.py:84-85 | a padded line made of any six-byte header and `[DONE]` is skipped |
| Request.RequestBody | src/llmperf/ray_clients/lookahead_client.py:22-33 | the body holds model, the single user message with the prompt, and stream = true; every sampling parameter overrides or extends these; None or an empty map leaves the defaults |
| Request.Endpoint | src/llmperf/ray_clients/lookahead_client.py:57-61 | an empty base fails with "No host provided."; otherwise the address is the base, then one `/` exactly when the base had none, then `chat/completions` |
| Request.EndpointSlashInsensitive | src/llmperf/ray_clients/lookahead_client.py:59-61 | a base with and without its trailing `/` give the same address |
| Request.Configure | src/llmperf/ray_clients/lookahead_client.py:50-61 | a missing or empty API base, and then a missing or empty key, fail with their own ValueError messages, before any request; "No host provided." never occurs; otherwise the address is the endpoint and the header is `Bearer <key>` |
| Stream.Classify | src/llmperf/ray_clients/lookahead_client.py:78-94 | (definition) one line is skipped when blank or `[DONE]`; its payload updates the loop when it decodes to a data chunk, and raises otherwise |
| Stream.ClassifyCases | src/llmperf/ray_clients/lookahead_client.py:78-94 | a line is skipped exactly when it is blank or `[DONE]`, updates exactly when its payload decodes to a data chunk (stamped with the line's clock), and otherwise raises with the decoded chunk |
| Stream.ShortLineRaises | src/llmperf/ray_clients/lookahead_client.py:83-87 | when the decoder rejects the empty payload, as json.loads(b"") does, a non-blank line of at most six bytes after stripping raises |
| Stream.FirstRaise | src/llmperf/ray_clients/lookahead_client.py:87-92 | the index at which the loop stops is within the lines, and the line there raises (an error chunk or an undecodable payload) |
| Stream.FirstRaiseIsFirst | src/llmperf/ray_clients/lookahead_client.py:77-92 | no line before that index raises |
| Stream.FirstRaiseNotYet | src/llmperf/ray_clients/lookahead_client.py:77-92 | a line that does not raise, at or before the stop index, lies strictly before it |
| Stream.FirstRaiseFound | src/llmperf/ray_clients/lookahead_client.py:89-92 | a raising line at or before the stop index is the stop index |
| Stream.DeltasStep | src/llmperf/ray_clients/lookahead_client.py:77-87 | reading one more line adds its data chunk, if it is one, to the chunks processed |
| Stream.DeltasAppend | src/llmperf/ray_clients/lookahead_client.py:77-87 | the data chunks of two runs of lines put together are the chunks of each, in order |
| Stream.ReceivedBeforeRaise | src/llmperf/ray_clients/lookahead_client.py:89-92 | the data chunks of all the lines split at the first raising line: those the loop processed, then those after it, which the raise leaves unread |
| Stream.NumTokensWithoutCarrier | src/llmperf/ray_clients/lookahead_client.py:100-102 | with no chunk that carries num_tokens, num_tokens_received and tokens_received stay 0 |
| Stream.NumTokensLastCarrier | src/llmperf/ray_clients/lookahead_client.py:100-102 | num_tokens_received is the num_tokens of the last chunk that carries one, and tokens_received is its difference from the value before that chunk |
| Stream.CarriedDeltasTotal | src/llmperf/ray_clients/lookahead_client.py:100-102 | the tokens_received values of the carrying chunks add up to num_tokens_received |
| Stream.DecodeItersLastWrite | src/llmperf/ray_clients/lookahead_client.py:98-99 | decode_iters is the last num_decoding_iterations seen |
| Stream.DecodeItersNeverSeen | src/llmperf/ray_clients/lookahead_client.py:98-99 | decode_iters is None exactly when no chunk carried num_decoding_iterations |
| Stream.TextAppend | src/llmperf/ray_clients/lookahead_client.py:117 | the generated text of two runs of chunks is the concatenation of their texts |
| Stream.TextOfSingle | src/llmperf/ray_clients/lookahead_client.py:104-117 | one chunk contributes its content when that is non-empty, and nothing otherwise |
| Stream.TextWithoutContent | src/llmperf/ray_clients/lookahead_client.py:104-122 | chunks with no or empty content leave the text empty, the gap list empty, ttft 0, and the last content time at the start |
| Stream.FirstTokenTimeZero | src/llmperf/ray_clients/lookahead_client.py:105-106 | ttft stays 0 exactly when every content chunk was read at the start reading (`not ttft` treats 0 as unset) |
| Stream.FirstTokenTimeSettled | src/llmperf/ray_clients/lookahead_client.py:105-106 | once ttft is non-zero, no later chunk changes it |
| Stream.FirstTokenTimeAt | src/llmperf/ray_clients/lookahead_client.py:105-106 | ttft is the delay of the first content chunk read after the start reading |
| Stream.UnsetMeansNoTimeElapsed | src/llmperf/ray_clients/lookahead_client.py:105-116 | while ttft is unset, the last content chunk (if any) was read at the start reading |
| Stream.LastContentTickLast | src/llmperf/ray_clients/lookahead_client.py:116 | most_recent_received_token_time is the clock reading of the last chunk with content |
| Stream.GapsLength | src/llmperf/ray_clients/lookahead_client.py:107-115 | each content chunk adds tokens_received entries to time_to_next_token when that is above 1 and exactly one otherwise, so the list has at least one entry per content chunk |
| Stream.SumAppend | src/llmperf/ray_clients/lookahead_client.py:133 | the sum of two lists put together is the sum of their sums |
| Stream.SumRepeat | src/llmperf/ray_clients/lookahead_client.py:108 | `[x] * n` sums to n·x |
| Stream.SpreadTotal | src/llmperf/ray_clients/lookahead_client.py:107-115 | the entries one content chunk adds sum to the elapsed time they split, for every tokens_received |
| Stream.GapsTelescope | src/llmperf/ray_clients/lookahead_client.py:104-133 | INTER_TOKEN_LAT, the sum of time_to_next_token, is the time from the start to the last content chunk |
| Stream.AppendCounts | src/llmperf/ray_clients/lookahead_client.py:96-102 | how num_tokens_received, tokens_received and decode_iters move when one chunk is appended |
| Stream.AppendPlain | src/llmperf/ray_clients/lookahead_client.py:104-122 | a chunk without content changes neither the text, ttft, the last content time nor the gap list |
| Stream.AppendContent | src/llmperf/ray_clients/lookahead_client.py:104-117 | a content chunk appends its content, sets ttft only if it was 0, moves the last content time to its reading, and appends the time since the previous content chunk, split over tokens_received |
| Stream.DeltasClocked | src/llmperf/ray_clients/lookahead_client.py:77-117 | data chunks keep the clock order and bounds of the lines they came from |
| Stream.TimingsOrdered | src/llmperf/ray_clients/lookahead_client.py:105-116 | under a monotonic clock, 0 <= ttft <= time to the last content chunk <= finish - start |
| LookaheadClient.RaisesForStatus | src/llmperf/ray_clients/lookahead_client.py:73-76 | raise_for_status raises for 400-599 only, so never for 200; a 2xx/3xx status other than 200 keeps reading the stream |
| LookaheadClient.Captured | src/llmperf/ray_clients/lookahead_client.py:89-92 | the message is taken when the error chunk has one; the code only when it has both; otherwise the KeyError leaves the message and code as they were |
| LookaheadClient.StreamError | src/llmperf/ray_clients/lookahead_client.py:89-92 | the error message and code after the loop are the ones before it when no line raised or the raising line was not an error chunk |
| LookaheadClient.FailedBeforeStream | src/llmperf/ray_clients/lookahead_client.py:127-140 | an exception before the first line reports its error code and message, zero times and throughput, no output tokens, total = input tokens, and no acceptance ratio |
| LookaheadClient.Acceptance | src/llmperf/ray_clients/lookahead_client.py:140 | LOOKAHEAD_ACCEPTANCE is None exactly when decode_iters is None or 0; otherwise multiplying it by decode_iters gives num_tokens_received |
| LookaheadClient.InitialTally | src/llmperf/ray_clients/lookahead_client.py:34-64 | the loop variables start as the reference functions of no chunks |
| LookaheadClient.ReadTrtMetrics | src/llmperf/ray_clients/lookahead_client.py:96-102 | after the trt_metrics of a chunk, decode_iters and both token counts equal the reference functions with that chunk appended; nothing else changes |
| LookaheadClient.TimeEntries | src/llmperf/ray_clients/lookahead_client.py:105-115 | ttft is set only when it was 0; the new entries split the time since the start (first token) or since the previous content chunk over tokens_received when that is above 1 |
| LookaheadClient.SummaryStep | src/llmperf/ray_clients/lookahead_client.py:104-117 | the reference tally after a chunk: with content, ttft is set only from 0, the split gap is appended, the last content time moves to the chunk and the text grows; without content nothing but the counts moves |
| LookaheadClient.ReadContent | src/llmperf/ray_clients/lookahead_client.py:104-117 | after the content step, all loop variables equal the reference functions with the chunk appended |
| LookaheadClient.Absorb | src/llmperf/ray_clients/lookahead_client.py:94-117 | one data chunk takes the loop variables from the reference values of the chunks before it to those of the chunks including it |
| LookaheadClient.ReadLine | src/llmperf/ray_clients/lookahead_client.py:78-117 | a line stops the loop exactly when it raises; then the loop variables are unchanged and the error message and code are captured from the error chunk (message first, then code); otherwise its data chunk, if any, is absorbed and the error is unchanged |
| LookaheadClient.ConsumeStream | src/llmperf/ray_clients/lookahead_client.py:77-122 | the loop raises exactly when some line raises; the loop variables hold the reference values of the data chunks before the first raising line; the error message and code are those captured from that line, or unchanged |
| LookaheadClient.LlmRequest | src/llmperf/ray_clients/lookahead_client.py:18-142 | the environment error comes first; the request is the endpoint, header and body; a failed connection or a 4xx/5xx status gives ERROR_CODE (-1 or the status), zero latencies and no tokens; otherwise TTFT, INTER_TOKEN_LAT, tokens, text and acceptance follow the received chunks; ERROR_CODE is None exactly when no line raised and time elapsed; E2E_LAT and throughput are 0 after an exception |
| LookaheadClient.MetricsOrdered | src/llmperf/ray_clients/lookahead_client.py:133-135 | under a monotonic clock 0 <= TTFT <= INTER_TOKEN_LAT <= finish - start, which is E2E_LAT when no line raised; INTER_TOKEN_LAT = finish - start exactly when the last content chunk is read at the finish |
| LookaheadClient.ErrorAfterContent | src/llmperf/ray_clients/lookahead_client.py:124-135 | for a content line at clock 5 followed by an error line at clock 6 (start 0, finish 10), a line raises and INTER_TOKEN_LAT is 5; since E2E_LAT is 0 after a raise, INTER_TOKEN_LAT > E2E_LAT on the error path |

## Left out

- The HTTP transport (`requests.post`, `iter_lines`, the 180 s timeout) is a
  function from the request to `ConnectionFailed` or to a status, a text and
  the response lines. An error raised while the lines are being read is not
  modelled.
- `os.environ` is the `Environment` input.
- `json.loads` and the look-ups `data["error"]["message"]`,
  `data["error"]["code"]` and `data["choices"][0]["delta"]` are the `Decoder`
  input. The decoder yields an error chunk with an optional message and
  code, a data chunk, or `Undecodable`. JSON values of unexpected types, such
  as a non-integer `num_tokens` or non-string content, are not modelled.
- `time.monotonic()` becomes integer clock readings (see above). A chunk that
  takes several readings is modelled with one.
- Floating point is modelled as exact reals: `ttft / tokens_received`,
  `output_throughput` and the acceptance ratio carry no rounding. The
  ZeroDivisionError of line 125, when no time elapsed, is modelled: it takes
  the exception path.
- `ray.remote` concurrency and the `print` calls of lines 130-131 are left out.
- The `request_config` element of the returned tuple is left out; it is the
  caller's own input.
- `common_metrics` is not part of this model. The metric keys are fields of
  `Metrics`.
