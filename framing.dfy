/**
 * Framing of one line of the streamed response body into the payload that is
 * handed to the JSON decoder (lookahead_client.py, lines 78-85): the line is
 * stripped of ASCII whitespace, a blank line is skipped, the first six bytes
 * (meant to be "data: ") are dropped without being looked at, and the
 * end-of-stream marker "[DONE]" is skipped.
 */
module Framing {

  /** One byte of the response body. */
  type byte = b: int | 0 <= b < 256

  /** The bytes that Python's bytes.strip() removes: space, \t, \n, \v, \f and \r. */
  predicate IsAsciiSpace(b: byte) {
    b == 32 || 9 <= b <= 13
  }

  predicate AllSpace(s: seq<byte>) {
    forall i :: 0 <= i < |s| ==> IsAsciiSpace(s[i])
  }

  /** How many whitespace bytes s starts with. */
  function LeadingSpace(s: seq<byte>): (k: nat)
    ensures k <= |s|
    ensures forall i :: 0 <= i < k ==> IsAsciiSpace(s[i])
    ensures k < |s| ==> !IsAsciiSpace(s[k])
  {
    if s == [] || !IsAsciiSpace(s[0]) then 0 else 1 + LeadingSpace(s[1..])
  }

  /** How many whitespace bytes s ends with. */
  function TrailingSpace(s: seq<byte>): (k: nat)
    ensures k <= |s|
    ensures forall i :: |s| - k <= i < |s| ==> IsAsciiSpace(s[i])
    ensures k < |s| ==> !IsAsciiSpace(s[|s| - k - 1])
  {
    if s == [] || !IsAsciiSpace(s[|s| - 1]) then 0 else 1 + TrailingSpace(s[..|s| - 1])
  }

  /** Python's bytes.strip() without arguments. */
  function Strip(s: seq<byte>): (r: seq<byte>)
    ensures |r| <= |s|
    ensures r == [] <==> AllSpace(s)
    ensures r != [] ==> !IsAsciiSpace(r[0]) && !IsAsciiSpace(r[|r| - 1])
  {
    var t := s[LeadingSpace(s)..];
    t[..|t| - TrailingSpace(t)]
  }

  lemma {:induction false} LeadingSpacePadded(pad: seq<byte>, core: seq<byte>)
    requires AllSpace(pad)
    requires core == [] || !IsAsciiSpace(core[0])
    ensures LeadingSpace(pad + core) == |pad|
  {
    if pad != [] {
      assert (pad + core)[1..] == pad[1..] + core;
      LeadingSpacePadded(pad[1..], core);
    }
  }

  lemma {:induction false} TrailingSpacePadded(core: seq<byte>, pad: seq<byte>)
    requires AllSpace(pad)
    requires core == [] || !IsAsciiSpace(core[|core| - 1])
    ensures TrailingSpace(core + pad) == |pad|
  {
    if pad != [] {
      assert (core + pad)[..|core + pad| - 1] == core + pad[..|pad| - 1];
      TrailingSpacePadded(core, pad[..|pad| - 1]);
    }
  }

  /** Strip removes exactly the surrounding whitespace and nothing else. */
  lemma StripPadded(before: seq<byte>, core: seq<byte>, after: seq<byte>)
    requires AllSpace(before) && AllSpace(after)
    requires core == [] || (!IsAsciiSpace(core[0]) && !IsAsciiSpace(core[|core| - 1]))
    ensures Strip(before + core + after) == core
  {
    var s := before + core + after;
    if core == [] {
      assert s == (before + after) + [];
      LeadingSpacePadded(before + after, []);
    } else {
      assert s == before + (core + after);
      LeadingSpacePadded(before, core + after);
      assert s[|before|..] == core + after;
      TrailingSpacePadded(core, after);
    }
  }

  /** The length of "data: ", the prefix that is dropped unchecked. */
  const DataPrefixLength := 6

  /** The bytes of "[DONE]", the end-of-stream marker. */
  const DoneMarker: seq<byte> := [91, 68, 79, 78, 69, 93]

  /** What one response line amounts to. */
  datatype Framed =
    | Blank                      // nothing but whitespace: skipped
    | Terminator                 // "[DONE]" after the prefix: skipped
    | Payload(data: seq<byte>)   // handed to the JSON decoder

  function Frame(line: seq<byte>): (f: Framed)
    ensures f.Blank? <==> AllSpace(line)
    ensures f.Payload? ==> f.data != DoneMarker
    ensures !f.Blank? && |Strip(line)| <= DataPrefixLength ==> f == Payload([])
  {
    var stripped := Strip(line);
    if stripped == [] then Blank
    else
      var rest := if |stripped| <= DataPrefixLength then [] else stripped[DataPrefixLength..];
      if rest == DoneMarker then Terminator else Payload(rest)
  }

  /**
   * A data line, whatever its six-byte header and however it is padded,
   * frames back to exactly its payload: the header is dropped, not checked.
   */
  lemma FrameDataLine(before: seq<byte>, header: seq<byte>, payload: seq<byte>, after: seq<byte>)
    requires AllSpace(before) && AllSpace(after)
    requires |header| == DataPrefixLength && !IsAsciiSpace(header[0])
    requires payload != [] && !IsAsciiSpace(payload[|payload| - 1])
    requires payload != DoneMarker
    ensures Frame(before + header + payload + after) == Payload(payload)
  {
    var core := header + payload;
    assert before + header + payload + after == before + core + after;
    StripPadded(before, core, after);
    assert core[DataPrefixLength..] == payload;
  }

  /** A "[DONE]" line, whatever its six-byte header, is skipped. */
  lemma FrameDoneLine(before: seq<byte>, header: seq<byte>, after: seq<byte>)
    requires AllSpace(before) && AllSpace(after)
    requires |header| == DataPrefixLength && !IsAsciiSpace(header[0])
    ensures Frame(before + header + DoneMarker + after) == Terminator
  {
    var core := header + DoneMarker;
    assert before + header + DoneMarker + after == before + core + after;
    StripPadded(before, core, after);
    assert core[DataPrefixLength..] == DoneMarker;
  }
}
