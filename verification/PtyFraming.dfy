/**
 * Request framing of the PTY helper: JSON lines out of arbitrarily chunked input, with a bound on the
 * length of a line. Models the stdin loop and `write_all` of images/computer/pty-helper.py.
 */
module PtyFraming {
  import opened Wrappers

  type Bytes = seq<bv8>

  const NEWLINE: bv8 := 0x0A
  const LIMIT := 262144

  // ----- framing of the whole byte stream -----

  function FirstSegment(s: Bytes): (segment: Bytes)
    ensures segment <= s && NEWLINE !in segment
    ensures |segment| < |s| ==> s[|segment|] == NEWLINE
  {
    if s == [] || s[0] == NEWLINE then [] else [s[0]] + FirstSegment(s[1..])
  }

  predicate Complete(s: Bytes) {
    |FirstSegment(s)| < |s|
  }

  function Rest(s: Bytes): Bytes
    requires Complete(s)
  {
    s[|FirstSegment(s)| + 1..]
  }

  /** The lines to handle, whether an oversized segment ends them, and the incomplete end. */
  datatype Framing = Framing(lines: seq<Bytes>, oversized: bool, buffer: Bytes)

  function Frame(s: Bytes): Framing
    decreases |s|
  {
    if |FirstSegment(s)| > LIMIT then Framing([], true, [])
    else if !Complete(s) then Framing([], false, s)
    else
      var later := Frame(Rest(s));
      Framing([FirstSegment(s)] + later.lines, later.oversized, later.buffer)
  }

  /** The framing of a stream of which `before` has been framed already. */
  function Continue(before: Framing, more: Bytes): Framing {
    if before.oversized then before
    else
      var next := Frame(before.buffer + more);
      Framing(before.lines + next.lines, next.oversized, next.buffer)
  }

  lemma {:induction false} FirstSegmentUnique(segment: Bytes, tail: Bytes)
    requires NEWLINE !in segment && (tail == [] || tail[0] == NEWLINE)
    ensures FirstSegment(segment + tail) == segment
  {
    if segment != [] {
      FirstSegmentUnique(segment[1..], tail);
      assert (segment + tail)[1..] == segment[1..] + tail;
    } else {
      assert segment + tail == tail;
    }
  }

  lemma CompleteStays(s: Bytes, t: Bytes)
    requires Complete(s)
    ensures FirstSegment(s + t) == FirstSegment(s) && Complete(s + t) && Rest(s + t) == Rest(s) + t
  {
    var segment := FirstSegment(s);
    var tail := s[|segment|..] + t;
    assert s + t == segment + tail;
    FirstSegmentUnique(segment, tail);
  }

  lemma {:induction false} SegmentGrows(s: Bytes, t: Bytes)
    requires !Complete(s)
    ensures s <= FirstSegment(s + t)
  {
    assert FirstSegment(s) == s;
    if s != [] {
      assert s[0] != NEWLINE;
      assert FirstSegment(s[1..]) == s[1..] by { FirstSegmentUnique(s[1..], []); assert s[1..] + [] == s[1..]; }
      SegmentGrows(s[1..], t);
      assert (s + t)[1..] == s[1..] + t;
    }
  }

  lemma FrameStep(s: Bytes)
    ensures |FirstSegment(s)| > LIMIT ==> Frame(s) == Framing([], true, [])
    ensures |FirstSegment(s)| <= LIMIT && !Complete(s) ==> Frame(s) == Framing([], false, s) && FirstSegment(s) == s
    ensures |FirstSegment(s)| <= LIMIT && Complete(s) ==> Frame(s) == Prepend([FirstSegment(s)], Frame(Rest(s)))
  {
  }

  function Prepend(lines: seq<Bytes>, later: Framing): Framing {
    later.(lines := lines + later.lines)
  }

  lemma PrependTwice(a: seq<Bytes>, b: seq<Bytes>, f: Framing)
    ensures Prepend(a, Prepend(b, f)) == Prepend(a + b, f) && Prepend([], f) == f
  {
    assert a + (b + f.lines) == (a + b) + f.lines && [] + f.lines == f.lines;
  }

  /** Framing a stream in two pieces is framing it at once, wherever it is cut. */
  lemma {:induction false} FrameContinues(s: Bytes, t: Bytes)
    ensures Frame(s + t) == Continue(Frame(s), t)
    decreases |s|
  {
    hide Frame;
    FrameStep(s);
    FrameStep(s + t);
    if Complete(s) {
      CompleteStays(s, t);
      if |FirstSegment(s)| <= LIMIT {
        FrameContinues(Rest(s), t);
        PrependTwice([FirstSegment(s)], Frame(Rest(s)).lines, Frame(Frame(Rest(s)).buffer + t));
      }
    } else {
      SegmentGrows(s, t);
      PrependTwice([], [], Frame(s + t));
    }
  }

  function Joined(chunks: seq<Bytes>): Bytes {
    if chunks == [] then [] else Joined(chunks[..|chunks| - 1]) + chunks[|chunks| - 1]
  }

  lemma {:induction false} FrameLinesBounded(s: Bytes)
    ensures forall line :: line in Frame(s).lines ==> |line| <= LIMIT && NEWLINE !in line
    decreases |s|
  {
    if |FirstSegment(s)| <= LIMIT && Complete(s) {
      FrameLinesBounded(Rest(s));
    }
  }

  /**
   * The handled lines are exactly the complete lines in front of the first oversized segment: the stream
   * is those lines with their newlines, then that segment, or an incomplete one within the bound.
   */
  lemma {:induction false} FrameDecomposes(s: Bytes) returns (tail: Bytes)
    ensures s == Terminated(Frame(s).lines) + tail
    ensures Frame(s).oversized ==> |FirstSegment(tail)| > LIMIT
    ensures !Frame(s).oversized ==> tail == Frame(s).buffer && NEWLINE !in tail && |tail| <= LIMIT
    decreases |s|
  {
    hide Frame, FirstSegment, Terminated;
    FrameStep(s);
    NothingTerminated();
    if |FirstSegment(s)| <= LIMIT && Complete(s) {
      tail := FrameDecomposes(Rest(s));
      var later := Frame(Rest(s));
      TerminatedCons(FirstSegment(s), later.lines);
      RestSplits(s, Terminated(later.lines), tail);
    } else {
      tail := s;
      assert [] + s == s;
    }
  }

  lemma NothingTerminated()
    ensures Terminated([]) == []
  {
  }

  lemma RestSplits(s: Bytes, head: Bytes, tail: Bytes)
    requires Complete(s) && Rest(s) == head + tail
    ensures s == (FirstSegment(s) + [NEWLINE] + head) + tail
  {
    assert s == FirstSegment(s) + [NEWLINE] + Rest(s);
  }

  lemma TerminatedCons(line: Bytes, lines: seq<Bytes>)
    ensures Terminated([line] + lines) == line + [NEWLINE] + Terminated(lines)
  {
    assert ([line] + lines)[1..] == lines;
  }

  function Terminated(lines: seq<Bytes>): Bytes {
    if lines == [] then [] else lines[0] + [NEWLINE] + Terminated(lines[1..])
  }

  // ----- the helper -----

  class Helper {
    var inputBuffer: Bytes
    var stdinOpen: bool
    var closing: bool
    /** The requests handled and the errors emitted so far. */
    var handled: seq<Bytes>
    var oversizedErrors: nat
    ghost var received: Bytes

    constructor ()
      ensures Valid() && received == [] && stdinOpen && !closing
    {
      inputBuffer, stdinOpen, closing, handled, oversizedErrors, received := [], true, false, [], 0, [];
    }

    /** Everything done so far is determined by the bytes received, not by how they were chunked. */
    ghost predicate Valid()
      reads this
    {
      var f := Frame(received);
      && handled == f.lines
      && oversizedErrors == (if f.oversized then 1 else 0)
      && (f.oversized ==> !stdinOpen && closing)
      && inputBuffer == f.buffer
    }

    /** handle_request: an action may close, and may fail without ending the loop. */
    method HandleRequest(line: Bytes) returns (closes: bool)
      modifies this`handled
      ensures handled == old(handled) + [line]
    {
      handled := handled + [line];
      closes := *;
    }

    method RejectOversized()
      modifies this`inputBuffer, this`stdinOpen, this`closing, this`oversizedErrors
      ensures inputBuffer == [] && !stdinOpen && closing && oversizedErrors == old(oversizedErrors) + 1
    {
      oversizedErrors := oversizedErrors + 1;
      closing, stdinOpen, inputBuffer := true, false, [];
    }

    /** One read of standard input; an empty chunk is its end. */
    method OnInput(chunk: Bytes)
      requires Valid() && stdinOpen
      modifies this
      ensures Valid() && received == old(received) + chunk
      ensures stdinOpen == (chunk != [] && !Frame(received).oversized)
      ensures chunk == [] ==> closing && handled == old(handled)
      ensures old(closing) ==> closing
    {
      hide Frame;
      assert received + [] == received;
      if chunk == [] {
        closing, stdinOpen := true, false;
        return;
      }
      FrameContinues(received, chunk);
      ghost var whole := Frame(received + chunk);
      inputBuffer := inputBuffer + chunk;
      while stdinOpen && |FirstSegment(inputBuffer)| < |inputBuffer|
        invariant received == old(received) && (old(closing) ==> closing)
        invariant stdinOpen ==> oversizedErrors == 0 && whole == Prepend(handled, Frame(inputBuffer))
        invariant !stdinOpen ==>
                    closing && inputBuffer == [] && oversizedErrors == 1 && whole == Framing(handled, true, [])
        decreases stdinOpen, |inputBuffer|
      {
        var line := FirstSegment(inputBuffer);
        var remainder := inputBuffer[|line| + 1..];
        FrameStep(inputBuffer);
        if |line| > LIMIT {
          assert handled + [] == handled;
          RejectOversized();
        } else {
          PrependTwice(handled, [line], Frame(remainder));
          inputBuffer := remainder;
          var closes := HandleRequest(line);
          closing := closes || closing;
        }
      }
      FrameStep(inputBuffer);
      assert handled + [] == handled;
      if |inputBuffer| > LIMIT {
        RejectOversized();
      }
      received := received + chunk;
    }
  }

  /** Any two chunkings of the same bytes handle the same lines and reject the same segment. */
  method Serve(chunks: seq<Bytes>) returns (handled: seq<Bytes>, errors: nat)
    requires forall i :: 0 <= i < |chunks| ==> chunks[i] != []
    ensures handled == Frame(Joined(chunks)).lines
    ensures errors == if Frame(Joined(chunks)).oversized then 1 else 0
  {
    var helper := new Helper();
    var i := 0;
    while i < |chunks|
      invariant i <= |chunks| && helper.Valid() && fresh(helper)
      invariant helper.handled == Frame(Joined(chunks[..i])).lines
      invariant Frame(helper.received).oversized == Frame(Joined(chunks[..i])).oversized
      invariant !Frame(helper.received).oversized ==> helper.received == Joined(chunks[..i]) && helper.stdinOpen
    {
      assert chunks[..i + 1][..i] == chunks[..i];
      FrameContinues(Joined(chunks[..i]), chunks[i]);
      if helper.stdinOpen {
        helper.OnInput(chunks[i]);
      }
      i := i + 1;
    }
    assert chunks[..|chunks|] == chunks;
    handled, errors := helper.handled, helper.oversizedErrors;
  }

  // ----- output to the terminal -----

  /** A file descriptor that may accept any part of what it is given. */
  class Terminal {
    /** When true, every write accepts something. */
    var progressing: bool
    var data: Bytes

    method Write(bytes: Bytes) returns (written: int)
      modifies this`data
      ensures written <= |bytes|
      ensures progressing && bytes != [] ==> written > 0
      ensures data == if written > 0 then old(data) + bytes[..written] else old(data)
    {
      var n: int := *;
      written := if n <= |bytes| && !(progressing && n <= 0) then n else |bytes|;
      if written > 0 { data := data + bytes[..written]; }
    }

    /** write_all: everything is written, or it fails because a write made no progress. */
    method WriteAll(bytes: Bytes) returns (ok: bool)
      modifies this`data
      ensures ok ==> data == old(data) + bytes
      ensures progressing ==> ok
      ensures exists k :: 0 <= k <= |bytes| && data == old(data) + bytes[..k]
    {
      var view := bytes;
      ghost var k := 0;
      while view != []
        invariant 0 <= k <= |bytes| && view == bytes[k..] && data == old(data) + bytes[..k]
        decreases |view|
      {
        var written := Write(view);
        if written <= 0 { return false; }
        assert bytes[..k + written] == bytes[..k] + bytes[k..][..written];
        k := k + written;
        view := view[written..];
      }
      assert bytes[..k] == bytes;
      return true;
    }
  }
}
