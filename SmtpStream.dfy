/**
 * The byte-stream helpers shared by the mailer's SMTP streams: writing a string in full
 * through a stream that may accept only part of it per call, closing the stream, and a
 * streaming find-and-replace over a sequence of chunks that finds occurrences split
 * across chunk boundaries while holding back only a short carry.
 */
module SmtpStream {
  import opened Wrappers
  import opened SmtpText
  import Php

  /** A stream resource. */
  type Handle = nat

  datatype TransportException = TransportException(message: string)

  const WRITE_ERROR: string := "Unable to write bytes on the wire."

  /**
   * The calls so far each wrote a non-empty part: the first started at 0, the `k`-th was
   * handed the unwritten suffix from `offsets[k]` and wrote up to where the next one
   * started, and the last brought the total to `total`.
   */
  predicate Chained(bytes: string, fwrite: (Handle, nat, string) -> Option<nat>, h: Handle, offsets: seq<nat>, total: nat)
    decreases |offsets|
  {
    if offsets == [] then total == 0
    else
      var k := |offsets| - 1;
      && Chained(bytes, fwrite, h, offsets[..k], offsets[k])
      && offsets[k] < |bytes| && offsets[k] < total
      && fwrite(h, k, bytes[offsets[k]..]) == Some(total - offsets[k])
  }

  /** A call that wrote `w > 0` bytes from `total` extends the chain. */
  lemma ChainedStep(bytes: string, fwrite: (Handle, nat, string) -> Option<nat>, h: Handle, offsets: seq<nat>, total: nat, w: nat)
    requires Chained(bytes, fwrite, h, offsets, total)
    requires total < |bytes| && w > 0 && fwrite(h, |offsets|, bytes[total..]) == Some(w)
    ensures Chained(bytes, fwrite, h, offsets + [total], total + w)
  {
    assert (offsets + [total])[..|offsets|] == offsets;
  }

  /**
   * A chain makes progress: the calls start at 0 and at strictly increasing offsets, all
   * below the total, so there are no more calls than bytes written.
   */
  lemma {:induction false} ChainedProgress(bytes: string, fwrite: (Handle, nat, string) -> Option<nat>, h: Handle, offsets: seq<nat>, total: nat)
    requires Chained(bytes, fwrite, h, offsets, total)
    ensures |offsets| <= total
    ensures |offsets| > 0 ==> offsets[0] == 0
    ensures forall k :: 0 <= k < |offsets| ==> offsets[k] < total
    ensures forall i, j :: 0 <= i < j < |offsets| ==> offsets[i] < offsets[j]
    decreases |offsets|
  {
    if offsets != [] {
      var k := |offsets| - 1;
      var prefix := offsets[..k];
      ChainedProgress(bytes, fwrite, h, prefix, offsets[k]);
      assert forall i :: 0 <= i < k ==> offsets[i] == prefix[i];
    }
  }

  /**
   * The write gave up at `written`: the calls before the last chained up to it, and the
   * last one, handed the suffix from there, failed or wrote nothing.
   */
  predicate StoppedAt(bytes: string, fwrite: (Handle, nat, string) -> Option<nat>, h: Handle, offsets: seq<nat>, written: nat) {
    && |offsets| > 0
    && var k := |offsets| - 1;
       && Chained(bytes, fwrite, h, offsets[..k], offsets[k])
       && offsets[k] == written < |bytes|
       && var last := fwrite(h, k, bytes[offsets[k]..]);
          last.None? || last.value == 0
  }

  /** A call from `total` that fails or writes nothing ends the chain there. */
  lemma StoppedStep(bytes: string, fwrite: (Handle, nat, string) -> Option<nat>, h: Handle, offsets: seq<nat>, total: nat)
    requires Chained(bytes, fwrite, h, offsets, total) && total < |bytes|
    requires var w := fwrite(h, |offsets|, bytes[total..]); w.None? || w.value == 0
    ensures StoppedAt(bytes, fwrite, h, offsets + [total], total)
  {
    var tried := offsets + [total];
    assert tried[..|offsets|] == offsets && tried[|offsets|] == total;
  }

  /** A stream over a socket or a process: its resource and its input and output ends. */
  class AbstractStream {
    var stream: Option<Handle>
    var input: Option<Handle>
    var output: Option<Handle>

    constructor(stream: Option<Handle>, input: Option<Handle>, output: Option<Handle>)
      ensures this.stream == stream && this.input == input && this.output == output
    {
      this.stream := stream;
      this.input := input;
      this.output := output;
    }

    /**
     * `write($bytes)`: `fwrite(h, k, data)` is what the `k`-th call on the input end `h`
     * returns when passed `data`.  `offsets` are the positions the calls started from and
     * `written` is the total the loop reached.  The write succeeds exactly when every call
     * wrote something and all bytes went out; a call that writes nothing or fails raises
     * the exception.  On a closed stream (no input end) the first `fwrite` gets null, which
     * PHP 7 answers with a warning and `false`, so any non-empty write fails the same way.
     */
    method Write(bytes: string, fwrite: (Handle, nat, string) -> Option<nat>)
      returns (r: Outcome<TransportException>, offsets: seq<nat>, written: nat)
      ensures r.Fail? ==> r.error == TransportException(WRITE_ERROR)
      ensures input.None? ==> (r.Fail? <==> |bytes| > 0) && offsets == [] && written == 0
      ensures r.Pass? ==> input.None? || Chained(bytes, fwrite, input.value, offsets, written)
      ensures r.Pass? ==> written >= |bytes| && (|bytes| == 0 ==> offsets == [])
      ensures r.Fail? && input.Some? ==> StoppedAt(bytes, fwrite, input.value, offsets, written)
    {
      var bytesToWrite := |bytes|;
      var totalBytesWritten := 0;
      offsets := [];
      if input.None? {
        if bytesToWrite > 0 {
          return Fail(TransportException(WRITE_ERROR)), offsets, totalBytesWritten;
        }
        return Pass, offsets, totalBytesWritten;
      }
      var h := input.value;
      while totalBytesWritten < bytesToWrite
        invariant Chained(bytes, fwrite, h, offsets, totalBytesWritten)
        decreases bytesToWrite - totalBytesWritten
      {
        var bytesWritten := fwrite(h, |offsets|, bytes[totalBytesWritten..]);
        if bytesWritten.None? || bytesWritten.value == 0 {
          StoppedStep(bytes, fwrite, h, offsets, totalBytesWritten);
          return Fail(TransportException(WRITE_ERROR)), offsets + [totalBytesWritten], totalBytesWritten;
        }
        var o, t := offsets + [totalBytesWritten], totalBytesWritten + bytesWritten.value;
        ChainedStep(bytes, fwrite, h, offsets, totalBytesWritten, bytesWritten.value);
        assert Chained(bytes, fwrite, h, o, t);
        offsets, totalBytesWritten := o, t;
      }
      return Pass, offsets, totalBytesWritten;
    }

    /** `terminate()`: forget the stream and both of its ends. */
    method Terminate()
      modifies this
      ensures stream.None? && input.None? && output.None?
    {
      stream, output, input := None, None, None;
    }

    /**
     * `replace($from, $to, $chunks)`: the pieces yielded, in order.  Their concatenation
     * is the concatenated chunks with `from` replaced by `to`; an empty `from` yields the
     * chunks as they are.
     */
    static method Replace(from: string, to: string, chunks: seq<string>) returns (pieces: seq<string>)
      ensures Flatten(pieces) == ReplaceAll(Flatten(chunks), from, to)
      ensures from == "" ==> pieces == chunks
      ensures from != "" ==> forall k :: 0 <= k < |pieces| ==> pieces[k] != "" || to == ""
    {
      if from == "" {
        return chunks;
      }
      var carry := "";
      pieces := [];
      assert carry + Flatten(chunks[0..]) == Flatten(chunks);
      for i := 0 to |chunks|
        invariant Flatten(pieces) + ReplaceAll(carry + Flatten(chunks[i..]), from, to) == ReplaceAll(Flatten(chunks), from, to)
        invariant FirstOccurrence(carry, from).None? && |carry| <= |from|
        invariant forall k :: 0 <= k < |pieces| ==> pieces[k] != "" || to == ""
      {
        ghost var rest := Flatten(chunks[i + 1..]);
        assert chunks[i..] == [chunks[i]] + chunks[i + 1..];
        assert carry + Flatten(chunks[i..]) == (carry + chunks[i]) + rest;
        var yielded, next := Feed(from, to, carry, chunks[i], rest);
        FlattenConcat(pieces, yielded);
        Assoc(Flatten(pieces), Flatten(yielded), ReplaceAll(next + rest, from, to));
        pieces, carry := pieces + yielded, next;
      }
      assert carry + Flatten(chunks[|chunks|..]) == carry;
      ReplaceNone(carry, from, to);
      if carry != "" {
        FlattenAppend(pieces, carry);
        pieces := pieces + [carry];
      } else {
        assert Flatten(pieces) + "" == Flatten(pieces);
      }
    }

    /**
     * One turn of `replace`'s loop: the chunk is appended to the carry, what can no longer
     * be part of an occurrence is yielded, and the last `|from|` characters at most are
     * carried to the next turn.  `rest` is the text the later chunks make up.
     */
    static method Feed(from: string, to: string, carry: string, chunk: string, ghost rest: string)
      returns (yielded: seq<string>, next: string)
      requires |from| > 0 && FirstOccurrence(carry, from).None? && |carry| <= |from|
      ensures Flatten(yielded) + ReplaceAll(next + rest, from, to) == ReplaceAll((carry + chunk) + rest, from, to)
      ensures FirstOccurrence(next, from).None? && |next| <= |from|
      ensures forall k :: 0 <= k < |yielded| ==> yielded[k] != "" || to == ""
      ensures carry + chunk == "" ==> yielded == [] && next == ""
    {
      var text := carry + chunk;
      if text == "" {
        assert text + rest == rest;
        return [], "";
      }
      var split, kept := SplitAtOccurrences(from, to, text, rest);
      var held, tail := HoldBack(from, to, kept, rest);
      FlattenConcat(split, held);
      Assoc(Flatten(split), Flatten(held), ReplaceAll(tail + rest, from, to));
      yielded, next := split + held, tail;
    }

    /**
     * The `strpos` branch of a turn: text holding `from` yields everything up to its last
     * occurrence, replaced, and keeps the piece after it; other text is kept whole.
     */
    static method SplitAtOccurrences(from: string, to: string, text: string, ghost rest: string)
      returns (yielded: seq<string>, kept: string)
      requires |from| > 0
      ensures Flatten(yielded) + ReplaceAll(kept + rest, from, to) == ReplaceAll(text + rest, from, to)
      ensures FirstOccurrence(kept, from).None?
      ensures FirstOccurrence(text, from).None? ==> yielded == [] && kept == text
      ensures forall k :: 0 <= k < |yielded| ==> |yielded[k]| >= |to|
    {
      if FirstOccurrence(text, from).Some? {
        var parts := Explode(text, from);
        kept := parts[|parts| - 1];
        var piece := Php.Implode(to, parts[..|parts| - 1]) + to;
        ExplodeReplace(text, rest, from, to);
        Emit([], piece, ReplaceAll(text + rest, from, to), ReplaceAll(kept + rest, from, to));
        yielded := [piece];
      } else {
        yielded, kept := [], text;
        assert Flatten(yielded) + ReplaceAll(kept + rest, from, to) == ReplaceAll(text + rest, from, to);
      }
    }

    /** The length check of a turn: text longer than `from` yields all but its last `|from|` characters. */
    static method HoldBack(from: string, to: string, kept: string, ghost rest: string)
      returns (yielded: seq<string>, next: string)
      requires |from| > 0 && FirstOccurrence(kept, from).None?
      ensures Flatten(yielded) + ReplaceAll(next + rest, from, to) == ReplaceAll(kept + rest, from, to)
      ensures FirstOccurrence(next, from).None? && |next| <= |from|
      ensures |kept| <= |from| ==> yielded == [] && next == kept
      ensures forall k :: 0 <= k < |yielded| ==> yielded[k] != ""
    {
      if |kept| > |from| {
        var m := |kept| - |from|;
        HoldBackReplace(kept, rest, from, to, m);
        Emit([], kept[..m], ReplaceAll(kept + rest, from, to), ReplaceAll(kept[m..] + rest, from, to));
        yielded, next := [kept[..m]], kept[m..];
      } else {
        yielded, next := [], kept;
        assert Flatten(yielded) + ReplaceAll(next + rest, from, to) == ReplaceAll(kept + rest, from, to);
      }
    }
  }
}
