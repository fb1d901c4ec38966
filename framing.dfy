/**
 * Stream framing: `MessageStreamReader` accumulates the bytes read from a
 * reliable channel and cuts out one frame per `Decode` call at a delimiter.
 * The delimiter search (`CoderHelper.CheckForDelimiter`) is the first index
 * at which a fixed, non-empty delimiter sequence starts, or -1. A frame is
 * the bytes before that index; slicing drops the frame and its delimiter.
 */
module Framing {
  import opened Wrappers

  type Byte = bv8

  /** `d` starts at index `j` of `s`. */
  predicate OccursAt(s: seq<Byte>, d: seq<Byte>, j: int) {
    0 <= j && j + |d| <= |s| && s[j..j + |d|] == d
  }

  /** The first index at or after `from` where `d` starts in `s`, or -1. */
  function FindFrom(s: seq<Byte>, d: seq<Byte>, from: nat): (r: int)
    requires from <= |s|
    ensures r == -1 || (from <= r && OccursAt(s, d, r))
    ensures forall j :: from <= j && (r == -1 || j < r) ==> !OccursAt(s, d, j)
    decreases |s| - from
  {
    if OccursAt(s, d, from) then from
    else if from == |s| then -1
    else FindFrom(s, d, from + 1)
  }

  /** `CoderHelper.CheckForDelimiter`: the first index where `d` starts in `s`, or -1. */
  function CheckForDelimiter(s: seq<Byte>, d: seq<Byte>): int {
    FindFrom(s, d, 0)
  }

  /**
   * What repeated decoding makes of `s`: the frames cut out in order, and the
   * bytes left over once no delimiter remains.
   */
  function Split(s: seq<Byte>, d: seq<Byte>): (seq<seq<Byte>>, seq<Byte>)
    requires |d| > 0
    decreases |s|
  {
    var i := CheckForDelimiter(s, d);
    if i == -1 then ([], s)
    else
      var (frames, leftover) := Split(s[i + |d|..], d);
      ([s[..i]] + frames, leftover)
  }

  /** The bytes of `frames`, each followed by the delimiter. */
  function Join(frames: seq<seq<Byte>>, d: seq<Byte>): seq<Byte> {
    if frames == [] then [] else frames[0] + d + Join(frames[1..], d)
  }

  /** `f` is a well-formed frame: the first occurrence of `d` in `f + d` is the appended one. */
  predicate FrameIsClean(f: seq<Byte>, d: seq<Byte>) {
    CheckForDelimiter(f + d, d) == |f|
  }

  /** A delimiter found in a prefix is still the first one once more bytes arrive. */
  lemma FoundInPrefix(p: seq<Byte>, t: seq<Byte>, d: seq<Byte>)
    requires CheckForDelimiter(p, d) != -1
    ensures CheckForDelimiter(p + t, d) == CheckForDelimiter(p, d)
  {
    var i := CheckForDelimiter(p, d);
    var k := CheckForDelimiter(p + t, d);
    assert (p + t)[i..i + |d|] == p[i..i + |d|];
    assert OccursAt(p + t, d, i);
    if k < i {
      assert (p + t)[k..k + |d|] == p[k..k + |d|];
      assert OccursAt(p, d, k);
    }
  }

  /**
   * Feeding one more byte to a buffer without a delimiter: if a delimiter is
   * found now, it ends at the new byte, so the buffer is empty after slicing.
   */
  lemma FoundAtEnd(b: seq<Byte>, x: Byte, d: seq<Byte>)
    requires |d| > 0 && CheckForDelimiter(b, d) == -1
    requires CheckForDelimiter(b + [x], d) != -1
    ensures CheckForDelimiter(b + [x], d) + |d| == |b| + 1
  {
    var i := CheckForDelimiter(b + [x], d);
    if i + |d| < |b| + 1 {
      assert (b + [x])[i..i + |d|] == b[i..i + |d|];
      assert OccursAt(b, d, i);
    }
  }

  /**
   * When the byte `x` completes a delimiter, the frame cut out is the first
   * frame of the whole stream, and splitting goes on from the bytes after it.
   */
  lemma SplitAtCompletedFrame(b: seq<Byte>, x: Byte, pending: seq<Byte>, d: seq<Byte>)
    requires |d| > 0 && CheckForDelimiter(b, d) == -1
    requires CheckForDelimiter(b + [x], d) != -1
    ensures var p := b + [x];
            var i := CheckForDelimiter(p, d);
            && p[i + |d|..] == []
            && Split(p + pending, d).0 == [p[..i]] + Split(p[i + |d|..] + pending, d).0
  {
    var p := b + [x];
    var i := CheckForDelimiter(p, d);
    FoundAtEnd(b, x, d);
    FoundInPrefix(p, pending, d);
    assert (p + pending)[..i] == p[..i];
    assert p[i + |d|..] == [];
    assert (p + pending)[i + |d|..] == p[i + |d|..] + pending;
  }

  /**
   * Byte-at-a-time decoding: starting from buffer `b`, each byte of `rest`
   * is appended and at most one frame is cut out after it.
   */
  function Feed(b: seq<Byte>, rest: seq<Byte>, d: seq<Byte>): seq<seq<Byte>>
    decreases |rest|
  {
    if rest == [] then []
    else
      var p := b + [rest[0]];
      var i := CheckForDelimiter(p, d);
      if i == -1 then Feed(p, rest[1..], d)
      else [p[..i]] + Feed(p[i + |d|..], rest[1..], d)
  }

  /** One step of `Feed`: the byte is appended, and a frame is cut out when a delimiter is found. */
  lemma FeedStep(b: seq<Byte>, rest: seq<Byte>, d: seq<Byte>)
    requires rest != []
    ensures var p := b + [rest[0]];
            var i := CheckForDelimiter(p, d);
            && (i == -1 ==> Feed(b, rest, d) == Feed(p, rest[1..], d))
            && (i != -1 ==> Feed(b, rest, d) == [p[..i]] + Feed(p[i + |d|..], rest[1..], d))
  {
  }

  /**
   * Feeding the stream byte by byte yields the same frames as splitting the
   * buffer and the rest of the stream as a whole.
   */
  lemma {:induction false} FeedSplits(b: seq<Byte>, rest: seq<Byte>, d: seq<Byte>)
    requires |d| > 0 && CheckForDelimiter(b, d) == -1
    ensures Feed(b, rest, d) == Split(b + rest, d).0
    decreases |rest|
  {
    if rest == [] {
      assert b + rest == b;
    } else {
      var x, pending := rest[0], rest[1..];
      var p := b + [x];
      assert b + rest == p + pending;
      var i := CheckForDelimiter(p, d);
      if i == -1 {
        FeedSplits(p, pending, d);
      } else {
        SplitAtCompletedFrame(b, x, pending, d);
        assert CheckForDelimiter(p[i + |d|..], d) == -1;
        FeedSplits(p[i + |d|..], pending, d);
      }
    }
  }

  /** Framing round trip: splitting the joined frames gives them back and leaves nothing over. */
  lemma {:induction false} SplitJoin(frames: seq<seq<Byte>>, d: seq<Byte>)
    requires |d| > 0
    requires forall k :: 0 <= k < |frames| ==> FrameIsClean(frames[k], d)
    ensures Split(Join(frames, d), d) == (frames, [])
  {
    if frames != [] {
      var f := frames[0];
      var rest := Join(frames[1..], d);
      assert Join(frames, d) == (f + d) + rest;
      assert FrameIsClean(f, d);
      FoundInPrefix(f + d, rest, d);
      assert (f + d + rest)[..|f|] == f;
      assert (f + d + rest)[|f| + |d|..] == rest;
      SplitJoin(frames[1..], d);
      assert [f] + frames[1..] == frames;
    }
  }

  /** The reader of the reliable stream. */
  class MessageStreamReader {
    const delimiter: seq<Byte>
    var buffer: seq<Byte>

    constructor (delimiter: seq<Byte>)
      requires |delimiter| > 0
      ensures this.delimiter == delimiter && buffer == []
    {
      this.delimiter := delimiter;
      buffer := [];
    }

    /** Appends the bytes read; a null array is ignored. */
    method Add(bytes: Option<seq<Byte>>)
      modifies this`buffer
      ensures buffer == if bytes.None? then old(buffer) else old(buffer) + bytes.value
    {
      if bytes.None? { return; }
      buffer := buffer + bytes.value;
    }

    /**
     * Cuts out at most one frame. Without a delimiter in the buffer it returns
     * null and keeps the buffer; otherwise it returns the first frame of the
     * buffer and keeps what follows its delimiter.
     */
    method Decode() returns (container: Option<seq<Byte>>)
      requires |delimiter| > 0
      modifies this`buffer
      ensures container.None? <==> CheckForDelimiter(old(buffer), delimiter) == -1
      ensures container.None? ==> buffer == old(buffer)
      ensures container.Some? ==>
                var i := CheckForDelimiter(old(buffer), delimiter);
                container.value == old(buffer)[..i] && buffer == old(buffer)[i + |delimiter|..]
      ensures container.Some? ==> old(buffer) == container.value + delimiter + buffer
    {
      var delimiterIndex := CheckForDelimiter(buffer, delimiter);
      if delimiterIndex != -1 {
        container := Some(buffer[..delimiterIndex]);
        assert buffer == buffer[..delimiterIndex] + delimiter + buffer[delimiterIndex + |delimiter|..];
        buffer := buffer[delimiterIndex + |delimiter|..];
        return;
      }
      container := None;
    }
  }

  /**
   * One round of the partial-stream test: the byte `x` is added and `Decode`
   * is called once; what it yields is the start of what feeding `x` and the
   * bytes `more` still to come would yield.
   */
  method FeedOne(reader: MessageStreamReader, x: Byte, ghost more: seq<Byte>) returns (yielded: seq<seq<Byte>>)
    requires |reader.delimiter| > 0
    modifies reader`buffer
    ensures yielded + Feed(reader.buffer, more, reader.delimiter)
            == Feed(old(reader.buffer), [x] + more, reader.delimiter)
  {
    ghost var before := reader.buffer;
    reader.Add(Some([x]));
    var container := reader.Decode();
    FeedStep(before, [x] + more, reader.delimiter);
    assert ([x] + more)[0] == x && ([x] + more)[1..] == more;
    yielded := if container.Some? then [container.value] else [];
  }

  /**
   * The partial-stream test: `data` is fed to a fresh reader one byte at a
   * time and `Decode` is called after every byte. The frames it yields are
   * exactly those of decoding `data` as a whole, and nothing is left behind
   * that a later `Decode` could still return.
   */
  method FeedByteAtATime(delimiter: seq<Byte>, data: seq<Byte>) returns (frames: seq<seq<Byte>>)
    requires |delimiter| > 0
    ensures frames == Split(data, delimiter).0
  {
    var reader := new MessageStreamReader(delimiter);
    frames := [];
    var position := 0;
    while position < |data|
      invariant 0 <= position <= |data|
      invariant reader.delimiter == delimiter
      invariant frames + Feed(reader.buffer, data[position..], delimiter) == Feed([], data, delimiter)
    {
      assert data[position..] == [data[position]] + data[position + 1..];
      var yielded := FeedOne(reader, data[position], data[position + 1..]);
      frames := frames + yielded;
      position := position + 1;
    }
    assert data[position..] == [] && frames + [] == frames;
    FeedSplits([], data, delimiter);
    assert [] + data == data;
  }

  /**
   * Several frames written back to back and fed one byte at a time come back
   * as the same frames, in order.
   */
  method StreamFrames(delimiter: seq<Byte>, written: seq<seq<Byte>>) returns (frames: seq<seq<Byte>>)
    requires |delimiter| > 0
    requires forall k :: 0 <= k < |written| ==> FrameIsClean(written[k], delimiter)
    ensures frames == written
  {
    SplitJoin(written, delimiter);
    frames := FeedByteAtATime(delimiter, Join(written, delimiter));
  }
}
