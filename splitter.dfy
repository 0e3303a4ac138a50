/**
 * Document splitting (`splitYAML`). The chunk decoder is outside the model:
 * what it produces for a manifest is given as the sequence of its reads,
 * each the bytes it wrote into a 1000-byte buffer and the status it
 * returned. A `Nil` status ends a document, `ShortBuffer` says the document
 * goes on, and any other status ends the stream.
 */
module Splitter {
  import opened Wrappers
  import opened Text

  /** Size of the buffer `splitYAML` hands to every read. */
  const ChunkSize: nat := 1000

  /** The NUL character the fresh buffer is filled with. */
  const Nul: set<char> := {'\0'}

  /** The error when no YAML document decoder can be made for the text. */
  const NoDecoder := "unable to create a yaml decoder"

  type Chunk = s: string | |s| <= ChunkSize

  /** What a read returned besides its byte count: `nil`, `io.ErrShortBuffer`, `io.EOF` or another error. */
  datatype Status = Nil | ShortBuffer | Eof | ReadError(message: string)

  /** One call of the decoder's `Read`: the bytes it wrote and its status. */
  datatype Read = Read(data: Chunk, status: Status)

  /** The statuses under which `splitYAML` reads again. */
  predicate Continues(s: Status) {
    s == Nil || s == ShortBuffer
  }

  /** Reads beyond the given ones are empty end-of-stream reads. */
  function ReadAt(stream: seq<Read>, i: nat): Read {
    if i < |stream| then stream[i] else Read("", Eof)
  }

  /** `n` NUL characters. */
  function Zeros(n: nat): (z: string)
    ensures |z| == n && forall k :: 0 <= k < n ==> z[k] == '\0'
  {
    seq(n, _ => '\0')
  }

  /** The buffer after a read: its bytes, then the NULs the decoder did not overwrite. */
  function Buffer(r: Read): (b: string)
    ensures |b| == ChunkSize && b[..|r.data|] == r.data
  {
    r.data + Zeros(ChunkSize - |r.data|)
  }

  /** What a read adds to the current document: the whole buffer, but only when a byte was read. */
  function Appended(r: Read): string {
    if |r.data| > 0 then Buffer(r) else []
  }

  /** Number of document boundaries (`Nil` stream) before the read that ends the stream. */
  function Boundaries(stream: seq<Read>): nat {
    if stream == [] || !Continues(stream[0].status) then 0
    else (if stream[0].status == Nil then 1 else 0) + Boundaries(stream[1..])
  }

  /** The untrimmed documents: every read adds to the current one, and a `Nil` read opens the next. */
  function Buffers(stream: seq<Read>): (docs: seq<string>)
    ensures |docs| == 1 + Boundaries(stream)
  {
    if stream == [] then [""]
    else
      var r := stream[0];
      if r.status == Nil then [Appended(r)] + Buffers(stream[1..])
      else if r.status == ShortBuffer then
        var rest := Buffers(stream[1..]);
        [Appended(r) + rest[0]] + rest[1..]
      else [Appended(r)]
  }

  /** The documents `splitYAML` returns: each buffer with the NULs at both ends trimmed off. */
  function Documents(stream: seq<Read>): (docs: seq<string>)
    ensures |docs| == 1 + Boundaries(stream)
  {
    var b := Buffers(stream);
    seq(|b|, k requires 0 <= k < |b| => Trim(b[k], Nul))
  }

  /** The pieces of text the decoder delivered, grouped by document, without any padding. */
  function Texts(stream: seq<Read>): (docs: seq<string>)
    ensures |docs| == 1 + Boundaries(stream)
  {
    if stream == [] then [""]
    else
      var r := stream[0];
      if r.status == Nil then [r.data] + Texts(stream[1..])
      else if r.status == ShortBuffer then
        var rest := Texts(stream[1..]);
        [r.data + rest[0]] + rest[1..]
      else [r.data]
  }

  /**
   * The decoder's contract for `io.ErrShortBuffer`: it only returns it after
   * filling the whole buffer.
   */
  predicate FullShortReads(stream: seq<Read>) {
    forall k :: 0 <= k < |stream| && stream[k].status == ShortBuffer ==> |stream[k].data| == ChunkSize
  }

  /** Buffers so far, a flag telling whether the last one is still open, and the buffers still to come. */
  ghost function Merge(done: seq<string>, open: bool, rest: seq<string>): seq<string>
    requires open ==> |done| >= 1
    requires |rest| >= 1
  {
    if open then done[..|done| - 1] + [done[|done| - 1] + rest[0]] + rest[1..] else done + rest
  }

  /** The buffers once `a` is appended to the open buffer, or becomes a new one. */
  ghost function Extend(done: seq<string>, open: bool, a: string): (r: seq<string>)
    requires open ==> |done| >= 1
    ensures |r| >= 1
  {
    if open then done[..|done| - 1] + [done[|done| - 1] + a] else done + [a]
  }

  /** A read that continues the open document moves into the buffers so far. */
  lemma MergeContinue(done: seq<string>, open: bool, a: string, x: string, y: seq<string>)
    requires open ==> |done| >= 1
    ensures Merge(done, open, [a + x] + y) == Merge(Extend(done, open, a), true, [x] + y)
  {
    var e := Extend(done, open, a);
    if open {
      var n := |done|;
      assert e[..|e| - 1] == done[..n - 1];
      assert done[n - 1] + (a + x) == (done[n - 1] + a) + x;
    } else {
      assert e[..|e| - 1] == done;
    }
  }

  /** A read that ends the document closes it in the buffers so far. */
  lemma MergeClose(done: seq<string>, open: bool, a: string, y: seq<string>)
    requires open ==> |done| >= 1
    requires y != []
    ensures Merge(done, open, [a] + y) == Merge(Extend(done, open, a), false, y)
  {
  }

  /** A read that ends the stream leaves nothing to come. */
  lemma MergeLast(done: seq<string>, open: bool, a: string)
    requires open ==> |done| >= 1
    ensures Merge(done, open, [a]) == Extend(done, open, a)
  {
  }

  /** The update of the current document in one turn of the loop of `splitYAML`. */
  lemma Appending(before: seq<string>, ind: nat, rd: Read)
    requires |before| == ind || |before| == ind + 1
    ensures var data := if |before| == 0 || |before| <= ind then before + [""] else before;
      var after := if |rd.data| > 0 then data[ind := data[ind] + Buffer(rd)] else data;
      after == Extend(before, |before| == ind + 1, Appended(rd))
  {
    var data := if |before| == 0 || |before| <= ind then before + [""] else before;
    var current := data[ind];
    assert data == data[..ind] + [current];
    assert data[..ind] == before[..ind];
    if |before| == ind {
      assert before[..ind] == before && "" + Appended(rd) == Appended(rd);
    }
    if |rd.data| == 0 {
      assert current + [] == current;
    }
  }

  /** One turn of the loop of `splitYAML`, stated on the buffers so far and those to come. */
  lemma Advance(stream: seq<Read>, i: nat, before: seq<string>, open: bool)
    requires i <= |stream| && (open ==> |before| >= 1)
    requires Merge(before, open, Buffers(stream[i..])) == Buffers(stream)
    ensures var rd := ReadAt(stream, i);
      var e := Extend(before, open, Appended(rd));
      (rd.status == ShortBuffer ==> i < |stream| && Merge(e, true, Buffers(stream[i + 1..])) == Buffers(stream)) &&
      (rd.status == Nil ==> i < |stream| && Merge(e, false, Buffers(stream[i + 1..])) == Buffers(stream)) &&
      (!Continues(rd.status) ==> e == Buffers(stream))
  {
    var rd := ReadAt(stream, i);
    var a := Appended(rd);
    if i < |stream| {
      assert stream[i..][0] == rd && stream[i..][1..] == stream[i + 1..];
      var next := Buffers(stream[i + 1..]);
      if rd.status == ShortBuffer {
        MergeContinue(before, open, a, next[0], next[1..]);
        assert [next[0]] + next[1..] == next;
      } else if rd.status == Nil {
        MergeClose(before, open, a, next);
      } else {
        MergeLast(before, open, a);
      }
    } else {
      assert stream[i..] == [];
      MergeLast(before, open, a);
    }
  }

  /**
   * `splitYAML`: reads until a status other than `nil` or `io.ErrShortBuffer`,
   * appending each read's buffer to the current document and starting a new
   * document after every `nil` read; then trims NULs from every document.
   */
  method SplitYaml(decoder: Option<seq<Read>>) returns (r: Result<seq<string>, string>)
    ensures decoder.None? ==> r == Failure(NoDecoder)
    ensures decoder.Some? ==> r == Success(Documents(decoder.value))
  {
    if decoder.None? {
      return Failure(NoDecoder);
    }
    var stream := decoder.value;
    var data: seq<string> := [];
    var ind := 0;
    var i := 0;
    var status := Nil;
    while Continues(status)
      invariant |data| == ind || |data| == ind + 1
      invariant Continues(status) ==> i <= |stream|
      invariant Continues(status) ==> Merge(data, |data| == ind + 1, Buffers(stream[i..])) == Buffers(stream)
      invariant !Continues(status) ==> data == Buffers(stream)
      decreases if Continues(status) then |stream| + 1 - i else 0
    {
      var rd := ReadAt(stream, i);
      ghost var open := |data| == ind + 1;
      ghost var before := data;
      // the buffer `make([]byte, 1000)` once the decoder has written `n` bytes into it
      var d := Buffer(rd);
      if |data| == 0 || |data| <= ind {
        data := data + [""];
      }
      if |rd.data| > 0 {
        data := data[ind := data[ind] + d];
      }
      Appending(before, ind, rd);
      Advance(stream, i, before, open);
      status := rd.status;
      if status == Nil {
        ind := ind + 1;
      }
      i := i + 1;
    }
    var docs := TrimAll(data);
    assert docs == Documents(stream);
    return Success(docs);
  }

  /** The closing loop of `splitYAML`: every document with its NULs trimmed off, in order. */
  method TrimAll(data: seq<string>) returns (docs: seq<string>)
    ensures |docs| == |data|
    ensures forall k :: 0 <= k < |data| ==> docs[k] == Trim(data[k], Nul)
  {
    var result := new string[|data|];
    for k := 0 to |data|
      invariant forall j :: 0 <= j < k ==> result[j] == Trim(data[j], Nul)
    {
      result[k] := Trim(data[k], Nul);
    }
    docs := result[..];
  }

  /** There is one document more than there are `nil` reads before the end of the stream. */
  lemma DocumentCount(stream: seq<Read>)
    ensures |Documents(stream)| == 1 + Boundaries(stream)
  {
  }

  /** No returned document begins or ends with a NUL. */
  lemma DocumentsHaveNoNulEnds(stream: seq<Read>)
    ensures forall k :: 0 <= k < |Documents(stream)| ==>
      var d := Documents(stream)[k];
      d == [] || (d[0] != '\0' && d[|d| - 1] != '\0')
  {
    var b := Buffers(stream);
    forall k | 0 <= k < |b|
      ensures var d := Documents(stream)[k]; d == [] || (d[0] != '\0' && d[|d| - 1] != '\0')
    {
      TrimEnds(b[k], Nul);
    }
  }

  /** `b` is `t` followed by NULs only. */
  predicate PaddedFrom(b: string, t: string) {
    |t| <= |b| && b[..|t|] == t && forall k :: |t| <= k < |b| ==> b[k] == '\0'
  }

  /** When the decoder keeps its contract, each buffer is its document's text padded with NULs. */
  lemma {:induction false} BuffersArePaddedTexts(stream: seq<Read>)
    requires FullShortReads(stream)
    ensures forall k :: 0 <= k < |Buffers(stream)| ==> PaddedFrom(Buffers(stream)[k], Texts(stream)[k])
  {
    if stream != [] {
      var r := stream[0];
      assert FullShortReads(stream[1..]) by {
        forall k | 0 <= k < |stream[1..]| && stream[1..][k].status == ShortBuffer
          ensures |stream[1..][k].data| == ChunkSize
        {
          assert stream[1..][k] == stream[k + 1];
        }
      }
      assert PaddedFrom(Appended(r), r.data);
      if Continues(r.status) {
        BuffersArePaddedTexts(stream[1..]);
      }
      if r.status == ShortBuffer {
        var b := Buffers(stream[1..]);
        var t := Texts(stream[1..]);
        assert Appended(r) == r.data;
        assert PaddedFrom(b[0], t[0]);
        assert (r.data + b[0])[..|r.data + t[0]|] == r.data + t[0];
        assert PaddedFrom(r.data + b[0], r.data + t[0]);
        assert Buffers(stream)[1..] == b[1..] && Texts(stream)[1..] == t[1..];
      }
    }
  }

  /**
   * When the decoder keeps its contract, the documents do not depend on how
   * the decoder cut the text into chunks: each is its text with NULs trimmed.
   */
  lemma DocumentsAreTrimmedTexts(stream: seq<Read>)
    requires FullShortReads(stream)
    ensures |Documents(stream)| == |Texts(stream)|
    ensures forall k :: 0 <= k < |Texts(stream)| ==> Documents(stream)[k] == Trim(Texts(stream)[k], Nul)
  {
    BuffersArePaddedTexts(stream);
    var b := Buffers(stream);
    var t := Texts(stream);
    forall k | 0 <= k < |t|
      ensures Documents(stream)[k] == Trim(t[k], Nul)
    {
      assert b[k] == t[k] + b[k][|t[k]|..];
      TrimIgnoresPadding(t[k], b[k][|t[k]|..], Nul);
    }
  }
}
