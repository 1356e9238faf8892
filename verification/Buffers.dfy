// The two bounded output buffers of the executor (internal/exec/kubeexec.go).
module Buffers {
  type Bytes = seq<bv8>

  function Max0(n: int): nat { if n <= 0 then 0 else n }

  // The first and the last `limit` bytes of everything written, a limit below zero
  // counting as zero.
  function Head(s: Bytes, limit: int): Bytes { if |s| <= Max0(limit) then s else s[..Max0(limit)] }

  function Tail(s: Bytes, limit: int): Bytes { if |s| <= Max0(limit) then s else s[|s| - Max0(limit)..] }

  // Keeps the head of the stream; used for command output and file reads.
  class CapBuffer {
    var buf: Bytes
    const limit: int
    var truncated: bool
    ghost var written: Bytes

    ghost predicate Valid()
      reads this
    {
      buf == Head(written, limit) && (truncated <==> |written| > Max0(limit))
    }

    constructor (limit: int)
      ensures Valid() && this.limit == limit && written == []
    {
      this.limit := limit;
      buf, truncated, written := [], false, [];
    }

    method Write(p: Bytes) returns (n: nat)
      requires Valid()
      modifies this
      ensures Valid() && n == |p| && written == old(written) + p
    {
      n := |p|;
      written := written + p;
      if limit <= 0 {
        truncated := truncated || |p| > 0;
        return;
      }
      var remaining := limit - |buf|;
      if remaining > 0 {
        if |p| <= remaining {
          buf := buf + p;
        } else {
          buf := buf + p[..remaining];
          truncated := true;
        }
      } else if |p| > 0 {
        truncated := true;
      }
    }
  }

  // Keeps the tail of the stream; used for job logs.
  class TailBuffer {
    var buf: Bytes
    const limit: int
    var truncated: bool
    ghost var written: Bytes

    ghost predicate Valid()
      reads this
    {
      buf == Tail(written, limit) && (truncated <==> |written| > Max0(limit))
    }

    constructor (limit: int)
      ensures Valid() && this.limit == limit && written == []
    {
      this.limit := limit;
      buf, truncated, written := [], false, [];
    }

    method Write(p: Bytes) returns (n: nat)
      requires Valid()
      modifies this
      ensures Valid() && n == |p| && written == old(written) + p
    {
      n := |p|;
      TailAfterWrite(written, p, limit);
      written := written + p;
      if limit <= 0 {
        truncated := truncated || |p| > 0;
        return;
      }
      buf := buf + p;
      if |buf| > limit {
        truncated := true;
        buf := buf[|buf| - limit..];
      }
    }
  }

  // Trimming after each write gives what trimming once at the end would.
  lemma TailAfterWrite(s: Bytes, p: Bytes, limit: int)
    ensures Tail(Tail(s, limit) + p, limit) == Tail(s + p, limit)
  {
  }

  // ---- Chunking does not matter ------------------------------------------------

  function Concat(chunks: seq<Bytes>): Bytes
  {
    if chunks == [] then [] else Concat(chunks[..|chunks| - 1]) + chunks[|chunks| - 1]
  }

  // What a capped stream, and a log poll, hand on after the remote end wrote `chunks`.
  method Capture(chunks: seq<Bytes>, limit: int) returns (head: Bytes, tail: Bytes, cut: bool)
    ensures head == Head(Concat(chunks), limit) && tail == Tail(Concat(chunks), limit)
    ensures cut <==> |Concat(chunks)| > Max0(limit)
    ensures head <= Concat(chunks) && tail == Concat(chunks)[|Concat(chunks)| - |tail|..]
    ensures |head| == |tail| && if cut then |head| == Max0(limit) else head == tail == Concat(chunks)
  {
    var capped := new CapBuffer(limit);
    var tailed := new TailBuffer(limit);
    for i := 0 to |chunks|
      invariant capped.Valid() && tailed.Valid() && capped.limit == tailed.limit == limit
      invariant capped.written == tailed.written == Concat(chunks[..i])
    {
      assert chunks[..i + 1][..i] == chunks[..i];
      var _ := capped.Write(chunks[i]);
      var _ := tailed.Write(chunks[i]);
    }
    assert chunks[..|chunks|] == chunks;
    return capped.buf, tailed.buf, capped.truncated;
  }

  const FILE_READ_LIMIT := 5 * 1024 * 1024

  const COMMAND_OUTPUT_LIMIT := 1024 * 1024

  // How a command's stream ended: by itself, with a failing exit code, or cut off.
  datatype Ending = Fine | Exited(code: int) | Broken

  datatype FileRead = Content(bytes: Bytes) | CatFailed(code: int, message: Bytes) | StreamFailed | TooLarge

  // A file is read whole or not at all: a failing command, a broken stream and one byte
  // over the cap are errors, and what had arrived by then is not handed on.
  method ReadFile(chunks: seq<Bytes>, errors: seq<Bytes>, ending: Ending) returns (r: FileRead)
    ensures r == match ending
      case Exited(code) => CatFailed(code, Head(Concat(errors), 1024 * 1024))
      case Broken => StreamFailed
      case Fine => if |Concat(chunks)| > 5 * 1024 * 1024 then TooLarge else Content(Concat(chunks))
  {
    var out, _, cut := Capture(chunks, FILE_READ_LIMIT);
    var message, _, _ := Capture(errors, COMMAND_OUTPUT_LIMIT);
    if ending.Exited? { return CatFailed(ending.code, message); }
    if ending.Broken? { return StreamFailed; }
    if cut { return TooLarge; }
    return Content(out);
  }
}
