/** A stream bounded by bytes, cut off the moment its budget is gone. */
module BoundedSink {
  type Byte = b: int | 0 <= b < 256

  /** A byte budget; a caller may say that there is none. */
  datatype Limit = Unbounded | AtMost(bytes: nat)

  predicate Over(limit: Limit, all: seq<Byte>) {
    limit.AtMost? && |all| > limit.bytes
  }

  /** What is kept of a stream: its first bytes, up to the limit. */
  function Retained(limit: Limit, all: seq<Byte>): seq<Byte> {
    if Over(limit, all) then all[..limit.bytes] else all
  }

  function Concat(chunks: seq<seq<Byte>>): seq<Byte> {
    if chunks == [] then [] else Concat(chunks[..|chunks| - 1]) + chunks[|chunks| - 1]
  }

  lemma ConcatAppend(chunks: seq<seq<Byte>>, chunk: seq<Byte>)
    ensures Concat(chunks + [chunk]) == Concat(chunks) + chunk
  {
    assert (chunks + [chunk])[..|chunks|] == chunks;
  }

  class Sink {
    const limit: Limit
    var chunks: seq<seq<Byte>>
    var size: nat
    var cutOff: bool
    var seen: nat
    /** Everything the stream ever carried. */
    ghost var all: seq<Byte>

    ghost predicate Valid()
      reads this
    {
      && Concat(chunks) == Retained(limit, all)
      && size == |Concat(chunks)|
      && seen == |all|
      && cutOff == Over(limit, all)
    }

    constructor (limit: Limit)
      ensures Valid() && this.limit == limit && all == []
    {
      this.limit := limit;
      chunks, size, cutOff, seen, all := [], 0, false, 0, [];
    }

    /** `true` the first time the limit is exceeded, and never again. */
    method Append(chunk: seq<Byte>) returns (overflowed: bool)
      requires Valid()
      modifies this
      ensures Valid() && all == old(all) + chunk
      ensures overflowed == (!Over(limit, old(all)) && Over(limit, all))
    {
      all := all + chunk;
      seen := seen + |chunk|;
      if cutOff {
        assert Retained(limit, all) == Retained(limit, old(all));
        return false;
      }
      if limit.Unbounded? || |chunk| <= limit.bytes - size {
        ConcatAppend(chunks, chunk);
        chunks := chunks + [chunk];
        size := size + |chunk|;
        return false;
      }
      var remaining := limit.bytes - size;
      if remaining > 0 {
        ConcatAppend(chunks, chunk[..remaining]);
        chunks := chunks + [chunk[..remaining]];
        size := limit.bytes;
      }
      assert Retained(limit, all) == old(all) + chunk[..remaining];
      cutOff := true;
      return true;
    }

    /** What the caller is handed, and how much there was. */
    method Report() returns (text: seq<Byte>, truncated: bool, observed: nat)
      requires Valid()
      ensures text == Retained(limit, all) && truncated == Over(limit, all) && observed == |all|
      ensures |text| == if truncated then limit.bytes else observed
    {
      return Concat(chunks), cutOff, seen;
    }
  }
}
