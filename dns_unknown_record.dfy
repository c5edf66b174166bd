/** net.straylightlabs.hola.dns.UnknownRecord: a resource record of a type the decoder
    does not know. Its constructor hands name, class and TTL to the base record and
    skips the record's RDLENGTH bytes of data (section 4.1.3 of RFC 1035), so the
    next record is read from the right place. The java.nio.ByteBuffer it reads from
    is modelled as far as UnknownRecord uses it. */
module DnsUnknownRecord {
  import opened Wrappers

  /** A heap ByteBuffer: the backing array, the read position and the limit. */
  class ByteBuffer {
    const hb: array<bv8>
    var position: nat
    var limit: nat

    ghost predicate Valid()
      reads this`position, this`limit
    {
      position <= limit <= hb.Length
    }

    /** remaining(): the bytes between the position and the limit. */
    function Remaining(): (n: nat)
      reads this`position, this`limit
      requires Valid()
      ensures position + n == limit
    {
      limit - position
    }

    /** ByteBuffer.wrap(bytes): the whole array readable from its start. */
    constructor Wrap(bytes: seq<bv8>)
      ensures Valid() && fresh(hb)
      ensures hb[..] == bytes && position == 0 && limit == |bytes|
    {
      hb := new bv8[|bytes|](i requires 0 <= i < |bytes| => bytes[i]);
      position, limit := 0, |bytes|;
    }

    /** get(dst): with fewer than dst.length bytes remaining, a
        BufferUnderflowException that moves nothing; otherwise the next dst.length
        bytes are copied into dst and the position moves past them. The backing
        array is only read. */
    method Get(dst: array<bv8>) returns (outcome: Outcome)
      requires Valid() && dst != hb
      modifies this`position, dst
      ensures Valid() && limit == old(limit)
      ensures dst.Length > old(Remaining()) ==>
        outcome == Throws(BufferUnderflow) && position == old(position) && dst[..] == old(dst[..])
      ensures dst.Length <= old(Remaining()) ==>
        && outcome == Done
        && position == old(position) + dst.Length
        && dst[..] == hb[old(position)..position]
    {
      if dst.Length > limit - position {
        return Throws(BufferUnderflow);
      }
      ghost var start := position;
      var i := 0;
      while i < dst.Length
        invariant 0 <= i <= dst.Length
        invariant position == start + i && position <= limit
        invariant dst[..i] == hb[start..position]
        modifies this`position, dst
      {
        dst[i] := hb[position];
        position := position + 1;
        i := i + 1;
      }
      assert dst[..] == dst[..dst.Length];
      outcome := Done;
    }
  }

  /** What an UnknownRecord keeps: the base record's name, class code and TTL, and
      none of the skipped data. */
  datatype UnknownRecord = UnknownRecord(name: string, recordClass: int, ttl: int)

  /** new UnknownRecord(buffer, name, recordClass, ttl, length): a negative length is
      a NegativeArraySizeException from the skip array, fewer than length remaining
      bytes a BufferUnderflowException, and in both cases the buffer does not move;
      otherwise the buffer moves past exactly length bytes, its contents unchanged. */
  method CreateUnknownRecord(buffer: ByteBuffer, name: string, recordClass: int, ttl: int, length: int)
    returns (r: Result<UnknownRecord>)
    requires buffer.Valid()
    modifies buffer`position
    ensures buffer.Valid() && buffer.limit == old(buffer.limit)
    ensures buffer.hb[..] == old(buffer.hb[..])
    ensures length < 0 ==> r == Err(NegativeArraySize) && buffer.position == old(buffer.position)
    ensures length > old(buffer.Remaining()) ==> r == Err(BufferUnderflow) && buffer.position == old(buffer.position)
    ensures 0 <= length <= old(buffer.Remaining()) ==>
      r == Ok(UnknownRecord(name, recordClass, ttl)) && buffer.position == old(buffer.position) + length
  {
    if length < 0 {
      return Err(NegativeArraySize);
    }
    var toSkip := new bv8[length];
    var outcome := buffer.Get(toSkip);
    if outcome.Throws? {
      return Err(outcome.error);
    }
    r := Ok(UnknownRecord(name, recordClass, ttl));
  }
}
