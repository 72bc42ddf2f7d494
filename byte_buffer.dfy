/**
 * The part of java.nio.ByteBuffer the Bedrock runtime decoders use: a window
 * [position, limit) over a backing array, a read-only view sharing that array,
 * and the bulk get that copies the window's bytes out and advances the view.
 */
module ByteBuffers {

  class ByteBuffer {
    const content: array<bv8>
    var position: nat
    var limit: nat
    const readOnly: bool

    ghost predicate Valid()
      reads this
    {
      position <= limit <= content.Length
    }

    /** ByteBuffer.wrap: the whole array, position 0. */
    constructor Wrap(bytes: array<bv8>)
      ensures Valid() && content == bytes && position == 0 && limit == bytes.Length && !readOnly
    {
      content := bytes;
      position := 0;
      limit := bytes.Length;
      readOnly := false;
    }

    /** remaining(): the number of bytes between position and limit. */
    function Remaining(): (n: nat)
      reads this
      requires Valid()
      ensures position + n == limit
    {
      limit - position
    }

    /** The bytes a relative bulk get would read next. */
    ghost function Unread(): (bytes: seq<bv8>)
      reads this, content
      requires Valid()
      ensures |bytes| == Remaining()
    {
      content[position..limit]
    }

    /** asReadOnlyBuffer(): a new buffer over the same array with the same position and limit. */
    method AsReadOnlyBuffer() returns (view: ByteBuffer)
      requires Valid()
      ensures fresh(view) && view.Valid() && view.readOnly
      ensures view.content == content && view.position == position && view.limit == limit
    {
      view := new ByteBuffer.View(content, position, limit);
    }

    constructor View(bytes: array<bv8>, position: nat, limit: nat)
      requires position <= limit <= bytes.Length
      ensures Valid() && readOnly
      ensures content == bytes && this.position == position && this.limit == limit
    {
      content := bytes;
      this.position := position;
      this.limit := limit;
      readOnly := true;
    }

    /** get(byte[] dst): copies dst.length bytes from the position onwards and advances the position past them. */
    method Get(dst: array<bv8>)
      requires Valid() && dst.Length <= Remaining() && dst != content
      modifies this, dst
      ensures Valid() && limit == old(limit)
      ensures position == old(position) + dst.Length
      ensures dst[..] == old(content[position..position + dst.Length])
    {
      var i := 0;
      while i < dst.Length
        invariant 0 <= i <= dst.Length
        invariant position == old(position) && limit == old(limit)
        invariant dst[..i] == content[position..position + i]
      {
        dst[i] := content[position + i];
        i := i + 1;
      }
      position := position + dst.Length;
    }
  }

  /**
   * The reading sequence of every decoder: a read-only view of the body, an
   * array of its remaining size, and one bulk get into it. The result is the
   * body's unread bytes, and the body itself, position included, is left as it was.
   */
  method ReadRemaining(body: ByteBuffer) returns (bytes: seq<bv8>)
    requires body.Valid()
    ensures bytes == body.Unread()
  {
    var view := body.AsReadOnlyBuffer();
    var dst := new bv8[view.Remaining()];
    view.Get(dst);
    bytes := dst[..];
  }
}
