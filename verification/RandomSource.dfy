/** Random sources as the services see them: a stream of bytes that may end early. */
module RandomSource {
  type byte = x: nat | x < 256

  class Reader {
    var pending: seq<byte>

    constructor (bytes: seq<byte>)
      ensures pending == bytes
    {
      pending := bytes;
    }

    /** Fills `n` bytes, or fails having drained the source. */
    method ReadFull(n: nat) returns (ok: bool, value: seq<byte>)
      modifies this
      ensures ok == (|old(pending)| >= n)
      ensures ok ==> value == old(pending)[..n] && pending == old(pending)[n..]
      ensures !ok ==> pending == []
    {
      if |pending| >= n {
        ok, value, pending := true, pending[..n], pending[n..];
      } else {
        ok, value, pending := false, pending, [];
      }
    }
  }
}
