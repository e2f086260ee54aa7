/** The echo request payload: `dataSize` bytes counting 0, 1, ..., 255, 0, 1, ... */
module Payload {

  newtype byte = x: int | 0 <= x < 256

  /** Allocates the buffer and fills it one index at a time, as lines 70-72
      do with `(byte)((i % 256) & 0xFF)`; the mask drops nothing, since
      `i % 256` already fits in a byte. */
  method BuildPayload(size: nat) returns (buffer: array<byte>)
    ensures fresh(buffer)
    ensures buffer.Length == size
    ensures forall i :: 0 <= i < size ==> buffer[i] as int == i % 256
  {
    buffer := new byte[size];
    var i := 0;
    while i < buffer.Length
      invariant 0 <= i <= buffer.Length
      invariant forall j :: 0 <= j < i ==> buffer[j] as int == j % 256
    {
      buffer[i] := (i % 256) as byte;
      i := i + 1;
    }
  }
}
