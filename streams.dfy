/**
 * The part of a pipeline stream (`PvcStream`) the plugin touches: its name, its
 * tags, its bytes and a read position that hashing advances and
 * `ResetStreamPosition` rewinds.
 */
module Streams {
  import opened Hex

  /** The bytes a read starting at position p yields: none when p is at or past the end. */
  function Suffix(data: seq<byte>, p: nat): seq<byte> {
    if p < |data| then data[p..] else []
  }

  class PvcStream {
    const StreamName: string
    const Tags: seq<string>
    const Data: seq<byte>
    var Position: nat

    constructor (streamName: string, tags: seq<string>, data: seq<byte>)
      ensures StreamName == streamName && Tags == tags && Data == data
      ensures Position == 0
    {
      StreamName, Tags, Data := streamName, tags, data;
      Position := 0;
    }

    /** What reading the stream from where it stands would yield. */
    function Remaining(): seq<byte>
      reads this
    {
      Suffix(Data, Position)
    }

    /** Reads up to the end, as `MD5.ComputeHash(stream)` does. */
    method ReadToEnd() returns (bytes: seq<byte>)
      modifies this
      ensures bytes == old(Remaining())
      ensures Position == if old(Position) < |Data| then |Data| else old(Position)
    {
      bytes := Suffix(Data, Position);
      if Position < |Data| {
        Position := |Data|;
      }
    }

    method ResetStreamPosition()
      modifies this
      ensures Position == 0 && Remaining() == Data
    {
      Position := 0;
    }
  }
}
