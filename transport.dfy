/** The transport-handler capability as the relay core sees it: a handler is an
    object with an identity and a stream id; payload bytes are opaque. */
module Transport {

  /** One octet of payload. The relay never looks inside. */
  newtype byte = x: int | 0 <= x < 256

  /** Size of the buffer one receive() fills (BUFFER_SIZE in the session headers). */
  const BUFFER_SIZE: nat := 1456

  /** The value receive() and send() return on failure. */
  const STREAM_ERROR: int := -1

  /** What one successful receive() can hand back: at most BUFFER_SIZE bytes. */
  type Chunk = s: seq<byte> | |s| <= BUFFER_SIZE

  datatype Option<T> = None | Some(value: T)

  /** A connected endpoint (publisher or subscriber). Sessions and the registry
      compare handlers by identity, as the source compares shared pointers. */
  class Handler {
    const streamId: string

    constructor (streamId: string)
      ensures this.streamId == streamId
    {
      this.streamId := streamId;
    }
  }

  /** One send() call: the subscriber it went to and the bytes it was handed. */
  datatype Delivery = Delivery(to: Handler, payload: seq<byte>)
}
