/** Vocabulary shared by the relay, the session registry and both ends of a file transfer. */
module Common {

  type Byte = bv8

  datatype Option<T> = None | Some(value: T)

  datatype Result<T, E> = Ok(value: T) | Err(error: E)

  /** `RTCDataChannel.readyState` as the WebRTC library reports it. */
  datatype ReadyState = Connecting | Open | Closing | Closed

  /** A session's optional data channel (`conn.dc`); `NoChannel` is `undefined`. */
  datatype DataChannel = NoChannel | Channel(state: ReadyState)

  predicate IsOpen(dc: DataChannel)
  {
    dc.Channel? && dc.state == Open
  }

  /** The data-channel file protocol: a JSON `file-meta`, raw binary chunks, a JSON `file-complete`. */
  datatype Frame =
    | FileMeta(name: string, size: int)
    | Chunk(bytes: seq<Byte>)
    | FileComplete(name: string)
}
