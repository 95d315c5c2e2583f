/** Values shared by every part of the model: bytes, machine words, node keys,
    socket addresses and DERP frames. */
module Types {
  type byte = x: int | 0 <= x < 0x100
  type Bytes = seq<byte>
  type U16 = x: int | 0 <= x < 0x1_0000
  type U32 = x: int | 0 <= x < 0x1_0000_0000
  type U64 = x: int | 0 <= x < 0x1_0000_0000_0000_0000
  type U128 = x: int | 0 <= x < 0x1_0000_0000_0000_0000_0000_0000_0000_0000

  /** The number that the 32 bytes of a node key spell, most significant byte first.
      A key of all zero bytes is never constructed. */
  type NodeKey = x: int |
    0 < x < 0x1_0000_0000_0000_0000_0000_0000_0000_0000_0000_0000_0000_0000_0000_0000_0000_0000
    witness 1

  datatype Option<+T> = None | Some(value: T)

  datatype Result<+T, +E> = Ok(value: T) | Err(error: E)

  /** An IP address, as the number its octets spell. */
  datatype IpAddr = V4(v4: U32) | V6(v6: U128)

  datatype SocketAddr = SocketAddr(ip: IpAddr, port: U16)

  datatype Frame =
    | ServerKey(key: NodeKey)
    | ClientInfo(key: NodeKey, sealed: Bytes)
    | ServerInfo(sealed: Bytes)
    | SendPacket(dst: NodeKey, packet: Bytes)
    | ForwardPacket(src: NodeKey, dst: NodeKey, packet: Bytes)
    | RecvPacket(src: NodeKey, packet: Bytes)
    | KeepAlive
    | NotePreferred(preferred: bool)
    | PeerGone(peer: NodeKey, reason: byte)
    | PeerPresent(peer: NodeKey, endpoint: Option<SocketAddr>, flags: Option<byte>, extra: Bytes)
    | WatchConns
    | ClosePeer(peer: NodeKey)
    | Ping(value: U64)
    | Pong(value: U64)
    | Health(text: Bytes)
    | Restarting(reconnectInMs: U32, tryForMs: U32)
    | Unknown(kind: byte, payload: Bytes)

  const DISCONNECTED: byte := 0
  const NOT_HERE: byte := 1

  const MAX_PACKET_SIZE: nat := 65536
}
