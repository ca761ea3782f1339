/** Values shared by the gateway operations: fixed-width integers, IPv4 socket
    addresses, the mapping protocol, and the error kinds each operation returns. */
module Common {

  newtype u8 = x: int | 0 <= x < 0x100
  newtype u16 = x: int | 0 <= x < 0x1_0000
  newtype u32 = x: int | 0 <= x < 0x1_0000_0000

  datatype Option<+T> = None | Some(value: T)

  /** Rust's `Result`: a value or an error. */
  datatype Result<+T, +E> = Ok(value: T) | Err(error: E)

  datatype Ipv4Addr = Ipv4Addr(a: u8, b: u8, c: u8, d: u8)

  datatype SocketAddrV4 = SocketAddrV4(ip: Ipv4Addr, port: u16)

  datatype PortMappingProtocol = TCP | UDP

  /** A failed request: the transport failed, or the device answered with a fault. */
  datatype RequestError =
    | Transport(detail: string)
    | Fault(code: nat, description: string)

  /** Errors of the operations. Only the variants the gateway itself produces are
      named; every other variant is what the response-parsing module makes of a
      device fault, and is carried as an opaque description. */
  datatype GetExternalIpError = GetExternalIpFailed(detail: string)

  datatype AddAnyPortError =
    | InternalPortZeroInvalid
    | NoPortsAvailable
    | AddAnyPortFailed(detail: string)

  datatype AddPortError =
    | ExternalPortZeroInvalid
    | InternalPortZeroInvalid
    | AddPortFailed(detail: string)

  datatype RemovePortError = RemovePortFailed(detail: string)
}
