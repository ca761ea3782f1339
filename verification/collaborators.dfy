/** The collaborators the gateway drives but does not implement: the device reached
    through SOAP requests, the response-parsing and error-conversion functions, the
    random port generator and the textual form of a socket address. Each is a value
    the caller supplies, so that nothing about its internals is assumed. */
module Collaborators {
  import opened Common

  /** The WANIPConnection control actions, each with the parameters its message carries. */
  datatype Request =
    | GetExternalIPAddress
    | AddAnyPortMapping(protocol: PortMappingProtocol, externalPort: u16, local: SocketAddrV4,
                        lease: u32, description: string)
    | AddPortMapping(protocol: PortMappingProtocol, externalPort: u16, local: SocketAddrV4,
                     lease: u32, description: string)
    | DeletePortMapping(protocol: PortMappingProtocol, externalPort: u16)

  /** One request as it goes out: the control URL it is posted to and the action. */
  datatype Call = Call(url: string, request: Request)

  /** A response the device sent and the generic response check accepted. */
  datatype Response = Response(text: string)

  type Reply = Result<Response, RequestError>

  /** The device: its reply to a call may depend on every call it has received
      before (its port table, its supported actions, its quirks). */
  type Device = (seq<Call>, Call) -> Reply

  /** The parsing module's per-action interpretations of a reply, left uninterpreted.
      `addAnyPort` yields `Err(None)` when the device does not know the action;
      `randomPortError` yields `None` when the device demands equal external and
      internal ports; `ipError` is the conversion applied by `?` in `get_any_address`. */
  datatype Parsing = Parsing(
    externalIp: Reply -> Result<Ipv4Addr, GetExternalIpError>,
    addAnyPort: Reply -> Result<u16, Option<AddAnyPortError>>,
    randomPortError: RequestError -> Option<AddAnyPortError>,
    samePortError: RequestError -> AddAnyPortError,
    addPortError: RequestError -> AddPortError,
    deletePort: Reply -> Result<(), RemovePortError>,
    ipError: GetExternalIpError -> AddAnyPortError)

  /** Everything outside the gateway: the device, the random port generator (its
      n-th draw), the parsers and the rendering of a socket address. */
  datatype Env = Env(
    device: Device,
    randomPort: nat -> u16,
    parsing: Parsing,
    showAddr: SocketAddrV4 -> string)

  /** What a negotiation has done so far: the calls sent, oldest first, and how many
      random ports were drawn. */
  datatype Trace = Trace(sent: seq<Call>, draws: nat)

  /** A result together with the trace after computing it. */
  datatype Traced<+T> = Traced(value: T, trace: Trace)

  /** The parameters shared by every mapping request of one negotiation. */
  datatype MappingArgs = MappingArgs(
    protocol: PortMappingProtocol,
    local: SocketAddrV4,
    lease: u32,
    description: string)
}
