/** The gateway handle: an immutable value naming one device, its URL, its
    equality, and the single request primitive every operation is built from. */
module Handle {
  import opened Common
  import opened Collaborators

  datatype Gateway = Gateway(addr: SocketAddrV4, controlUrl: string)

  const Scheme: string := "http://"

  /** The control URL: the scheme, then the rendered address, then the control path. */
  function Url(gw: Gateway, showAddr: SocketAddrV4 -> string): (u: string)
    ensures |u| == |Scheme| + |showAddr(gw.addr)| + |gw.controlUrl|
    ensures u[..|Scheme|] == Scheme
    ensures u[|Scheme|..|u| - |gw.controlUrl|] == showAddr(gw.addr)
    ensures u[|u| - |gw.controlUrl|..] == gw.controlUrl
  {
    Scheme + showAddr(gw.addr) + gw.controlUrl
  }

  /** `PartialEq`: two handles are equal exactly when they are the same value. */
  function Equals(g: Gateway, h: Gateway): (b: bool)
    ensures b <==> g == h
  {
    g.addr == h.addr && g.controlUrl == h.controlUrl
  }

  /** Among handles for one address, the URL identifies the handle. */
  lemma UrlIdentifiesHandle(g: Gateway, h: Gateway, showAddr: SocketAddrV4 -> string)
    requires g.addr == h.addr
    ensures Url(g, showAddr) == Url(h, showAddr) <==> Equals(g, h)
  {
  }

  /** The call `perform_request` posts for an action. */
  function CallFor(env: Env, gw: Gateway, req: Request): Call
  {
    Call(Url(gw, env.showAddr), req)
  }

  /** `perform_request`: send one call and receive the device's reply to it. */
  function Perform(env: Env, gw: Gateway, t: Trace, req: Request): Traced<Reply>
  {
    var call := CallFor(env, gw, req);
    Traced(env.device(t.sent, call), Trace(t.sent + [call], t.draws))
  }

  /** `common::random_port`: the next draw of the generator. */
  function RandomPort(env: Env, t: Trace): Traced<u16>
  {
    Traced(env.randomPort(t.draws), t.(draws := t.draws + 1))
  }

  /** The device's reply to the last call of `sent`. */
  function LastReply(env: Env, sent: seq<Call>): Reply
    requires |sent| > 0
  {
    env.device(sent[..|sent| - 1], sent[|sent| - 1])
  }

  /** The last call of `sent` is a mapping the device granted at external `port`. */
  predicate Granted(env: Env, sent: seq<Call>, port: u16)
  {
    |sent| > 0 &&
    var req := sent[|sent| - 1].request;
    var reply := LastReply(env, sent);
    (req.AddPortMapping? && req.externalPort == port && reply.Ok?) ||
    (req.AddAnyPortMapping? && env.parsing.addAnyPort(reply) == Ok(port))
  }

  /** `e` is what the parsing module made of the device refusing the last mapping call. */
  predicate Refused(env: Env, sent: seq<Call>, e: AddAnyPortError)
  {
    |sent| > 0 &&
    var req := sent[|sent| - 1].request;
    var reply := LastReply(env, sent);
    (req.AddAnyPortMapping? && env.parsing.addAnyPort(reply) == Err(Some(e))) ||
    (req.AddPortMapping? && reply.Err? &&
      (env.parsing.randomPortError(reply.error) == Some(e) || env.parsing.samePortError(reply.error) == e))
  }
}
