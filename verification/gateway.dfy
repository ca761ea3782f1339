/** The operations of the asynchronous gateway handle. Every operation takes the
    environment and the trace so far and returns its result with the extended trace;
    the retry loop is a method proved to agree with the negotiation machine. */
module AioGateway {
  import opened Common
  import opened Collaborators
  import opened Handle
  import opened AnyPortMachine

  /** `get_external_ip`: one GetExternalIPAddress request, its reply parsed. */
  function GetExternalIp(env: Env, gw: Gateway, t: Trace): (r: Traced<Result<Ipv4Addr, GetExternalIpError>>)
    ensures var call := CallFor(env, gw, GetExternalIPAddress);
      r == Traced(env.parsing.externalIp(env.device(t.sent, call)), Trace(t.sent + [call], t.draws))
  {
    var q := Perform(env, gw, t, GetExternalIPAddress);
    Traced(env.parsing.externalIp(q.value), q.trace)
  }

  /** `add_port_mapping`: one AddPortMapping request for `externalPort`; a refusal is
      passed on unconverted. */
  function AddPortMapping(env: Env, gw: Gateway, t: Trace, externalPort: u16, args: MappingArgs)
    : (r: Traced<Result<(), RequestError>>)
    ensures var call := ExplicitCall(env, gw, args, externalPort);
      var reply := env.device(t.sent, call);
      && r.trace == Trace(t.sent + [call], t.draws)
      && (r.value.Ok? <==> reply.Ok?)
      && (r.value.Err? ==> r.value.error == reply.error)
  {
    var q := Perform(env, gw, t,
      Request.AddPortMapping(args.protocol, externalPort, args.local, args.lease, args.description));
    match q.value
    case Ok(_) => Traced(Ok(()), q.trace)
    case Err(e) => Traced(Err(e), q.trace)
  }

  /** `add_same_port_mapping`: one AddPortMapping whose external port is the local
      port; that port on success, the same-port conversion of the refusal otherwise. */
  function AddSamePortMapping(env: Env, gw: Gateway, t: Trace, args: MappingArgs)
    : (r: Traced<Result<u16, AddAnyPortError>>)
    ensures var call := ExplicitCall(env, gw, args, args.local.port);
      var reply := env.device(t.sent, call);
      && r.trace == Trace(t.sent + [call], t.draws)
      && (r.value.Ok? <==> reply.Ok?)
      && (r.value.Ok? ==> r.value.value == args.local.port)
      && (r.value.Err? ==> r.value.error == env.parsing.samePortError(reply.error))
  {
    var m := AddPortMapping(env, gw, t, args.local.port, args);
    match m.value
    case Ok(_) => Traced(Ok(args.local.port), m.trace)
    case Err(err) => Traced(Err(env.parsing.samePortError(err)), m.trace)
  }

  /** `add_random_port_mapping`: one attempt of the loop. It draws one random port and
      requests it; only when the refusal converts to "same port values required" does
      it issue a second request, for the local port. A granted port is the port of the
      request the device accepted. */
  function AddRandomPortMapping(env: Env, gw: Gateway, t: Trace, args: MappingArgs)
    : (r: Traced<Result<u16, AddAnyPortError>>)
    ensures r.trace.draws == t.draws + 1
    ensures var candidate := env.randomPort(t.draws);
      var first := ExplicitCall(env, gw, args, candidate);
      var reply := env.device(t.sent, first);
      var fallback := reply.Err? && env.parsing.randomPortError(reply.error) == None;
      var second := ExplicitCall(env, gw, args, args.local.port);
      var secondReply := env.device(t.sent + [first], second);
      && r.trace.sent == t.sent + [first] + (if fallback then [second] else [])
      && (r.value.Ok? <==> reply.Ok? || (fallback && secondReply.Ok?))
      && (r.value.Ok? ==> r.value.value == if reply.Ok? then candidate else args.local.port)
      && (r.value.Err? && !fallback ==> env.parsing.randomPortError(reply.error) == Some(r.value.error))
      && (r.value.Err? && fallback ==> r.value.error == env.parsing.samePortError(secondReply.error))
  {
    var c := RandomPort(env, t);
    var m := AddPortMapping(env, gw, c.trace, c.value, args);
    match m.value
    case Ok(_) => Traced(Ok(c.value), m.trace)
    case Err(err) =>
      match env.parsing.randomPortError(err)
      case Some(e) => Traced(Err(e), m.trace)
      case None => AddSamePortMapping(env, gw, m.trace, args)
  }

  /** An attempt without the same-port fallback is one transition of the machine. */
  lemma AttemptWithoutFallback(env: Env, gw: Gateway, args: MappingArgs, k: nat, t: Trace)
    requires k > 0
    requires var reply := env.device(t.sent, ExplicitCall(env, gw, args, env.randomPort(t.draws)));
      !(reply.Err? && env.parsing.randomPortError(reply.error) == None)
    ensures var a := AddRandomPortMapping(env, gw, t, args);
      Outcome(Execute(env, gw, args, TryExplicit(k), t)) ==
        if a.value == Err(NoPortsAvailable) then Outcome(Execute(env, gw, args, TryExplicit(k - 1), a.trace))
        else a
  {
  }

  /** An attempt with the same-port fallback is two transitions of the machine. */
  lemma AttemptWithFallback(env: Env, gw: Gateway, args: MappingArgs, k: nat, t: Trace)
    requires k > 0
    requires var reply := env.device(t.sent, ExplicitCall(env, gw, args, env.randomPort(t.draws)));
      reply.Err? && env.parsing.randomPortError(reply.error) == None
    ensures var a := AddRandomPortMapping(env, gw, t, args);
      Outcome(Execute(env, gw, args, TryExplicit(k), t)) ==
        if a.value == Err(NoPortsAvailable) then Outcome(Execute(env, gw, args, TryExplicit(k - 1), a.trace))
        else a
  {
    var t1 := Trace(t.sent + [ExplicitCall(env, gw, args, env.randomPort(t.draws))], t.draws + 1);
    var s := Step(env, gw, args, TryExplicit(k), t);
    assert s == Traced(TrySamePort(k - 1), t1);
    var s2 := Step(env, gw, args, TrySamePort(k - 1), t1);
    assert AddRandomPortMapping(env, gw, t, args) == AddSamePortMapping(env, gw, t1, args);
    assert Execute(env, gw, args, TryExplicit(k), t) == Execute(env, gw, args, s2.value, s2.trace);
  }

  /** One attempt of the loop is one or two transitions of the machine: an attempt
      that ends in NoPortsAvailable (from either request) leaves the loop running
      with one attempt fewer, and any other result ends the negotiation. */
  lemma AttemptAgrees(env: Env, gw: Gateway, args: MappingArgs, k: nat, t: Trace)
    requires k > 0
    ensures var a := AddRandomPortMapping(env, gw, t, args);
      Outcome(Execute(env, gw, args, TryExplicit(k), t)) ==
        if a.value == Err(NoPortsAvailable) then Outcome(Execute(env, gw, args, TryExplicit(k - 1), a.trace))
        else a
  {
    var reply := env.device(t.sent, ExplicitCall(env, gw, args, env.randomPort(t.draws)));
    if reply.Err? && env.parsing.randomPortError(reply.error) == None {
      AttemptWithFallback(env, gw, args, k, t);
    } else {
      AttemptWithoutFallback(env, gw, args, k, t);
    }
  }

  /** What `retry_add_random_port_mapping` computes with `k` attempts left: the first
      attempt whose result is not NoPortsAvailable decides, and NoPortsAvailable is
      the answer when all `k` attempts ended in it. */
  function RetryFrom(env: Env, gw: Gateway, args: MappingArgs, k: nat, t: Trace)
    : Traced<Result<u16, AddAnyPortError>>
    decreases k
  {
    if k == 0 then Traced(Err(NoPortsAvailable), t)
    else
      var a := AddRandomPortMapping(env, gw, t, args);
      if a.value == Err(NoPortsAvailable) then RetryFrom(env, gw, args, k - 1, a.trace) else a
  }

  /** The loop agrees with the negotiation machine from `TryExplicit(k)`. */
  lemma {:induction false} RetryFromAgrees(env: Env, gw: Gateway, args: MappingArgs, k: nat, t: Trace)
    ensures RetryFrom(env, gw, args, k, t) == Outcome(Execute(env, gw, args, TryExplicit(k), t))
    decreases k
  {
    if k > 0 {
      AttemptAgrees(env, gw, args, k, t);
      var a := AddRandomPortMapping(env, gw, t, args);
      if a.value == Err(NoPortsAvailable) {
        RetryFromAgrees(env, gw, args, k - 1, a.trace);
      }
    }
  }

  /** `retry_add_random_port_mapping`: at most MaxRandomAttempts attempts; the first
      attempt whose result is not NoPortsAvailable decides, and NoPortsAvailable is
      returned when every attempt ended in it. */
  method RetryAddRandomPortMapping(env: Env, gw: Gateway, t: Trace, args: MappingArgs)
    returns (r: Traced<Result<u16, AddAnyPortError>>)
    ensures r == RetryFrom(env, gw, args, MaxRandomAttempts, t)
    ensures r == Outcome(Execute(env, gw, args, TryExplicit(MaxRandomAttempts), t))
  {
    RetryFromAgrees(env, gw, args, MaxRandomAttempts, t);
    var cur := t;
    for i := 0 to MaxRandomAttempts
      invariant RetryFrom(env, gw, args, MaxRandomAttempts, t)
             == RetryFrom(env, gw, args, MaxRandomAttempts - i, cur)
    {
      var a := AddRandomPortMapping(env, gw, cur, args);
      match a.value {
        case Ok(port) =>
          return a;
        case Err(e) =>
          if e == NoPortsAvailable {
            cur := a.trace;
          } else {
            return a;
          }
      }
    }
    r := Traced(Err(NoPortsAvailable), cur);
  }

  /** `add_any_port`: rejects local port 0 without a request, and otherwise runs the
      negotiation; it agrees with the machine from Start, so it sends at most
      1 + 2 * MaxRandomAttempts requests. */
  method AddAnyPort(env: Env, gw: Gateway, t: Trace, args: MappingArgs)
    returns (r: Traced<Result<u16, AddAnyPortError>>)
    ensures r == Outcome(Execute(env, gw, args, Start, t))
    ensures args.local.port == 0 ==> r == Traced(Err(AddAnyPortError.InternalPortZeroInvalid), t)
    ensures |r.trace.sent| <= |t.sent| + 2 * MaxRandomAttempts + 1
  {
    if args.local.port == 0 {
      return Traced(Err(AddAnyPortError.InternalPortZeroInvalid), t);
    }
    FirstLayer(env, gw, args, t);
    var c := RandomPort(env, t);
    var q := Perform(env, gw, c.trace,
      Request.AddAnyPortMapping(args.protocol, c.value, args.local, args.lease, args.description));
    match env.parsing.addAnyPort(q.value) {
      case Ok(port) =>
        r := Traced(Ok(port), q.trace);
      case Err(None) =>
        r := RetryAddRandomPortMapping(env, gw, q.trace, args);
      case Err(Some(e)) =>
        r := Traced(Err(e), q.trace);
    }
  }

  /** `get_any_address`: the external IP, then a port from `add_any_port`. A failed IP
      query is converted and returned before any mapping request is sent. */
  method GetAnyAddress(env: Env, gw: Gateway, t: Trace, args: MappingArgs)
    returns (r: Traced<Result<SocketAddrV4, AddAnyPortError>>)
    ensures var ip := GetExternalIp(env, gw, t);
      match ip.value
      case Err(e) => r == Traced(Err(env.parsing.ipError(e)), ip.trace)
      case Ok(addr) =>
        var port := Outcome(Execute(env, gw, args, Start, ip.trace));
        && r.trace == port.trace
        && r.value == match port.value
                      case Ok(p) => Ok(SocketAddrV4(addr, p))
                      case Err(e) => Err(e)
    ensures r.value.Ok? ==> Granted(env, r.trace.sent, r.value.value.port)
  {
    var ip := GetExternalIp(env, gw, t);
    match ip.value {
      case Err(e) =>
        r := Traced(Err(env.parsing.ipError(e)), ip.trace);
      case Ok(addr) =>
        var port := AddAnyPort(env, gw, ip.trace, args);
        ExecuteExplained(env, gw, args, Start, ip.trace);
        match port.value {
          case Ok(p) => r := Traced(Ok(SocketAddrV4(addr, p)), port.trace);
          case Err(e) => r := Traced(Err(e), port.trace);
        }
    }
  }

  /** `add_port`: rejects external port 0, then local port 0, without a request;
      otherwise one AddPortMapping request whose refusal goes through the add-port
      conversion. */
  function AddPort(env: Env, gw: Gateway, t: Trace, externalPort: u16, args: MappingArgs)
    : (r: Traced<Result<(), AddPortError>>)
    ensures externalPort == 0 ==> r == Traced(Err(ExternalPortZeroInvalid), t)
    ensures externalPort != 0 && args.local.port == 0 ==>
      r == Traced(Err(AddPortError.InternalPortZeroInvalid), t)
    ensures externalPort != 0 && args.local.port != 0 ==>
      var call := ExplicitCall(env, gw, args, externalPort);
      var reply := env.device(t.sent, call);
      && r.trace == Trace(t.sent + [call], t.draws)
      && (r.value.Ok? <==> reply.Ok?)
      && (r.value.Err? ==> r.value.error == env.parsing.addPortError(reply.error))
  {
    if externalPort == 0 then Traced(Err(ExternalPortZeroInvalid), t)
    else if args.local.port == 0 then Traced(Err(AddPortError.InternalPortZeroInvalid), t)
    else
      var m := AddPortMapping(env, gw, t, externalPort, args);
      match m.value
      case Err(err) => Traced(Err(env.parsing.addPortError(err)), m.trace)
      case Ok(_) => Traced(Ok(()), m.trace)
  }

  /** `remove_port`: one DeletePortMapping request, its reply parsed. */
  function RemovePort(env: Env, gw: Gateway, t: Trace, protocol: PortMappingProtocol, externalPort: u16)
    : (r: Traced<Result<(), RemovePortError>>)
    ensures var call := CallFor(env, gw, DeletePortMapping(protocol, externalPort));
      r == Traced(env.parsing.deletePort(env.device(t.sent, call)), Trace(t.sent + [call], t.draws))
  {
    var q := Perform(env, gw, t, DeletePortMapping(protocol, externalPort));
    Traced(env.parsing.deletePort(q.value), q.trace)
  }
}
