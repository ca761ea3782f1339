/** The any-port negotiation as an explicit finite-state machine: a reference
    definition, one transition per request, against which the gateway's nested
    functions and retry loop are proved. From Start the machine first tries
    AddAnyPortMapping; if the device does not know that action it makes up to
    MaxRandomAttempts explicit AddPortMapping attempts on random ports; an attempt
    refused with "same port values required" is followed, within the same attempt,
    by one AddPortMapping on the local port. */
module AnyPortMachine {
  import opened Common
  import opened Collaborators
  import opened Handle

  /** The bound of the random-port loop (`0u8..20u8`). */
  const MaxRandomAttempts: nat := 20

  datatype Phase =
    | Start
    | TryAnyPort
    | TryExplicit(attemptsLeft: nat)
      /** the same-port fallback; `attemptsLeft` counts the attempts after this one */
    | TrySamePort(attemptsLeft: nat)
    | Done(port: u16)
    | Failed(error: AddAnyPortError)
  {
    predicate Terminal() { Done? || Failed? }
  }

  /** Decreases with every transition. */
  function Rank(p: Phase): nat
  {
    match p
    case Start => 2 * MaxRandomAttempts + 3
    case TryAnyPort => 2 * MaxRandomAttempts + 2
    case TryExplicit(k) => 2 * k + 1
    case TrySamePort(k) => 2 * k + 2
    case _ => 0
  }

  /** The most requests a run from `p` can still issue. */
  function RequestBudget(p: Phase): nat
  {
    match p
    case Start => 2 * MaxRandomAttempts + 1
    case TryAnyPort => 2 * MaxRandomAttempts + 1
    case TryExplicit(k) => 2 * k
    case TrySamePort(k) => 2 * k + 1
    case _ => 0
  }

  /** The most random ports a run from `p` can still draw. */
  function DrawBudget(p: Phase): nat
  {
    match p
    case Start => MaxRandomAttempts + 1
    case TryAnyPort => MaxRandomAttempts + 1
    case TryExplicit(k) => k
    case TrySamePort(k) => k
    case _ => 0
  }

  /** A failure is either synthesized by the negotiation itself or is the parsing
      module's reading of the device refusing the last call. */
  predicate FailureExplained(env: Env, sent: seq<Call>, e: AddAnyPortError)
  {
    e == AddAnyPortError.InternalPortZeroInvalid || e == NoPortsAvailable || Refused(env, sent, e)
  }

  /** The first layer: AddAnyPortMapping with a random candidate. */
  function AnyPortTransition(env: Env, gw: Gateway, args: MappingArgs, t: Trace): (s: Traced<Phase>)
    ensures s.value.Terminal() || s.value == TryExplicit(MaxRandomAttempts)
    ensures |s.trace.sent| == |t.sent| + 1 && s.trace.draws == t.draws + 1
  {
    var c := RandomPort(env, t);
    var q := Perform(env, gw, c.trace,
      AddAnyPortMapping(args.protocol, c.value, args.local, args.lease, args.description));
    var next := match env.parsing.addAnyPort(q.value)
      case Ok(port) => Done(port)
      case Err(None) => TryExplicit(MaxRandomAttempts)
      case Err(Some(e)) => Failed(e);
    Traced(next, q.trace)
  }

  /** One attempt of the random-port loop, `k` attempts being left. */
  function ExplicitTransition(env: Env, gw: Gateway, args: MappingArgs, k: nat, t: Trace): (s: Traced<Phase>)
    requires k > 0
    ensures s.value.Terminal() || s.value == TryExplicit(k - 1) || s.value == TrySamePort(k - 1)
    ensures |s.trace.sent| == |t.sent| + 1 && s.trace.draws == t.draws + 1
  {
    var c := RandomPort(env, t);
    var q := Perform(env, gw, c.trace,
      AddPortMapping(args.protocol, c.value, args.local, args.lease, args.description));
    var next := match q.value
      case Ok(_) => Done(c.value)
      case Err(e) =>
        match env.parsing.randomPortError(e)
        case None => TrySamePort(k - 1)
        case Some(err) => if err == NoPortsAvailable then TryExplicit(k - 1) else Failed(err);
    Traced(next, q.trace)
  }

  /** The same-port fallback, `k` attempts being left after the current one. */
  function SamePortTransition(env: Env, gw: Gateway, args: MappingArgs, k: nat, t: Trace): (s: Traced<Phase>)
    ensures s.value.Terminal() || s.value == TryExplicit(k)
    ensures |s.trace.sent| == |t.sent| + 1 && s.trace.draws == t.draws
  {
    var q := Perform(env, gw, t,
      AddPortMapping(args.protocol, args.local.port, args.local, args.lease, args.description));
    var next := match q.value
      case Ok(_) => Done(args.local.port)
      case Err(e) =>
        var err := env.parsing.samePortError(e);
        if err == NoPortsAvailable then TryExplicit(k) else Failed(err);
    Traced(next, q.trace)
  }

  /** One transition. Every transition issues at most one request and draws at most
      one port, and none exceeds the budget of the phase it leaves. */
  function Step(env: Env, gw: Gateway, args: MappingArgs, p: Phase, t: Trace): (s: Traced<Phase>)
    requires !p.Terminal()
    ensures Rank(s.value) < Rank(p)
    ensures |t.sent| <= |s.trace.sent| && t.draws <= s.trace.draws
    ensures |s.trace.sent| - |t.sent| + RequestBudget(s.value) <= RequestBudget(p)
    ensures s.trace.draws - t.draws + DrawBudget(s.value) <= DrawBudget(p)
  {
    match p
    case Start =>
      if args.local.port == 0 then Traced(Failed(AddAnyPortError.InternalPortZeroInvalid), t)
      else Traced(TryAnyPort, t)
    case TryAnyPort => AnyPortTransition(env, gw, args, t)
    case TryExplicit(k) =>
      if k == 0 then Traced(Failed(NoPortsAvailable), t)
      else ExplicitTransition(env, gw, args, k, t)
    case TrySamePort(k) => SamePortTransition(env, gw, args, k, t)
  }

  /** Runs the machine from `p` to a terminal phase. */
  function Execute(env: Env, gw: Gateway, args: MappingArgs, p: Phase, t: Trace): (r: Traced<Phase>)
    ensures r.value.Terminal()
    ensures |t.sent| <= |r.trace.sent| <= |t.sent| + RequestBudget(p)
    ensures t.draws <= r.trace.draws <= t.draws + DrawBudget(p)
    decreases Rank(p)
  {
    if p.Terminal() then Traced(p, t)
    else
      var s := Step(env, gw, args, p, t);
      Execute(env, gw, args, s.value, s.trace)
  }

  /** A transition that ends the negotiation does so on the reply to the request it
      just sent: `Done` carries the port the device accepted, and `Failed` carries an
      error synthesized by the negotiation or the conversion of the device's refusal. */
  lemma StepExplained(env: Env, gw: Gateway, args: MappingArgs, p: Phase, t: Trace)
    requires !p.Terminal()
    ensures var s := Step(env, gw, args, p, t);
      && (s.value.Done? ==> Granted(env, s.trace.sent, s.value.port))
      && (s.value.Failed? ==> FailureExplained(env, s.trace.sent, s.value.error))
  {
  }

  /** A negotiation never returns a port taken from an error: a `Done` port is the
      port the device accepted in the last call, and a failure is synthesized or is
      the conversion of the last refusal. */
  lemma {:induction false} ExecuteExplained(env: Env, gw: Gateway, args: MappingArgs, p: Phase, t: Trace)
    requires !p.Terminal()
    ensures var r := Execute(env, gw, args, p, t);
      && (r.value.Done? ==> Granted(env, r.trace.sent, r.value.port))
      && (r.value.Failed? ==> FailureExplained(env, r.trace.sent, r.value.error))
    decreases Rank(p)
  {
    var s := Step(env, gw, args, p, t);
    if s.value.Terminal() {
      StepExplained(env, gw, args, p, t);
    } else {
      ExecuteExplained(env, gw, args, s.value, s.trace);
    }
  }

  /** A negotiation only appends to the log: the calls sent before it are kept, in order. */
  lemma {:induction false} ExecuteAppends(env: Env, gw: Gateway, args: MappingArgs, p: Phase, t: Trace)
    ensures t.sent <= Execute(env, gw, args, p, t).trace.sent
    decreases Rank(p)
  {
    if !p.Terminal() {
      var s := Step(env, gw, args, p, t);
      assert t.sent <= s.trace.sent;
      ExecuteAppends(env, gw, args, s.value, s.trace);
    }
  }

  /** The negotiation's answer: the granted port, or the error it failed with. */
  function Outcome(r: Traced<Phase>): Traced<Result<u16, AddAnyPortError>>
    requires r.value.Terminal()
  {
    Traced(if r.value.Done? then Ok(r.value.port) else Err(r.value.error), r.trace)
  }

  /** The first layer: with a nonzero local port, the first request is
      AddAnyPortMapping with the first random draw. A parsed `Ok(port)` ends the
      negotiation with the granted port, and a parsed `Err(Some(e))` with `e`, both
      after that one request; only `Err(None)` (the device does not know the action)
      goes on to the random-port loop. */
  lemma FirstLayer(env: Env, gw: Gateway, args: MappingArgs, t: Trace)
    requires args.local.port != 0
    ensures var first := CallFor(env, gw,
        AddAnyPortMapping(args.protocol, env.randomPort(t.draws), args.local, args.lease, args.description));
      var after := Trace(t.sent + [first], t.draws + 1);
      var r := Execute(env, gw, args, Start, t);
      match env.parsing.addAnyPort(env.device(t.sent, first))
      case Ok(port) => r == Traced(Done(port), after)
      case Err(Some(e)) => r == Traced(Failed(e), after)
      case Err(None) => r == Execute(env, gw, args, TryExplicit(MaxRandomAttempts), after)
  {
  }

  /** The call an explicit attempt sends for `port`. */
  function ExplicitCall(env: Env, gw: Gateway, args: MappingArgs, port: u16): Call
  {
    CallFor(env, gw, AddPortMapping(args.protocol, port, args.local, args.lease, args.description))
  }

  /** The device refuses every explicit mapping as a conflict with an existing one. */
  ghost predicate ConflictsEverywhere(env: Env)
  {
    forall h: seq<Call>, c: Call :: c.request.AddPortMapping? ==>
      env.device(h, c).Err? && env.parsing.randomPortError(env.device(h, c).error) == Some(NoPortsAvailable)
  }

  /** The explicit calls for the random draws `from`, ..., `from + k - 1`, in order. */
  function ExplicitCalls(env: Env, gw: Gateway, args: MappingArgs, from: nat, k: nat): seq<Call>
    decreases k
  {
    if k == 0 then []
    else [ExplicitCall(env, gw, args, env.randomPort(from))] + ExplicitCalls(env, gw, args, from + 1, k - 1)
  }

  /** When every random port conflicts, the loop makes exactly `k` attempts, one
      AddPortMapping per random draw in draw order, then fails with NoPortsAvailable. */
  lemma {:induction false} ExhaustedByConflicts(env: Env, gw: Gateway, args: MappingArgs, k: nat, t: Trace)
    requires ConflictsEverywhere(env)
    ensures Execute(env, gw, args, TryExplicit(k), t)
         == Traced(Failed(NoPortsAvailable), Trace(t.sent + ExplicitCalls(env, gw, args, t.draws, k), t.draws + k))
  {
    if k > 0 {
      var call := ExplicitCall(env, gw, args, env.randomPort(t.draws));
      var t1 := Trace(t.sent + [call], t.draws + 1);
      var reply := env.device(t.sent, call);
      assert reply.Err? && env.parsing.randomPortError(reply.error) == Some(NoPortsAvailable);
      var s := Step(env, gw, args, TryExplicit(k), t);
      assert s == Traced(TryExplicit(k - 1), t1);
      ExhaustedByConflicts(env, gw, args, k - 1, t1);
      assert t1.sent + ExplicitCalls(env, gw, args, t1.draws, k - 1)
          == t.sent + ExplicitCalls(env, gw, args, t.draws, k);
    }
  }

  /** The device lacks AddAnyPortMapping, refuses every explicit mapping with "same
      port values required", and the same-port fallback is then read as "no ports
      available" — the case in which the loop keeps going after a fallback. */
  ghost predicate FallbackNeverHelps(env: Env)
  {
    && (forall h: seq<Call>, c: Call :: c.request.AddPortMapping? ==> env.device(h, c).Err?)
    && (forall e :: env.parsing.randomPortError(e) == None)
    && (forall e :: env.parsing.samePortError(e) == NoPortsAvailable)
    && (forall reply :: env.parsing.addAnyPort(reply) == Err(None))
  }

  /** In that case every attempt issues two requests. */
  lemma {:induction false} FallbackEveryAttempt(env: Env, gw: Gateway, args: MappingArgs, k: nat, t: Trace)
    requires FallbackNeverHelps(env)
    ensures var r := Execute(env, gw, args, TryExplicit(k), t);
      r.value == Failed(NoPortsAvailable) && |r.trace.sent| == |t.sent| + 2 * k
  {
    if k > 0 {
      var s := Step(env, gw, args, TryExplicit(k), t);
      assert s.value == TrySamePort(k - 1) && |s.trace.sent| == |t.sent| + 1;
      var s2 := Step(env, gw, args, TrySamePort(k - 1), s.trace);
      assert s2.value == TryExplicit(k - 1) && |s2.trace.sent| == |t.sent| + 2;
      FallbackEveryAttempt(env, gw, args, k - 1, s2.trace);
    }
  }

  /** The request budget of a whole negotiation is attained: one AddAnyPortMapping
      and then two requests in each of the 20 attempts. */
  lemma WorstCaseRequestCount(env: Env, gw: Gateway, args: MappingArgs, t: Trace)
    requires FallbackNeverHelps(env)
    requires args.local.port != 0
    ensures var r := Execute(env, gw, args, Start, t);
      r.value == Failed(NoPortsAvailable) && |r.trace.sent| == |t.sent| + RequestBudget(Start)
  {
    var s := Step(env, gw, args, TryAnyPort, t);
    assert s.value == TryExplicit(MaxRandomAttempts) && |s.trace.sent| == |t.sent| + 1;
    FallbackEveryAttempt(env, gw, args, MaxRandomAttempts, s.trace);
  }
}
