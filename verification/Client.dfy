// The process-wide platform connection and its scope-aware proxy: fastaiagent/client.py.
module Client {
  import opened Options
  import Target

  datatype FailMode = Open | Closed
  datatype Check = Verified | Unreachable | Http(code: int)

  // The cached policy: its version and, for each approval policy, its `tool_pattern` if it has one.
  datatype Policy = Policy(version: Option<string>, patterns: seq<Option<string>>)

  // The plane's answer to the key check, the settings `connect()` records as given, and the span
  // processors it registered: fields of `_Connection` that are always read or written together.
  datatype Identity = Identity(domainId: Option<string>, projectId: Option<string>, scopes: seq<string>)
  datatype Posture = Posture(autoRegister: bool, consoleUrl: Option<string>, exportEvals: Option<bool>,
                             exportExperiments: Option<bool>, exportCheckpoints: bool)
  datatype Handles = Handles(trace: Option<nat>, hitl: Option<nat>, evals: Option<nat>)
  {
    predicate Has(x: nat) { trace == Some(x) || hitl == Some(x) || evals == Some(x) }
  }

  const NOBODY := Identity(None, None, [])
  const DEFAULTS := Posture(true, None, None, None, true)
  const NO_HANDLES := Handles(None, None, None)

  // The values of one `_Connection` object.
  datatype Conn = Conn(
    apiKey: Option<string>, target: string, project: Option<string>, identity: Identity,
    check: Option<Check>, policy: Option<Policy>, failMode: FailMode, posture: Posture, processors: Handles)
  {
    predicate Connected() { apiKey.Some? }
  }

  const FRESH := Conn(None, "", None, NOBODY, None, None, Open, DEFAULTS, NO_HANDLES)

  datatype ConnectArgs = ConnectArgs(
    apiKey: string, target: Option<string>, project: Option<string>, failMode: Option<string>,
    autoRegister: bool, consoleUrl: Option<string>, exportTraces: bool,
    exportEvals: Option<bool>, exportCheckpoints: Option<bool>, exportExperiments: Option<bool>)

  // What `connect()` reads from the process environment.
  datatype Env = Env(target: Option<string>, failMode: Option<string>, exportCheckpoints: bool)

  // ---- what a server may answer ----

  datatype AuthReply =
    | NoRoute                                      // httpx.ConnectError
    | Broken                                       // any other transport error: a timeout, a reset
    | AuthStatus(code: int, body: Option<Identity>) // no body: not the JSON object it should be

  datatype Json = Unparsable | Null | Object(policy: Policy)
  datatype PolicyReply = NoReply | PolicyStatus(code: int, body: Json)

  // `handles` are those `add_span_processor` accepted: none where registration failed or is off.
  datatype Replies = Replies(auth: AuthReply, policy: PolicyReply, handles: Handles)

  datatype Path = AuthCheck | PolicyPull
  datatype Request = Request(path: Path, target: string, key: string)

  datatype ConnectOutcome = Ok | NoTarget | BadTarget | AuthRefused | AuthRaised

  // ---- what each call does to the global connection ----
  // `via` is the connection a job scope has installed in the calling task, if any: every read goes
  // through it, every write lands on the global connection `g`.

  function Active(g: Conn, via: Option<Conn>): Conn {
    if via.Some? then via.value else g
  }

  function Ask(path: Path, c: Conn): Request {
    Request(path, c.target, if c.apiKey.Some? then c.apiKey.value else "")
  }

  function Truthy(s: Option<string>): bool { s.Some? && s.value != "" }

  function ResolvedTarget(args: ConnectArgs, env: Env): Target.Normalized {
    Target.Normalize(if Truthy(args.target) then args.target.value
                     else if Truthy(env.target) then env.target.value else "")
  }

  predicate UsableTarget(args: ConnectArgs, env: Env) {
    var t := ResolvedTarget(args, env);
    t.Accepted? && t.url != ""
  }

  function ResolvedFailMode(args: ConnectArgs, env: Env): FailMode {
    var mode := if args.failMode.Some? then args.failMode else env.failMode;
    if mode.Some? && Target.Lower(Target.Strip(mode.value)) == "closed" then Closed else Open
  }

  function ResolvedPosture(args: ConnectArgs, env: Env): Posture {
    Posture(args.autoRegister, args.consoleUrl, args.exportEvals, args.exportExperiments,
            if args.exportCheckpoints.Some? then args.exportCheckpoints.value else env.exportCheckpoints)
  }

  function Configured(g: Conn, args: ConnectArgs, env: Env): Conn
    requires UsableTarget(args, env)
  {
    g.(apiKey := Some(args.apiKey), target := ResolvedTarget(args, env).url, project := args.project,
       failMode := ResolvedFailMode(args, env), posture := ResolvedPosture(args, env), check := None)
  }

  function AuthOutcome(auth: AuthReply): ConnectOutcome {
    match auth
    case NoRoute => Ok
    case Broken => AuthRaised
    case AuthStatus(code, body) =>
      if code == 401 || code == 403 then AuthRefused
      else if code == 200 && body.None? then AuthRaised
      else Ok
  }

  function Authenticated(g: Conn, auth: AuthReply): Conn {
    match auth
    case NoRoute => g.(check := Some(Unreachable))
    case Broken => g
    case AuthStatus(code, body) =>
      if code == 401 || code == 403 then g.(apiKey := None, project := None)
      else if code != 200 then g.(check := Some(Http(code)))
      else if body.None? then g
      else g.(identity := body.value, check := Some(Verified))
  }

  // An HTTP 200 answer that parses is stored, a JSON `null` included; anything else keeps the cache.
  function Stored(reply: PolicyReply): Option<Option<Policy>> {
    if reply.PolicyStatus? && reply.code == 200 && !reply.body.Unparsable?
    then Some(if reply.body.Null? then None else Some(reply.body.policy))
    else None
  }

  function Cached(g: Conn, reply: PolicyReply): Conn {
    if Stored(reply).Some? then g.(policy := Stored(reply).value) else g
  }

  function Or<T>(a: Option<T>, b: Option<T>): Option<T> { if a.Some? then a else b }

  function Processing(g: Conn, exportTraces: bool, h: Handles): Conn {
    g.(processors := Handles(if exportTraces then Or(h.trace, g.processors.trace) else g.processors.trace,
                             Or(h.hitl, g.processors.hitl), Or(h.evals, g.processors.evals)))
  }

  datatype Result = Result(conn: Conn, outcome: ConnectOutcome, requests: seq<Request>)

  function ConnectStep(g: Conn, via: Option<Conn>, args: ConnectArgs, env: Env, r: Replies): Result {
    if !UsableTarget(args, env) then
      Result(g, if ResolvedTarget(args, env).Accepted? then NoTarget else BadTarget, [])
    else
      var g1 := Configured(g, args, env);
      var g2 := Authenticated(g1, r.auth);
      var asked := [Ask(AuthCheck, Active(g1, via))];
      if AuthOutcome(r.auth) != Ok then Result(g2, AuthOutcome(r.auth), asked)
      else Result(Processing(Cached(g2, r.policy), args.exportTraces, r.handles), Ok,
                  asked + [Ask(PolicyPull, Active(g2, via))])
  }

  function RefreshStep(g: Conn, via: Option<Conn>, reply: PolicyReply): Conn {
    if Active(g, via).Connected() then Cached(g, reply) else g
  }

  // `disconnect()` clears a handle of the global connection where the proxy shows it one.
  function Released(mine: Handles, seen: Handles): Handles {
    Handles(if seen.trace.Some? then None else mine.trace,
            if seen.hitl.Some? then None else mine.hitl,
            if seen.evals.Some? then None else mine.evals)
  }

  function DisconnectStep(g: Conn, via: Option<Conn>): Conn {
    FRESH.(target := g.target, check := g.check,
           processors := Released(g.processors, Active(g, via).processors))
  }

  function Version(c: Conn): Option<string> {
    if c.policy.Some? then c.policy.value.version else None
  }

  // ---- the objects ----

  class Connection {
    var apiKey: Option<string>
    var target: string
    var project: Option<string>
    var identity: Identity
    var check: Option<Check>
    var policy: Option<Policy>
    var failMode: FailMode
    var posture: Posture
    var processors: Handles

    function View(): Conn
      reads this
    {
      Conn(apiKey, target, project, identity, check, policy, failMode, posture, processors)
    }

    constructor ()
      ensures View() == FRESH
    {
      apiKey, target, project, identity := None, "", None, NOBODY;
      check, policy, failMode, posture, processors := None, None, Open, DEFAULTS, NO_HANDLES;
    }

    // The steps of `connect()`, in order.

    method Configure(args: ConnectArgs, env: Env)
      requires UsableTarget(args, env)
      modifies this
      ensures View() == Configured(old(View()), args, env)
    {
      hide ResolvedTarget, ResolvedFailMode, ResolvedPosture;
      apiKey := Some(args.apiKey);
      target := ResolvedTarget(args, env).url;
      project := args.project;
      failMode := ResolvedFailMode(args, env);
      posture := ResolvedPosture(args, env);
      check := None;
    }

    method Authenticate(auth: AuthReply) returns (outcome: ConnectOutcome)
      modifies this`apiKey, this`project, this`identity, this`check
      ensures View() == Authenticated(old(View()), auth) && outcome == AuthOutcome(auth)
    {
      match auth
      case NoRoute =>
        check := Some(Unreachable);
        return Ok;
      case Broken =>
        return AuthRaised;
      case AuthStatus(code, body) =>
        if code == 401 || code == 403 {
          apiKey, project := None, None;
          return AuthRefused;
        }
        if code != 200 {
          check := Some(Http(code));
          return Ok;
        }
        if body.None? { return AuthRaised; }
        identity := body.value;
        check := Some(Verified);
        return Ok;
    }

    method StorePolicy(reply: PolicyReply)
      modifies this`policy
      ensures View() == Cached(old(View()), reply)
    {
      if reply.PolicyStatus? && reply.code == 200 {
        match reply.body
        case Unparsable =>
        case Null => policy := None;
        case Object(p) => policy := Some(p);
      }
    }

    method Register(exportTraces: bool, h: Handles)
      modifies this`processors
      ensures View() == Processing(old(View()), exportTraces, h)
    {
      if exportTraces && h.trace.Some? { processors := processors.(trace := h.trace); }
      if h.hitl.Some? { processors := processors.(hitl := h.hitl); }
      if h.evals.Some? { processors := processors.(evals := h.evals); }
    }
  }

  // The proxy as one task sees it. `scoped` is what the task's `scoped_connection` variable holds.
  class Proxy {
    const global: Connection
    var scoped: Connection?
    var requests: seq<Request>
    var flushed: seq<nat>

    predicate Valid()
      reads this
    {
      scoped != global
    }

    constructor (g: Connection)
      ensures Valid() && global == g && scoped == null && requests == [] && flushed == []
    {
      global, scoped, requests, flushed := g, null, [], [];
    }

    function Via(): Option<Conn>
      reads this, scoped
    {
      if scoped == null then None else Some(scoped.View())
    }

    // `_resolve` and `get_connection`: the object every read goes to.
    function Resolve(): (c: Connection)
      reads this, scoped, global
      ensures c.View() == Active(global.View(), Via())
    {
      if scoped == null then global else scoped
    }

    method Connect(args: ConnectArgs, env: Env, r: Replies) returns (outcome: ConnectOutcome)
      requires Valid()
      modifies global, this`requests
      ensures Valid()
      ensures var res := ConnectStep(old(global.View()), old(Via()), args, env, r);
              global.View() == res.conn && outcome == res.outcome && requests == old(requests) + res.requests
    {
      hide ResolvedTarget, Configured, Authenticated, Cached, Processing, AuthOutcome;
      var t := ResolvedTarget(args, env);
      if !t.Accepted? { return BadTarget; }
      if t.url == "" { return NoTarget; }
      global.Configure(args, env);
      requests := requests + [Ask(AuthCheck, Resolve().View())];
      outcome := global.Authenticate(r.auth);
      if outcome != Ok { return; }
      requests := requests + [Ask(PolicyPull, Resolve().View())];
      global.StorePolicy(r.policy);
      global.Register(args.exportTraces, r.handles);
    }

    method Refresh(reply: PolicyReply) returns (version: Option<string>)
      requires Valid()
      modifies global`policy, this`requests
      ensures Valid() && Via() == old(Via())
      ensures global.View() == RefreshStep(old(global.View()), Via(), reply)
      ensures requests == old(requests)
              + if old(Resolve().View()).Connected() then [Ask(PolicyPull, old(Resolve().View()))] else []
      ensures version == if old(Resolve().View()).Connected() then Version(Resolve().View()) else None
      ensures forall p | old(Resolve().View()).Connected() && Resolve().View().policy == Some(p) :: version == p.version
    {
      if Resolve().apiKey.None? { return None; }
      requests := requests + [Ask(PolicyPull, Resolve().View())];
      global.StorePolicy(reply);
      var active := Resolve();
      version := if active.policy.Some? then active.policy.value.version else None;
    }

    method FlushProcessors()
      requires Valid()
      modifies global`processors, this`flushed
      ensures global.processors == Released(old(global.processors), old(Resolve().processors))
      ensures flushed == old(flushed) + Held(old(Resolve().processors))
    {
      var active := Resolve();
      if active.processors.trace.Some? {
        flushed := flushed + [active.processors.trace.value];
        global.processors := global.processors.(trace := None);
      }
      if active.processors.hitl.Some? {
        flushed := flushed + [active.processors.hitl.value];
        global.processors := global.processors.(hitl := None);
      }
      if active.processors.evals.Some? {
        flushed := flushed + [active.processors.evals.value];
        global.processors := global.processors.(evals := None);
      }
    }

    method Disconnect()
      requires Valid()
      modifies global, this`flushed
      ensures Valid() && Via() == old(Via())
      ensures global.View() == DisconnectStep(old(global.View()), Via())
      ensures flushed == old(flushed) + Held(old(Resolve().processors))
      ensures forall x :: x in flushed[|old(flushed)|..] <==> old(Resolve().processors).Has(x)
    {
      HeldIs(Resolve().processors);
      hide Released, Held;
      FlushProcessors();
      global.apiKey, global.project, global.identity := None, None, NOBODY;
      global.policy, global.failMode, global.posture := None, Open, DEFAULTS;
    }
  }

  function Listed<T>(x: Option<T>): seq<T> { if x.Some? then [x.value] else [] }

  function Held(h: Handles): seq<nat> {
    Listed(h.trace) + Listed(h.hitl) + Listed(h.evals)
  }

  lemma HeldIs(h: Handles)
    ensures forall x :: x in Held(h) <==> h.Has(x)
  {
  }
}
