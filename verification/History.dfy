// What any sequence of connect, refresh_policy and disconnect calls leaves behind: fastaiagent/client.py.
module History {
  import opened Options
  import opened Client
  import Target

  datatype Op =
    | Connecting(args: ConnectArgs, env: Env, replies: Replies)
    | Refreshing(reply: PolicyReply)
    | Disconnecting

  // One call, made by a task whose job scope, if any, has installed the connection `via`.
  datatype Call = Call(via: Option<Conn>, op: Op)

  function Apply(g: Conn, c: Call): Conn {
    match c.op
    case Connecting(args, env, replies) => ConnectStep(g, c.via, args, env, replies).conn
    case Refreshing(reply) => RefreshStep(g, c.via, reply)
    case Disconnecting => DisconnectStep(g, c.via)
  }

  function Run(calls: seq<Call>): Conn {
    if calls == [] then FRESH else Apply(Run(calls[..|calls| - 1]), calls[|calls| - 1])
  }

  // ---- reading the state off the calls and the answers alone ----

  predicate Usable(c: Call) {
    c.op.Connecting? && UsableTarget(c.op.args, c.op.env)
  }

  predicate TouchesKey(c: Call) { Usable(c) || c.op.Disconnecting? }

  // A 401 or a 403.
  predicate KeyRefused(auth: AuthReply) {
    auth.AuthStatus? && (auth.code == 401 || auth.code == 403)
  }

  // The plane could not be reached, or answered with any other status, a 200 with the object it should have.
  predicate GoesOn(auth: AuthReply) {
    || auth.NoRoute?
    || (auth.AuthStatus? && auth.code != 401 && auth.code != 403 && (auth.code == 200 ==> auth.body.Some?))
  }

  predicate GrantsKey(c: Call) { Usable(c) && !KeyRefused(c.op.replies.auth) }

  // Of the connects with a usable target and the disconnects, the last was a connect that no 401
  // or 403 answered.
  ghost predicate Keyed(calls: seq<Call>) {
    exists i :: 0 <= i < |calls| && GrantsKey(calls[i]) && forall j | i < j < |calls| :: !TouchesKey(calls[j])
  }

  // The policy answer a call was given, if it got as far as asking for one.
  function ReplyTo(c: Call): PolicyReply {
    match c.op
    case Connecting(args, env, replies) => replies.policy
    case Refreshing(reply) => reply
    case Disconnecting => NoReply
  }

  // An HTTP 200 answer that parses, and the policy it holds: none where it is the JSON null.
  predicate Parsed(reply: PolicyReply) {
    reply.PolicyStatus? && reply.code == 200 && (reply.body.Object? || reply.body.Null?)
  }

  function BodyOf(reply: PolicyReply): Option<Policy> {
    if reply.PolicyStatus? && reply.body.Object? then Some(reply.body.policy) else None
  }

  // Call `i` asked for the policy and got an HTTP 200 answer that parsed.
  ghost predicate Pulled(calls: seq<Call>, i: nat)
    requires i < |calls|
  {
    var c := calls[i];
    && Parsed(ReplyTo(c))
    && match c.op
       case Connecting(args, env, replies) => Usable(c) && GoesOn(replies.auth)
       case Refreshing(_) => if c.via.Some? then c.via.value.Connected() else Keyed(calls[..i])
       case Disconnecting => false
  }

  ghost predicate Decides(calls: seq<Call>, i: nat)
    requires i < |calls|
  {
    calls[i].op.Disconnecting? || Pulled(calls, i)
  }

  ghost predicate LastWord(calls: seq<Call>, i: nat) {
    i < |calls| && Decides(calls, i) && forall j: nat | i < j < |calls| :: !Decides(calls, j)
  }

  // ---- the history theorem ----

  lemma KeyAfter(g: Conn, c: Call)
    ensures Apply(g, c).Connected() <==> if TouchesKey(c) then GrantsKey(c) else g.Connected()
    ensures GrantsKey(c) ==> TouchesKey(c)
  {
    hide ResolvedTarget;
  }

  lemma {:induction false} KeyIsHistory(calls: seq<Call>)
    ensures Run(calls).Connected() <==> Keyed(calls)
  {
    hide Apply, TouchesKey, GrantsKey;
    if calls != [] {
      var n := |calls| - 1;
      var before, last := calls[..n], calls[n];
      KeyIsHistory(before);
      KeyAfter(Run(before), last);
      if TouchesKey(last) {
        assert GrantsKey(last) ==> Keyed(calls);
      } else if Keyed(before) {
        var i :| 0 <= i < n && GrantsKey(before[i]) && forall j | i < j < n :: !TouchesKey(before[j]);
        assert GrantsKey(calls[i]) && forall j | i < j < |calls| :: !TouchesKey(calls[j]);
      } else {
        forall i | 0 <= i < n && GrantsKey(calls[i]) ensures exists j :: i < j < n && TouchesKey(calls[j]) {
          assert GrantsKey(before[i]);
        }
      }
    }
  }

  lemma DecidesPrefix(calls: seq<Call>, n: nat, i: nat)
    requires i < n <= |calls|
    ensures Decides(calls[..n], i) <==> Decides(calls, i)
  {
    hide Usable, GoesOn, Parsed;
    assert calls[..n][..i] == calls[..i];
  }

  // Whatever is called, from inside or outside a job scope, with any targets and any server answers:
  // the cached policy is the body of the last policy answer that was an HTTP 200 and parsed, unless
  // a disconnect came after it; with neither, there is none.
  lemma {:induction false} PolicyIsLastWord(calls: seq<Call>)
    ensures forall i: nat | LastWord(calls, i) ::
      Run(calls).policy == if calls[i].op.Disconnecting? then None else BodyOf(ReplyTo(calls[i]))
    ensures (forall i: nat | i < |calls| :: !Decides(calls, i)) ==> Run(calls).policy == None
  {
    hide Decides, Apply, ReplyTo, Parsed, BodyOf;
    if calls != [] {
      var n := |calls| - 1;
      var before := calls[..n];
      PolicyIsLastWord(before);
      PolicyAfterLast(calls);
      forall i: nat | i < n ensures Decides(before, i) <==> Decides(calls, i) {
        DecidesPrefix(calls, n, i);
      }
    }
  }

  lemma PolicyAfter(g: Conn, c: Call)
    ensures Apply(g, c).policy ==
      if c.op.Disconnecting? then None
      else if Parsed(ReplyTo(c))
        && (if c.op.Connecting? then Usable(c) && GoesOn(c.op.replies.auth) else Active(g, c.via).Connected())
      then BodyOf(ReplyTo(c))
      else g.policy
  {
    hide ResolvedTarget;
  }

  lemma PolicyAfterLast(calls: seq<Call>)
    requires calls != []
    ensures var n := |calls| - 1;
      Decides(calls, n) == (calls[n].op.Disconnecting? || Pulled(calls, n)) &&
      Run(calls).policy == if !Decides(calls, n) then Run(calls[..n]).policy
                           else if calls[n].op.Disconnecting? then None
                           else BodyOf(ReplyTo(calls[n]))
  {
    hide Usable, GoesOn, Apply;
    var n := |calls| - 1;
    KeyIsHistory(calls[..n]);
    PolicyAfter(Run(calls[..n]), calls[n]);
  }

  // ---- the rest of the connection ----

  predicate Verifies(c: Call) {
    Usable(c) && c.op.replies.auth.AuthStatus? && c.op.replies.auth.code == 200 && c.op.replies.auth.body.Some?
  }

  // The text a connect normalises: its argument, or the environment's where that is empty or left out.
  ghost predicate AsksFor(args: ConnectArgs, env: Env, x: string) {
    x != "" && (args.target == Some(x) || ((args.target == None || args.target == Some("")) && env.target == Some(x)))
  }

  ghost predicate IsTarget(t: string, args: ConnectArgs, env: Env) {
    forall x, lead, url, slashes, trail | AsksFor(args, env, x) && Target.Splits(x, lead, url, slashes, trail) ::
      t == url
  }

  // The argument, or the environment's where it is left out, says "closed".
  ghost predicate ClosedAsked(args: ConnectArgs, env: Env) {
    var mode := if args.failMode.Some? then args.failMode else env.failMode;
    mode.Some? && Target.AsksClosed(mode.value)
  }

  // A connect has a usable target exactly if there is a text, and without white space and trailing
  // slashes it is not empty and starts with http:// or https:// in any case.
  lemma UsableExactly(args: ConnectArgs, env: Env, x: string, lead: string, url: string, slashes: string, trail: string)
    requires AsksFor(args, env, x) && Target.Splits(x, lead, url, slashes, trail)
    ensures UsableTarget(args, env) <==> url != "" && Target.HasHttpScheme(url)
    ensures UsableTarget(args, env) ==> ResolvedTarget(args, env).url == url
  {
    hide Target.Normalize, Target.Splits, Target.HasHttpScheme;
    Target.AcceptsExactly(x, lead, url, slashes, trail);
  }

  lemma NothingNormalizes(args: ConnectArgs, env: Env)
    requires forall x :: !AsksFor(args, env, x)
    ensures ResolvedTarget(args, env) == Target.Accepted("")
  {
    if args.target.Some? { assert !AsksFor(args, env, args.target.value); }
    if env.target.Some? { assert !AsksFor(args, env, env.target.value); }
    assert Target.Splits("", "", "", "", "");
    Target.SplitIsCore("", "", "", "", "");
  }

  // An unusable connect ends as a missing target where there is no text but white space and slashes, and as
  // a bad one otherwise; it sends nothing.
  lemma UnusableByText(g: Conn, via: Option<Conn>, args: ConnectArgs, env: Env, r: Replies)
    requires !UsableTarget(args, env)
    ensures var res := ConnectStep(g, via, args, env, r); res.conn == g && res.requests == []
    ensures var res := ConnectStep(g, via, args, env, r);
      && ((forall x :: !AsksFor(args, env, x)) ==> res.outcome == NoTarget)
      && forall x, lead, url, slashes, trail | AsksFor(args, env, x) && Target.Splits(x, lead, url, slashes, trail) ::
           res.outcome == if url == "" then NoTarget else BadTarget
  {
    hide Target.Splits, Target.Normalize, Target.HasHttpScheme;
    if forall x :: !AsksFor(args, env, x) { NothingNormalizes(args, env); }
    forall x, lead, url, slashes, trail | AsksFor(args, env, x) && Target.Splits(x, lead, url, slashes, trail)
      ensures ConnectStep(g, via, args, env, r).outcome == if url == "" then NoTarget else BadTarget
    {
      Target.AcceptsExactly(x, lead, url, slashes, trail);
    }
  }

  ghost predicate SettledBy(g: Conn, c: Call, before: string)
    requires TouchesKey(c)
  {
    match c.op
    case Connecting(args, env, _) =>
      && g.apiKey == (if GrantsKey(c) then Some(args.apiKey) else None)
      && g.project == (if GrantsKey(c) then args.project else None)
      && IsTarget(g.target, args, env)
      && (g.failMode == Closed <==> ClosedAsked(args, env))
      && g.posture == Posture(args.autoRegister, args.consoleUrl, args.exportEvals, args.exportExperiments,
                              if args.exportCheckpoints == None then env.exportCheckpoints
                              else args.exportCheckpoints.value)
    case _ => g.apiKey == g.project == None && g.failMode == Open && g.posture == DEFAULTS && g.target == before
  }

  ghost predicate SameSettings(a: Conn, b: Conn) {
    && a.apiKey == b.apiKey && a.project == b.project && a.target == b.target
    && a.failMode == b.failMode && a.posture == b.posture
  }

  lemma TargetIs(args: ConnectArgs, env: Env)
    requires UsableTarget(args, env)
    ensures IsTarget(ResolvedTarget(args, env).url, args, env)
  {
    hide AsksFor, Target.Splits, Target.Normalize;
    var t := ResolvedTarget(args, env).url;
    forall x, lead, url, slashes, trail | AsksFor(args, env, x) && Target.Splits(x, lead, url, slashes, trail)
      ensures t == url
    {
      UsableExactly(args, env, x, lead, url, slashes, trail);
    }
  }

  lemma FailModeIs(args: ConnectArgs, env: Env)
    ensures ResolvedFailMode(args, env) == Closed <==> ClosedAsked(args, env)
  {
    hide Target.AsksClosed, Target.Lower, Target.Strip;
    var mode := if args.failMode.Some? then args.failMode else env.failMode;
    if mode.Some? { Target.AsksClosedExactly(mode.value); }
  }

  lemma ConnectSettings(g: Conn, via: Option<Conn>, args: ConnectArgs, env: Env, r: Replies)
    requires UsableTarget(args, env)
    ensures var c := ConnectStep(g, via, args, env, r).conn;
      && c.target == ResolvedTarget(args, env).url && c.failMode == ResolvedFailMode(args, env)
      && c.posture == ResolvedPosture(args, env)
      && c.apiKey == (if KeyRefused(r.auth) then None else Some(args.apiKey))
      && c.project == (if KeyRefused(r.auth) then None else args.project)
  {
    var g1 := Configured(g, args, env);
    var g2 := Authenticated(g1, r.auth);
    AuthenticatedKeeps(g1, r.auth);
    CachedKeeps(g2, r.policy);
    ProcessingKeeps(Cached(g2, r.policy), args.exportTraces, r.handles);
    hide Cached, Processing, ResolvedTarget, ResolvedFailMode, ResolvedPosture, Ask, UsableTarget, Authenticated;
    hide AuthOutcome, KeyRefused;
  }

  lemma AuthenticatedKeeps(g: Conn, auth: AuthReply)
    ensures var c := Authenticated(g, auth);
      && c.target == g.target && c.failMode == g.failMode && c.posture == g.posture
      && c.apiKey == (if KeyRefused(auth) then None else g.apiKey)
      && c.project == (if KeyRefused(auth) then None else g.project)
  {
  }

  lemma ConfiguredSettles(g: Conn, c: Call)
    requires Usable(c)
    ensures SettledBy(Apply(g, c), c, g.target)
  {
    TargetIs(c.op.args, c.op.env);
    FailModeIs(c.op.args, c.op.env);
    ConnectSettings(g, c.via, c.op.args, c.op.env, c.op.replies);
    hide ResolvedTarget, ResolvedFailMode, IsTarget, ClosedAsked, ConnectStep;
  }

  lemma SettingsAfter(g: Conn, c: Call)
    ensures if TouchesKey(c) then SettledBy(Apply(g, c), c, g.target) else SameSettings(Apply(g, c), g)
  {
    if Usable(c) {
      hide Apply, SettledBy;
      ConfiguredSettles(g, c);
    } else {
      hide ResolvedTarget, Released, Stored;
    }
  }

  lemma SettledKept(a: Conn, b: Conn, c: Call, before: string)
    requires TouchesKey(c) && SettledBy(a, c, before) && SameSettings(b, a)
    ensures SettledBy(b, c, before)
  {
    hide ResolvedTarget, IsTarget, ClosedAsked;
  }

  // The key, project, fail mode and posture are those of the last connect with a usable target,
  // whatever the plane answered it, but that a 401 or 403 takes the key and the project away; or the
  // defaults, if a disconnect came after it. The target outlives the disconnect.
  lemma {:induction false} SettingsAreLastWord(calls: seq<Call>, i: nat)
    requires i < |calls| && TouchesKey(calls[i]) && forall j | i < j < |calls| :: !TouchesKey(calls[j])
    ensures SettledBy(Run(calls), calls[i], Run(calls[..i]).target)
  {
    hide TouchesKey, Apply, SettledBy, SameSettings;
    var n := |calls| - 1;
    SettingsAfter(Run(calls[..n]), calls[n]);
    if i < n {
      assert calls[..n][..i] == calls[..i];
      SettingsAreLastWord(calls[..n], i);
      SettledKept(Run(calls[..n]), Run(calls), calls[i], Run(calls[..i]).target);
    }
  }

  // The plane's identity is what the last verified key check said, through any reconnects that were not
  // verified, to whatever target: only a disconnect forgets it.
  lemma {:induction false} IdentityIsLastWord(calls: seq<Call>, i: nat)
    requires i < |calls| && (Verifies(calls[i]) || calls[i].op.Disconnecting?)
    requires forall j | i < j < |calls| :: !(Verifies(calls[j]) || calls[j].op.Disconnecting?)
    ensures Run(calls).identity == if calls[i].op.Disconnecting? then NOBODY else calls[i].op.replies.auth.body.value
  {
    hide Apply, Verifies;
    var n := |calls| - 1;
    IdentityAfter(Run(calls[..n]), calls[n]);
    if i < n { IdentityIsLastWord(calls[..n], i); }
  }

  lemma IdentityAfter(g: Conn, c: Call)
    ensures Verifies(c) ==> c.op.Connecting? && c.op.replies.auth.AuthStatus? && c.op.replies.auth.body.Some?
    ensures Apply(g, c).identity ==
      if c.op.Disconnecting? then NOBODY else if Verifies(c) then c.op.replies.auth.body.value else g.identity
  {
    hide ResolvedTarget, ResolvedFailMode, ResolvedPosture, Released;
  }

  // A connect with a usable target, by the plane's answer to its key check. A 401 or 403 refuses it, takes
  // the key and the project and ends it there; an answer that is lost or has no object ends it with the
  // key in place; otherwise it asks for the policy too.
  lemma ConnectByAnswer(g: Conn, via: Option<Conn>, args: ConnectArgs, env: Env, r: Replies)
    requires UsableTarget(args, env)
    ensures var res := ConnectStep(g, via, args, env, r); var c := res.conn;
      var refused := r.auth.AuthStatus? && (r.auth.code == 401 || r.auth.code == 403);
      var raised := r.auth == Broken || r.auth == AuthStatus(200, None);
      && (refused <==> res.outcome == AuthRefused && c.apiKey == c.project == None && |res.requests| == 1)
      && (raised <==> res.outcome == AuthRaised)
      && (!refused ==> c.apiKey == Some(args.apiKey) && c.project == args.project)
      && (!refused && !raised <==> res.outcome == Ok) && |res.requests| == (if refused || raised then 1 else 2)
      && (refused || raised ==> c.policy == g.policy && c.identity == g.identity && c.processors == g.processors)
  {
    ConnectSettings(g, via, args, env, r);
    ConnectShape(g, via, args, env, r);
    OutcomeIs(r.auth);
    ConfiguredKeeps(g, args, env);
    StoppedKeeps(Configured(g, args, env), r.auth);
    hide ConnectStep, UsableTarget, ResolvedTarget, Configured, Authenticated, AuthOutcome, Cached, Processing, Ask;
    hide ResolvedFailMode, ResolvedPosture;
  }

  lemma ConnectShape(g: Conn, via: Option<Conn>, args: ConnectArgs, env: Env, r: Replies)
    requires UsableTarget(args, env)
    ensures var res := ConnectStep(g, via, args, env, r); var g1 := Configured(g, args, env);
      var g2 := Authenticated(g1, r.auth);
      && res.outcome == AuthOutcome(r.auth)
      && res.conn == (if res.outcome == Ok then Processing(Cached(g2, r.policy), args.exportTraces, r.handles) else g2)
      && res.requests == [Ask(AuthCheck, Active(g1, via))]
                         + if res.outcome == Ok then [Ask(PolicyPull, Active(g2, via))] else []
  {
    hide UsableTarget, ResolvedTarget, Configured, Authenticated, AuthOutcome, Cached, Processing, Ask, Active;
  }

  lemma ConfiguredKeeps(g: Conn, args: ConnectArgs, env: Env)
    requires UsableTarget(args, env)
    ensures var c := Configured(g, args, env);
      && c.policy == g.policy && c.identity == g.identity && c.processors == g.processors && c.check == None
      && c.apiKey == Some(args.apiKey) && c.target == ResolvedTarget(args, env).url
  {
    hide UsableTarget, ResolvedTarget, ResolvedFailMode, ResolvedPosture;
  }

  lemma OutcomeIs(auth: AuthReply)
    ensures AuthOutcome(auth) == AuthRefused <==> auth.AuthStatus? && (auth.code == 401 || auth.code == 403)
    ensures AuthOutcome(auth) == AuthRaised <==> auth == Broken || auth == AuthStatus(200, None)
    ensures AuthOutcome(auth) in {Ok, AuthRefused, AuthRaised}
  {
  }

  lemma StoppedKeeps(g: Conn, auth: AuthReply)
    ensures var c := Authenticated(g, auth);
      AuthOutcome(auth) != Ok ==> c.policy == g.policy && c.identity == g.identity && c.processors == g.processors
  {
  }

  // What the connection then says of its last check.
  lemma CheckByAnswer(g: Conn, via: Option<Conn>, args: ConnectArgs, env: Env, r: Replies)
    requires UsableTarget(args, env)
    ensures var c := ConnectStep(g, via, args, env, r).conn;
      c.check == match r.auth
        case NoRoute => Some(Unreachable)
        case Broken => None
        case AuthStatus(code, body) =>
          if code == 401 || code == 403 || (code == 200 && body.None?) then None
          else if code == 200 then Some(Verified)
          else Some(Http(code))
  {
    var g2 := Authenticated(Configured(g, args, env), r.auth);
    ConnectShape(g, via, args, env, r);
    ConfiguredKeeps(g, args, env);
    CachedKeeps(g2, r.policy);
    ProcessingKeeps(Cached(g2, r.policy), args.exportTraces, r.handles);
    hide ConnectStep, UsableTarget, ResolvedTarget, Configured, AuthOutcome, Cached, Processing, Ask;
    hide ResolvedFailMode, ResolvedPosture;
  }

  // Outside job scopes all a connect sends goes to the new target with the new key: the key check, then
  // the policy pull.
  lemma ConnectAsksItsTarget(g: Conn, args: ConnectArgs, env: Env, r: Replies)
    requires UsableTarget(args, env)
    ensures var q := ConnectStep(g, None, args, env, r).requests;
      && 1 <= |q| <= 2
      && q[0].path == AuthCheck && q[0].key == args.apiKey && IsTarget(q[0].target, args, env)
      && (|q| == 2 ==> q[1].path == PolicyPull && q[1].key == args.apiKey && q[1].target == q[0].target)
  {
    var g1 := Configured(g, args, env);
    var g2 := Authenticated(g1, r.auth);
    TargetIs(args, env);
    OutcomeIs(r.auth);
    ConnectShape(g, None, args, env, r);
    ConfiguredKeeps(g, args, env);
    AuthenticatedKeeps(g1, r.auth);
    AskIs(AuthCheck, g1);
    AskIs(PolicyPull, g2);
    hide ConnectStep, UsableTarget, ResolvedTarget, Configured, Authenticated, AuthOutcome, Cached, Processing, Ask;
    hide ResolvedFailMode, ResolvedPosture, IsTarget;
  }

  lemma AskIs(path: Path, c: Conn)
    ensures Ask(path, c).path == path && Ask(path, c).target == c.target
    ensures c.apiKey.Some? ==> Ask(path, c).key == c.apiKey.value
  {
  }

  lemma ProcessingKeeps(g: Conn, exportTraces: bool, h: Handles)
    ensures var c := Processing(g, exportTraces, h); c == g.(processors := c.processors)
  {
  }

  lemma CachedKeeps(g: Conn, reply: PolicyReply)
    ensures var c := Cached(g, reply); c == g.(policy := c.policy)
  {
  }

  // A connect that goes on replaces the handles of the processors it registered, and no others.
  lemma ConnectReplacesHandles(g: Conn, via: Option<Conn>, args: ConnectArgs, env: Env, r: Replies)
    requires UsableTarget(args, env) && GoesOn(r.auth)
    ensures var mine, was, given := ConnectStep(g, via, args, env, r).conn.processors, g.processors, r.handles;
      && mine.trace == (if args.exportTraces && given.trace.Some? then given.trace else was.trace)
      && mine.hitl == (if given.hitl.Some? then given.hitl else was.hitl)
      && mine.evals == (if given.evals.Some? then given.evals else was.evals)
  {
    hide UsableTarget, ResolvedTarget, ResolvedFailMode, ResolvedPosture, Stored;
  }

  // The calls that are not connects without a usable target.
  function Effective(calls: seq<Call>): seq<Call> {
    if calls == [] then []
    else
      var n := |calls| - 1;
      Effective(calls[..n]) + if calls[n].op.Connecting? && !Usable(calls[n]) then [] else [calls[n]]
  }

  // So a history is what it is without them.
  lemma {:induction false} UnusableConnectsDropOut(calls: seq<Call>)
    ensures Run(Effective(calls)) == Run(calls)
  {
    hide Apply, Usable;
    if calls != [] {
      var n := |calls| - 1;
      var kept := Effective(calls[..n]);
      UnusableConnectsDropOut(calls[..n]);
      UnusableApply(Run(calls[..n]), calls[n]);
      assert (kept + [calls[n]])[..|kept|] == kept;
      assert kept + [] == kept;
    }
  }

  lemma UnusableApply(g: Conn, c: Call)
    ensures c.op.Connecting? && !Usable(c) ==> Apply(g, c) == g
  {
    hide ResolvedTarget, Authenticated, Cached, Processing;
  }

  // `disconnect` leaves a fresh connection, but for the target and the last check result, exactly
  // when the proxy shows it every handle the global connection holds.
  lemma DisconnectLeavesFresh(calls: seq<Call>, via: Option<Conn>)
    ensures var g := Run(calls); var d := Run(calls + [Call(via, Disconnecting)]);
      var mine, seen := g.processors, Active(g, via).processors;
      d == FRESH.(target := g.target, check := g.check) <==>
      (mine.trace.Some? ==> seen.trace.Some?) && (mine.hitl.Some? ==> seen.hitl.Some?)
      && (mine.evals.Some? ==> seen.evals.Some?)
  {
    assert (calls + [Call(via, Disconnecting)])[..|calls|] == calls;
  }

  // Inside a connection-bearing job scope every request goes to the scope's target with the scope's
  // key, while whatever comes back is stored in the global connection.
  lemma ScopedCallsAskTheScope(g: Conn, v: Conn, args: ConnectArgs, env: Env, r: Replies, p: Policy)
    ensures forall q | q in ConnectStep(g, Some(v), args, env, r).requests ::
      q.target == v.target && q.key == if v.Connected() then v.apiKey.value else ""
    ensures v.Connected() ==> RefreshStep(g, Some(v), PolicyStatus(200, Object(p))) == g.(policy := Some(p))
  {
    hide UsableTarget, ResolvedTarget, Configured, Authenticated, Processing;
  }
}
