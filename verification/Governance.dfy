// The three gates a tool call can pass: fastaiagent/governance.py.
module Governance {
  import opened Options
  import opened Client
  import History

  const APPROVAL_REASON := "policy_approval_required"

  // `fnmatch.fnmatch(tool, pattern)`, `uuid.UUID(value)` succeeding, and the plane ids of the agents
  // this process has pushed.
  datatype Lookups = Lookups(glob: (string, string) -> bool, isUuid: string -> bool, pushed: map<string, string>)

  datatype Call = Call(tool: string, input: string, agentId: Option<string>, runId: string)
  datatype Resume = Resume(approved: bool)

  // ---- what the plane may answer ----

  datatype Decision = Decision(verdict: Option<string>, reason: Option<string>, requestId: Option<string>)

  // None is any failure of `POST /policy/decide`, before or after the plane acted.
  type DecideReply = Option<Decision>

  // `POST /runs/{run}/pending`: whether the plane opened a pending run, and what the SDK learnt of it.
  datatype Registration = NeverArrived | ReplyLost | NoIdGiven(created: bool) | IdGiven
  {
    predicate Opens() { ReplyLost? || IdGiven? || (NoIdGiven? && created) }
  }

  // What the plane has in store for one call; `nextId` is the id of the next pending run it opens.
  datatype Answers = Answers(reply: DecideReply, reg: Registration, nextId: nat)

  // ---- what a gate says ----

  datatype Refusal =
    | FailClosedMode | CheckUnavailable | DeniedByPolicy(reason: string) | ApprovalDenied | CannotWait | NotPushed

  // The context a policy pause is saved with.
  datatype Pause = Pause(tool: string, input: string, runId: string, requestId: Option<string>, pendingId: Option<nat>)
  datatype Outcome = Allowed | Refused(why: Refusal) | Paused(pause: Pause)

  datatype Reason = NoReason | Given(text: string) | Because(why: Refusal)
  datatype ToolDecision = ToolDecision(decision: string, reason: Reason, requestId: Option<string>)

  // ---- policy matching and the fail-closed test ----

  predicate PatternHits(look: Lookups, tool: string, pattern: Option<string>) {
    Truthy(pattern) && look.glob(tool, pattern.value)
  }

  predicate Matches(look: Lookups, c: Conn, tool: string) {
    c.policy.Some?
    && exists i | 0 <= i < |c.policy.value.patterns| :: PatternHits(look, tool, c.policy.value.patterns[i])
  }

  method PolicyMatches(look: Lookups, c: Conn, tool: string) returns (hit: bool)
    ensures hit <==> Matches(look, c, tool)
  {
    if c.policy.None? { return false; }
    var patterns := c.policy.value.patterns;
    for i := 0 to |patterns|
      invariant forall j | 0 <= j < i :: !PatternHits(look, tool, patterns[j])
    {
      if Truthy(patterns[i]) && look.glob(tool, patterns[i].value) { return true; }
    }
    return false;
  }

  // Connected for an enrolled agent, with no policy to go by.
  predicate Blind(c: Conn, agentId: Option<string>) {
    Truthy(agentId) && c.Connected() && c.policy.None?
  }

  predicate FailsClosed(c: Conn, agentId: Option<string>) {
    c.failMode == Closed && Blind(c, agentId)
  }

  predicate Governed(look: Lookups, c: Conn, call: Call) {
    Truthy(call.agentId) && c.Connected() && Matches(look, c, call.tool)
  }

  // ---- the agent's own gate, in the three stretches between its two plane calls ----

  datatype Start = Settled(outcome: Outcome) | Ask

  function StartGate(look: Lookups, c: Conn, call: Call, ambient: Option<Resume>): Start {
    if FailsClosed(c, call.agentId) then Settled(Refused(FailClosedMode))
    else if !Governed(look, c, call) then Settled(Allowed)
    else if ambient.Some? then Settled(if ambient.value.approved then Allowed else Refused(ApprovalDenied))
    else Ask
  }

  datatype Next = Done(outcome: Outcome) | Register(decision: Decision)

  function AfterDecide(reply: DecideReply): Next {
    if reply.None? then Done(Refused(CheckUnavailable))
    else if reply.value.verdict == Some("deny") then Done(Refused(DeniedByPolicy(ReasonText(reply.value))))
    else if reply.value.verdict == Some("require_approval") then Register(reply.value)
    else Done(Allowed)
  }

  function ReasonText(d: Decision): string {
    if Truthy(d.reason) then d.reason.value else "not permitted"
  }

  function PauseFor(call: Call, d: Decision, pendingId: Option<nat>): Outcome {
    Paused(Pause(call.tool, call.input, call.runId, d.requestId, pendingId))
  }

  // The approver is asked about this call, and for the plane's request.
  ghost predicate Carries(p: Pause, call: Call, d: Decision) {
    p.tool == call.tool && p.input == call.input && p.runId == call.runId && p.requestId == d.requestId
  }

  datatype GateResult = GateResult(outcome: Outcome, decides: nat, registers: nat, created: set<nat>)

  // The whole gate.
  function Gate(look: Lookups, c: Conn, call: Call, ambient: Option<Resume>,
                ans: Answers): GateResult
  {
    match StartGate(look, c, call, ambient)
    case Settled(o) => GateResult(o, 0, 0, {})
    case Ask =>
      match AfterDecide(ans.reply)
      case Done(o) => GateResult(o, 1, 0, {})
      case Register(d) =>
        GateResult(PauseFor(call, d, if ans.reg.IdGiven? then Some(ans.nextId) else None), 1, 1,
                   if ans.reg.Opens() then {ans.nextId} else {})
  }

  function DirectCall(look: Lookups, c: Conn, call: Call, reply: DecideReply): (Outcome, nat) {
    if FailsClosed(c, call.agentId) then (Refused(FailClosedMode), 0)
    else if !Governed(look, c, call) then (Allowed, 0)
    else if reply.None? then (Refused(CheckUnavailable), 1)
    else if reply.value.verdict == Some("deny") then (Refused(DeniedByPolicy(ReasonText(reply.value))), 1)
    else if reply.value.verdict == Some("require_approval") then (Refused(CannotWait), 1)
    else (Allowed, 1)
  }

  function ResolvedAgent(look: Lookups, agent: string): string {
    if agent in look.pushed && look.pushed[agent] != "" then look.pushed[agent] else agent
  }

  // The plane can know this agent: it was pushed here under another id, or is named by its plane id.
  predicate Known(look: Lookups, agent: string) {
    ResolvedAgent(look, agent) != agent || look.isUuid(agent)
  }

  function CheckToolCall(look: Lookups, c: Conn, tool: string, agent: string, reply: DecideReply): (ToolDecision, nat) {
    if FailsClosed(c, Some(ResolvedAgent(look, agent))) then (ToolDecision("deny", Because(FailClosedMode), None), 0)
    else if !c.Connected() || !Matches(look, c, tool) then (ToolDecision("allow", NoReason, None), 0)
    else if !Known(look, agent) then (ToolDecision("deny", Because(NotPushed), None), 0)
    else if reply.None? then (ToolDecision("deny", Because(CheckUnavailable), None), 1)
    else
      var d := reply.value;
      (ToolDecision(if Truthy(d.verdict) then d.verdict.value else "deny",
                    if d.reason.Some? then Given(d.reason.value) else NoReason, d.requestId), 1)
  }

  // ---- the gates as they run ----

  class Plane {
    var decides: nat
    var registers: nat
    var issued: nat
    var open: set<nat>

    constructor ()
      ensures decides == registers == issued == 0 && open == {}
    {
      decides, registers, issued, open := 0, 0, 0, {};
    }

    method Decide(reply: DecideReply) returns (r: DecideReply)
      modifies this`decides
      ensures decides == old(decides) + 1 && r == reply
    {
      decides := decides + 1;
      r := reply;
    }

    // `failed` is the exception the SDK sees.
    method PostPending(reg: Registration) returns (failed: bool, id: Option<nat>)
      modifies this`registers, this`issued, this`open
      ensures registers == old(registers) + 1
      ensures issued == old(issued) + if reg.Opens() then 1 else 0
      ensures open == old(open) + if reg.Opens() then {old(issued)} else {}
      ensures failed <==> reg.NeverArrived? || reg.ReplyLost?
      ensures id == if reg.IdGiven? then Some(old(issued)) else None
    {
      registers := registers + 1;
      id := if reg.IdGiven? then Some(issued) else None;
      failed := reg.NeverArrived? || reg.ReplyLost?;
      if reg.Opens() {
        open := open + {issued};
        issued := issued + 1;
      }
    }
  }

  // `require_approval`: register the pending run and pause, whatever became of the registration.
  method RegisterPause(plane: Plane, call: Call, decision: Decision, reg: Registration) returns (o: Outcome)
    modifies plane`registers, plane`issued, plane`open
    ensures o == PauseFor(call, decision, if reg.IdGiven? then Some(old(plane.issued)) else None)
    ensures o.Paused? && Carries(o.pause, call, decision)
    ensures plane.registers == old(plane.registers) + 1
    ensures plane.issued == old(plane.issued) + if reg.Opens() then 1 else 0
    ensures plane.open == old(plane.open) + if reg.Opens() then {old(plane.issued)} else {}
  {
    var pendingId: Option<nat> := None;
    var failed, id := plane.PostPending(reg);
    if !failed { pendingId := id; }
    o := PauseFor(call, decision, pendingId);
  }

  method GateToolCall(look: Lookups, proxy: Proxy, plane: Plane, call: Call, ambient: Option<Resume>,
                      reply: DecideReply, reg: Registration) returns (o: Outcome)
    requires proxy.Valid()
    modifies plane
    ensures Shows(plane, old(plane.decides), old(plane.registers), old(plane.issued), old(plane.open), o,
                  Gate(look, old(proxy.Resolve().View()), call, ambient, Answers(reply, reg, old(plane.issued))))
    ensures o.Paused? ==> reply.Some? && Carries(o.pause, call, reply.value)
  {
    hide Matches, FailsClosed, PauseFor, ReasonText;
    var c := proxy.Resolve().View();
    if FailsClosed(c, call.agentId) { return Refused(FailClosedMode); }
    var hit := PolicyMatches(look, c, call.tool);
    if !Truthy(call.agentId) || !c.Connected() || !hit { return Allowed; }
    if ambient.Some? {
      return if ambient.value.approved then Allowed else Refused(ApprovalDenied);
    }
    var answer := plane.Decide(reply);
    if answer.None? { return Refused(CheckUnavailable); }
    var decision := answer.value;
    if decision.verdict == Some("deny") { return Refused(DeniedByPolicy(ReasonText(decision))); }
    if decision.verdict == Some("require_approval") {
      o := RegisterPause(plane, call, decision, reg);
      return;
    }
    return Allowed;
  }

  // The outcome and the plane after a gate, against the plane before it.
  ghost predicate Shows(plane: Plane, decides: nat, registers: nat, issued: nat, open: set<nat>, o: Outcome,
                        r: GateResult)
    reads plane
  {
    && o == r.outcome
    && plane.decides == decides + r.decides
    && plane.registers == registers + r.registers
    && plane.open == open + r.created
    && plane.issued == issued + |r.created|
  }

  method CheckDirectCall(look: Lookups, proxy: Proxy, plane: Plane, call: Call, reply: DecideReply) returns (o: Outcome)
    requires proxy.Valid()
    modifies plane`decides
    ensures var (v, n) := DirectCall(look, proxy.Resolve().View(), call, reply);
            o == v && plane.decides == old(plane.decides) + n
  {
    hide Matches;
    var c := proxy.Resolve().View();
    if FailsClosed(c, call.agentId) { return Refused(FailClosedMode); }
    var hit := PolicyMatches(look, c, call.tool);
    if !Truthy(call.agentId) || !c.Connected() || !hit { return Allowed; }
    var answer := plane.Decide(reply);
    if answer.None? { return Refused(CheckUnavailable); }
    if answer.value.verdict == Some("deny") { return Refused(DeniedByPolicy(ReasonText(answer.value))); }
    if answer.value.verdict == Some("require_approval") { return Refused(CannotWait); }
    return Allowed;
  }

  method ACheckToolCall(look: Lookups, proxy: Proxy, plane: Plane, tool: string, agent: string, reply: DecideReply)
      returns (o: ToolDecision)
    requires proxy.Valid()
    modifies plane`decides
    ensures var (v, n) := CheckToolCall(look, proxy.Resolve().View(), tool, agent, reply);
            o == v && plane.decides == old(plane.decides) + n
  {
    hide Matches;
    var c := proxy.Resolve().View();
    var agentId := ResolvedAgent(look, agent);
    if FailsClosed(c, Some(agentId)) { return ToolDecision("deny", Because(FailClosedMode), None); }
    var hit := PolicyMatches(look, c, tool);
    if !c.Connected() || !hit { return ToolDecision("allow", NoReason, None); }
    if agentId == agent && !look.isUuid(agent) { return ToolDecision("deny", Because(NotPushed), None); }
    var answer := plane.Decide(reply);
    if answer.None? { return ToolDecision("deny", Because(CheckUnavailable), None); }
    var d := answer.value;
    return ToolDecision(if Truthy(d.verdict) then d.verdict.value else "deny",
                        if d.reason.Some? then Given(d.reason.value) else NoReason, d.requestId);
  }

  // ---- what a gate tells ----

  // A policy covers the tool on a live connection.
  predicate Covered(look: Lookups, c: Conn, tool: string) {
    c.Connected() && Matches(look, c, tool)
  }

  ghost predicate Enrolled(agentId: Option<string>) { agentId.Some? && agentId.value != "" }

  // The gate pauses exactly a covered call of an enrolled agent on a first pass that the plane wants
  // approved. The pause carries the call's own tool, input and run, the plane's request, and the
  // pending run's id if the registration returned one; the plane has a new pending run if the
  // registration reached it, returned or not.
  lemma PauseTells(look: Lookups, c: Conn, call: Call, ambient: Option<Resume>, ans: Answers)
    ensures var g := Gate(look, c, call, ambient, ans); var o := g.outcome;
      && (o.Paused? <==> Enrolled(call.agentId) && Covered(look, c, call.tool) && ambient.None?
                         && ans.reply.Some? && ans.reply.value.verdict == Some("require_approval"))
      && (o.Paused? ==> Carries(o.pause, call, ans.reply.value)
                        && o.pause.pendingId == if ans.reg == IdGiven then Some(ans.nextId) else None)
      && g.registers == (if o.Paused? then 1 else 0)
      && g.created == (if o.Paused? && ans.reg in {ReplyLost, IdGiven, NoIdGiven(true)} then {ans.nextId} else {})
  {
    assert c.policy.None? ==> !Matches(look, c, call.tool);
    hide Matches;
  }

  // A denial tells the plane's reason, or that there was none.
  lemma DenialTells(look: Lookups, c: Conn, call: Call, ambient: Option<Resume>, ans: Answers)
    requires Gate(look, c, call, ambient, ans).outcome.Refused?
    requires Gate(look, c, call, ambient, ans).outcome.why.DeniedByPolicy?
    ensures ans.reply.Some? && ans.reply.value.verdict == Some("deny")
    ensures var d := ans.reply.value; var text := Gate(look, c, call, ambient, ans).outcome.why.reason;
      if d.reason == None || d.reason == Some("") then text == "not permitted" else d.reason == Some(text)
  {
    hide Matches;
  }

  // The advisory check tells why it refused by itself, and otherwise the plane's own words and request.
  lemma CheckTells(look: Lookups, c: Conn, tool: string, agent: string, reply: DecideReply)
    ensures var d := CheckToolCall(look, c, tool, agent, reply).0;
      var pushed := agent in look.pushed && look.pushed[agent] != "";
      var id := if pushed then look.pushed[agent] else agent;
      var covered, known := Covered(look, c, tool), id != agent || look.isUuid(agent);
      && (d.reason == Because(FailClosedMode) <==>
            id != "" && c.Connected() && c.policy.None? && c.failMode == Closed)
      && (d.reason == Because(NotPushed) <==> covered && !known)
      && (d.reason == Because(CheckUnavailable) <==> covered && known && reply.None?)
      && (d.reason.Because? ==> d.decision == "deny" && d.requestId == None)
      && (covered && known && reply.Some? ==>
            && d.requestId == reply.value.requestId
            && d.reason == (if reply.value.reason.Some? then Given(reply.value.reason.value) else NoReason)
            && (if reply.value.verdict == None || reply.value.verdict == Some("") then d.decision == "deny"
                else reply.value.verdict == Some(d.decision)))
  {
    assert c.policy.None? ==> !Matches(look, c, tool);
    hide Matches;
  }

  // An agent pushed from this process goes by its name as it does by its plane id.
  lemma PushedNameIsItsId(look: Lookups, c: Conn, tool: string, name: string, id: string, reply: DecideReply)
    requires name in look.pushed && look.pushed[name] == id != "" && id !in look.pushed && look.isUuid(id)
    ensures CheckToolCall(look, c, tool, name, reply) == CheckToolCall(look, c, tool, id, reply)
  {
    hide Matches;
  }

  // ---- agreement between the gates ----

  // With no resume value ambient, the direct gate allows exactly what the agent's gate allows, refuses
  // with the same words what it refuses, and refuses as well what it would pause; both ask the plane
  // the same number of times.
  lemma DirectAgreesWithGate(look: Lookups, c: Conn, call: Call, ans: Answers)
    ensures var (d, n) := DirectCall(look, c, call, ans.reply);
      var g := Gate(look, c, call, None, ans);
      && n == g.decides
      && d == (if g.outcome.Paused? then Refused(CannotWait) else g.outcome)
      && (d == Refused(CannotWait) <==> g.outcome.Paused?)
  {
    hide Matches;
  }

  predicate Agrees(d: ToolDecision, o: Outcome) {
    && (d.decision == "allow" <==> o.Allowed?)
    && (d.decision == "deny" <==> o.Refused?)
    && (d.decision == "require_approval" <==> o.Paused?)
  }

  // The advisory check and the agent's gate on a first pass agree where no policy covers the tool.
  // Where one does, for an agent the plane can know they agree unless the plane answered with a verdict
  // that is none of the three words; for any other agent the check refuses unasked, so they agree
  // where the plane would have failed or denied. Under the empty name the gate lets everything run, so
  // there they agree where the check was answered allow.
  lemma CheckAgreesWithGate(look: Lookups, c: Conn, tool: string, input: string, agent: string, runId: string,
                            ans: Answers)
    ensures var pushed := agent in look.pushed && look.pushed[agent] != "";
      var id := if pushed then look.pushed[agent] else agent;
      var (d, n) := CheckToolCall(look, c, tool, agent, ans.reply);
      var g := Gate(look, c, Call(tool, input, Some(id), runId), None, ans);
      var covered, known := Covered(look, c, tool), id != agent || look.isUuid(agent);
      var verdict := if ans.reply.Some? then ans.reply.value.verdict else None;
      && n == (if covered && known then 1 else 0) && g.decides == (if covered && id != "" then 1 else 0)
      && (Agrees(d, g.outcome) <==>
          || !covered
          || (if id == "" then known && verdict == Some("allow")
              else ans.reply.None? || verdict == Some("deny")
                   || (known && verdict in {Some("allow"), Some("require_approval")})))
  {
    assert c.policy.None? ==> !Matches(look, c, tool);
    hide Matches;
  }

  // ---- resuming ----

  // A rejected call is refused on the resumed pass exactly while the agent is enrolled, the connection
  // stands, and either a cached policy still matches or the fail-closed mode has none to go by.
  // Otherwise it runs. An approved one is refused only by the latter.
  lemma RejectedRunsExactlyWhenUngoverned(look: Lookups, c: Conn, call: Call, ans: Answers)
    ensures Gate(look, c, call, Some(Resume(false)), ans).outcome == Allowed <==>
      !(Enrolled(call.agentId) && c.Connected()
        && (if c.policy.None? then c.failMode == Closed else Matches(look, c, call.tool)))
    ensures Governed(look, c, call) ==>
      Gate(look, c, call, Some(Resume(false)), ans).outcome == Refused(ApprovalDenied)
    ensures Gate(look, c, call, Some(Resume(true)), ans).outcome ==
      if Enrolled(call.agentId) && c.Connected() && c.policy.None? && c.failMode == Closed
      then Refused(FailClosedMode) else Allowed
  {
    hide PatternHits;
  }

  // ---- the fail mode ----

  ghost function InMode(c: Conn, m: FailMode): Conn { c.(failMode := m) }

  // The two fail modes differ exactly for an enrolled agent on a connection without a policy: there
  // "closed" refuses what "open" allows, and neither asks the plane.
  lemma FailModesDiffer(look: Lookups, c: Conn, call: Call, ambient: Option<Resume>, ans: Answers)
    ensures var closed := Gate(look, InMode(c, Closed), call, ambient, ans);
      var open := Gate(look, InMode(c, Open), call, ambient, ans);
      var blind := Enrolled(call.agentId) && c.Connected() && c.policy.None?;
      && (closed != open <==> blind)
      && (blind ==> closed.outcome == Refused(FailClosedMode) && open.outcome == Allowed
                    && closed.decides == open.decides == 0)
    ensures var closed := DirectCall(look, InMode(c, Closed), call, ans.reply);
      var open := DirectCall(look, InMode(c, Open), call, ans.reply);
      var blind := Enrolled(call.agentId) && c.Connected() && c.policy.None?;
      && (closed != open <==> blind)
      && (blind ==> closed == (Refused(FailClosedMode), 0) && open == (Allowed, 0))
  {
    hide PatternHits;
    var a, b := InMode(c, Closed), InMode(c, Open);
    assert Matches(look, a, call.tool) == Matches(look, b, call.tool) == Matches(look, c, call.tool);
  }

  lemma FailModesDifferForCheck(look: Lookups, c: Conn, tool: string, agent: string, reply: DecideReply)
    ensures var closed := CheckToolCall(look, InMode(c, Closed), tool, agent, reply);
      var open := CheckToolCall(look, InMode(c, Open), tool, agent, reply);
      var blind := ResolvedAgent(look, agent) != "" && c.Connected() && c.policy.None?;
      && (closed != open <==> blind)
      && (blind ==> closed.0.decision == "deny" && open.0.decision == "allow" && closed.1 == open.1 == 0)
  {
    hide PatternHits;
    var a, b := InMode(c, Closed), InMode(c, Open);
    assert Matches(look, a, tool) == Matches(look, b, tool) == Matches(look, c, tool);
  }

  // ---- the policies ----

  // The patterns that can match anything.
  ghost function Patterns(c: Conn): set<string> {
    if c.policy.None? then {}
    else
      var ps := c.policy.value.patterns;
      set i | 0 <= i < |ps| && ps[i].Some? && ps[i].value != "" :: ps[i].value
  }

  lemma MatchesIsSet(look: Lookups, c: Conn, tool: string)
    ensures Matches(look, c, tool) <==> exists p :: p in Patterns(c) && look.glob(tool, p)
  {
    if Matches(look, c, tool) {
      var i :| 0 <= i < |c.policy.value.patterns| && PatternHits(look, tool, c.policy.value.patterns[i]);
      assert c.policy.value.patterns[i].value in Patterns(c);
    }
  }

  // Order and repetition of the cached policies, and policies without a pattern, change no gate's answer.
  lemma OnlyThePatternSetCounts(look: Lookups, c: Conn, p: Policy, q: Policy, call: Call, agent: string,
                                ambient: Option<Resume>, ans: Answers)
    requires Patterns(c.(policy := Some(p))) == Patterns(c.(policy := Some(q)))
    ensures var a, b := c.(policy := Some(p)), c.(policy := Some(q));
      && Gate(look, a, call, ambient, ans) == Gate(look, b, call, ambient, ans)
      && DirectCall(look, a, call, ans.reply) == DirectCall(look, b, call, ans.reply)
      && CheckToolCall(look, a, call.tool, agent, ans.reply) == CheckToolCall(look, b, call.tool, agent, ans.reply)
  {
    MatchesIsSet(look, c.(policy := Some(p)), call.tool);
    MatchesIsSet(look, c.(policy := Some(q)), call.tool);
    hide Matches, Patterns;
  }

  // Adding policies never turns a governed call into an ungoverned one.
  lemma MorePoliciesGovernMore(look: Lookups, c: Conn, p: Policy, q: Policy, call: Call)
    requires Patterns(c.(policy := Some(p))) <= Patterns(c.(policy := Some(q)))
    requires Governed(look, c.(policy := Some(p)), call)
    ensures Governed(look, c.(policy := Some(q)), call)
  {
    MatchesIsSet(look, c.(policy := Some(p)), call.tool);
    MatchesIsSet(look, c.(policy := Some(q)), call.tool);
    hide Matches, Patterns;
  }

  // ---- where governance does not reach ----

  // Every gate allows the call and none asks the plane.
  ghost predicate PassesFreely(look: Lookups, c: Conn, call: Call, agent: string, ambient: Option<Resume>,
                               ans: Answers)
  {
    && Gate(look, c, call, ambient, ans) == GateResult(Allowed, 0, 0, {})
    && DirectCall(look, c, call, ans.reply) == (Allowed, 0)
    && CheckToolCall(look, c, call.tool, agent, ans.reply) == (ToolDecision("allow", NoReason, None), 0)
  }

  ghost predicate Ungated(look: Lookups, c: Conn) {
    forall call: Call, agent: string, ambient: Option<Resume>, ans: Answers ::
      PassesFreely(look, c, call, agent, ambient, ans)
  }

  lemma NoPolicyMeansUngated(look: Lookups, c: Conn)
    requires !c.Connected() || (c.policy.None? && c.failMode == Open)
    ensures Ungated(look, c)
  {
  }

  // Outside every job scope, after any history of calls, a disconnect ungates everything; so does a
  // connect refused with 401 or 403, although it leaves the cached policy in place.
  lemma DisconnectUngates(look: Lookups, calls: seq<History.Call>, c: History.Call)
    requires c.op.Disconnecting?
             || (c.op.Connecting? && UsableTarget(c.op.args, c.op.env) && c.op.replies.auth.AuthStatus?
                 && (c.op.replies.auth.code == 401 || c.op.replies.auth.code == 403))
    ensures Ungated(look, History.Run(calls + [c]))
  {
    hide UsableTarget, AuthOutcome;
    assert (calls + [c])[..|calls|] == calls;
    History.KeyAfter(History.Run(calls), c);
    NoPolicyMeansUngated(look, History.Run(calls + [c]));
  }
}
