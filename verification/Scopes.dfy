// One task's scoped variables and `job_scope`: fastaiagent/runtime.py, fastaiagent/_internal/scope.py.
// Context variables and tokens follow PEP 567, section "Specification".
module Scopes {
  import opened Options
  import opened Client
  import Target

  datatype Var = ScopedConnection | ScopedTools | ScopedProjectId | ScopedNormalize | ScopedFramework

  // What a variable holds: connections are `C`, tool dictionaries are `D`. A variable that is not set
  // has its default: no connection, no tools, no project, the module's own trace flags.
  datatype Val<C, D> = AConn(conn: C) | Tools(dict: D) | Text(text: string) | Flag(on: bool)
  type Vars<C, D> = map<Var, Val<C, D>>

  // What `var.set()` returns: the variable and its value before.
  datatype Token<C, D> = Token(v: Var, before: Option<Val<C, D>>)

  // Tools, told apart by number, under their names.
  type Tool = int
  type ToolTable = map<string, Tool>

  datatype ScopeArgs = ScopeArgs(
    apiKey: Option<string>, target: Option<string>, project: Option<string>,
    tools: seq<(string, Tool)>, normalize: Option<bool>, framework: Option<string>)
  {
    predicate Overrides() { apiKey.Some? || target.Some? || project.Some? }

    // `_normalize_target` raises on the rest, before any variable is set.
    predicate Enterable() { target.Some? ==> Target.Normalize(target.value).Accepted? }
  }

  // The connection of a scope: the arguments, and the global connection's fields as they are at entry
  // for those omitted. Never the enclosing scope's.
  function ScopeConn(args: ScopeArgs, g: Conn): Conn
    requires args.Enterable()
  {
    FRESH.(apiKey := if args.apiKey.Some? then args.apiKey else g.apiKey,
           target := if args.target.Some? then Target.Normalize(args.target.value).url else g.target,
           project := if args.project.Some? then args.project else g.project)
  }

  // What a job sees, argument by argument: its own value, or the global connection's; nothing else of the
  // global connection, and no policy.
  ghost predicate JobConn(c: Conn, args: ScopeArgs, g: Conn) {
    && c.apiKey == (if args.apiKey.Some? then args.apiKey else g.apiKey)
    && c.project == (if args.project.Some? then args.project else g.project)
    && (if args.target.None? then c.target == g.target
        else forall lead, url, slashes, trail | Target.Splits(args.target.value, lead, url, slashes, trail) ::
               c.target == url)
    && c.identity == NOBODY && c.check == None && c.policy == None && c.failMode == Open
    && c.posture == DEFAULTS && c.processors == NO_HANDLES
  }

  lemma ScopeConnIs(args: ScopeArgs, g: Conn)
    requires args.Enterable()
    ensures JobConn(ScopeConn(args, g), args, g)
  {
    hide Target.Normalize, Target.Splits;
    if args.target.Some? {
      var t := ScopeConn(args, g).target;
      forall lead, url, slashes, trail | Target.Splits(args.target.value, lead, url, slashes, trail) ensures t == url {
        Target.AcceptsExactly(args.target.value, lead, url, slashes, trail);
      }
    }
  }

  // A scope is refused exactly if it is given a target that, without white space and trailing slashes,
  // is not empty and does not start with http:// or https:// in any case.
  lemma EnterableExactly(args: ScopeArgs, lead: string, url: string, slashes: string, trail: string)
    requires args.target.Some? ==> Target.Splits(args.target.value, lead, url, slashes, trail)
    ensures !args.Enterable() <==> args.target.Some? && url != "" && !Target.HasHttpScheme(url)
  {
    hide Target.Normalize, Target.Splits, Target.HasHttpScheme;
    if args.target.Some? { Target.AcceptsExactly(args.target.value, lead, url, slashes, trail); }
  }

  // Every tool is there under its name; of several with one name, the last.
  ghost predicate LastWins(table: ToolTable, tools: seq<(string, Tool)>) {
    && (forall name | name in table :: exists i :: 0 <= i < |tools| && tools[i].0 == name)
    && (forall i | 0 <= i < |tools| && (forall j | i < j < |tools| :: tools[j].0 != tools[i].0) ::
          tools[i].0 in table && table[tools[i].0] == tools[i].1)
  }

  lemma {:induction false} ToolMapIs(tools: seq<(string, Tool)>)
    ensures LastWins(ToolMap(tools), tools)
  {
    if tools != [] {
      var n := |tools| - 1;
      var fewer := tools[..n];
      ToolMapIs(fewer);
      forall name | name in ToolMap(tools) ensures exists i :: 0 <= i < |tools| && tools[i].0 == name {
        if name != tools[n].0 {
          var i :| 0 <= i < n && fewer[i].0 == name;
          assert tools[i].0 == name;
        }
      }
      forall i | 0 <= i < n && (forall j | i < j < |tools| :: tools[j].0 != tools[i].0)
        ensures tools[i].0 in ToolMap(tools) && ToolMap(tools)[tools[i].0] == tools[i].1
      {
        assert tools[n].0 != tools[i].0 && fewer[i] == tools[i];
        assert forall j | i < j < n :: fewer[j].0 != fewer[i].0;
      }
    }
  }

  // `{t.name: t for t in tools}`
  function ToolMap(tools: seq<(string, Tool)>): ToolTable {
    if tools == [] then map[] else ToolMap(tools[..|tools| - 1])[tools[|tools| - 1].0 := tools[|tools| - 1].1]
  }

  // ---- setting and resetting, on values ----

  type Binding<C, D> = (Var, Val<C, D>)

  // What a scope sets, in order.
  function Bindings<C, D>(conn: Option<C>, dict: D, project: Option<string>, normalize: Option<bool>,
                          framework: Option<string>): seq<Binding<C, D>>
  {
    (if conn.Some? then [(ScopedConnection, AConn(conn.value))] else [])
    + [(ScopedTools, Tools(dict))] + Settings(project, normalize, framework)
  }

  function Settings<C, D>(project: Option<string>, normalize: Option<bool>, framework: Option<string>)
      : seq<Binding<C, D>>
  {
    (if project.Some? then [(ScopedProjectId, Text(project.value))] else [])
    + (if normalize.Some? then [(ScopedNormalize, Flag(normalize.value))] else [])
    + (if framework.Some? then [(ScopedFramework, Text(framework.value))] else [])
  }

  function Get<C, D>(vars: Vars<C, D>, v: Var): Option<Val<C, D>> {
    if v in vars then Some(vars[v]) else None
  }

  function SetAll<C, D>(vars: Vars<C, D>, bs: seq<Binding<C, D>>): Vars<C, D> {
    if bs == [] then vars
    else SetAll(vars, bs[..|bs| - 1])[bs[|bs| - 1].0 := bs[|bs| - 1].1]
  }

  function TokensFor<C, D>(vars: Vars<C, D>, bs: seq<Binding<C, D>>): (ts: seq<Token<C, D>>)
    ensures |ts| == |bs|
    ensures forall i | 0 <= i < |bs| :: ts[i].v == bs[i].0
  {
    if bs == [] then []
    else
      var earlier := bs[..|bs| - 1];
      TokensFor(vars, earlier) + [Token(bs[|bs| - 1].0, Get(SetAll(vars, earlier), bs[|bs| - 1].0))]
  }

  function ResetOne<C, D>(vars: Vars<C, D>, t: Token<C, D>): Vars<C, D> {
    if t.before.Some? then vars[t.v := t.before.value] else vars - {t.v}
  }

  // `for var, tok in reversed(tokens): var.reset(tok)`
  function ResetReversed<C, D>(vars: Vars<C, D>, ts: seq<Token<C, D>>): Vars<C, D>
    decreases |ts|
  {
    if ts == [] then vars else ResetReversed(ResetOne(vars, ts[|ts| - 1]), ts[..|ts| - 1])
  }

  // The same tokens, first to last.
  function ResetForward<C, D>(vars: Vars<C, D>, ts: seq<Token<C, D>>): Vars<C, D>
    decreases |ts|
  {
    if ts == [] then vars else ResetForward(ResetOne(vars, ts[0]), ts[1..])
  }

  ghost predicate Distinct<C, D>(ts: seq<Token<C, D>>) {
    forall i, j | 0 <= i < j < |ts| :: ts[i].v != ts[j].v
  }

  ghost predicate DistinctVars<C, D>(bs: seq<Binding<C, D>>) {
    forall i, j | 0 <= i < j < |bs| :: bs[i].0 != bs[j].0
  }

  lemma BindingsDistinct<C, D>(conn: Option<C>, dict: D, project: Option<string>, normalize: Option<bool>,
                               framework: Option<string>)
    ensures DistinctVars(Bindings(conn, dict, project, normalize, framework))
  {
  }

  lemma {:induction false} BindingsHold<C, D>(vars: Vars<C, D>, bs: seq<Binding<C, D>>)
    requires DistinctVars(bs)
    ensures forall b | b in bs :: Get(SetAll(vars, bs), b.0) == Some(b.1)
  {
    if bs != [] {
      BindingsHold(vars, bs[..|bs| - 1]);
      forall b | b in bs ensures Get(SetAll(vars, bs), b.0) == Some(b.1) {
        if b != bs[|bs| - 1] { assert b in bs[..|bs| - 1]; }
      }
    }
  }

  lemma {:induction false} SetAllGet<C, D>(vars: Vars<C, D>, bs: seq<Binding<C, D>>, v: Var)
    ensures (forall i | 0 <= i < |bs| :: bs[i].0 != v) ==> Get(SetAll(vars, bs), v) == Get(vars, v)
  {
    if bs != [] { SetAllGet(vars, bs[..|bs| - 1], v); }
  }

  // With one binding a variable, every token holds the value from before the scope.
  lemma {:induction false} TokensHoldEntryValues<C, D>(vars: Vars<C, D>, bs: seq<Binding<C, D>>)
    requires DistinctVars(bs)
    ensures forall i | 0 <= i < |bs| :: TokensFor(vars, bs)[i] == Token(bs[i].0, Get(vars, bs[i].0))
  {
    if bs != [] {
      var earlier := bs[..|bs| - 1];
      TokensHoldEntryValues(vars, earlier);
      SetAllGet(vars, earlier, bs[|bs| - 1].0);
      forall i | 0 <= i < |bs| ensures TokensFor(vars, bs)[i] == Token(bs[i].0, Get(vars, bs[i].0)) {
        if i < |bs| - 1 { assert TokensFor(vars, bs)[i] == TokensFor(vars, earlier)[i]; }
      }
    }
  }

  lemma {:induction false} ResetReversedGet<C, D>(vars: Vars<C, D>, ts: seq<Token<C, D>>, v: Var)
    requires Distinct(ts)
    ensures forall i | 0 <= i < |ts| && ts[i].v == v :: Get(ResetReversed(vars, ts), v) == ts[i].before
    ensures (forall i | 0 <= i < |ts| :: ts[i].v != v) ==> Get(ResetReversed(vars, ts), v) == Get(vars, v)
    decreases |ts|
  {
    if ts != [] {
      ResetReversedGet(ResetOne(vars, ts[|ts| - 1]), ts[..|ts| - 1], v);
    }
  }

  lemma {:induction false} ResetForwardGet<C, D>(vars: Vars<C, D>, ts: seq<Token<C, D>>, v: Var)
    requires Distinct(ts)
    ensures forall i | 0 <= i < |ts| && ts[i].v == v :: Get(ResetForward(vars, ts), v) == ts[i].before
    ensures (forall i | 0 <= i < |ts| :: ts[i].v != v) ==> Get(ResetForward(vars, ts), v) == Get(vars, v)
    decreases |ts|
  {
    if ts != [] {
      ResetForwardGet(ResetOne(vars, ts[0]), ts[1..], v);
      assert ts[0].v == v ==> forall i | 0 <= i < |ts[1..]| :: ts[1..][i].v != v;
      forall i | 0 <= i < |ts| && ts[i].v == v ensures Get(ResetForward(vars, ts), v) == ts[i].before {
        if i > 0 { assert ts[1..][i - 1] == ts[i]; }
      }
    }
  }

  lemma SameByGet<C, D>(a: Vars<C, D>, b: Vars<C, D>)
    requires forall v :: Get(a, v) == Get(b, v)
    ensures a == b
  {
    forall v ensures v in a <==> v in b { assert Get(a, v) == Get(b, v); }
    forall v | v in a ensures a[v] == b[v] { assert Get(a, v) == Get(b, v); }
  }

  // Leaving a scope puts back the entry value of every variable it set, whatever its body did to it,
  // and touches no other; so a body that itself leaves the scoped variables as it found them, by
  // returning or by raising, leaves all five as they were at entry.
  lemma LeavingRestores<C, D>(vars: Vars<C, D>, bs: seq<Binding<C, D>>, body: Vars<C, D>)
    requires DistinctVars(bs)
    ensures forall i | 0 <= i < |bs| :: Get(ResetReversed(body, TokensFor(vars, bs)), bs[i].0) == Get(vars, bs[i].0)
    ensures forall v | (forall i | 0 <= i < |bs| :: bs[i].0 != v) ::
      Get(ResetReversed(body, TokensFor(vars, bs)), v) == Get(body, v)
    ensures body == SetAll(vars, bs) ==> ResetReversed(body, TokensFor(vars, bs)) == vars
  {
    var ts := TokensFor(vars, bs);
    TokensHoldEntryValues(vars, bs);
    forall v
      ensures forall i | 0 <= i < |bs| && bs[i].0 == v :: Get(ResetReversed(body, ts), v) == Get(vars, v)
      ensures (forall i | 0 <= i < |bs| :: bs[i].0 != v) ==> Get(ResetReversed(body, ts), v) == Get(body, v)
    {
      ResetReversedGet(body, ts, v);
    }
    if body == SetAll(vars, bs) {
      forall v ensures Get(ResetReversed(body, ts), v) == Get(vars, v) { SetAllGet(vars, bs, v); }
      SameByGet(ResetReversed(body, ts), vars);
    }
  }

  // Each variable is set at most once in a scope, so the order of the resets does not matter: any
  // listing of the same tokens, reset first to last, does what the reversed loop does.
  lemma ResetOrderIsFree<C, D>(vars: Vars<C, D>, ts: seq<Token<C, D>>, other: seq<Token<C, D>>)
    requires Distinct(ts) && Distinct(other)
    requires forall t :: t in ts <==> t in other
    ensures ResetForward(vars, other) == ResetReversed(vars, ts)
  {
    forall v ensures Get(ResetForward(vars, other), v) == Get(ResetReversed(vars, ts), v) {
      ResetReversedGet(vars, ts, v);
      ResetForwardGet(vars, other, v);
      if i :| 0 <= i < |ts| && ts[i].v == v {
        assert ts[i] in other;
        var j :| 0 <= j < |other| && other[j] == ts[i];
        assert other[j].v == v;
      } else if j :| 0 <= j < |other| && other[j].v == v {
        assert other[j] in ts;
      }
    }
    SameByGet(ResetForward(vars, other), ResetReversed(vars, ts));
  }

  // ---- the same, as it runs ----

  class ToolDict {
    var entries: ToolTable

    constructor (m: ToolTable)
      ensures entries == m
    {
      entries := m;
    }
  }

  type LiveVal = Val<Connection, ToolDict>
  type LiveToken = Token<Connection, ToolDict>

  // A task's context. Every token has a number; resetting with a spent one is a RuntimeError.
  class Context {
    var vars: Vars<Connection, ToolDict>
    var minted: nat
    var spent: set<nat>

    // Only tokens that were handed out have been used.
    ghost predicate Valid()
      reads this
    {
      forall n | n in spent :: n < minted
    }

    method Set(v: Var, x: LiveVal) returns (n: nat, t: LiveToken)
      modifies this`vars, this`minted
      ensures old(Valid()) ==> Valid()
      ensures vars == old(vars)[v := x] && minted == old(minted) + 1
      ensures n == old(minted) && t == Token(v, Get(old(vars), v))
    {
      n, t := minted, Token(v, Get(vars, v));
      minted := minted + 1;
      vars := vars[v := x];
    }

    method Reset(n: nat, t: LiveToken) returns (ok: bool)
      modifies this`vars, this`spent
      ensures old(Valid()) ==> Valid()
      ensures ok <==> n < minted && n !in old(spent)
      ensures vars == if ok then ResetOne(old(vars), t) else old(vars)
      ensures spent == old(spent) + if ok then {n} else {}
    {
      ok := n < minted && n !in spent;
      if ok {
        spent := spent + {n};
        vars := if t.before.Some? then vars[t.v := t.before.value] else vars - {t.v};
      }
    }
  }

  // The tokens of a scope that is open: numbered in a row, none of them spent.
  ghost predicate Unspent(ctx: Context, first: nat, count: nat)
    reads ctx
  {
    first + count <= ctx.minted && forall n | first <= n < first + count :: n !in ctx.spent
  }

  method BuildConnection(global: Connection, args: ScopeArgs) returns (conn: Connection)
    requires args.Enterable()
    ensures fresh(conn) && conn.View() == ScopeConn(args, global.View())
    ensures JobConn(conn.View(), args, global.View())
  {
    ScopeConnIs(args, global.View());
    hide Target.Normalize, JobConn;
    conn := new Connection();
    conn.apiKey := if args.apiKey.Some? then args.apiKey else global.apiKey;
    conn.target := if args.target.Some? then Target.Normalize(args.target.value).url else global.target;
    conn.project := if args.project.Some? then args.project else global.project;
  }

  // `tokens.append((var, var.set(x)))`
  method Bind(ctx: Context, tokens: seq<LiveToken>, v: Var, x: LiveVal,
              ghost entry: Vars<Connection, ToolDict>, ghost bs: seq<Binding<Connection, ToolDict>>)
      returns (more: seq<LiveToken>)
    requires ctx.vars == SetAll(entry, bs) && tokens == TokensFor(entry, bs)
    modifies ctx`vars, ctx`minted
    ensures ctx.vars == SetAll(entry, bs + [(v, x)]) && more == TokensFor(entry, bs + [(v, x)])
    ensures ctx.minted == old(ctx.minted) + 1
  {
    var _, t := ctx.Set(v, x);
    more := tokens + [t];
    assert (bs + [(v, x)])[..|bs|] == bs;
  }

  method BindSettings(ctx: Context, tokens: seq<LiveToken>, args: ScopeArgs,
                      ghost entry: Vars<Connection, ToolDict>, ghost before: seq<Binding<Connection, ToolDict>>)
      returns (more: seq<LiveToken>)
    requires ctx.vars == SetAll(entry, before) && tokens == TokensFor(entry, before)
    modifies ctx`vars, ctx`minted
    ensures var bs := before + Settings(args.project, args.normalize, args.framework);
      ctx.vars == SetAll(entry, bs) && more == TokensFor(entry, bs) && ctx.minted == old(ctx.minted) + |bs| - |before|
  {
    hide SetAll, TokensFor;
    more := tokens;
    ghost var bs := before;
    if args.project.Some? {
      more := Bind(ctx, more, ScopedProjectId, Text(args.project.value), entry, bs);
      bs := bs + [(ScopedProjectId, Text(args.project.value))];
    }
    if args.normalize.Some? {
      more := Bind(ctx, more, ScopedNormalize, Flag(args.normalize.value), entry, bs);
      bs := bs + [(ScopedNormalize, Flag(args.normalize.value))];
    }
    if args.framework.Some? {
      more := Bind(ctx, more, ScopedFramework, Text(args.framework.value), entry, bs);
      bs := bs + [(ScopedFramework, Text(args.framework.value))];
    }
    assert bs == before + Settings(args.project, args.normalize, args.framework);
  }

  // An open scope: the number of its first token, the tokens, and the objects it installed.
  datatype Opened = Opened(first: nat, tokens: seq<LiveToken>, conn: Option<Connection>, dict: ToolDict)

  // The context, from what it was, has the scope's bindings, and the scope the tokens for them.
  ghost predicate Installed(ctx: Context, vars: Vars<Connection, ToolDict>, minted: nat, o: Opened, args: ScopeArgs)
    reads ctx
  {
    var bs := Bindings(o.conn, o.dict, args.project, args.normalize, args.framework);
    && ctx.vars == SetAll(vars, bs) && o.tokens == TokensFor(vars, bs)
    && o.first == minted && ctx.minted == o.first + |o.tokens|
  }

  // Up to the `yield`. None is the ValueError of a bad target.
  method Enter(ctx: Context, global: Connection, args: ScopeArgs) returns (r: Option<Opened>)
    requires ctx.Valid()
    modifies ctx`vars, ctx`minted
    ensures ctx.Valid() && (r.Some? ==> Unspent(ctx, r.value.first, |r.value.tokens|))
    ensures r.Some? <==> args.Enterable()
    ensures r.None? ==> ctx.vars == old(ctx.vars) && ctx.minted == old(ctx.minted)
    ensures r.Some? ==> fresh(r.value.dict) && r.value.dict.entries == ToolMap(args.tools)
    ensures r.Some? ==> LastWins(r.value.dict.entries, args.tools)
    ensures r.Some? ==> (r.value.conn.Some? <==> args.apiKey.Some? || args.target.Some? || args.project.Some?)
    ensures r.Some? && r.value.conn.Some? ==>
      && fresh(r.value.conn.value) && JobConn(r.value.conn.value.View(), args, global.View())
      && r.value.conn.value.View() == ScopeConn(args, global.View())
    ensures r.Some? ==> Installed(ctx, old(ctx.vars), old(ctx.minted), r.value, args)
  {
    ToolMapIs(args.tools);
    hide Target.Normalize, SetAll, TokensFor, ScopeConn, ToolMap, Settings, LastWins, JobConn;
    var first := ctx.minted;
    ghost var entry := ctx.vars;
    ghost var bs: seq<Binding<Connection, ToolDict>> := [];
    NothingBound(entry);
    var tokens: seq<LiveToken> := [];
    var conn: Option<Connection> := None;
    if args.apiKey.Some? || args.target.Some? || args.project.Some? {
      if !args.Enterable() { return None; }
      var c := BuildConnection(global, args);
      conn := Some(c);
      tokens := Bind(ctx, tokens, ScopedConnection, AConn(c), entry, bs);
      bs := bs + [(ScopedConnection, AConn(c))];
    }
    var dict := new ToolDict(ToolMap(args.tools));
    tokens := Bind(ctx, tokens, ScopedTools, Tools(dict), entry, bs);
    bs := bs + [(ScopedTools, Tools(dict))];
    tokens := BindSettings(ctx, tokens, args, entry, bs);
    assert bs + Settings(args.project, args.normalize, args.framework)
        == Bindings(conn, dict, args.project, args.normalize, args.framework);
    r := Some(Opened(first, tokens, conn, dict));
  }

  lemma NothingBound(vars: Vars<Connection, ToolDict>)
    ensures SetAll(vars, []) == vars && TokensFor(vars, []) == []
  {
  }

  // The `finally` block. No reset raises.
  method Leave(ctx: Context, first: nat, tokens: seq<LiveToken>) returns (raised: bool)
    requires ctx.Valid() && Unspent(ctx, first, |tokens|)
    modifies ctx`vars, ctx`spent
    ensures ctx.Valid()
    ensures !raised && ctx.vars == ResetReversed(old(ctx.vars), tokens)
    ensures forall n :: n in ctx.spent <==> n in old(ctx.spent) || first <= n < first + |tokens|
  {
    raised := false;
    var i := |tokens|;
    assert tokens[..i] == tokens;
    while i > 0
      invariant 0 <= i <= |tokens| && !raised && ctx.Valid()
      invariant ResetReversed(ctx.vars, tokens[..i]) == ResetReversed(old(ctx.vars), tokens)
      invariant forall n :: n in ctx.spent <==> n in old(ctx.spent) || first + i <= n < first + |tokens|
    {
      i := i - 1;
      assert tokens[..i + 1][..i] == tokens[..i];
      var ok := ctx.Reset(first + i, tokens[i]);
      if !ok { raised := true; return; }
    }
  }

  // How a scope's body ends. A ValueError on entering an inner scope is one way of raising.
  datatype Ending = Returns | Raises

  // Of the tokens, those handed out since `first` are all used, and of the others none was.
  ghost predicate Settled(ctx: Context, first: nat, spent: set<nat>)
    reads ctx
  {
    first <= ctx.minted && forall n :: n in ctx.spent <==> n in spent || first <= n < ctx.minted
  }

  // The connection that the `scoped_connection` variable holds.
  function ScopedConn(vars: Vars<Connection, ToolDict>): Connection? {
    match Get(vars, ScopedConnection) case Some(AConn(c)) => c case _ => null
  }

  // The proxy reads this context, and the connection it finds there is not the global object.
  ghost predicate Follows(proxy: Proxy, ctx: Context)
    reads proxy, ctx
  {
    proxy.Valid() && proxy.scoped == ScopedConn(ctx.vars)
  }

  // `with job_scope(..)` around `with job_scope(..)` and so on inwards, around a body that ends as it
  // likes: every scope that was entered is left, no token is left over, and the context is as it was.
  // At every level the proxy resolves to the innermost scope's connection or the global one.
  method Nest(ctx: Context, proxy: Proxy, scopes: seq<ScopeArgs>, body: Ending) returns (ending: Ending)
    requires ctx.Valid() && Follows(proxy, ctx)
    modifies ctx, proxy`scoped
    ensures Follows(proxy, ctx) && proxy.scoped == old(proxy.scoped)
    ensures ctx.Valid() && ctx.vars == old(ctx.vars) && Settled(ctx, old(ctx.minted), old(ctx.spent))
    ensures ending == Raises <==> body == Raises || exists i :: 0 <= i < |scopes| && !scopes[i].Enterable()
    decreases |scopes|, 1
  {
    hide SetAll, TokensFor, ResetReversed, Bindings, ScopeConn, ToolMap, ScopeArgs.Enterable, ScopedConn, LastWins;
    hide JobConn;
    if scopes == [] { return body; }
    ending := NestOne(ctx, proxy, scopes, body);
    assert forall i | 1 <= i < |scopes| :: scopes[i] == scopes[1..][i - 1];
  }

  method NestOne(ctx: Context, proxy: Proxy, scopes: seq<ScopeArgs>, body: Ending) returns (ending: Ending)
    requires ctx.Valid() && Follows(proxy, ctx) && scopes != []
    modifies ctx, proxy`scoped
    ensures Follows(proxy, ctx) && proxy.scoped == old(proxy.scoped)
    ensures ctx.Valid() && ctx.vars == old(ctx.vars) && Settled(ctx, old(ctx.minted), old(ctx.spent))
    ensures ending == Raises <==>
      body == Raises || !scopes[0].Enterable() || exists i :: 0 <= i < |scopes| - 1 && !scopes[1..][i].Enterable()
    decreases |scopes|, 0
  {
    hide SetAll, TokensFor, ResetReversed, Bindings, ScopeConn, ToolMap, ScopeArgs.Enterable, ScopedConn, LastWins;
    hide JobConn;
    var scope := EnterFor(ctx, proxy, scopes[0]);
    if scope.None? { return Raises; }
    ending := Nest(ctx, proxy, scopes[1..], body);
    var raised := Leave(ctx, scope.value.first, scope.value.tokens);
    proxy.scoped := ScopedConn(ctx.vars);
    if raised { return Raises; }
    LeavingEntered(old(ctx.vars), scope.value.conn, scope.value.dict, scopes[0]);
  }

  // Entering, and what the proxy then reads: the new connection, which is not the global object, or
  // the one it read before.
  method EnterFor(ctx: Context, proxy: Proxy, args: ScopeArgs) returns (r: Option<Opened>)
    requires ctx.Valid() && Follows(proxy, ctx)
    modifies ctx`vars, ctx`minted, proxy`scoped
    ensures r.Some? <==> args.Enterable()
    ensures Follows(proxy, ctx)
    ensures proxy.scoped == if r.Some? && r.value.conn.Some? then r.value.conn.value else old(proxy.scoped)
    ensures r.Some? && r.value.conn.Some? ==> JobConn(proxy.Resolve().View(), args, proxy.global.View())
    ensures ctx.Valid() && (r.Some? ==> Unspent(ctx, r.value.first, |r.value.tokens|))
    ensures r.None? ==> ctx.vars == old(ctx.vars) && ctx.minted == old(ctx.minted)
    ensures r.Some? ==> Installed(ctx, old(ctx.vars), old(ctx.minted), r.value, args)
  {
    hide SetAll, TokensFor, Bindings, ScopeConn, ToolMap, ScopeArgs.Enterable, ScopedConn, LastWins, JobConn;
    r := Enter(ctx, proxy.global, args);
    proxy.scoped := ScopedConn(ctx.vars);
    if r.Some? { EnteredConn(old(ctx.vars), r.value.conn, r.value.dict, args); }
  }

  lemma EnteredConn(vars: Vars<Connection, ToolDict>, conn: Option<Connection>, dict: ToolDict, args: ScopeArgs)
    ensures var bs := Bindings(conn, dict, args.project, args.normalize, args.framework);
      ScopedConn(SetAll(vars, bs)) == if conn.Some? then conn.value else ScopedConn(vars)
  {
    var bs := Bindings(conn, dict, args.project, args.normalize, args.framework);
    BindingsDistinct(conn, dict, args.project, args.normalize, args.framework);
    BindingsHold(vars, bs);
    SetAllGet(vars, bs, ScopedConnection);
    hide SetAll;
    if conn.Some? { assert bs[0] == (ScopedConnection, AConn(conn.value)) && bs[0] in bs; }
  }

  lemma LeavingEntered(vars: Vars<Connection, ToolDict>, conn: Option<Connection>, dict: ToolDict, args: ScopeArgs)
    ensures var bs := Bindings(conn, dict, args.project, args.normalize, args.framework);
      ResetReversed(SetAll(vars, bs), TokensFor(vars, bs)) == vars
  {
    var bs := Bindings(conn, dict, args.project, args.normalize, args.framework);
    BindingsDistinct(conn, dict, args.project, args.normalize, args.framework);
    hide SetAll, TokensFor, ResetReversed, Bindings;
    LeavingRestores(vars, bs, SetAll(vars, bs));
  }
}
