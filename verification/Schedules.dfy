// Tasks that run concurrently, each with its own context, over one global connection, one tool registry
// and one heap of tool dictionaries: fastaiagent/runtime.py, fastaiagent/client.py,
// fastaiagent/tool/registry.py, fastaiagent/_internal/scope.py.
module Schedules {
  import opened Options
  import opened Client
  import opened Scopes
  import opened History
  import Governance

  type TaskId = nat

  // A tool dictionary, by the place that made it: one there was at the start, or the `serial`th scope
  // that task `maker` entered.
  datatype DictId = Given(n: nat) | Made(maker: TaskId, serial: nat)

  type Heap = map<DictId, ToolTable>

  // What one task does between two of its awaits.
  datatype Op =
    | EnterScope(args: ScopeArgs)
    | ExitScope
    | Spawn(child: TaskId)                    // `create_task`: the child starts in a copy of this context
    | RegisterTool(name: string, tool: Tool)
    | Global(op: History.Op)                  // connect, refresh_policy, disconnect
    | ReadConn | ReadTool(name: string) | ReadProject | ReadNormalize | ReadFramework

  datatype Seen =
    | SawConn(conn: Conn) | SawTool(name: string, tool: Option<Tool>)
    | SawText(text: Option<string>) | SawFlag(flag: Option<bool>)
    | EnterRaised

  // ---- the machine: contexts and tokens ----

  type Ctx = Vars<Conn, DictId>
  type Tokens = seq<Token<Conn, DictId>>

  // `scopes` are the tokens of the scopes it is in; `entered` counts those it ever entered.
  datatype Task = Task(vars: Ctx, scopes: seq<Tokens>, entered: nat, log: seq<Seen>)
  datatype World = World(global: Conn, registry: ToolTable, heap: Heap, tasks: map<TaskId, Task>)

  function Via(vars: Ctx): Option<Conn> {
    match Get(vars, ScopedConnection) case Some(AConn(c)) => Some(c) case _ => None
  }

  function Dict(vars: Ctx): Option<DictId> {
    match Get(vars, ScopedTools) case Some(Tools(d)) => Some(d) case _ => None
  }

  function TextOf(vars: Ctx, v: Var): Option<string> {
    match Get(vars, v) case Some(Text(s)) => Some(s) case _ => None
  }

  function FlagOf(vars: Ctx): Option<bool> {
    match Get(vars, ScopedNormalize) case Some(Flag(b)) => Some(b) case _ => None
  }

  function Lookup<K, V>(m: map<K, V>, k: K): Option<V> {
    if k in m then Some(m[k]) else None
  }

  function TableAt(heap: Heap, d: Option<DictId>): Option<ToolTable> {
    if d.Some? then Lookup(heap, d.value) else None
  }

  // `ToolRegistry.get`: the current scope's dictionary, then the registry. Not the enclosing scope's.
  function FindTool(scoped: Option<ToolTable>, registry: ToolTable, name: string): Option<Tool> {
    if scoped.Some? && name in scoped.value then Some(scoped.value[name]) else Lookup(registry, name)
  }

  function NewConn(args: ScopeArgs, g: Conn): Option<Conn>
    requires args.Enterable()
  {
    if args.Overrides() then Some(ScopeConn(args, g)) else None
  }

  function Logged(task: Task, seen: Seen): Task {
    task.(log := task.log + [seen])
  }

  function Entered(task: Task, t: TaskId, args: ScopeArgs, g: Conn): Task
    requires args.Enterable()
  {
    var bs := Bindings(NewConn(args, g), Made(t, task.entered), args.project, args.normalize, args.framework);
    Task(SetAll(task.vars, bs), task.scopes + [TokensFor(task.vars, bs)], task.entered + 1, task.log)
  }

  function Exited(task: Task): Task {
    if task.scopes == [] then task
    else
      var n := |task.scopes| - 1;
      task.(vars := ResetReversed(task.vars, task.scopes[n]), scopes := task.scopes[..n])
  }

  // What an operation does to its own task.
  function TaskStep(task: Task, t: TaskId, op: Op, g: Conn, registry: ToolTable, heap: Heap): Task {
    var vars := task.vars;
    match op
    case EnterScope(args) => if args.Enterable() then Entered(task, t, args, g) else Logged(task, EnterRaised)
    case ExitScope => Exited(task)
    case ReadConn => Logged(task, SawConn(Active(g, Via(vars))))
    case ReadTool(name) => Logged(task, SawTool(name, FindTool(TableAt(heap, Dict(vars)), registry, name)))
    case ReadProject => Logged(task, SawText(TextOf(vars, ScopedProjectId)))
    case ReadNormalize => Logged(task, SawFlag(FlagOf(vars)))
    case ReadFramework => Logged(task, SawText(TextOf(vars, ScopedFramework)))
    case _ => task
  }

  // What it does to the heap and the registry, given the dictionary its context holds. `serial` is
  // the number of scopes the task has entered.
  function HeapStep(heap: Heap, t: TaskId, op: Op, dict: Option<DictId>, serial: nat): Heap {
    match op
    case EnterScope(args) => if args.Enterable() then heap[Made(t, serial) := ToolMap(args.tools)] else heap
    case RegisterTool(name, tool) =>
      if dict.Some? && dict.value in heap then heap[dict.value := heap[dict.value][name := tool]] else heap
    case _ => heap
  }

  function RegistryStep(registry: ToolTable, op: Op, dict: Option<DictId>): ToolTable {
    if op.RegisterTool? && dict.None? then registry[op.name := op.tool] else registry
  }

  function GlobalStep(g: Conn, op: Op, via: Option<Conn>): Conn {
    if op.Global? then Apply(g, Call(via, op.op)) else g
  }

  function NewTask(vars: Ctx): Task { Task(vars, [], 0, []) }

  function Step(w: World, t: TaskId, op: Op): World {
    if t !in w.tasks then w
    else
      var task := w.tasks[t];
      var tasks := w.tasks[t := TaskStep(task, t, op, w.global, w.registry, w.heap)];
      World(GlobalStep(w.global, op, Via(task.vars)),
            RegistryStep(w.registry, op, Dict(task.vars)),
            HeapStep(w.heap, t, op, Dict(task.vars), task.entered),
            if op.Spawn? && op.child !in w.tasks then tasks[op.child := NewTask(task.vars)] else tasks)
  }

  type Schedule = seq<(TaskId, Op)>

  function RunAll(w: World, s: Schedule): World
    decreases |s|
  {
    if s == [] then w else RunAll(Step(w, s[0].0, s[0].1), s[1..])
  }

  lemma {:induction false} RunAllAppend(w: World, s: Schedule, more: Schedule)
    ensures RunAll(w, s + more) == RunAll(RunAll(w, s), more)
    decreases |s|
  {
    hide Step;
    if s == [] {
      assert s + more == more;
    } else {
      assert (s + more)[1..] == s[1..] + more;
      RunAllAppend(Step(w, s[0].0, s[0].1), s[1..], more);
    }
  }

  // ---- the specification: a stack of frames per task, no contexts, no tokens ----

  datatype Frame = Frame(conn: Option<Conn>, dict: DictId, project: Option<string>, normalize: Option<bool>,
                         framework: Option<string>)

  // What a task started with: what its parent saw at that moment.
  datatype Inherited = Inherited(conn: Option<Conn>, dict: Option<DictId>, project: Option<string>,
                                 normalize: Option<bool>, framework: Option<string>)
  datatype Stack = Stack(base: Inherited, frames: seq<Frame>, entered: nat, log: seq<Seen>)
  datatype Spec = Spec(global: Conn, registry: ToolTable, heap: Heap, tasks: map<TaskId, Stack>)

  function FrameFor(args: ScopeArgs, g: Conn, dict: DictId): Frame
    requires args.Enterable()
  {
    Frame(NewConn(args, g), dict, args.project, args.normalize, args.framework)
  }

  // What the innermost frame that has one says, else what was inherited.
  function ConnOf(frames: seq<Frame>, base: Inherited): Option<Conn> {
    if frames == [] then base.conn
    else Or(frames[|frames| - 1].conn, ConnOf(frames[..|frames| - 1], base))
  }

  function ProjectOf(frames: seq<Frame>, base: Inherited): Option<string> {
    if frames == [] then base.project
    else Or(frames[|frames| - 1].project, ProjectOf(frames[..|frames| - 1], base))
  }

  function NormalizeOf(frames: seq<Frame>, base: Inherited): Option<bool> {
    if frames == [] then base.normalize
    else Or(frames[|frames| - 1].normalize, NormalizeOf(frames[..|frames| - 1], base))
  }

  function FrameworkOf(frames: seq<Frame>, base: Inherited): Option<string> {
    if frames == [] then base.framework
    else Or(frames[|frames| - 1].framework, FrameworkOf(frames[..|frames| - 1], base))
  }

  function DictOf(frames: seq<Frame>, base: Inherited): Option<DictId> {
    if frames == [] then base.dict else Some(frames[|frames| - 1].dict)
  }

  function Sees(s: Stack): Inherited {
    Inherited(ConnOf(s.frames, s.base), DictOf(s.frames, s.base), ProjectOf(s.frames, s.base),
              NormalizeOf(s.frames, s.base), FrameworkOf(s.frames, s.base))
  }

  // What a read returns to a task that sees `i`.
  predicate Reads(op: Op) {
    op.ReadConn? || op.ReadTool? || op.ReadProject? || op.ReadNormalize? || op.ReadFramework?
  }

  function Answer(op: Op, i: Inherited, g: Conn, registry: ToolTable, heap: Heap): Seen
    requires Reads(op)
  {
    match op
    case ReadConn => SawConn(Active(g, i.conn))
    case ReadTool(name) => SawTool(name, FindTool(TableAt(heap, i.dict), registry, name))
    case ReadProject => SawText(i.project)
    case ReadNormalize => SawFlag(i.normalize)
    case ReadFramework => SawText(i.framework)
  }

  function StackStep(s: Stack, t: TaskId, op: Op, g: Conn, registry: ToolTable, heap: Heap): Stack {
    if Reads(op) then s.(log := s.log + [Answer(op, Sees(s), g, registry, heap)])
    else match op
      case EnterScope(args) =>
        if args.Enterable()
        then s.(frames := s.frames + [FrameFor(args, g, Made(t, s.entered))], entered := s.entered + 1)
        else s.(log := s.log + [EnterRaised])
      case ExitScope => if s.frames == [] then s else s.(frames := s.frames[..|s.frames| - 1])
      case _ => s
  }

  function SpecStep(a: Spec, t: TaskId, op: Op): Spec {
    if t !in a.tasks then a
    else
      var s := a.tasks[t];
      var tasks := a.tasks[t := StackStep(s, t, op, a.global, a.registry, a.heap)];
      Spec(GlobalStep(a.global, op, Sees(s).conn),
           RegistryStep(a.registry, op, Sees(s).dict),
           HeapStep(a.heap, t, op, Sees(s).dict, s.entered),
           if op.Spawn? && op.child !in a.tasks then tasks[op.child := Stack(Sees(s), [], 0, [])] else tasks)
  }

  function SpecRun(a: Spec, s: Schedule): Spec
    decreases |s|
  {
    if s == [] then a else SpecRun(SpecStep(a, s[0].0, s[0].1), s[1..])
  }

  // ---- how the two correspond ----

  function FrameBindings(f: Frame): seq<Binding<Conn, DictId>> {
    Bindings(f.conn, f.dict, f.project, f.normalize, f.framework)
  }

  // The context of a task whose open scopes are `frames`.
  function Overlay(base: Ctx, frames: seq<Frame>): Ctx {
    if frames == [] then base
    else SetAll(Overlay(base, frames[..|frames| - 1]), FrameBindings(frames[|frames| - 1]))
  }

  // What a task whose context is `vars` reads.
  function Inherits(vars: Ctx): Inherited {
    Inherited(Via(vars), Dict(vars), TextOf(vars, ScopedProjectId), FlagOf(vars), TextOf(vars, ScopedFramework))
  }

  ghost predicate TokensMatch(scopes: seq<Tokens>, base: Ctx, frames: seq<Frame>) {
    && |scopes| == |frames|
    && forall d | 0 <= d < |scopes| :: scopes[d] == TokensFor(Overlay(base, frames[..d]), FrameBindings(frames[d]))
  }

  ghost predicate TaskMatches(task: Task, s: Stack, base: Ctx) {
    && task.log == s.log && task.entered == s.entered
    && TokensMatch(task.scopes, base, s.frames)
    && task.vars == Overlay(base, s.frames)
    && s.base == Inherits(base)
  }

  ghost predicate Matches(w: World, a: Spec, bases: map<TaskId, Ctx>) {
    && w.global == a.global && w.registry == a.registry && w.heap == a.heap
    && TasksMatch(w.tasks, a.tasks, bases)
  }

  ghost predicate TasksMatch(tasks: map<TaskId, Task>, stacks: map<TaskId, Stack>, bases: map<TaskId, Ctx>) {
    && tasks.Keys == stacks.Keys == bases.Keys
    && forall t | t in tasks :: TaskMatches(tasks[t], stacks[t], bases[t])
  }

  // ---- what frames bind ----

  ghost predicate Binds(bs: seq<Binding<Conn, DictId>>, v: Var, x: Option<Val<Conn, DictId>>) {
    if x.Some? then (v, x.value) in bs else forall i | 0 <= i < |bs| :: bs[i].0 != v
  }

  function OptText(s: Option<string>): Option<Val<Conn, DictId>> {
    if s.Some? then Some(Text(s.value)) else None
  }

  // What a frame has for a variable.
  function FrameGet(f: Frame, v: Var): Option<Val<Conn, DictId>> {
    match v
    case ScopedConnection => if f.conn.Some? then Some(AConn(f.conn.value)) else None
    case ScopedTools => Some(Tools(f.dict))
    case ScopedProjectId => OptText(f.project)
    case ScopedNormalize => if f.normalize.Some? then Some(Flag(f.normalize.value)) else None
    case ScopedFramework => OptText(f.framework)
  }

  lemma FrameBinds(f: Frame, v: Var)
    ensures Binds(FrameBindings(f), v, FrameGet(f, v))
  {
  }

  lemma FrameDistinct(f: Frame)
    ensures DistinctVars(FrameBindings(f))
  {
    BindingsDistinct(f.conn, f.dict, f.project, f.normalize, f.framework);
  }

  // What a frame leaves a variable at.
  lemma FrameSets(vars: Ctx, f: Frame, v: Var)
    ensures Get(SetAll(vars, FrameBindings(f)), v) == Or(FrameGet(f, v), Get(vars, v))
  {
    hide FrameBindings, SetAll, FrameGet;
    FrameBinds(f, v);
    FrameDistinct(f);
    BindingsHold(vars, FrameBindings(f));
    SetAllGet(vars, FrameBindings(f), v);
  }

  lemma FrameReads(vars: Ctx, f: Frame)
    ensures var after := SetAll(vars, FrameBindings(f));
      && Via(after) == Or(f.conn, Via(vars))
      && Dict(after) == Some(f.dict)
      && TextOf(after, ScopedProjectId) == Or(f.project, TextOf(vars, ScopedProjectId))
      && FlagOf(after) == Or(f.normalize, FlagOf(vars))
      && TextOf(after, ScopedFramework) == Or(f.framework, TextOf(vars, ScopedFramework))
  {
    hide FrameBindings, SetAll, Get;
    FrameSets(vars, f, ScopedConnection);
    FrameSets(vars, f, ScopedTools);
    FrameSets(vars, f, ScopedProjectId);
    FrameSets(vars, f, ScopedNormalize);
    FrameSets(vars, f, ScopedFramework);
  }

  lemma {:induction false} OverlayReads(base: Ctx, frames: seq<Frame>)
    ensures var vars := Overlay(base, frames); var inherited := Inherits(base);
      && Via(vars) == ConnOf(frames, inherited)
      && Dict(vars) == DictOf(frames, inherited)
      && TextOf(vars, ScopedProjectId) == ProjectOf(frames, inherited)
      && FlagOf(vars) == NormalizeOf(frames, inherited)
      && TextOf(vars, ScopedFramework) == FrameworkOf(frames, inherited)
  {
    hide Via, Dict, TextOf, FlagOf, SetAll, FrameBindings;
    if frames != [] {
      var n := |frames| - 1;
      OverlayReads(base, frames[..n]);
      FrameReads(Overlay(base, frames[..n]), frames[n]);
    }
  }

  // What a task reads in its context is what it sees in its stack.
  lemma ReadsMatch(task: Task, s: Stack, base: Ctx)
    requires TaskMatches(task, s, base)
    ensures Inherits(task.vars) == Sees(s)
  {
    hide Overlay, TokensMatch;
    OverlayReads(base, s.frames);
    hide ConnOf, DictOf, ProjectOf, NormalizeOf, FrameworkOf, Via, TextOf, FlagOf, Dict;
  }

  // ---- one task ----

  lemma TokensGrow(scopes: seq<Tokens>, base: Ctx, frames: seq<Frame>, f: Frame)
    requires TokensMatch(scopes, base, frames)
    ensures TokensMatch(scopes + [TokensFor(Overlay(base, frames), FrameBindings(f))], base, frames + [f])
    ensures Overlay(base, frames + [f]) == SetAll(Overlay(base, frames), FrameBindings(f))
  {
    hide FrameBindings, TokensFor, SetAll;
    var fs := frames + [f];
    assert fs[..|frames|] == frames;
    forall d | 0 <= d < |frames| ensures fs[..d] == frames[..d] {
    }
  }

  lemma TokensShrink(scopes: seq<Tokens>, base: Ctx, frames: seq<Frame>)
    requires TokensMatch(scopes, base, frames) && frames != []
    ensures var n := |frames| - 1;
      && TokensMatch(scopes[..n], base, frames[..n])
      && ResetReversed(Overlay(base, frames), scopes[n]) == Overlay(base, frames[..n])
  {
    hide FrameBindings, TokensFor, SetAll, ResetReversed;
    var n := |frames| - 1;
    forall d | 0 <= d < n ensures frames[..n][..d] == frames[..d] {
    }
    FrameDistinct(frames[n]);
    LeavingRestores(Overlay(base, frames[..n]), FrameBindings(frames[n]), Overlay(base, frames));
  }

  lemma EnterMatches(task: Task, s: Stack, base: Ctx, t: TaskId, args: ScopeArgs, g: Conn)
    requires TaskMatches(task, s, base) && args.Enterable()
    ensures var frames := s.frames + [FrameFor(args, g, Made(t, s.entered))];
      TaskMatches(Entered(task, t, args, g), s.(frames := frames, entered := s.entered + 1), base)
  {
    hide Bindings, TokensFor, SetAll, TokensMatch, Overlay, NewConn, Inherits;
    var f := FrameFor(args, g, Made(t, s.entered));
    TokensGrow(task.scopes, base, s.frames, f);
    assert FrameBindings(f)
        == Bindings(NewConn(args, g), Made(t, s.entered), args.project, args.normalize, args.framework);
  }

  lemma ExitMatches(task: Task, s: Stack, base: Ctx)
    requires TaskMatches(task, s, base)
    ensures TaskMatches(Exited(task), if s.frames == [] then s else s.(frames := s.frames[..|s.frames| - 1]), base)
  {
    hide Overlay, ResetReversed, Inherits;
    if s.frames != [] {
      TokensShrink(task.scopes, base, s.frames);
      hide TokensMatch;
    }
  }

  lemma ReadAnswers(task: Task, t: TaskId, op: Op, g: Conn, registry: ToolTable, heap: Heap)
    requires Reads(op)
    ensures TaskStep(task, t, op, g, registry, heap) == Logged(task, Answer(op, Inherits(task.vars), g, registry, heap))
  {
    hide Via, Dict, TextOf, FlagOf, FindTool, TableAt, Active;
  }

  lemma StepMatches(task: Task, s: Stack, base: Ctx, t: TaskId, op: Op, g: Conn, registry: ToolTable, heap: Heap)
    requires TaskMatches(task, s, base)
    ensures TaskMatches(TaskStep(task, t, op, g, registry, heap), StackStep(s, t, op, g, registry, heap), base)
  {
    hide Overlay, TokensMatch, Inherits, Sees, Answer, Entered, Exited, FrameFor;
    if Reads(op) {
      ReadAnswers(task, t, op, g, registry, heap);
      ReadsMatch(task, s, base);
    } else {
      match op
      case EnterScope(args) => if args.Enterable() { EnterMatches(task, s, base, t, args, g); }
      case ExitScope => ExitMatches(task, s, base);
      case _ =>
    }
  }

  lemma SpawnMatches(vars: Ctx)
    ensures TaskMatches(NewTask(vars), Stack(Inherits(vars), [], 0, []), vars)
  {
    hide Inherits;
  }

  // ---- all tasks ----

  // The contexts tasks started in; a child starts in its parent's.
  function BasesAfter(w: World, bases: map<TaskId, Ctx>, t: TaskId, op: Op): map<TaskId, Ctx> {
    if t in w.tasks && op.Spawn? && op.child !in w.tasks then bases[op.child := w.tasks[t].vars] else bases
  }

  lemma SetMatches(tasks: map<TaskId, Task>, stacks: map<TaskId, Stack>, bases: map<TaskId, Ctx>,
                   t: TaskId, task: Task, stack: Stack, base: Ctx)
    requires TasksMatch(tasks, stacks, bases) && TaskMatches(task, stack, base)
    ensures TasksMatch(tasks[t := task], stacks[t := stack], bases[t := base])
  {
    hide TaskMatches;
  }

  lemma StepTasks(w: World, a: Spec, bases: map<TaskId, Ctx>, t: TaskId, op: Op)
    requires Matches(w, a, bases) && t in w.tasks && TaskMatches(w.tasks[t], a.tasks[t], bases[t])
    ensures TasksMatch(Step(w, t, op).tasks, SpecStep(a, t, op).tasks, BasesAfter(w, bases, t, op))
  {
    var task, s, base := w.tasks[t], a.tasks[t], bases[t];
    StepMatches(task, s, base, t, op, w.global, w.registry, w.heap);
    SeenParts(task, s, base);
    SpawnMatches(task.vars);
    hide TaskMatches, TaskStep, StackStep, GlobalStep, RegistryStep, HeapStep, Sees, NewTask, Inherits;
    var task' := TaskStep(task, t, op, w.global, w.registry, w.heap);
    var s' := StackStep(s, t, op, w.global, w.registry, w.heap);
    SetMatches(w.tasks, a.tasks, bases, t, task', s', base);
    assert bases[t := base] == bases;
    if op.Spawn? && op.child !in w.tasks {
      SetMatches(w.tasks[t := task'], a.tasks[t := s'], bases, op.child, NewTask(task.vars), Stack(Sees(s), [], 0, []),
                 task.vars);
    }
    hide TasksMatch;
  }

  lemma StepShared(w: World, a: Spec, t: TaskId, op: Op)
    requires w.global == a.global && w.registry == a.registry && w.heap == a.heap && t in w.tasks && t in a.tasks
    requires Via(w.tasks[t].vars) == Sees(a.tasks[t]).conn && Dict(w.tasks[t].vars) == Sees(a.tasks[t]).dict
    requires w.tasks[t].entered == a.tasks[t].entered
    ensures var w', a' := Step(w, t, op), SpecStep(a, t, op);
      w'.global == a'.global && w'.registry == a'.registry && w'.heap == a'.heap
  {
    hide TaskStep, StackStep, GlobalStep, RegistryStep, HeapStep, NewTask, Sees, Via, Dict;
  }

  lemma StepKeeps(w: World, a: Spec, bases: map<TaskId, Ctx>, t: TaskId, op: Op)
    requires Matches(w, a, bases)
    ensures Matches(Step(w, t, op), SpecStep(a, t, op), BasesAfter(w, bases, t, op))
  {
    hide TaskMatches;
    if t in w.tasks {
      SeenParts(w.tasks[t], a.tasks[t], bases[t]);
      StepTasks(w, a, bases, t, op);
      StepShared(w, a, t, op);
      hide Step, SpecStep, TasksMatch, BasesAfter;
    }
  }

  lemma SeenParts(task: Task, s: Stack, base: Ctx)
    requires TaskMatches(task, s, base)
    ensures Inherits(task.vars) == Sees(s) && task.entered == s.entered
    ensures Via(task.vars) == Sees(s).conn && Dict(task.vars) == Sees(s).dict
  {
    ReadsMatch(task, s, base);
    hide Via, Dict, TextOf, FlagOf, Sees, Overlay, TokensMatch;
    assert Inherits(task.vars).conn == Via(task.vars) && Inherits(task.vars).dict == Dict(task.vars);
  }

  lemma {:induction false} RunKeeps(w: World, a: Spec, bases: map<TaskId, Ctx>, s: Schedule)
      returns (bases': map<TaskId, Ctx>)
    requires Matches(w, a, bases)
    ensures Matches(RunAll(w, s), SpecRun(a, s), bases')
    ensures forall t | t in bases :: t in bases' && bases'[t] == bases[t]
    decreases |s|
  {
    hide Step, SpecStep;
    if s == [] {
      bases' := bases;
    } else {
      StepKeeps(w, a, bases, s[0].0, s[0].1);
      assert forall t | t in bases :: t in w.tasks;
      hide Matches;
      bases' := RunKeeps(Step(w, s[0].0, s[0].1), SpecStep(a, s[0].0, s[0].1),
                         BasesAfter(w, bases, s[0].0, s[0].1), s[1..]);
    }
  }

  // ---- the theorems, from any state in which no scope has been opened yet ----

  ghost predicate Ready(w: World) {
    && (forall d | d in w.heap :: d.Given?)
    && forall t | t in w.tasks ::
         && w.tasks[t].scopes == [] && w.tasks[t].entered == 0
         && (Dict(w.tasks[t].vars).Some? ==> Dict(w.tasks[t].vars).value.Given?)
  }

  function SpecOf(w: World): Spec {
    Spec(w.global, w.registry, w.heap,
         map t | t in w.tasks :: Stack(Inherits(w.tasks[t].vars), [], 0, w.tasks[t].log))
  }

  function Bases(w: World): map<TaskId, Ctx> { map t | t in w.tasks :: w.tasks[t].vars }

  lemma Reached(w: World, s: Schedule) returns (bases: map<TaskId, Ctx>)
    requires Ready(w)
    ensures Matches(RunAll(w, s), SpecRun(SpecOf(w), s), bases)
    ensures forall t | t in w.tasks :: t in bases && bases[t] == w.tasks[t].vars
  {
    StartMatches(w);
    bases := RunKeeps(w, SpecOf(w), Bases(w), s);
  }

  lemma StartMatches(w: World)
    requires Ready(w)
    ensures Matches(w, SpecOf(w), Bases(w))
  {
    hide Inherits;
  }

  // However the tasks interleave, whatever any of them does to the global connection or registers in a
  // dictionary it shares with others, context variables and tokens behave as one stack of frames per
  // task: every read of every task sees the innermost frame that has an answer, else what the task
  // inherited, else the global, and every connect, refresh and disconnect lands on the global connection.
  lemma ContextsRefineFrames(w: World, s: Schedule)
    requires Ready(w)
    ensures var r, a := RunAll(w, s), SpecRun(SpecOf(w), s);
      && r.global == a.global && r.registry == a.registry && r.heap == a.heap && r.tasks.Keys == a.tasks.Keys
      && forall t | t in r.tasks ::
           && r.tasks[t].log == a.tasks[t].log && |r.tasks[t].scopes| == |a.tasks[t].frames|
           && Inherits(r.tasks[t].vars) == Sees(a.tasks[t])
  {
    hide RunAll, SpecRun, SpecOf;
    var bases := Reached(w, s);
    var r, a := RunAll(w, s), SpecRun(SpecOf(w), s);
    hide TaskMatches, Inherits, Sees;
    forall t | t in r.tasks
      ensures r.tasks[t].log == a.tasks[t].log && |r.tasks[t].scopes| == |a.tasks[t].frames|
      ensures Inherits(r.tasks[t].vars) == Sees(a.tasks[t])
    {
      ReadsMatch(r.tasks[t], a.tasks[t], bases[t]);
      MatchParts(r.tasks[t], a.tasks[t], bases[t]);
    }
  }

  lemma MatchParts(task: Task, s: Stack, base: Ctx)
    requires TaskMatches(task, s, base)
    ensures task.log == s.log && |task.scopes| == |s.frames| && task.vars == Overlay(base, s.frames)
  {
    hide Overlay, Inherits, TokensFor, FrameBindings;
  }

  // A task that has left every scope it entered, in whatever order the tasks ran and however the bodies
  // ended, has all five scoped variables as they were at the start.
  lemma LeftScopesRestoreContext(w: World, s: Schedule, t: TaskId)
    requires Ready(w) && t in w.tasks
    ensures var r := RunAll(w, s);
      t in r.tasks && (r.tasks[t].scopes == [] ==> r.tasks[t].vars == w.tasks[t].vars)
  {
    hide RunAll, SpecRun, SpecOf, Ready;
    var bases := Reached(w, s);
    hide TaskMatches;
    MatchParts(RunAll(w, s).tasks[t], SpecRun(SpecOf(w), s).tasks[t], bases[t]);
  }

  // ---- every scope has a tool dictionary of its own ----

  ghost predicate OwnFrames(t: TaskId, s: Stack, heap: Heap) {
    && (forall d | 0 <= d < |s.frames| ::
          s.frames[d].dict.Made? && s.frames[d].dict.maker == t && s.frames[d].dict.serial < s.entered
          && s.frames[d].dict in heap)
    && (forall d, e | 0 <= d < e < |s.frames| :: s.frames[d].dict.serial < s.frames[e].dict.serial)
  }

  ghost predicate OwnDicts(a: Spec) {
    && (forall t | t in a.tasks :: OwnFrames(t, a.tasks[t], a.heap))
    && (forall d | d in a.heap && d.Made? :: d.maker in a.tasks && d.serial < a.tasks[d.maker].entered)
  }

  lemma OwnFramesKept(t: TaskId, s: Stack, op: Op, g: Conn, registry: ToolTable, heap: Heap, heap': Heap)
    requires OwnFrames(t, s, heap) && heap.Keys <= heap'.Keys
    requires op.EnterScope? && op.args.Enterable() ==> Made(t, s.entered) in heap'
    ensures OwnFrames(t, StackStep(s, t, op, g, registry, heap), heap')
  {
    hide Answer, Sees, NewConn;
  }

  lemma HeapGrows(heap: Heap, t: TaskId, op: Op, dict: Option<DictId>, serial: nat)
    ensures HeapStep(heap, t, op, dict, serial).Keys
         == heap.Keys + if op.EnterScope? && op.args.Enterable() then {Made(t, serial)} else {}
  {
  }

  lemma OwnFramesStay(a: Spec, t: TaskId, op: Op, u: TaskId)
    requires OwnDicts(a) && u in SpecStep(a, t, op).tasks
    ensures OwnFrames(u, SpecStep(a, t, op).tasks[u], SpecStep(a, t, op).heap)
  {
    if t in a.tasks {
      var s := a.tasks[t];
      assert OwnFrames(t, s, a.heap) && (u in a.tasks ==> OwnFrames(u, a.tasks[u], a.heap));
      HeapGrows(a.heap, t, op, Sees(s).dict, s.entered);
      var heap' := HeapStep(a.heap, t, op, Sees(s).dict, s.entered);
      hide OwnDicts, HeapStep, StackStep, Sees, GlobalStep, RegistryStep;
      if u == t { OwnFramesKept(t, s, op, a.global, a.registry, a.heap, heap'); }
    }
  }

  lemma HeapStaysOwn(a: Spec, t: TaskId, op: Op, d: DictId)
    requires OwnDicts(a) && d in SpecStep(a, t, op).heap && d.Made?
    ensures var a' := SpecStep(a, t, op); d.maker in a'.tasks && d.serial < a'.tasks[d.maker].entered
  {
    if t in a.tasks {
      var s := a.tasks[t];
      HeapGrows(a.heap, t, op, Sees(s).dict, s.entered);
      assert OwnFrames(t, s, a.heap);
      hide HeapStep, Sees, GlobalStep, RegistryStep;
      EnteredCounts(s, t, op, a.global, a.registry, a.heap);
      hide StackStep, OwnFrames;
    }
  }

  lemma EnteredCounts(s: Stack, t: TaskId, op: Op, g: Conn, registry: ToolTable, heap: Heap)
    ensures StackStep(s, t, op, g, registry, heap).entered
         == s.entered + if op.EnterScope? && op.args.Enterable() then 1 else 0
  {
    hide Answer, Sees, FrameFor;
  }

  lemma OwnDictsKept(a: Spec, t: TaskId, op: Op)
    requires OwnDicts(a)
    ensures OwnDicts(SpecStep(a, t, op))
  {
    hide SpecStep, OwnFrames;
    var a' := SpecStep(a, t, op);
    forall u | u in a'.tasks ensures OwnFrames(u, a'.tasks[u], a'.heap) { OwnFramesStay(a, t, op, u); }
    forall d | d in a'.heap && d.Made? ensures d.maker in a'.tasks && d.serial < a'.tasks[d.maker].entered {
      HeapStaysOwn(a, t, op, d);
    }
  }

  lemma {:induction false} OwnDictsReached(a: Spec, s: Schedule)
    requires OwnDicts(a)
    ensures OwnDicts(SpecRun(a, s))
    decreases |s|
  {
    hide OwnDicts, SpecStep;
    if s != [] {
      OwnDictsKept(a, s[0].0, s[0].1);
      OwnDictsReached(SpecStep(a, s[0].0, s[0].1), s[1..]);
    }
  }

  lemma StartOwns(w: World)
    requires Ready(w)
    ensures OwnDicts(SpecOf(w))
  {
    hide Inherits;
  }

  // The dictionary that was current before a scope set its own.
  function Replaced(ts: Tokens): Option<DictId> {
    if ts == [] then None
    else
      var last := ts[|ts| - 1];
      if last.v != ScopedTools then Replaced(ts[..|ts| - 1])
      else match last.before case Some(Tools(d)) => Some(d) case _ => None
  }

  // The dictionary of the task's `d`th open scope: what its context holds, or what the next scope
  // inwards will put back.
  function ScopeDict(task: Task, d: nat): Option<DictId>
    requires d < |task.scopes|
  {
    if d == |task.scopes| - 1 then Dict(task.vars) else Replaced(task.scopes[d + 1])
  }

  // The scope set the variable.
  ghost predicate SetIn(ts: Tokens, v: Var) {
    exists i :: 0 <= i < |ts| && ts[i].v == v
  }

  lemma TokensSet(vars: Ctx, f: Frame, v: Var)
    ensures SetIn(TokensFor(vars, FrameBindings(f)), v) <==> FrameGet(f, v).Some?
  {
    hide FrameGet, FrameBindings;
    FrameBinds(f, v);
    var bs, ts := FrameBindings(f), TokensFor(vars, FrameBindings(f));
    if FrameGet(f, v).Some? {
      var i :| 0 <= i < |bs| && bs[i] == (v, FrameGet(f, v).value);
      assert ts[i].v == v;
    }
  }

  lemma {:induction false} ReplacedIs(ts: Tokens, i: nat, x: Option<DictId>)
    requires i < |ts| && ts[i] == Token(ScopedTools, if x.Some? then Some(Tools(x.value)) else None) && Distinct(ts)
    ensures Replaced(ts) == x
  {
    var n := |ts| - 1;
    if i < n { ReplacedIs(ts[..n], i, x); }
  }

  lemma FrameReplaces(vars: Ctx, f: Frame, dict: DictId)
    requires Get(vars, ScopedTools) == Some(Tools(dict))
    ensures Replaced(TokensFor(vars, FrameBindings(f))) == Some(dict)
  {
    hide FrameBindings, Replaced;
    var bs, ts := FrameBindings(f), TokensFor(vars, FrameBindings(f));
    FrameBinds(f, ScopedTools);
    FrameDistinct(f);
    TokensHoldEntryValues(vars, bs);
    var i :| 0 <= i < |bs| && bs[i] == (ScopedTools, Tools(f.dict));
    hide TokensFor;
    ReplacedIs(ts, i, Some(dict));
  }

  lemma ScopeDictIs(task: Task, s: Stack, base: Ctx, d: nat)
    requires TaskMatches(task, s, base) && d < |s.frames|
    ensures |task.scopes| == |s.frames| && ScopeDict(task, d) == Some(s.frames[d].dict)
  {
    hide TokensFor, SetAll, FrameBindings, Inherits, Replaced;
    var upTo := s.frames[..d + 1];
    assert upTo[..d] == s.frames[..d];
    FrameSets(Overlay(base, s.frames[..d]), s.frames[d], ScopedTools);
    if d == |s.frames| - 1 {
      assert upTo == s.frames;
    } else {
      FrameReplaces(Overlay(base, upTo), s.frames[d + 1], s.frames[d].dict);
    }
  }

  lemma ScopeSets(task: Task, s: Stack, base: Ctx, d: nat, v: Var)
    requires TaskMatches(task, s, base) && d < |task.scopes|
    ensures |task.scopes| == |s.frames| && (SetIn(task.scopes[d], v) <==> FrameGet(s.frames[d], v).Some?)
  {
    hide TokensFor, Inherits, SetIn, FrameGet, FrameBindings;
    TokensSet(Overlay(base, s.frames[..d]), s.frames[d], v);
  }

  // No two open scopes share a tool dictionary, whether of one task or of two, and none has one that
  // existed before the run. A task reads that of its innermost scope.
  lemma ScopesHaveTheirOwnDict(w: World, s: Schedule, t: TaskId, d: nat, u: TaskId, e: nat)
    requires Ready(w) && t in RunAll(w, s).tasks && d < |RunAll(w, s).tasks[t].scopes|
    requires u in RunAll(w, s).tasks && e < |RunAll(w, s).tasks[u].scopes|
    ensures var r := RunAll(w, s); var (x, y) := (ScopeDict(r.tasks[t], d), ScopeDict(r.tasks[u], e));
      && x.Some? && x.value !in w.heap && x.value in r.heap
      && (x == y <==> t == u && d == e)
  {
    hide RunAll, SpecRun, OwnDicts, TaskMatches, ScopeDict;
    var bases := Reached(w, s);
    StartOwns(w);
    OwnDictsReached(SpecOf(w), s);
    hide SpecOf;
    var r, a := RunAll(w, s), SpecRun(SpecOf(w), s);
    MatchParts(r.tasks[t], a.tasks[t], bases[t]);
    MatchParts(r.tasks[u], a.tasks[u], bases[u]);
    OwnDictsDiffer(a, t, d, u, e);
    ScopeDictIs(r.tasks[t], a.tasks[t], bases[t], d);
    ScopeDictIs(r.tasks[u], a.tasks[u], bases[u], e);
  }

  lemma OwnDictsDiffer(a: Spec, t: TaskId, d: nat, u: TaskId, e: nat)
    requires OwnDicts(a) && t in a.tasks && d < |a.tasks[t].frames| && u in a.tasks && e < |a.tasks[u].frames|
    ensures a.tasks[t].frames[d].dict == a.tasks[u].frames[e].dict ==> t == u && d == e
    ensures a.tasks[t].frames[d].dict.Made? && a.tasks[t].frames[d].dict in a.heap
  {
    assert OwnFrames(t, a.tasks[t], a.heap) && OwnFrames(u, a.tasks[u], a.heap);
  }

  // The dictionary the next scope will make is not on the heap yet.
  lemma NextDictIsNew(w: World, s: Schedule, t: TaskId)
    requires Ready(w) && t in RunAll(w, s).tasks
    ensures Made(t, RunAll(w, s).tasks[t].entered) !in RunAll(w, s).heap
  {
    hide RunAll, SpecRun, TaskMatches, OwnFrames;
    var bases := Reached(w, s);
    StartOwns(w);
    OwnDictsReached(SpecOf(w), s);
    hide SpecOf, Ready;
    EnteredAlike(RunAll(w, s).tasks[t], SpecRun(SpecOf(w), s).tasks[t], bases[t]);
  }

  // ---- what a scope sets stays set ----

  predicate Sets(args: ScopeArgs, v: Var) {
    match v
    case ScopedConnection => args.apiKey.Some? || args.target.Some? || args.project.Some?
    case ScopedTools => true
    case ScopedProjectId => args.project.Some?
    case ScopedNormalize => args.normalize.Some?
    case ScopedFramework => args.framework.Some?
  }

  // Throughout the schedule the task is in at least `depth` scopes.
  ghost predicate StaysIn(w: World, s: Schedule, t: TaskId, depth: nat)
    decreases |s|
  {
    && t in w.tasks && |w.tasks[t].scopes| >= depth
    && (s != [] ==> StaysIn(Step(w, s[0].0, s[0].1), s[1..], t, depth))
  }

  // Frame `k` is the innermost one that has the variable.
  ghost predicate Rules(frames: seq<Frame>, k: nat, v: Var) {
    k < |frames| && FrameGet(frames[k], v).Some? && forall e | k < e < |frames| :: FrameGet(frames[e], v).None?
  }

  lemma {:induction false} RulesOverlay(base: Ctx, frames: seq<Frame>, k: nat, v: Var)
    requires Rules(frames, k, v)
    ensures Get(Overlay(base, frames), v) == FrameGet(frames[k], v)
  {
    hide FrameGet, SetAll, FrameBindings;
    var n := |frames| - 1;
    FrameSets(Overlay(base, frames[..n]), frames[n], v);
    if k < n { RulesOverlay(base, frames[..n], k, v); }
  }

  lemma FrameForGet(args: ScopeArgs, g: Conn, dict: DictId, v: Var)
    requires args.Enterable()
    ensures FrameGet(FrameFor(args, g, dict), v).Some? <==> Sets(args, v)
  {
  }

  lemma FrameStays(s: Stack, t: TaskId, op: Op, g: Conn, registry: ToolTable, heap: Heap, k: nat)
    requires k < |s.frames| && k < |StackStep(s, t, op, g, registry, heap).frames|
    ensures StackStep(s, t, op, g, registry, heap).frames[k] == s.frames[k]
  {
    hide FrameFor, Answer, Sees;
  }

  lemma OthersUntouched(a: Spec, u: TaskId, op: Op, t: TaskId)
    requires t in a.tasks
    ensures t in SpecStep(a, u, op).tasks
    ensures SpecStep(a, u, op).tasks[t]
         == if u == t then StackStep(a.tasks[t], t, op, a.global, a.registry, a.heap) else a.tasks[t]
  {
    hide StackStep, HeapStep, GlobalStep, RegistryStep, Sees;
  }

  lemma {:induction false} FrameSurvives(w: World, a: Spec, bases: map<TaskId, Ctx>, s: Schedule, t: TaskId, k: nat)
    requires Matches(w, a, bases) && StaysIn(w, s, t, k + 1) && t in a.tasks && k < |a.tasks[t].frames|
    ensures var a' := SpecRun(a, s);
      t in a'.tasks && k < |a'.tasks[t].frames| && a'.tasks[t].frames[k] == a.tasks[t].frames[k]
    decreases |s|
  {
    hide Step, SpecStep, StackStep, TaskMatches, BasesAfter;
    if s != [] {
      var (u, op) := s[0];
      StepKeeps(w, a, bases, u, op);
      OthersUntouched(a, u, op, t);
      var w', a', bases' := Step(w, u, op), SpecStep(a, u, op), BasesAfter(w, bases, u, op);
      MatchParts(w'.tasks[t], a'.tasks[t], bases'[t]);
      if u == t { FrameStays(a.tasks[t], t, op, a.global, a.registry, a.heap, k); }
      FrameSurvives(w', a', bases', s[1..], t, k);
    }
  }

  // No scope open above the `k`th sets the variable.
  ghost predicate Topmost(task: Task, k: nat, v: Var) {
    forall e | k < e < |task.scopes| :: !SetIn(task.scopes[e], v)
  }

  lemma TopmostRules(task: Task, s: Stack, base: Ctx, k: nat, v: Var)
    requires TaskMatches(task, s, base) && k < |s.frames| && FrameGet(s.frames[k], v).Some? && Topmost(task, k, v)
    ensures Get(task.vars, v) == FrameGet(s.frames[k], v)
  {
    hide TaskMatches, SetIn, FrameGet;
    MatchParts(task, s, base);
    forall e | k < e < |s.frames| ensures FrameGet(s.frames[e], v).None? { ScopeSets(task, s, base, e, v); }
    RulesOverlay(base, s.frames, k, v);
  }

  // What a task reads of a variable its scope set is what the scope was asked for.
  ghost predicate AsAsked(x: Option<Val<Conn, DictId>>, args: ScopeArgs, before: World, after: World, v: Var) {
    match v
    case ScopedConnection => x.Some? && x.value.AConn? && JobConn(x.value.conn, args, before.global)
    case ScopedTools =>
      && x.Some? && x.value.Tools? && x.value.dict !in before.heap && x.value.dict in after.heap
      && LastWins(after.heap[x.value.dict], args.tools)
    case ScopedProjectId => args.project.Some? && x == Some(Text(args.project.value))
    case ScopedNormalize => args.normalize.Some? && x == Some(Flag(args.normalize.value))
    case ScopedFramework => args.framework.Some? && x == Some(Text(args.framework.value))
  }

  // Entering a scope gives its task what was asked for, a new dictionary of the tools and the arguments
  // over the global connection as it is, and leaves every other variable as it was.
  lemma EnteringSets(w: World, before: Schedule, t: TaskId, args: ScopeArgs, v: Var)
    requires Ready(w) && t in RunAll(w, before).tasks && args.Enterable()
    ensures var m := RunAll(w, before); var e := Step(m, t, EnterScope(args));
      t in e.tasks
      && if Sets(args, v) then AsAsked(Get(e.tasks[t].vars, v), args, m, e, v)
         else Get(e.tasks[t].vars, v) == Get(m.tasks[t].vars, v)
  {
    NextDictIsNew(w, before, t);
    hide RunAll, Ready;
    EntryIsAsked(RunAll(w, before), t, args, v);
  }

  lemma EntryIsAsked(m: World, t: TaskId, args: ScopeArgs, v: Var)
    requires t in m.tasks && args.Enterable() && Made(t, m.tasks[t].entered) !in m.heap
    ensures var e := Step(m, t, EnterScope(args));
      t in e.tasks
      && if Sets(args, v) then AsAsked(Get(e.tasks[t].vars, v), args, m, e, v)
         else Get(e.tasks[t].vars, v) == Get(m.tasks[t].vars, v)
  {
    var task := m.tasks[t];
    var f := FrameFor(args, m.global, Made(t, task.entered));
    FrameSets(task.vars, f, v);
    ScopeConnIs(args, m.global);
    ToolMapIs(args.tools);
    EntryStep(m, t, args);
    hide SetAll, FrameBindings, Step, ScopeConn, JobConn, LastWins, ToolMap, ScopeArgs.Enterable, Get;
  }

  lemma EntryStep(m: World, t: TaskId, args: ScopeArgs)
    requires t in m.tasks && args.Enterable()
    ensures var e := Step(m, t, EnterScope(args)); var dict := Made(t, m.tasks[t].entered);
      && t in e.tasks && e.tasks[t].vars == SetAll(m.tasks[t].vars, FrameBindings(FrameFor(args, m.global, dict)))
      && dict in e.heap && e.heap[dict] == ToolMap(args.tools)
  {
    hide SetAll, TokensFor, Bindings, ToolMap, NewConn;
  }

  // What a scope set is what its task reads for as long as it stays in the scope, whatever any task
  // does meanwhile, whenever no scope open above it sets the same.
  lemma ScopeIsStable(w: World, before: Schedule, t: TaskId, args: ScopeArgs, after: Schedule, v: Var)
    requires Ready(w) && t in RunAll(w, before).tasks && args.Enterable() && Sets(args, v)
    requires var m := RunAll(w, before);
      StaysIn(Step(m, t, EnterScope(args)), after, t, |m.tasks[t].scopes| + 1)
    ensures var m, r := RunAll(w, before), RunAll(w, before + [(t, EnterScope(args))] + after);
      var e := Step(m, t, EnterScope(args));
      && t in r.tasks && |r.tasks[t].scopes| > |m.tasks[t].scopes|
      && t in e.tasks && AsAsked(Get(e.tasks[t].vars, v), args, m, e, v)
      && (Topmost(r.tasks[t], |m.tasks[t].scopes|, v) ==> Get(r.tasks[t].vars, v) == Get(e.tasks[t].vars, v))
  {
    EnteringSets(w, before, t, args, v);
    RunsOn(w, before, (t, EnterScope(args)), after);
    var bases := Reached(w, before);
    hide *;
    StableFrom(RunAll(w, before), SpecRun(SpecOf(w), before), bases, t, args, after, v);
  }

  lemma StableFrom(m: World, a: Spec, bases: map<TaskId, Ctx>, t: TaskId, args: ScopeArgs, after: Schedule, v: Var)
    requires Matches(m, a, bases) && t in m.tasks && args.Enterable() && Sets(args, v)
    requires StaysIn(Step(m, t, EnterScope(args)), after, t, |m.tasks[t].scopes| + 1)
    ensures var e := Step(m, t, EnterScope(args)); var r := RunAll(e, after);
      && t in e.tasks && t in r.tasks && |r.tasks[t].scopes| > |m.tasks[t].scopes|
      && (Topmost(r.tasks[t], |m.tasks[t].scopes|, v) ==> Get(r.tasks[t].vars, v) == Get(e.tasks[t].vars, v))
  {
    var enter, k := EnterScope(args), |m.tasks[t].scopes|;
    var f := FrameFor(args, m.global, Made(t, m.tasks[t].entered));
    EntryStep(m, t, args);
    FrameForGet(args, m.global, Made(t, m.tasks[t].entered), v);
    FrameSets(m.tasks[t].vars, f, v);
    EntryFrame(m, a, bases, t, args);
    StepKeeps(m, a, bases, t, enter);
    var e, a1, bases1 := Step(m, t, enter), SpecStep(a, t, enter), BasesAfter(m, bases, t, enter);
    hide Step, SetAll, FrameBindings, RunAll, SpecRun, TaskMatches, SpecStep, BasesAfter, FrameGet, FrameFor, Topmost;
    hide StaysIn, Get, Sets;
    FrameSurvives(e, a1, bases1, after, t, k);
    var bases2 := RunKeeps(e, a1, bases1, after);
    var task, stack := RunAll(e, after).tasks[t], SpecRun(a1, after).tasks[t];
    MatchParts(task, stack, bases2[t]);
    if Topmost(task, k, v) { TopmostRules(task, stack, bases2[t], k, v); }
  }

  lemma RunsOn(w: World, before: Schedule, one: (TaskId, Op), after: Schedule)
    ensures RunAll(w, before + [one] + after) == RunAll(Step(RunAll(w, before), one.0, one.1), after)
  {
    RunAllAppend(w, before + [one], after);
    RunAllAppend(w, before, [one]);
    RunOfOne(RunAll(w, before), one);
    hide RunAll, Step;
  }

  lemma RunOfOne(w: World, one: (TaskId, Op))
    ensures RunAll(w, [one]) == Step(w, one.0, one.1)
  {
    assert [one][1..] == [];
  }

  lemma EntryFrame(m: World, a: Spec, bases: map<TaskId, Ctx>, t: TaskId, args: ScopeArgs)
    requires Matches(m, a, bases) && t in m.tasks && args.Enterable()
    ensures var a', k := SpecStep(a, t, EnterScope(args)), |m.tasks[t].scopes|;
      && t in a'.tasks && k < |a'.tasks[t].frames|
      && a'.tasks[t].frames[k] == FrameFor(args, m.global, Made(t, m.tasks[t].entered))
  {
    hide TaskMatches, FrameFor, SpecStep;
    MatchParts(m.tasks[t], a.tasks[t], bases[t]);
    EnteredAlike(m.tasks[t], a.tasks[t], bases[t]);
    OthersUntouched(a, t, EnterScope(args), t);
  }

  lemma EnteredAlike(task: Task, s: Stack, base: Ctx)
    requires TaskMatches(task, s, base)
    ensures task.entered == s.entered
  {
    hide TokensMatch, Overlay, Inherits;
  }

  // ---- governance inside a scope ----

  // Every gate gives the same answer on both connections, and asks the plane as often.
  ghost predicate SameGates(c: Conn, d: Conn) {
    forall look: Governance.Lookups, call: Governance.Call, agent: string, ambient: Option<Governance.Resume>,
           ans: Governance.Answers ::
      && Governance.Gate(look, c, call, ambient, ans) == Governance.Gate(look, d, call, ambient, ans)
      && Governance.DirectCall(look, c, call, ans.reply) == Governance.DirectCall(look, d, call, ans.reply)
      && Governance.CheckToolCall(look, c, call.tool, agent, ans.reply)
         == Governance.CheckToolCall(look, d, call.tool, agent, ans.reply)
  }

  // A scope that overrides the connection shows its task one connection throughout, except while it is
  // in an inner scope that does so too, and so no connect, refresh or disconnect by any task changes any
  // gate's outcome inside it: the arguments, over the global connection as it was at entry.
  lemma ScopeKeepsItsConnection(w: World, before: Schedule, t: TaskId, args: ScopeArgs, after: Schedule)
    requires Ready(w) && t in RunAll(w, before).tasks && args.Enterable() && Sets(args, ScopedConnection)
    requires var m := RunAll(w, before);
      StaysIn(Step(m, t, EnterScope(args)), after, t, |m.tasks[t].scopes| + 1)
    ensures var m := RunAll(w, before); var e := Step(m, t, EnterScope(args));
      var r := RunAll(w, before + [(t, EnterScope(args))] + after);
      && t in e.tasks && t in r.tasks
      && Via(e.tasks[t].vars).Some? && JobConn(Via(e.tasks[t].vars).value, args, m.global)
      && (Topmost(r.tasks[t], |m.tasks[t].scopes|, ScopedConnection) ==>
            Via(r.tasks[t].vars) == Via(e.tasks[t].vars)
            && SameGates(Active(e.global, Via(e.tasks[t].vars)), Active(r.global, Via(r.tasks[t].vars))))
  {
    hide RunAll, Step, SameGates, JobConn, Topmost, Ready, StaysIn;
    ScopeIsStable(w, before, t, args, after, ScopedConnection);
    var e := Step(RunAll(w, before), t, EnterScope(args));
    if Via(e.tasks[t].vars).Some? { SameConnSameGates(Via(e.tasks[t].vars).value); }
  }

  lemma SameConnSameGates(c: Conn)
    ensures SameGates(c, c)
  {
  }

  ghost predicate Policyless(c: Option<Conn>) {
    c.Some? ==> c.value.policy.None? && c.value.failMode == Open
  }

  ghost predicate PolicylessFrames(s: Stack) {
    forall d | 0 <= d < |s.frames| :: Policyless(s.frames[d].conn)
  }

  ghost predicate FramesCarryNoPolicy(a: Spec) {
    forall t | t in a.tasks :: PolicylessFrames(a.tasks[t])
  }

  ghost predicate BasesCarryNoPolicy(a: Spec) {
    forall t | t in a.tasks :: Policyless(a.tasks[t].base.conn)
  }

  lemma {:induction false} PolicylessConn(frames: seq<Frame>, base: Inherited)
    requires Policyless(base.conn) && forall d | 0 <= d < |frames| :: Policyless(frames[d].conn)
    ensures Policyless(ConnOf(frames, base))
  {
    if frames != [] { PolicylessConn(frames[..|frames| - 1], base); }
  }

  lemma StackKeepsNoPolicy(s: Stack, t: TaskId, op: Op, g: Conn, registry: ToolTable, heap: Heap)
    requires PolicylessFrames(s)
    ensures var s' := StackStep(s, t, op, g, registry, heap); PolicylessFrames(s') && s'.base == s.base
  {
    hide Answer, Sees;
  }

  lemma StepKeepsNoPolicy(a: Spec, t: TaskId, op: Op)
    requires FramesCarryNoPolicy(a)
    ensures FramesCarryNoPolicy(SpecStep(a, t, op))
    ensures BasesCarryNoPolicy(a) ==> BasesCarryNoPolicy(SpecStep(a, t, op))
  {
    if t in a.tasks {
      StackKeepsNoPolicy(a.tasks[t], t, op, a.global, a.registry, a.heap);
      if BasesCarryNoPolicy(a) { PolicylessConn(a.tasks[t].frames, a.tasks[t].base); }
      hide StackStep, HeapStep, GlobalStep, RegistryStep, Policyless, ConnOf, ProjectOf, NormalizeOf, FrameworkOf;
    }
  }

  lemma {:induction false} RunKeepsNoPolicy(a: Spec, s: Schedule)
    requires FramesCarryNoPolicy(a)
    ensures FramesCarryNoPolicy(SpecRun(a, s))
    ensures BasesCarryNoPolicy(a) ==> BasesCarryNoPolicy(SpecRun(a, s))
    decreases |s|
  {
    hide SpecStep, FramesCarryNoPolicy, BasesCarryNoPolicy;
    if s != [] {
      StepKeepsNoPolicy(a, s[0].0, s[0].1);
      RunKeepsNoPolicy(SpecStep(a, s[0].0, s[0].1), s[1..]);
    }
  }

  lemma {:induction false} InnermostConn(frames: seq<Frame>, base: Inherited, d: nat)
    requires d < |frames| && frames[d].conn.Some?
    ensures exists e :: d <= e < |frames| && frames[e].conn.Some? && ConnOf(frames, base) == frames[e].conn
  {
    var n := |frames| - 1;
    if frames[n].conn.None? {
      InnermostConn(frames[..n], base, d);
      var e :| d <= e < n && frames[..n][e].conn.Some? && ConnOf(frames[..n], base) == frames[..n][e].conn;
      assert frames[e].conn.Some?;
    } else {
      assert ConnOf(frames, base) == frames[n].conn;
    }
  }

  // From the moment a task enters a scope that sets the connection until it leaves it, at any depth
  // below, every gate allows every call of the task and asks the plane nothing.
  lemma ConnectionScopesAreUngated(w: World, s: Schedule, t: TaskId, d: nat, look: Governance.Lookups)
    requires Ready(w) && t in RunAll(w, s).tasks && d < |RunAll(w, s).tasks[t].scopes|
    requires SetIn(RunAll(w, s).tasks[t].scopes[d], ScopedConnection)
    ensures var r := RunAll(w, s); Governance.Ungated(look, Active(r.global, Via(r.tasks[t].vars)))
  {
    hide RunAll, SpecRun, ConnOf, Via, Governance.Ungated, TaskMatches, SetIn, Sees, Inherits;
    var bases := Reached(w, s);
    assert FramesCarryNoPolicy(SpecOf(w));
    hide SpecOf, Ready;
    RunKeepsNoPolicy(SpecOf(w), s);
    var task, st := RunAll(w, s).tasks[t], SpecRun(SpecOf(w), s).tasks[t];
    ScopeSets(task, st, bases[t], d, ScopedConnection);
    InnermostConn(st.frames, st.base, d);
    SeenParts(task, st, bases[t]);
    SeesConn(st);
    Governance.NoPolicyMeansUngated(look, ConnOf(st.frames, st.base).value);
  }

  lemma SeesConn(s: Stack)
    ensures Sees(s).conn == ConnOf(s.frames, s.base)
  {
  }

  // The same for the tasks started inside such scopes, at any remove and after the scopes are left: in
  // a run that began with no governed connection in a context, whatever connection a context holds
  // gates nothing.
  lemma InheritedConnectionsAreUngated(w: World, s: Schedule, t: TaskId, look: Governance.Lookups)
    requires Ready(w) && forall u | u in w.tasks :: Policyless(Via(w.tasks[u].vars))
    requires t in RunAll(w, s).tasks && Via(RunAll(w, s).tasks[t].vars).Some?
    ensures var r := RunAll(w, s); Governance.Ungated(look, Active(r.global, Via(r.tasks[t].vars)))
  {
    hide RunAll, SpecRun, ConnOf, Via, Governance.Ungated;
    ContextsRefineFrames(w, s);
    assert FramesCarryNoPolicy(SpecOf(w)) && BasesCarryNoPolicy(SpecOf(w));
    hide SpecOf, Ready;
    RunKeepsNoPolicy(SpecOf(w), s);
    var st := SpecRun(SpecOf(w), s).tasks[t];
    PolicylessConn(st.frames, st.base);
    assert Inherits(RunAll(w, s).tasks[t].vars).conn == Sees(st).conn;
    hide DictOf, ProjectOf, NormalizeOf, FrameworkOf, Dict, TextOf, FlagOf;
    Governance.NoPolicyMeansUngated(look, ConnOf(st.frames, st.base).value);
  }

  // ---- what the registry and the global connection are to a task ----

  // A tool registered outside all scopes is what every task finds whose own dictionary has none of that
  // name; one registered in a scope is found by the tasks that hold that scope's dictionary only.
  lemma RegisteredToolIsFound(w: World, t: TaskId, u: TaskId, name: string, tool: Tool)
    requires t in w.tasks && u in w.tasks
    requires Dict(w.tasks[t].vars).Some? ==> Dict(w.tasks[t].vars).value in w.heap
    ensures var s := [(t, RegisterTool(name, tool)), (u, ReadTool(name))];
      var (mine, theirs) := (Dict(w.tasks[t].vars), Dict(w.tasks[u].vars));
      var own := theirs.Some? && theirs.value in w.heap && name in w.heap[theirs.value];
      && u in RunAll(w, s).tasks
      && RunAll(w, s).tasks[u].log == w.tasks[u].log + [SawTool(name,
           if mine.Some? && mine == theirs then Some(tool)
           else if own then Some(w.heap[theirs.value][name])
           else if mine.None? then Some(tool)
           else if name in w.registry then Some(w.registry[name]) else None)]
  {
    var first: (TaskId, Op) := (t, RegisterTool(name, tool));
    var second: (TaskId, Op) := (u, ReadTool(name));
    assert [first] + [second] == [first, second];
    RunAllAppend(w, [first], [second]);
    RunOfOne(w, first);
    RunOfOne(Step(w, first.0, first.1), second);
    hide RunAll, Dict;
  }

  // A refresh asks through the connection of its task's context, and stores what it gets globally.
  lemma RefreshThroughScope(w: World, t: TaskId, p: Policy)
    requires t in w.tasks
    ensures var w' := Step(w, t, Global(Refreshing(PolicyStatus(200, Object(p)))));
      var via := Via(w.tasks[t].vars);
      && w'.global == (if (if via.Some? then via.value.apiKey.Some? else w.global.apiKey.Some?)
                       then w.global.(policy := Some(p)) else w.global)
      && w'.tasks == w.tasks && w'.heap == w.heap && w'.registry == w.registry
  {
    hide Via;
  }

  // A task started by another has all that the other's context held at that moment, and no scope of its
  // own to leave.
  lemma SpawnedSeesItsParent(w: World, t: TaskId, child: TaskId)
    requires t in w.tasks && child !in w.tasks
    ensures var w' := Step(w, t, Spawn(child));
      child in w'.tasks && w'.tasks[child].vars == w.tasks[t].vars && w'.tasks[child].scopes == []
      && w'.global == w.global && w'.registry == w.registry && w'.heap == w.heap
      && forall u | u in w.tasks :: u in w'.tasks && w'.tasks[u] == w.tasks[u]
  {
  }

  // ---- schedule independence ----

  // The operations of the family's tasks, in their order.
  function Only(s: Schedule, family: set<TaskId>): Schedule {
    if s == [] then [] else (if s[0].0 in family then [s[0]] else []) + Only(s[1..], family)
  }

  // No outsider starts a task of the family.
  ghost predicate Apart(s: Schedule, family: set<TaskId>) {
    forall i | 0 <= i < |s| && s[i].1.Spawn? && s[i].1.child in family :: s[i].0 in family
  }

  // A dictionary there was before the run, or that a task of the family made.
  predicate OnSide(d: DictId, family: set<TaskId>) {
    d.Made? ==> d.maker in family
  }

  // An outsider leaves alone the global connection, and registers none of the tools in question where
  // the family could look: in the registry, or in a dictionary on its side.
  predicate KeepsOut(w: World, t: TaskId, op: Op, family: set<TaskId>, names: iset<string>) {
    t in w.tasks ==>
      && !op.Global?
      && (op.RegisterTool? && op.name in names ==>
            Dict(w.tasks[t].vars).Some? && !OnSide(Dict(w.tasks[t].vars).value, family))
  }

  ghost predicate OutsidersKeepOut(w: World, s: Schedule, family: set<TaskId>, names: iset<string>)
    decreases |s|
  {
    s != [] ==>
      && (s[0].0 in family || KeepsOut(w, s[0].0, s[0].1, family, names))
      && OutsidersKeepOut(Step(w, s[0].0, s[0].1), s[1..], family, names)
  }

  // The family's contexts, and what its scopes will put back, hold dictionaries on its side only.

  ghost predicate ValOnSide(x: Option<Val<Conn, DictId>>, family: set<TaskId>) {
    x.Some? && x.value.Tools? ==> OnSide(x.value.dict, family)
  }

  ghost predicate VarsOnSide(vars: Ctx, family: set<TaskId>) {
    ValOnSide(Get(vars, ScopedTools), family)
  }

  ghost predicate TokensOnSide(ts: Tokens, family: set<TaskId>) {
    forall i | 0 <= i < |ts| && ts[i].v == ScopedTools :: ValOnSide(ts[i].before, family)
  }

  ghost predicate TaskOnSide(task: Task, family: set<TaskId>) {
    VarsOnSide(task.vars, family) && forall d | 0 <= d < |task.scopes| :: TokensOnSide(task.scopes[d], family)
  }

  ghost predicate Sided(w: World, family: set<TaskId>) {
    forall t | t in w.tasks && t in family :: TaskOnSide(w.tasks[t], family)
  }

  lemma {:induction false} SetAllOnSide(vars: Ctx, bs: seq<Binding<Conn, DictId>>, family: set<TaskId>)
    requires VarsOnSide(vars, family)
    requires forall i | 0 <= i < |bs| && bs[i].0 == ScopedTools :: ValOnSide(Some(bs[i].1), family)
    ensures VarsOnSide(SetAll(vars, bs), family) && TokensOnSide(TokensFor(vars, bs), family)
  {
    hide ValOnSide;
    if bs != [] {
      var n := |bs| - 1;
      SetAllOnSide(vars, bs[..n], family);
      var earlier := SetAll(vars, bs[..n]);
      assert bs[n].0 != ScopedTools ==> Get(SetAll(vars, bs), ScopedTools) == Get(earlier, ScopedTools);
      assert TokensFor(vars, bs) == TokensFor(vars, bs[..n]) + [Token(bs[n].0, Get(earlier, bs[n].0))];
    }
  }

  lemma {:induction false} ResetOnSide(vars: Ctx, ts: Tokens, family: set<TaskId>)
    requires VarsOnSide(vars, family) && TokensOnSide(ts, family)
    ensures VarsOnSide(ResetReversed(vars, ts), family)
    decreases |ts|
  {
    hide ValOnSide;
    if ts != [] {
      var n := |ts| - 1;
      var one := ResetOne(vars, ts[n]);
      assert Get(one, ScopedTools) == if ts[n].v == ScopedTools then ts[n].before else Get(vars, ScopedTools);
      ResetOnSide(one, ts[..n], family);
    }
  }

  lemma EnteredOnSide(task: Task, t: TaskId, args: ScopeArgs, g: Conn, family: set<TaskId>)
    requires TaskOnSide(task, family) && t in family && args.Enterable()
    ensures TaskOnSide(Entered(task, t, args, g), family)
  {
    hide VarsOnSide, TokensOnSide, NewConn, TokensFor, SetAll;
    var bs := Bindings(NewConn(args, g), Made(t, task.entered), args.project, args.normalize, args.framework);
    assert forall i | 0 <= i < |bs| && bs[i].0 == ScopedTools :: bs[i].1 == Tools(Made(t, task.entered));
    assert ValOnSide(Some(Tools(Made(t, task.entered))), family);
    hide Bindings, ValOnSide;
    SetAllOnSide(task.vars, bs, family);
  }

  lemma TaskStaysOnSide(task: Task, t: TaskId, op: Op, g: Conn, registry: ToolTable, heap: Heap, family: set<TaskId>)
    requires TaskOnSide(task, family) && t in family
    ensures TaskOnSide(TaskStep(task, t, op, g, registry, heap), family)
  {
    hide VarsOnSide, TokensOnSide, Entered, ResetReversed, Via, Dict, TextOf, FlagOf, FindTool, TableAt, Active;
    match op
    case EnterScope(args) => if args.Enterable() { EnteredOnSide(task, t, args, g, family); }
    case ExitScope =>
      if task.scopes != [] { ResetOnSide(task.vars, task.scopes[|task.scopes| - 1], family); }
    case _ =>
  }

  lemma StepStaysSided(w: World, t: TaskId, op: Op, family: set<TaskId>)
    requires Sided(w, family) && (op.Spawn? && op.child in family ==> t in family)
    ensures Sided(Step(w, t, op), family)
  {
    if t in w.tasks {
      if t in family { TaskStaysOnSide(w.tasks[t], t, op, w.global, w.registry, w.heap, family); }
      hide TaskStep, HeapStep, RegistryStep, GlobalStep, VarsOnSide, TokensOnSide;
      assert t in family ==> TaskOnSide(w.tasks[t], family);
    }
  }

  // ---- what the family cannot tell apart, but for tools of other names ----

  // The log without the reads of tools of other names.
  function About(log: seq<Seen>, names: iset<string>): seq<Seen> {
    if log == [] then []
    else
      var n := |log| - 1;
      About(log[..n], names) + if log[n].SawTool? && log[n].name !in names then [] else [log[n]]
  }

  // A task with that much of its log.
  function Trace(task: Option<Task>, names: iset<string>): Option<Task> {
    if task.Some? then Some(task.value.(log := About(task.value.log, names))) else None
  }

  ghost predicate TablesAlike(a: Option<ToolTable>, b: Option<ToolTable>, names: iset<string>) {
    && (a.Some? <==> b.Some?)
    && (a.Some? ==> forall n | n in names :: Lookup(a.value, n) == Lookup(b.value, n))
  }

  ghost predicate HeapsAlike(a: Heap, b: Heap, family: set<TaskId>, names: iset<string>) {
    forall d | OnSide(d, family) :: TablesAlike(Lookup(a, d), Lookup(b, d), names)
  }

  ghost predicate TasksAlike(a: map<TaskId, Task>, b: map<TaskId, Task>, family: set<TaskId>, names: iset<string>) {
    forall t | t in family :: Trace(Lookup(a, t), names) == Trace(Lookup(b, t), names)
  }

  // Two worlds that the family cannot tell apart. Where no tool's name matters, neither do the tables.
  ghost predicate Alike(w: World, x: World, family: set<TaskId>, names: iset<string>) {
    && w.global == x.global && TablesAlike(Some(w.registry), Some(x.registry), names)
    && TasksAlike(w.tasks, x.tasks, family, names)
    && (names == iset{} || (HeapsAlike(w.heap, x.heap, family, names) && Sided(w, family)))
  }

  lemma AboutAppend(log: seq<Seen>, seen: Seen, names: iset<string>)
    ensures About(log + [seen], names)
         == About(log, names) + if seen.SawTool? && seen.name !in names then [] else [seen]
  {
    assert (log + [seen])[..|log|] == log;
  }

  lemma LoggedAlike(a: Task, b: Task, x: Seen, y: Seen, names: iset<string>)
    requires Trace(Some(a), names) == Trace(Some(b), names)
    requires x == y || (x.SawTool? && y.SawTool? && x.name == y.name && x.name !in names)
    ensures Trace(Some(Logged(a, x)), names) == Trace(Some(Logged(b, y)), names)
  {
    AboutAppend(a.log, x, names);
    AboutAppend(b.log, y, names);
    hide About;
  }

  lemma FindAlike(a: Option<ToolTable>, b: Option<ToolTable>, r: ToolTable, q: ToolTable, name: string,
                  names: iset<string>)
    requires TablesAlike(a, b, names) && TablesAlike(Some(r), Some(q), names) && name in names
    ensures FindTool(a, r, name) == FindTool(b, q, name)
  {
    assert a.Some? ==> Lookup(a.value, name) == Lookup(b.value, name);
  }

  lemma TaskStepAlike(a: Task, b: Task, t: TaskId, op: Op, g: Conn, r: ToolTable, q: ToolTable, heap: Heap,
                      heap': Heap, names: iset<string>)
    requires Trace(Some(a), names) == Trace(Some(b), names) && TablesAlike(Some(r), Some(q), names)
    requires names == iset{} || TablesAlike(TableAt(heap, Dict(a.vars)), TableAt(heap', Dict(a.vars)), names)
    ensures Trace(Some(TaskStep(a, t, op, g, r, heap)), names) == Trace(Some(TaskStep(b, t, op, g, q, heap')), names)
  {
    assert a.vars == b.vars && a.scopes == b.scopes && a.entered == b.entered;
    hide TablesAlike, Dict, TableAt, About, Active, FindTool, Via, TextOf, FlagOf, Inherits;
    if Reads(op) {
      ReadAnswers(a, t, op, g, r, heap);
      ReadAnswers(b, t, op, g, q, heap');
      AnswersAlike(op, a.vars, g, r, q, heap, heap', names);
      LoggedAlike(a, b, Answer(op, Inherits(a.vars), g, r, heap), Answer(op, Inherits(a.vars), g, q, heap'), names);
    } else if op.EnterScope? && !op.args.Enterable() {
      LoggedAlike(a, b, EnterRaised, EnterRaised, names);
    } else {
      hide SetAll, TokensFor, ResetReversed, Bindings, NewConn;
    }
  }

  lemma AnswersAlike(op: Op, vars: Ctx, g: Conn, r: ToolTable, q: ToolTable, heap: Heap, heap': Heap,
                     names: iset<string>)
    requires Reads(op) && TablesAlike(Some(r), Some(q), names)
    requires names == iset{} || TablesAlike(TableAt(heap, Dict(vars)), TableAt(heap', Dict(vars)), names)
    ensures var x, y := Answer(op, Inherits(vars), g, r, heap), Answer(op, Inherits(vars), g, q, heap');
      x == y || (x.SawTool? && y.SawTool? && x.name == y.name && x.name !in names)
  {
    hide TablesAlike, TableAt, FindTool, Dict, Via, TextOf, FlagOf, Active;
    if op.ReadTool? && op.name in names {
      FindAlike(TableAt(heap, Dict(vars)), TableAt(heap', Dict(vars)), r, q, op.name, names);
    }
  }

  lemma HeapStepAt(heap: Heap, t: TaskId, op: Op, dict: Option<DictId>, serial: nat, d: DictId)
    ensures Lookup(HeapStep(heap, t, op, dict, serial), d)
         == if op.EnterScope? && op.args.Enterable() && d == Made(t, serial) then Some(ToolMap(op.args.tools))
            else if op.RegisterTool? && dict == Some(d) && d in heap then Some(heap[d][op.name := op.tool])
            else Lookup(heap, d)
  {
  }

  lemma HeapsStayAlike(a: Heap, b: Heap, t: TaskId, op: Op, dict: Option<DictId>, serial: nat, family: set<TaskId>,
                       names: iset<string>)
    requires HeapsAlike(a, b, family, names)
    ensures HeapsAlike(HeapStep(a, t, op, dict, serial), HeapStep(b, t, op, dict, serial), family, names)
    ensures dict.Some? && OnSide(dict.value, family) ==> TablesAlike(TableAt(a, dict), TableAt(b, dict), names)
  {
    hide HeapStep, OnSide, ToolMap;
    forall d | OnSide(d, family)
      ensures TablesAlike(Lookup(HeapStep(a, t, op, dict, serial), d), Lookup(HeapStep(b, t, op, dict, serial), d),
                          names)
    {
      HeapStepAt(a, t, op, dict, serial, d);
      HeapStepAt(b, t, op, dict, serial, d);
      assert TablesAlike(Lookup(a, d), Lookup(b, d), names);
    }
  }

  lemma RegistriesStayAlike(r: ToolTable, q: ToolTable, op: Op, dict: Option<DictId>, names: iset<string>)
    requires TablesAlike(Some(r), Some(q), names)
    ensures TablesAlike(Some(RegistryStep(r, op, dict)), Some(RegistryStep(q, op, dict)), names)
  {
    forall n | n in names ensures Lookup(RegistryStep(r, op, dict), n) == Lookup(RegistryStep(q, op, dict), n) {
      assert Lookup(r, n) == Lookup(q, n);
    }
  }

  lemma TasksStayAlike(w: World, x: World, t: TaskId, op: Op, family: set<TaskId>, names: iset<string>)
    requires TasksAlike(w.tasks, x.tasks, family, names) && t in family && t in w.tasks && t in x.tasks
    requires w.tasks[t].vars == x.tasks[t].vars
    requires Trace(Some(TaskStep(w.tasks[t], t, op, w.global, w.registry, w.heap)), names)
          == Trace(Some(TaskStep(x.tasks[t], t, op, x.global, x.registry, x.heap)), names)
    ensures TasksAlike(Step(w, t, op).tasks, Step(x, t, op).tasks, family, names)
  {
    hide TaskStep, HeapStep, RegistryStep, GlobalStep, NewTask, About;
    if op.Spawn? && op.child in family {
      assert Trace(Lookup(w.tasks, op.child), names) == Trace(Lookup(x.tasks, op.child), names);
    }
    forall u | u in family
      ensures Trace(Lookup(Step(w, t, op).tasks, u), names) == Trace(Lookup(Step(x, t, op).tasks, u), names)
    {
      assert Trace(Lookup(w.tasks, u), names) == Trace(Lookup(x.tasks, u), names);
    }
  }

  lemma DictOnSide(w: World, t: TaskId, family: set<TaskId>)
    requires Sided(w, family) && t in w.tasks && t in family
    ensures Dict(w.tasks[t].vars).Some? ==> OnSide(Dict(w.tasks[t].vars).value, family)
  {
    assert TaskOnSide(w.tasks[t], family);
  }

  // A step of the family does the same to both.
  lemma FamilySteps(w: World, x: World, t: TaskId, op: Op, family: set<TaskId>, names: iset<string>)
    requires Alike(w, x, family, names) && t in family
    ensures Alike(Step(w, t, op), Step(x, t, op), family, names)
  {
    assert Trace(Lookup(w.tasks, t), names) == Trace(Lookup(x.tasks, t), names);
    if t in w.tasks {
      var a, b := w.tasks[t], x.tasks[t];
      assert a.vars == b.vars && a.entered == b.entered && Trace(Some(a), names) == Trace(Some(b), names);
      hide TaskStep, HeapStep, RegistryStep, GlobalStep, Sided, OnSide, HeapsAlike, TasksAlike, TablesAlike, Trace;
      hide TableAt, Dict, Via, NewTask;
      if names != iset{} {
        DictOnSide(w, t, family);
        HeapsStayAlike(w.heap, x.heap, t, op, Dict(a.vars), a.entered, family, names);
        NoDictAlike(w.heap, x.heap, Dict(a.vars), names);
        StepStaysSided(w, t, op, family);
      }
      TaskStepAlike(a, b, t, op, w.global, w.registry, x.registry, w.heap, x.heap, names);
      RegistriesStayAlike(w.registry, x.registry, op, Dict(a.vars), names);
      TasksStayAlike(w, x, t, op, family, names);
    }
  }

  lemma NoDictAlike(a: Heap, b: Heap, dict: Option<DictId>, names: iset<string>)
    ensures dict.None? ==> TablesAlike(TableAt(a, dict), TableAt(b, dict), names)
  {
  }

  lemma OutsiderTables(w: World, x: World, t: TaskId, op: Op, family: set<TaskId>, names: iset<string>)
    requires t in w.tasks && t !in family && KeepsOut(w, t, op, family, names)
    requires TablesAlike(Some(w.registry), Some(x.registry), names)
    ensures TablesAlike(Some(Step(w, t, op).registry), Some(x.registry), names)
    ensures HeapsAlike(w.heap, x.heap, family, names) ==> HeapsAlike(Step(w, t, op).heap, x.heap, family, names)
  {
    hide TaskStep, HeapStep, GlobalStep, NewTask, Dict, Via, ToolMap;
    forall n | n in names ensures Lookup(Step(w, t, op).registry, n) == Lookup(x.registry, n) {
      assert Lookup(w.registry, n) == Lookup(x.registry, n);
    }
    if HeapsAlike(w.heap, x.heap, family, names) {
      forall d | OnSide(d, family) ensures TablesAlike(Lookup(Step(w, t, op).heap, d), Lookup(x.heap, d), names) {
        HeapStepAt(w.heap, t, op, Dict(w.tasks[t].vars), w.tasks[t].entered, d);
        assert TablesAlike(Lookup(w.heap, d), Lookup(x.heap, d), names);
      }
    }
  }

  // A step of an outsider that keeps out is not seen.
  lemma OutsiderSteps(w: World, x: World, t: TaskId, op: Op, family: set<TaskId>, names: iset<string>)
    requires Alike(w, x, family, names) && t !in family && KeepsOut(w, t, op, family, names)
    requires op.Spawn? ==> op.child !in family
    ensures Alike(Step(w, t, op), x, family, names)
  {
    if t in w.tasks {
      OutsiderTables(w, x, t, op, family, names);
      if names != iset{} { StepStaysSided(w, t, op, family); }
      hide TaskStep, HeapStep, RegistryStep, HeapsAlike, TablesAlike, Sided, Dict, Via, OnSide, NewTask, Trace;
      assert forall u | u in family :: Lookup(Step(w, t, op).tasks, u) == Lookup(w.tasks, u);
    }
  }

  lemma {:induction false} FamilyRunsAlike(w: World, x: World, s: Schedule, family: set<TaskId>, names: iset<string>)
    requires Alike(w, x, family, names) && Apart(s, family) && OutsidersKeepOut(w, s, family, names)
    ensures Alike(RunAll(w, s), RunAll(x, Only(s, family)), family, names)
    decreases |s|
  {
    hide Alike, Step, KeepsOut;
    if s != [] {
      var (t, op) := s[0];
      assert Apart(s[1..], family);
      var rest := Only(s[1..], family);
      if t in family {
        FamilySteps(w, x, t, op, family, names);
        FamilyRunsAlike(Step(w, t, op), Step(x, t, op), s[1..], family, names);
        assert Only(s, family) == [s[0]] + rest && ([s[0]] + rest)[1..] == rest;
      } else {
        OutsiderSteps(w, x, t, op, family, names);
        FamilyRunsAlike(Step(w, t, op), x, s[1..], family, names);
        assert Only(s, family) == [] + rest == rest;
      }
    }
  }

  // A family of tasks none of which an outsider starts, and any set of tool names. If no outsider
  // calls connect, disconnect or refresh_policy, or registers a tool of those names where the family
  // could look, the family runs as with all outsiders taken out: the same contexts and scopes, and the
  // same answer to every read but those of tools of other names, whatever the family itself does.
  lemma ScheduleIndependence(w: World, s: Schedule, family: set<TaskId>, names: iset<string>)
    requires Apart(s, family) && OutsidersKeepOut(w, s, family, names)
    requires names == iset{} || Sided(w, family)
    ensures var r, alone := RunAll(w, s), RunAll(w, Only(s, family));
      && r.global == alone.global
      && (forall n | n in names :: Lookup(r.registry, n) == Lookup(alone.registry, n))
      && forall t | t in family :: Trace(Lookup(r.tasks, t), names) == Trace(Lookup(alone.tasks, t), names)
  {
    hide RunAll, Trace;
    FamilyRunsAlike(w, w, s, family, names);
    hide Sided, HeapsAlike;
  }

  lemma {:induction false} SilentOutsiders(w: World, s: Schedule, family: set<TaskId>)
    requires forall i | 0 <= i < |s| && s[i].0 !in family :: !s[i].1.Global?
    ensures OutsidersKeepOut(w, s, family, iset{})
    decreases |s|
  {
    hide Step;
    if s != [] {
      assert s[0].0 in family || !s[0].1.Global?;
      SilentOutsiders(Step(w, s[0].0, s[0].1), s[1..], family);
    }
  }

  // With no outsider calling connect, disconnect or refresh_policy, that is all: every connection,
  // project and flag read of every task of the family is the one it makes alone, from any state and
  // whatever anyone registers.
  lemma ContextReadsAreIndependent(w: World, s: Schedule, family: set<TaskId>)
    requires Apart(s, family) && forall i | 0 <= i < |s| && s[i].0 !in family :: !s[i].1.Global?
    ensures var r, alone := RunAll(w, s), RunAll(w, Only(s, family));
      && r.global == alone.global
      && forall t | t in family :: Trace(Lookup(r.tasks, t), iset{}) == Trace(Lookup(alone.tasks, t), iset{})
  {
    hide RunAll, Trace;
    SilentOutsiders(w, s, family);
    ScheduleIndependence(w, s, family, iset{});
  }

  lemma {:induction false} AboutAll(log: seq<Seen>, names: iset<string>)
    requires forall n: string :: n in names
    ensures About(log, names) == log
  {
    if log != [] { AboutAll(log[..|log| - 1], names); }
  }

  // With no outsider registering anything where the family could look either, the tasks are the same
  // in full, tool reads included.
  lemma ToolReadsAreIndependent(w: World, s: Schedule, family: set<TaskId>, names: iset<string>, t: TaskId)
    requires (forall n: string :: n in names) && t in family
    requires Ready(w) && Apart(s, family) && OutsidersKeepOut(w, s, family, names)
    ensures Lookup(RunAll(w, s).tasks, t) == Lookup(RunAll(w, Only(s, family)).tasks, t)
  {
    hide RunAll, About;
    StartSided(w, family);
    ScheduleIndependence(w, s, family, names);
    var a, b := Lookup(RunAll(w, s).tasks, t), Lookup(RunAll(w, Only(s, family)).tasks, t);
    assert Trace(a, names) == Trace(b, names);
    if a.Some? { AboutAll(a.value.log, names); }
    if b.Some? { AboutAll(b.value.log, names); }
  }

  lemma StartSided(w: World, family: set<TaskId>)
    requires Ready(w)
    ensures Sided(w, family)
  {
  }

  // The rule is needed: where two tasks hold the same dictionary, one of them inherited, a tool that
  // one of them registers is what the other one reads, unless it would have read it anyway.
  lemma InheritedDictLeaks(w: World, t: TaskId, u: TaskId, d: DictId, name: string, tool: Tool)
    requires t in w.tasks && u in w.tasks && t != u && d in w.heap
    requires Dict(w.tasks[t].vars) == Dict(w.tasks[u].vars) == Some(d)
    ensures var s := [(t, RegisterTool(name, tool)), (u, ReadTool(name))]; var log := w.tasks[u].log;
      && u in RunAll(w, s).tasks && u in RunAll(w, Only(s, {u})).tasks
      && RunAll(w, s).tasks[u].log == log + [SawTool(name, Some(tool))]
      && RunAll(w, Only(s, {u})).tasks[u].log == log + [SawTool(name, FindTool(Some(w.heap[d]), w.registry, name))]
  {
    var first: (TaskId, Op) := (t, RegisterTool(name, tool));
    var second: (TaskId, Op) := (u, ReadTool(name));
    OnlyTheSecond(first, second);
    assert [first] + [second] == [first, second];
    RunAllAppend(w, [first], [second]);
    RunOfOne(w, first);
    RunOfOne(Step(w, first.0, first.1), second);
    RunOfOne(w, second);
  }

  lemma OnlyTheSecond(first: (TaskId, Op), second: (TaskId, Op))
    requires first.0 != second.0
    ensures Only([first, second], {second.0}) == [second]
  {
    assert [first, second][1..] == [second] && [second][1..] == [];
    assert Only([second], {second.0}) == [second] + Only([], {second.0});
  }
}
