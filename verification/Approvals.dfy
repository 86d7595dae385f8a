// The approval protocol between the SDK, the plane and the application, over every run of it.
// fastaiagent/governance.py, with the pause store of fastaiagent/checkpointers/sqlite.py, the claim in
// `Agent.aresume` and `Chain.resume`, and the event outbox of fastaiagent/trace/hitl_export.py.
module Approvals {
  import opened Options
  import opened Client
  import opened Governance

  type CallId = nat
  type RunId = string

  // ---- state ----

  // A gate call between its plane calls. `arrived` is the pending run the plane has opened for it.
  // Once the SDK has given up on a registration, the request may still reach the plane.
  datatype Flight =
    | Deciding(call: Call)
    | Registering(call: Call, decision: Decision, arrived: Option<nat>)
    | GivenUp

  // A row of `pending_interrupts`. `pendingKey` is the saved context's "pending_id" entry, if it has one.
  datatype Row = Row(call: Option<CallId>, reason: string, pendingKey: Option<Option<nat>>)

  datatype Kind = Approval | Interrupt
  datatype EventContext = NoContext | Names(id: Option<nat>)

  // A row of the resolution outbox: `seen` once the plane has processed it, `settled` once it is not
  // fetched for sending any more. A drain that fetched it before may still deliver it.
  datatype Event = Event(run: RunId, kind: Kind, context: EventContext, seen: bool, settled: bool)

  datatype World = World(
    issued: nat, open: set<nat>,                  // the plane: ids handed out, pending runs open
    flights: map<CallId, Flight>,
    rows: map<RunId, Row>,
    claimed: nat, passes: map<nat, Resume>,       // pauses claimed; the claims whose resume value is ambient
    outbox: seq<Event>,
    fate: map<CallId, Outcome>)

  const START := World(0, {}, map[], map[], 0, map[], [], map[])

  function HitlKind(reason: string): Kind {
    if reason == APPROVAL_REASON then Approval else Interrupt
  }

  function ResolutionContext(reason: string, pendingKey: Option<Option<nat>>): EventContext {
    if HitlKind(reason) != Approval || pendingKey.None? then NoContext else Names(pendingKey.value)
  }

  // ---- steps ----

  datatype RegReply = Failed | NoId | TheId

  // How a claimed run continues: the saved tool is re-entered directly, or the node is re-executed.
  // Either way the resume value is ambient until the pass ends, for every call made meanwhile.
  datatype Mode = Direct | Rerun

  datatype Label =
    // A gate call starts, on the connection it sees; `pass` is the claim it is part of, if any.
    | Begin(id: CallId, look: Lookups, conn: Conn, call: Call, pass: Option<nat>)
    | Answer(id: CallId, reply: DecideReply)
    | Arrive(id: CallId)
    // The registration returns or raises; `stored` is whether anything can save the pause.
    | Registered(id: CallId, result: RegReply, stored: bool)
    // `interrupt()` in user code.
    | UserPause(run: RunId, reason: string, pendingKey: Option<Option<nat>>)
    // The application resumes; the resolution is recorded if connected and the insert succeeds.
    | Claim(run: RunId, resume: Resume, mode: Mode, conn: Conn, saved: bool)
    | EndPass(claim: nat)
    | Deliver(i: nat, acked: bool)
    | Abandon(i: nat)

  function Ambient(w: World, pass: Option<nat>): Option<Resume> {
    if pass.Some? && pass.value in w.passes then Some(w.passes[pass.value]) else None
  }

  predicate Enabled(w: World, l: Label) {
    match l
    case Begin(id, _, _, _, _) => id !in w.fate && id !in w.flights
    case Answer(id, _) => id in w.flights && w.flights[id].Deciding?
    case Arrive(id) =>
      id in w.flights && (w.flights[id].GivenUp? || (w.flights[id].Registering? && w.flights[id].arrived.None?))
    case Registered(id, result, _) =>
      id in w.flights && w.flights[id].Registering? && (result.TheId? ==> w.flights[id].arrived.Some?)
    case UserPause(run, reason, _) => run !in w.rows && reason != APPROVAL_REASON
    case Claim(run, _, _, _, _) => run in w.rows
    case EndPass(claim) => claim in w.passes
    case Deliver(i, _) => i < |w.outbox|
    case Abandon(i) => i < |w.outbox| && !w.outbox[i].settled
  }

  function DoBegin(w: World, l: Label): World
    requires l.Begin?
  {
    match StartGate(l.look, l.conn, l.call, Ambient(w, l.pass))
    case Settled(o) => w.(fate := w.fate[l.id := o])
    case Ask => w.(flights := w.flights[l.id := Deciding(l.call)])
  }

  function DoAnswer(w: World, l: Label): World
    requires l.Answer? && Enabled(w, l)
  {
    match AfterDecide(l.reply)
    case Done(o) => w.(fate := w.fate[l.id := o], flights := w.flights - {l.id})
    case Register(d) => w.(flights := w.flights[l.id := Registering(w.flights[l.id].call, d, None)])
  }

  function DoArrive(w: World, l: Label): World
    requires l.Arrive? && Enabled(w, l)
  {
    var w1 := w.(issued := w.issued + 1, open := w.open + {w.issued});
    if w.flights[l.id].GivenUp? then w1.(flights := w.flights - {l.id})
    else w1.(flights := w.flights[l.id := w.flights[l.id].(arrived := Some(w.issued))])
  }

  // The pause is saved under its run, unless that run already has one saved.
  predicate Saves(w: World, l: Label)
    requires l.Registered? && Enabled(w, l)
  {
    l.stored && w.flights[l.id].call.runId !in w.rows
  }

  function DoRegistered(w: World, l: Label): World
    requires l.Registered? && Enabled(w, l)
  {
    var f := w.flights[l.id];
    var pendingId := if l.result.TheId? then f.arrived else None;
    w.(flights := if l.result.Failed? && f.arrived.None? then w.flights[l.id := GivenUp] else w.flights - {l.id},
       fate := w.fate[l.id := PauseFor(f.call, f.decision, pendingId)],
       rows := if Saves(w, l) then w.rows[f.call.runId := Row(Some(l.id), APPROVAL_REASON, Some(pendingId))]
               else w.rows)
  }

  predicate Reports(l: Label)
    requires l.Claim?
  {
    l.conn.Connected() && l.saved
  }

  function DoClaim(w: World, l: Label): World
    requires l.Claim? && Enabled(w, l)
  {
    var row := w.rows[l.run];
    var event := Event(l.run, HitlKind(row.reason), ResolutionContext(row.reason, row.pendingKey), false, false);
    w.(rows := w.rows - {l.run},
       outbox := if Reports(l) then w.outbox + [event] else w.outbox,
       claimed := w.claimed + 1, passes := w.passes[w.claimed := l.resume],
       fate := if l.mode.Direct? && row.call.Some? && HitlKind(row.reason) == Approval
               then w.fate[row.call.value := if l.resume.approved then Allowed else Refused(ApprovalDenied)]
               else w.fate)
  }

  // The plane's rule: a named pending run is closed, a null name closes none.
  function Closes(context: EventContext): set<nat> {
    if context.Names? && context.id.Some? then {context.id.value} else {}
  }

  function Delivered(e: Event, acked: bool): Event {
    e.(seen := true, settled := e.settled || acked)
  }

  function Step(w: World, l: Label): World {
    if !Enabled(w, l) then w
    else match l
      case Begin(_, _, _, _, _) => DoBegin(w, l)
      case Answer(_, _) => DoAnswer(w, l)
      case Arrive(_) => DoArrive(w, l)
      case Registered(_, _, _) => DoRegistered(w, l)
      case UserPause(run, reason, key) => w.(rows := w.rows[run := Row(None, reason, key)])
      case Claim(_, _, _, _, _) => DoClaim(w, l)
      case EndPass(claim) => w.(passes := w.passes - {claim})
      case Deliver(i, acked) =>
        w.(open := w.open - Closes(w.outbox[i].context), outbox := w.outbox[i := Delivered(w.outbox[i], acked)])
      case Abandon(i) => w.(outbox := w.outbox[i := w.outbox[i].(settled := true)])
  }

  function Run(ls: seq<Label>): World {
    if ls == [] then START else Step(Run(ls[..|ls| - 1]), ls[|ls| - 1])
  }

  // ---- where each pending run is accounted for ----

  function FlightId(f: Flight): Option<nat> {
    if f.Registering? then f.arrived else None
  }

  function RowId(r: Row): Option<nat> {
    if r.reason == APPROVAL_REASON && r.pendingKey.Some? then r.pendingKey.value else None
  }

  function EventId(e: Event): Option<nat> {
    if e.context.Names? then e.context.id else None
  }

  datatype Place = Flying(call: CallId) | Held(run: RunId) | Reported(event: nat) | Lost

  // The pending run whose place the SDK loses at this step: its registration raised or brought no
  // id, its pause could not be saved, or its resolution was not recorded.
  function Loses(w: World, l: Label): Option<nat> {
    if !Enabled(w, l) then None
    else match l
      case Arrive(id) => if w.flights[id].GivenUp? then Some(w.issued) else None
      case Registered(id, result, _) => if result.TheId? && Saves(w, l) then None else w.flights[id].arrived
      case Claim(run, _, _, _, _) => if Reports(l) then None else RowId(w.rows[run])
      case _ => None
  }

  // The pending run that changes place, and its new place.
  function Moves(w: World, l: Label): Option<(nat, Place)> {
    if Loses(w, l).Some? then Some((Loses(w, l).value, Lost))
    else if !Enabled(w, l) then None
    else match l
      case Arrive(id) => Some((w.issued, Flying(id)))
      case Registered(id, _, _) =>
        var f := w.flights[id];
        if f.arrived.Some? then Some((f.arrived.value, Held(f.call.runId))) else None
      case Claim(run, _, _, _, _) =>
        if RowId(w.rows[run]).Some? then Some((RowId(w.rows[run]).value, Reported(|w.outbox|))) else None
      case _ => None
  }

  ghost function Ledger(ls: seq<Label>): map<nat, Place> {
    if ls == [] then map[]
    else
      var before := ls[..|ls| - 1];
      var m := Moves(Run(before), ls[|ls| - 1]);
      if m.Some? then Ledger(before)[m.value.0 := m.value.1] else Ledger(before)
  }

  ghost predicate FlightsMatch(flights: map<CallId, Flight>, m: map<nat, Place>) {
    && (forall id | id in flights && FlightId(flights[id]).Some? ::
          FlightId(flights[id]).value in m && m[FlightId(flights[id]).value] == Flying(id))
    && (forall k | k in m && m[k].Flying? :: m[k].call in flights && FlightId(flights[m[k].call]) == Some(k))
  }

  ghost predicate RowsMatch(rows: map<RunId, Row>, m: map<nat, Place>) {
    && (forall r | r in rows && RowId(rows[r]).Some? ::
          RowId(rows[r]).value in m && m[RowId(rows[r]).value] == Held(r))
    && (forall k | k in m && m[k].Held? :: m[k].run in rows && RowId(rows[m[k].run]) == Some(k))
    && (forall r | r in rows && rows[r].reason == APPROVAL_REASON :: rows[r].pendingKey.Some?)
  }

  ghost predicate EventsMatch(outbox: seq<Event>, m: map<nat, Place>) {
    && (forall i | 0 <= i < |outbox| && EventId(outbox[i]).Some? ::
          EventId(outbox[i]).value in m
          && m[EventId(outbox[i]).value] == Reported(i))
    && (forall k | k in m && m[k].Reported? ::
          m[k].event < |outbox| && EventId(outbox[m[k].event]) == Some(k))
    && (forall i | 0 <= i < |outbox| :: outbox[i].context.Names? <==> outbox[i].kind == Approval)
  }

  // Open on the plane: everything handed out, less what a resolution the plane has seen names.
  ghost predicate OpenMatches(issued: nat, open: set<nat>, outbox: seq<Event>, m: map<nat, Place>) {
    && (forall k :: k in m <==> 0 <= k < issued)
    && (forall k | k in open :: k in m)
    && (forall k | k in m && !m[k].Reported? :: k in open)
    && (forall k | k in m && m[k].Reported? && m[k].event < |outbox| :: k in open <==> !outbox[m[k].event].seen)
  }

  ghost predicate Coherent(w: World, m: map<nat, Place>) {
    && FlightsMatch(w.flights, m) && RowsMatch(w.rows, m) && EventsMatch(w.outbox, m)
    && OpenMatches(w.issued, w.open, w.outbox, m)
  }

  ghost function Moved(w: World, l: Label, m: map<nat, Place>): map<nat, Place> {
    if Moves(w, l).Some? then m[Moves(w, l).value.0 := Moves(w, l).value.1] else m
  }

  // A pending run that changes place disturbs neither the places it was not in nor those it does not enter.

  lemma FlightsFrame(flights: map<CallId, Flight>, m: map<nat, Place>, k: nat, p: Place)
    requires FlightsMatch(flights, m) && (k in m ==> !m[k].Flying?) && !p.Flying?
    ensures FlightsMatch(flights, m[k := p])
  {
  }

  lemma RowsFrame(rows: map<RunId, Row>, m: map<nat, Place>, k: nat, p: Place)
    requires RowsMatch(rows, m) && (k in m ==> !m[k].Held?) && !p.Held?
    ensures RowsMatch(rows, m[k := p])
  {
  }

  lemma EventsFrame(outbox: seq<Event>, m: map<nat, Place>, k: nat, p: Place)
    requires EventsMatch(outbox, m) && (k in m ==> m[k].Flying? || m[k].Held?) && !p.Reported?
    ensures EventsMatch(outbox, m[k := p])
  {
  }

  lemma OpenFrame(issued: nat, open: set<nat>, outbox: seq<Event>, m: map<nat, Place>, k: nat, p: Place)
    requires OpenMatches(issued, open, outbox, m) && k in m && !m[k].Reported? && !p.Reported?
    ensures OpenMatches(issued, open, outbox, m[k := p])
  {
  }

  lemma FlightsSet(flights: map<CallId, Flight>, m: map<nat, Place>, id: CallId, f: Flight)
    requires FlightsMatch(flights, m) && (id in flights ==> FlightId(flights[id]).None?) && FlightId(f).None?
    ensures FlightsMatch(flights[id := f], m) && FlightsMatch(flights - {id}, m)
  {
  }

  lemma BeginKeeps(w: World, l: Label, m: map<nat, Place>)
    requires Coherent(w, m) && (l.Begin? || l.Answer?)
    ensures Coherent(Step(w, l), Moved(w, l, m))
  {
    hide FlightsMatch, RowsMatch, EventsMatch, OpenMatches, StartGate, AfterDecide;
    if Enabled(w, l) {
      if l.Begin? {
        FlightsSet(w.flights, m, l.id, Deciding(l.call));
      } else {
        FlightsSet(w.flights, m, l.id, GivenUp);
        if AfterDecide(l.reply).Register? {
          FlightsSet(w.flights, m, l.id, Registering(w.flights[l.id].call, AfterDecide(l.reply).decision, None));
        }
      }
    }
  }

  lemma FlightArrives(flights: map<CallId, Flight>, m: map<nat, Place>, id: CallId, k: nat)
    requires FlightsMatch(flights, m) && k !in m && id in flights && FlightId(flights[id]).None?
    ensures flights[id].Registering? ==>
      FlightsMatch(flights[id := flights[id].(arrived := Some(k))], m[k := Flying(id)])
    ensures FlightsMatch(flights - {id}, m[k := Lost])
  {
  }

  lemma OpenGrows(issued: nat, open: set<nat>, outbox: seq<Event>, m: map<nat, Place>, p: Place)
    requires OpenMatches(issued, open, outbox, m) && !p.Reported?
    ensures OpenMatches(issued + 1, open + {issued}, outbox, m[issued := p]) && issued !in m
  {
  }

  lemma ArriveKeeps(w: World, l: Label, m: map<nat, Place>)
    requires Coherent(w, m) && l.Arrive?
    ensures Coherent(Step(w, l), Moved(w, l, m))
  {
    hide FlightsMatch, RowsMatch, EventsMatch, OpenMatches;
    if Enabled(w, l) {
      var p := if w.flights[l.id].GivenUp? then Lost else Flying(l.id);
      OpenGrows(w.issued, w.open, w.outbox, m, p);
      FlightArrives(w.flights, m, l.id, w.issued);
      RowsFrame(w.rows, m, w.issued, p);
      EventsFrame(w.outbox, m, w.issued, p);
    }
  }

  // A flight that ends takes its pending run with it.
  lemma FlightLands(flights: map<CallId, Flight>, m: map<nat, Place>, id: CallId, k: nat, p: Place)
    requires FlightsMatch(flights, m) && id in flights && FlightId(flights[id]) == Some(k) && !p.Flying?
    ensures k in m && m[k] == Flying(id) && FlightsMatch(flights - {id}, m[k := p])
  {
  }

  lemma RowSaved(rows: map<RunId, Row>, m: map<nat, Place>, run: RunId, row: Row)
    requires RowsMatch(rows, m) && run !in rows
    requires row.reason == APPROVAL_REASON ==> row.pendingKey.Some?
    ensures RowId(row).None? ==> RowsMatch(rows[run := row], m)
    ensures forall k | RowId(row) == Some(k) && (k in m ==> !m[k].Held?) ::
      RowsMatch(rows[run := row], m[k := Held(run)])
  {
    forall k | RowId(row) == Some(k) && (k in m ==> !m[k].Held?)
      ensures RowsMatch(rows[run := row], m[k := Held(run)])
    {
      assert forall r | r in rows && RowId(rows[r]).Some? :: RowId(rows[r]).value != k;
    }
  }

  lemma RegisteredKeeps(w: World, l: Label, m: map<nat, Place>)
    requires Coherent(w, m) && l.Registered?
    ensures Coherent(Step(w, l), Moved(w, l, m))
  {
    hide FlightsMatch, RowsMatch, EventsMatch, OpenMatches, PauseFor;
    if Enabled(w, l) {
      var f := w.flights[l.id];
      var kept := l.result.TheId? && Saves(w, l);
      var row := Row(Some(l.id), APPROVAL_REASON, Some(if l.result.TheId? then f.arrived else None));
      if Saves(w, l) { RowSaved(w.rows, m, f.call.runId, row); }
      if f.arrived.Some? {
        var k, p := f.arrived.value, if kept then Held(f.call.runId) else Lost;
        FlightLands(w.flights, m, l.id, k, p);
        EventsFrame(w.outbox, m, k, p);
        OpenFrame(w.issued, w.open, w.outbox, m, k, p);
        if !kept {
          RowsFrame(w.rows, m, k, p);
          if Saves(w, l) { RowSaved(w.rows, m[k := p], f.call.runId, row); }
        }
      } else {
        FlightsSet(w.flights, m, l.id, GivenUp);
      }
    }
  }

  lemma UserPauseKeeps(w: World, l: Label, m: map<nat, Place>)
    requires Coherent(w, m) && (l.UserPause? || l.EndPass?)
    ensures Coherent(Step(w, l), Moved(w, l, m))
  {
    hide FlightsMatch, RowsMatch, EventsMatch, OpenMatches;
    if Enabled(w, l) && l.UserPause? {
      RowSaved(w.rows, m, l.run, Row(None, l.reason, l.pendingKey));
    }
  }

  lemma RowClaimed(rows: map<RunId, Row>, m: map<nat, Place>, run: RunId, p: Place)
    requires RowsMatch(rows, m) && run in rows && !p.Held?
    ensures match RowId(rows[run])
      case None => RowsMatch(rows - {run}, m)
      case Some(k) => k in m && m[k] == Held(run) && RowsMatch(rows - {run}, m[k := p])
  {
  }

  lemma RowHasKey(rows: map<RunId, Row>, m: map<nat, Place>, run: RunId)
    requires RowsMatch(rows, m) && run in rows && rows[run].reason == APPROVAL_REASON
    ensures rows[run].pendingKey.Some?
  {
  }

  lemma EventAdded(w: World, m: map<nat, Place>, e: Event)
    requires EventsMatch(w.outbox, m) && OpenMatches(w.issued, w.open, w.outbox, m)
    requires !e.settled && !e.seen && (e.context.Names? <==> e.kind == Approval)
    requires EventId(e).Some? ==> EventId(e).value in m && m[EventId(e).value].Held?
    ensures var m' := if EventId(e).None? then m else m[EventId(e).value := Reported(|w.outbox|)];
      EventsMatch(w.outbox + [e], m') && OpenMatches(w.issued, w.open, w.outbox + [e], m')
  {
  }

  lemma ClaimKeeps(w: World, l: Label, m: map<nat, Place>)
    requires Coherent(w, m) && l.Claim?
    ensures Coherent(Step(w, l), Moved(w, l, m))
  {
    hide FlightsMatch, RowsMatch, EventsMatch, OpenMatches;
    if Enabled(w, l) {
      var row := w.rows[l.run];
      var e := Event(l.run, HitlKind(row.reason), ResolutionContext(row.reason, row.pendingKey), false, false);
      assert EventId(e) == RowId(row);
      RowClaimed(w.rows, m, l.run, if Reports(l) then Reported(|w.outbox|) else Lost);
      if row.reason == APPROVAL_REASON { RowHasKey(w.rows, m, l.run); }
      EventAdded(w, m, e);
      if RowId(row).Some? {
        var k, p := RowId(row).value, if Reports(l) then Reported(|w.outbox|) else Lost;
        FlightsFrame(w.flights, m, k, p);
        if !Reports(l) {
          EventsFrame(w.outbox, m, k, p);
          OpenFrame(w.issued, w.open, w.outbox, m, k, p);
        }
      }
    }
  }

  lemma EventSeen(w: World, m: map<nat, Place>, i: nat, acked: bool)
    requires Coherent(w, m) && i < |w.outbox|
    ensures var outbox := w.outbox[i := Delivered(w.outbox[i], acked)];
      EventsMatch(outbox, m) && OpenMatches(w.issued, w.open - Closes(w.outbox[i].context), outbox, m)
  {
    hide FlightsMatch, RowsMatch;
  }

  lemma EventAbandoned(w: World, m: map<nat, Place>, i: nat)
    requires Coherent(w, m) && i < |w.outbox|
    ensures var outbox := w.outbox[i := w.outbox[i].(settled := true)];
      EventsMatch(outbox, m) && OpenMatches(w.issued, w.open, outbox, m)
  {
    hide FlightsMatch, RowsMatch;
  }

  lemma EventPlace(outbox: seq<Event>, m: map<nat, Place>, i: nat)
    requires EventsMatch(outbox, m) && i < |outbox| && EventId(outbox[i]).Some?
    ensures EventId(outbox[i]).value in m && m[EventId(outbox[i]).value] == Reported(i)
  {
  }

  lemma DeliverKeeps(w: World, l: Label, m: map<nat, Place>)
    requires Coherent(w, m) && (l.Deliver? || l.Abandon?)
    ensures Coherent(Step(w, l), Moved(w, l, m))
  {
    hide FlightsMatch, RowsMatch, EventsMatch, OpenMatches, Closes;
    if Enabled(w, l) {
      if l.Deliver? { EventSeen(w, m, l.i, l.acked); } else { EventAbandoned(w, m, l.i); }
    }
  }

  lemma EmptyCoherent()
    ensures Coherent(START, map[])
  {
  }

  lemma {:induction false} LedgerCoherent(ls: seq<Label>)
    ensures Coherent(Run(ls), Ledger(ls))
  {
    hide Coherent, Step, Moves;
    if ls == [] {
      EmptyCoherent();
    } else {
      var before, l := ls[..|ls| - 1], ls[|ls| - 1];
      LedgerCoherent(before);
      var w, m := Run(before), Ledger(before);
      match l
      case Begin(_, _, _, _, _) => BeginKeeps(w, l, m);
      case Answer(_, _) => BeginKeeps(w, l, m);
      case Arrive(_) => ArriveKeeps(w, l, m);
      case Registered(_, _, _) => RegisteredKeeps(w, l, m);
      case UserPause(_, _, _) => UserPauseKeeps(w, l, m);
      case EndPass(_) => UserPauseKeeps(w, l, m);
      case Claim(_, _, _, _, _) => ClaimKeeps(w, l, m);
      case Deliver(_, _) => DeliverKeeps(w, l, m);
      case Abandon(_) => DeliverKeeps(w, l, m);
    }
  }

  // ---- what every run keeps: pending runs ----

  ghost predicate Flies(w: World, k: nat) {
    exists id :: id in w.flights && FlightId(w.flights[id]) == Some(k)
  }

  ghost predicate Holds(w: World, run: RunId, k: nat) {
    run in w.rows && RowId(w.rows[run]) == Some(k)
  }

  ghost predicate NamedBy(w: World, i: nat, k: nat) {
    i < |w.outbox| && EventId(w.outbox[i]) == Some(k)
  }

  // Named by a resolution that the plane has not processed.
  ghost predicate Awaited(w: World, k: nat) {
    exists i: nat :: NamedBy(w, i, k) && !w.outbox[i].seen
  }

  ghost predicate LostIn(ls: seq<Label>, k: nat) {
    exists j: nat :: j < |ls| && Loses(Run(ls[..j]), ls[j]) == Some(k)
  }

  lemma MovesLeaveLostAlone(w: World, l: Label, m: map<nat, Place>)
    requires Coherent(w, m) && Moves(w, l).Some?
    ensures var k := Moves(w, l).value.0; k in m ==> m[k] != Lost
  {
    var k := Moves(w, l).value.0;
    match l
    case Arrive(_) => assert w.issued !in m;
    case Registered(_, _, _) => assert FlightId(w.flights[l.id]) == Some(k);
    case Claim(_, _, _, _, _) => assert RowId(w.rows[l.run]) == Some(k);
    case _ =>
  }

  lemma LostInLast(ls: seq<Label>, k: nat)
    requires ls != []
    ensures var n := |ls| - 1; LostIn(ls, k) <==> LostIn(ls[..n], k) || Loses(Run(ls[..n]), ls[n]) == Some(k)
  {
    hide Loses, Run;
    var n := |ls| - 1;
    var before := ls[..n];
    assert forall j: nat | j <= n :: before[..j] == ls[..j];
    if LostIn(before, k) {
      var j: nat :| j < n && Loses(Run(before[..j]), before[j]) == Some(k);
      assert Loses(Run(ls[..j]), ls[j]) == Some(k);
    }
    if LostIn(ls, k) {
      var j: nat :| j < |ls| && Loses(Run(ls[..j]), ls[j]) == Some(k);
      if j < n { assert Loses(Run(before[..j]), before[j]) == Some(k); }
    }
  }

  lemma {:induction false} LedgerLost(ls: seq<Label>, k: nat)
    ensures k in Ledger(ls) && Ledger(ls)[k] == Lost <==> LostIn(ls, k)
  {
    hide Loses, Coherent, Run, LostIn;
    if ls == [] {
      NothingLostYet(k);
    } else {
      var n := |ls| - 1;
      LedgerLost(ls[..n], k);
      LostInLast(ls, k);
      LedgerCoherent(ls[..n]);
      if Moves(Run(ls[..n]), ls[n]).Some? { MovesLeaveLostAlone(Run(ls[..n]), ls[n], Ledger(ls[..n])); }
    }
  }

  lemma NothingLostYet(k: nat)
    ensures !LostIn([], k)
  {
  }

  lemma PlacesOf(w: World, m: map<nat, Place>, k: nat)
    requires Coherent(w, m)
    ensures Flies(w, k) <==> k in m && m[k].Flying?
    ensures (exists run :: Holds(w, run, k)) <==> k in m && m[k].Held?
    ensures Awaited(w, k) <==> k in m && m[k].Reported? && m[k].event < |w.outbox| && !w.outbox[m[k].event].seen
    ensures forall run | Holds(w, run, k) :: m[k] == Held(run)
    ensures forall i: nat | NamedBy(w, i, k) :: m[k] == Reported(i)
  {
    if k in m && m[k].Flying? { assert FlightId(w.flights[m[k].call]) == Some(k); }
    if k in m && m[k].Held? { assert Holds(w, m[k].run, k); }
    if k in m && m[k].Reported? { assert NamedBy(w, m[k].event, k); }
  }

  // In every reachable state, a pending run is open on the plane exactly when a call in flight has it,
  // a saved pause holds it, a resolution not yet processed names it, or the SDK lost it at some step
  // of the run. What was handed out and is no longer open was named by a resolution the plane has seen.
  lemma OpenRunsAreAccountedFor(ls: seq<Label>, k: nat)
    ensures var w := Run(ls);
      && (k in w.open <==> Flies(w, k) || (exists run :: Holds(w, run, k)) || Awaited(w, k) || LostIn(ls, k))
      && (k < w.issued && k !in w.open <==> exists i: nat :: NamedBy(w, i, k) && w.outbox[i].seen)
  {
    LedgerCoherent(ls);
    LedgerLost(ls, k);
    PlacesOf(Run(ls), Ledger(ls), k);
    OpenByPlace(Run(ls), Ledger(ls), k);
  }

  lemma OpenByPlace(w: World, m: map<nat, Place>, k: nat)
    requires Coherent(w, m)
    ensures k in w.open <==> k in m && (m[k].Reported? ==> m[k].event < |w.outbox| && !w.outbox[m[k].event].seen)
    ensures k < w.issued && k !in w.open <==> exists i: nat :: NamedBy(w, i, k) && w.outbox[i].seen
  {
    hide FlightsMatch, RowsMatch;
    if k < w.issued && k !in w.open {
      assert k in m && m[k].Reported?;
      assert NamedBy(w, m[k].event, k);
    }
    if i: nat :| NamedBy(w, i, k) && w.outbox[i].seen {
      assert m[k] == Reported(i);
    }
  }

  // No pending run is in two hands: a saved pause that holds one is its only holder, and no resolution
  // names it, nor was it ever lost. So it is open for as long as it is held.
  lemma SavedPauseKeepsItsRun(ls: seq<Label>, run: RunId, k: nat)
    requires Holds(Run(ls), run, k)
    ensures var w := Run(ls);
      && k in w.open && !Flies(w, k) && !LostIn(ls, k)
      && (forall other | Holds(w, other, k) :: other == run)
      && (forall i: nat :: !NamedBy(w, i, k))
  {
    LedgerCoherent(ls);
    LedgerLost(ls, k);
    PlacesOf(Run(ls), Ledger(ls), k);
    OpenByPlace(Run(ls), Ledger(ls), k);
  }

  // Processing a resolution closes exactly the pending run it names, which nothing else has any claim
  // to, and one that names none closes none. Every resolution of a policy pause carries a name or a
  // null, so the plane never has to match one by position; no other resolution carries either.
  lemma ResolutionClosesItsOwn(ls: seq<Label>, i: nat, acked: bool)
    requires i < |Run(ls).outbox|
    ensures var w := Run(ls); var e := w.outbox[i]; var w' := Step(w, Deliver(i, acked));
      && (e.context.Names? <==> e.kind == Approval)
      && w'.open == (if EventId(e).None? then w.open else w.open - {EventId(e).value})
      && (EventId(e).Some? ==> (EventId(e).value in w.open <==> !e.seen) && OnlyNamedBy(ls, i, EventId(e).value))
  {
    hide Step;
    var w, m := Run(ls), Ledger(ls);
    LedgerCoherent(ls);
    DeliverOpens(w, i, acked);
    EventsAreExact(w.outbox, m, i);
    if EventId(w.outbox[i]).Some? {
      var k := EventId(w.outbox[i]).value;
      EventPlace(w.outbox, m, i);
      LedgerLost(ls, k);
      PlacesOf(w, m, k);
      OpenByPlace(w, m, k);
    }
  }

  ghost predicate OnlyNamedBy(ls: seq<Label>, i: nat, k: nat) {
    var w := Run(ls);
    && !Flies(w, k) && !LostIn(ls, k) && (forall run :: !Holds(w, run, k))
    && (forall j: nat | NamedBy(w, j, k) :: j == i)
  }

  lemma DeliverOpens(w: World, i: nat, acked: bool)
    requires i < |w.outbox|
    ensures Step(w, Deliver(i, acked)).open == w.open - Closes(w.outbox[i].context)
  {
  }

  lemma EventsAreExact(outbox: seq<Event>, m: map<nat, Place>, i: nat)
    requires EventsMatch(outbox, m) && i < |outbox|
    ensures outbox[i].context.Names? <==> outbox[i].kind == Approval
  {
  }

  // ---- what every run keeps: calls ----

  function Count(b: bool): nat { if b then 1 else 0 }

  predicate AnswersCall(w: World, l: Label, id: CallId) { l.Answer? && l.id == id && Enabled(w, l) }
  predicate OpensFor(w: World, l: Label, id: CallId) { l.Arrive? && l.id == id && Enabled(w, l) }
  predicate ClaimsCall(w: World, l: Label, id: CallId) { l.Claim? && Enabled(w, l) && w.rows[l.run].call == Some(id) }

  // How often the plane answered a call's decide, opened a pending run for it, and its pause was claimed.
  datatype Costs = Costs(decides: nat, opens: nat, claims: nat)
  {
    function After(w: World, l: Label, id: CallId): Costs {
      Costs(decides + Count(AnswersCall(w, l, id)), opens + Count(OpensFor(w, l, id)),
            claims + Count(ClaimsCall(w, l, id)))
    }
  }

  function CostsOf(ls: seq<Label>, id: CallId): Costs {
    if ls == [] then Costs(0, 0, 0)
    else CostsOf(ls[..|ls| - 1], id).After(Run(ls[..|ls| - 1]), ls[|ls| - 1], id)
  }

  ghost predicate Saved(w: World, id: CallId) {
    exists run :: run in w.rows && w.rows[run].call == Some(id)
  }

  ghost predicate SavedOnce(w: World) {
    forall r, s | r in w.rows && s in w.rows && w.rows[r].call.Some? && w.rows[r].call == w.rows[s].call :: r == s
  }

  // Where a call stands, and what it has cost so far.
  ghost predicate Standing(w: World, id: CallId, c: Costs) {
    && (Saved(w, id) ==> id in w.fate && w.fate[id].Paused? && c.claims == 0)
    && c.claims <= 1 && c.opens <= c.decides <= 1
    && (id in w.fate && w.fate[id].Paused? ==> c.decides == 1)
    && (id in w.flights && !w.flights[id].GivenUp? ==> id !in w.fate)
    && (id in w.flights && w.flights[id].Deciding? ==> c.decides == 0)
    && (id in w.flights && w.flights[id].Registering? ==>
          c.decides == 1 && c.opens == Count(w.flights[id].arrived.Some?))
    && (id in w.flights && w.flights[id].GivenUp? ==> id in w.fate && c.decides == 1 && c.opens == 0)
    && (id !in w.fate ==> c.claims == 0)
    && (id !in w.fate && id !in w.flights ==> c.decides == 0)
  }

  lemma StartNeverPauses(look: Lookups, c: Conn, call: Call, ambient: Option<Resume>)
    ensures StartGate(look, c, call, ambient).Settled? ==> !StartGate(look, c, call, ambient).outcome.Paused?
  {
    hide Governed, FailsClosed;
  }

  lemma SavedOnceKept(w: World, l: Label)
    requires SavedOnce(w) && (l.Registered? && Enabled(w, l) ==> !Saved(w, l.id))
    ensures SavedOnce(Step(w, l))
  {
    hide DoBegin, DoAnswer, DoArrive;
    if Enabled(w, l) { RowsAfter(w, l); }
  }

  lemma RowsAfter(w: World, l: Label)
    requires Enabled(w, l)
    ensures l.Begin? || l.Answer? || l.Arrive? || l.EndPass? || l.Deliver? || l.Abandon? ==> Step(w, l).rows == w.rows
  {
    hide StartGate, AfterDecide;
  }

  lemma FlightStandingKept(w: World, l: Label, id: CallId, c: Costs)
    requires Standing(w, id, c) && (l.Begin? || l.Answer? || l.Arrive?)
    ensures Standing(Step(w, l), id, c.After(w, l, id))
  {
    hide StartGate;
    if l.Begin? { StartNeverPauses(l.look, l.conn, l.call, Ambient(w, l.pass)); }
  }

  lemma RegisteredStandingKept(w: World, l: Label, id: CallId, c: Costs)
    requires Standing(w, id, c) && l.Registered? && (Enabled(w, l) ==> !Saved(w, l.id))
    ensures Standing(Step(w, l), id, c.After(w, l, id))
  {
  }

  lemma ClaimStandingKept(w: World, l: Label, id: CallId, c: Costs)
    requires Standing(w, id, c) && SavedOnce(w) && l.Claim?
    ensures Standing(Step(w, l), id, c.After(w, l, id))
  {
    if Enabled(w, l) { assert w.rows[l.run].call == Some(id) ==> Saved(w, id); }
  }

  lemma OtherStandingKept(w: World, l: Label, id: CallId, c: Costs)
    requires Standing(w, id, c) && (l.UserPause? || l.EndPass? || l.Deliver? || l.Abandon?)
    ensures Standing(Step(w, l), id, c.After(w, l, id))
  {
  }

  lemma {:induction false} EveryCallStands(ls: seq<Label>, id: CallId)
    ensures Standing(Run(ls), id, CostsOf(ls, id)) && SavedOnce(Run(ls))
    decreases |ls|
  {
    hide Step;
    if ls != [] {
      var n := |ls| - 1;
      EveryCallStands(ls[..n], id);
      if ls[n].Registered? { EveryCallStands(ls[..n], ls[n].id); }
      var w, l, c := Run(ls[..n]), ls[n], CostsOf(ls[..n], id);
      SavedOnceKept(w, l);
      if l.Begin? || l.Answer? || l.Arrive? { FlightStandingKept(w, l, id, c); }
      else if l.Registered? { RegisteredStandingKept(w, l, id, c); }
      else if l.Claim? { ClaimStandingKept(w, l, id, c); }
      else { OtherStandingKept(w, l, id, c); }
    }
  }

  // Over a call's whole life, pauses, lost replies and resumes included: the plane answers at most one
  // decide and opens at most one pending run for it, the latter only after the former, and however
  // many resumers race, at most one of them claims its pause. A paused call cost exactly one decide.
  lemma EachCallCostsAtMostOnce(ls: seq<Label>, id: CallId)
    ensures var c := CostsOf(ls, id);
      c.opens <= c.decides <= 1 && c.claims <= 1
      && (id in Run(ls).fate && Run(ls).fate[id].Paused? ==> c.decides == 1)
  {
    EveryCallStands(ls, id);
  }

  lemma {:induction false} CostsGrow(ls: seq<Label>, n: nat, id: CallId)
    requires n <= |ls|
    ensures var (few, all) := (CostsOf(ls[..n], id), CostsOf(ls, id));
      few.decides <= all.decides && few.opens <= all.opens && few.claims <= all.claims
    decreases |ls|
  {
    hide AnswersCall, OpensFor, ClaimsCall;
    if n < |ls| {
      assert ls[..|ls| - 1][..n] == ls[..n];
      CostsGrow(ls[..|ls| - 1], n, id);
    } else {
      assert ls[..n] == ls;
    }
  }

  // Step by step: no two steps of a run answer the same call's decide, open a pending run for it, or
  // claim its pause.
  lemma NothingTwice(ls: seq<Label>, i: nat, j: nat, id: CallId)
    requires i < j < |ls|
    ensures !(AnswersCall(Run(ls[..i]), ls[i], id) && AnswersCall(Run(ls[..j]), ls[j], id))
    ensures !(OpensFor(Run(ls[..i]), ls[i], id) && OpensFor(Run(ls[..j]), ls[j], id))
    ensures !(ClaimsCall(Run(ls[..i]), ls[i], id) && ClaimsCall(Run(ls[..j]), ls[j], id))
  {
    hide AnswersCall, OpensFor, ClaimsCall, Run;
    var (first, second) := (ls[..i + 1], ls[..j + 1]);
    assert first[..i] == ls[..i] && second[..j] == ls[..j] && ls[..j][..i + 1] == first;
    CostsGrow(ls[..j], i + 1, id);
    EachCallCostsAtMostOnce(second, id);
  }

  // A call that has its outcome, with no registration on its way, costs the plane nothing more.
  lemma SettledStays(w: World, l: Label, id: CallId)
    requires id in w.fate && id !in w.flights
    ensures id in Step(w, l).fate && id !in Step(w, l).flights && !AnswersCall(w, l, id) && !OpensFor(w, l, id)
  {
    hide StartGate, AfterDecide, PauseFor;
  }

  lemma {:induction false} SettledCostsNoMore(ls: seq<Label>, n: nat, id: CallId)
    requires n <= |ls| && id in Run(ls[..n]).fate && id !in Run(ls[..n]).flights
    ensures id in Run(ls).fate && id !in Run(ls).flights
    ensures CostsOf(ls, id).decides == CostsOf(ls[..n], id).decides
    ensures CostsOf(ls, id).opens == CostsOf(ls[..n], id).opens
    decreases |ls|
  {
    hide Step, AnswersCall, OpensFor, ClaimsCall;
    if n < |ls| {
      var before := ls[..|ls| - 1];
      assert before[..n] == ls[..n];
      SettledCostsNoMore(before, n, id);
      SettledStays(Run(before), ls[|ls| - 1], id);
    } else {
      assert ls[..n] == ls;
    }
  }

  // A call that reaches its gate under an ambient resume value never costs the plane a decide or a
  // pending run, then or later.
  lemma ResumedCallCostsNothing(ls: seq<Label>, j: nat)
    requires j < |ls| && ls[j].Begin? && Enabled(Run(ls[..j]), ls[j]) && Ambient(Run(ls[..j]), ls[j].pass).Some?
    ensures CostsOf(ls, ls[j].id).decides == CostsOf(ls, ls[j].id).opens == 0
  {
    hide Step, AnswersCall, OpensFor, ClaimsCall, Ambient;
    var upTo := ls[..j + 1];
    assert upTo[..j] == ls[..j] && upTo[j] == ls[j];
    BegunResumed(Run(ls[..j]), ls[j]);
    hide Enabled;
    UnseenCostsNothing(ls[..j], ls[j].id);
    SettledCostsNoMore(ls, j + 1, ls[j].id);
  }

  lemma UnseenCostsNothing(ls: seq<Label>, id: CallId)
    requires id !in Run(ls).fate && id !in Run(ls).flights
    ensures CostsOf(ls, id).decides == CostsOf(ls, id).opens == 0
  {
    hide Run, CostsOf;
    EveryCallStands(ls, id);
  }

  lemma BegunResumed(w: World, l: Label)
    requires l.Begin? && Enabled(w, l) && Ambient(w, l.pass).Some?
    ensures l.id !in w.fate && l.id !in w.flights && l.id in Step(w, l).fate && l.id !in Step(w, l).flights
    ensures !AnswersCall(w, l, l.id) && !OpensFor(w, l, l.id)
  {
    hide Governed, FailsClosed;
  }

  // ---- the steps of one call against the whole gate ----

  function Reply(reg: Registration): RegReply {
    match reg case IdGiven => TheId case NoIdGiven(_) => NoId case _ => Failed
  }

  // A call's steps with nothing in between, the plane answering as in `ans`.
  function OneCall(w: World, begin: Label, ans: Answers, stored: bool): World
    requires begin.Begin?
  {
    AfterAnswer(Step(Step(w, begin), Answer(begin.id, ans.reply)), begin.id, ans.reg, stored)
  }

  function AfterAnswer(w: World, id: CallId, reg: Registration, stored: bool): World {
    Step(if reg.Opens() then Step(w, Arrive(id)) else w, Registered(id, Reply(reg), stored))
  }

  // The call has the gate's outcome, a pause is saved if it can be, and the plane has the pending run
  // the gate creates; nothing else changed.
  ghost predicate EndsAs(w: World, w': World, id: CallId, run: RunId, g: GateResult, stored: bool) {
    && w'.fate == w.fate[id := g.outcome]
    && w'.open == w.open + g.created && w'.issued == w.issued + |g.created|
    && w'.rows == (if g.outcome.Paused? && stored && run !in w.rows
                   then w.rows[run := Row(Some(id), APPROVAL_REASON, Some(g.outcome.pause.pendingId))]
                   else w.rows)
    && w'.outbox == w.outbox && w'.passes == w.passes
    && (id in w'.flights ==> w'.flights[id].GivenUp?) && w'.flights - {id} == w.flights
  }

  // Taken with nothing in between, the steps of a call do what the whole gate does.
  lemma OneCallIsTheGate(w: World, begin: Label, ans: Answers, stored: bool)
    requires begin.Begin? && Enabled(w, begin) && ans.nextId == w.issued
    ensures EndsAs(w, OneCall(w, begin, ans, stored), begin.id, begin.call.runId,
                   Gate(begin.look, begin.conn, begin.call, Ambient(w, begin.pass), ans), stored)
  {
    var id := begin.id;
    BeginStep(w, begin);
    hide StartGate, AfterDecide, EndsAs, Ambient, Step, AfterAnswer;
    match StartGate(begin.look, begin.conn, begin.call, Ambient(w, begin.pass))
    case Settled(o) =>
      var w1 := w.(fate := w.fate[id := o]);
      NotInFlight(w1, id, ans, stored);
      QuietEnd(w, id, begin.call.runId, o, 0, stored);
    case Ask =>
      var w1 := w.(flights := w.flights[id := Deciding(begin.call)]);
      AnswerStep(w1, id, ans.reply);
      assert w1.flights - {id} == w.flights;
      match AfterDecide(ans.reply)
      case Done(o) =>
        NotInFlight(w.(fate := w.fate[id := o]), id, ans, stored);
        QuietEnd(w, id, begin.call.runId, o, 1, stored);
      case Register(d) =>
        var w2 := w.(flights := w.flights[id := Registering(begin.call, d, None)]);
        assert w1.flights[id := Registering(begin.call, d, None)] == w2.flights;
        RegistrationEnds(w, w2, id, begin.call, d, ans, stored);
  }

  lemma BeginStep(w: World, l: Label)
    requires l.Begin? && Enabled(w, l)
    ensures match StartGate(l.look, l.conn, l.call, Ambient(w, l.pass))
      case Settled(o) => Step(w, l) == w.(fate := w.fate[l.id := o]) && !o.Paused?
      case Ask => Step(w, l) == w.(flights := w.flights[l.id := Deciding(l.call)])
  {
    StartNeverPauses(l.look, l.conn, l.call, Ambient(w, l.pass));
    hide StartGate;
  }

  lemma AnswerStep(w: World, id: CallId, reply: DecideReply)
    requires id in w.flights && w.flights[id].Deciding?
    ensures match AfterDecide(reply)
      case Done(o) =>
        Step(w, Answer(id, reply)) == w.(fate := w.fate[id := o], flights := w.flights - {id}) && !o.Paused?
      case Register(d) =>
        Step(w, Answer(id, reply)) == w.(flights := w.flights[id := Registering(w.flights[id].call, d, None)])
  {
    hide ReasonText;
  }

  lemma NotInFlight(w: World, id: CallId, ans: Answers, stored: bool)
    requires id !in w.flights
    ensures AfterAnswer(w, id, ans.reg, stored) == w && Step(w, Answer(id, ans.reply)) == w
  {
  }

  lemma QuietEnd(w: World, id: CallId, run: RunId, o: Outcome, decides: nat, stored: bool)
    requires !o.Paused? && id !in w.flights
    ensures EndsAs(w, w.(fate := w.fate[id := o]), id, run, GateResult(o, decides, 0, {}), stored)
  {
  }

  lemma RegistrationEnds(w: World, w2: World, id: CallId, call: Call, d: Decision, ans: Answers, stored: bool)
    requires id !in w.flights && ans.nextId == w.issued
    requires w2 == w.(flights := w.flights[id := Registering(call, d, None)])
    ensures EndsAs(w, AfterAnswer(w2, id, ans.reg, stored), id, call.runId,
                   GateResult(PauseFor(call, d, if ans.reg.IdGiven? then Some(ans.nextId) else None), 1, 1,
                              if ans.reg.Opens() then {ans.nextId} else {}), stored)
  {
    var arrived := if ans.reg.Opens() then Some(w.issued) else None;
    var w3 := if ans.reg.Opens() then Step(w2, Arrive(id)) else w2;
    ArriveStep(w2, id, call, d);
    assert w3.flights == w.flights[id := Registering(call, d, arrived)];
    assert w3.flights - {id} == w.flights;
    hide Step;
    RegisteredStep(w3, id, call, d, arrived, Reply(ans.reg), stored);
    hide PauseFor;
  }

  lemma ArriveStep(w: World, id: CallId, call: Call, d: Decision)
    requires id in w.flights && w.flights[id] == Registering(call, d, None)
    ensures Step(w, Arrive(id)) == w.(issued := w.issued + 1, open := w.open + {w.issued},
                                      flights := w.flights[id := Registering(call, d, Some(w.issued))])
  {
  }

  lemma RegisteredStep(w: World, id: CallId, call: Call, d: Decision, arrived: Option<nat>, reply: RegReply,
                       stored: bool)
    requires id in w.flights && w.flights[id] == Registering(call, d, arrived) && (reply.TheId? ==> arrived.Some?)
    ensures var pendingId := if reply.TheId? then arrived else None; var w' := Step(w, Registered(id, reply, stored));
      && w' == w.(fate := w.fate[id := PauseFor(call, d, pendingId)], flights := w'.flights,
                  rows := if stored && call.runId !in w.rows
                          then w.rows[call.runId := Row(Some(id), APPROVAL_REASON, Some(pendingId))] else w.rows)
      && (id in w'.flights ==> w'.flights[id].GivenUp?) && w'.flights - {id} == w.flights - {id}
  {
    hide PauseFor;
  }

  // ---- what a pass is told ----

  // The claim at step `i` was the one numbered `c`, resumed with `r`, and its pass has not ended.
  ghost predicate Live(ls: seq<Label>, i: nat, c: nat, r: Resume) {
    && i < |ls| && ls[i].Claim? && Enabled(Run(ls[..i]), ls[i]) && Run(ls[..i]).claimed == c && ls[i].resume == r
    && forall j | i < j < |ls| :: ls[j] != EndPass(c)
  }

  lemma PassesAfter(w: World, l: Label)
    ensures Step(w, l).claimed == w.claimed + if l.Claim? && Enabled(w, l) then 1 else 0
    ensures Step(w, l).passes == if l.Claim? && Enabled(w, l) then w.passes[w.claimed := l.resume]
                                 else if l.EndPass? then w.passes - {l.claim} else w.passes
  {
    hide StartGate, AfterDecide, PauseFor;
  }

  lemma {:induction false} PassesAreClaimed(ls: seq<Label>, n: nat)
    requires n <= |ls|
    ensures forall c | c in Run(ls).passes :: c < Run(ls).claimed
    ensures Run(ls[..n]).claimed <= Run(ls).claimed
    decreases |ls|
  {
    hide Step;
    if n < |ls| {
      var before := ls[..|ls| - 1];
      assert before[..n] == ls[..n];
      PassesAreClaimed(before, n);
      PassesAfter(Run(before), ls[|ls| - 1]);
    } else {
      assert ls[..n] == ls;
      if ls != [] {
        PassesAreClaimed(ls[..|ls| - 1], 0);
        PassesAfter(Run(ls[..|ls| - 1]), ls[|ls| - 1]);
      }
    }
  }

  lemma LiveBefore(ls: seq<Label>, i: nat, c: nat, r: Resume)
    requires ls != [] && i < |ls| - 1
    ensures Live(ls, i, c, r) <==> Live(ls[..|ls| - 1], i, c, r) && ls[|ls| - 1] != EndPass(c)
  {
    hide Run, Enabled;
    var before := ls[..|ls| - 1];
    assert before[..i] == ls[..i];
    if Live(before, i, c, r) && ls[|ls| - 1] != EndPass(c) {
      forall j | i < j < |ls| ensures ls[j] != EndPass(c) { if j < |ls| - 1 { assert before[j] == ls[j]; } }
    }
  }

  lemma LiveBelow(ls: seq<Label>, i: nat, c: nat, r: Resume)
    requires Live(ls, i, c, r)
    ensures c < Run(ls).claimed
  {
    hide Step;
    assert ls[..i + 1][..i] == ls[..i];
    PassesAfter(Run(ls[..i]), ls[i]);
    PassesAreClaimed(ls, i + 1);
  }

  // A resume value is ambient exactly in the pass of the claim it came with, until that pass ends: each
  // claim has a pass of its own, and sees no other's value.
  lemma {:induction false} AmbientIsTheClaims(ls: seq<Label>, c: nat, r: Resume)
    ensures Ambient(Run(ls), Some(c)) == Some(r) <==> exists i: nat :: Live(ls, i, c, r)
  {
    hide Step;
    if ls != [] {
      var n := |ls| - 1;
      var before, last := ls[..n], ls[n];
      AmbientIsTheClaims(before, c, r);
      PassesAfter(Run(before), last);
      if i: nat :| Live(ls, i, c, r) && i < n { LiveBefore(ls, i, c, r); LiveBelow(before, i, c, r); }
      if i: nat :| Live(before, i, c, r) { LiveBefore(ls, i, c, r); LiveBelow(before, i, c, r); }
      var claims := last.Claim? && Enabled(Run(before), last) && Run(before).claimed == c;
      assert Live(ls, n, c, r) <==> claims && last.resume == r;
    }
  }

  // ---- what a pause is for ----

  ghost predicate BegunBy(ls: seq<Label>, id: CallId, call: Call) {
    exists i: nat :: i < |ls| && ls[i].Begin? && ls[i].id == id && ls[i].call == call && Enabled(Run(ls[..i]), ls[i])
  }

  ghost predicate AnsweredBy(ls: seq<Label>, id: CallId, d: Decision) {
    exists i: nat :: i < |ls| && ls[i] == Answer(id, Some(d)) && Enabled(Run(ls[..i]), ls[i])
  }

  // The pause is about the call as it met its gate, and for the request of the decision it got.
  ghost predicate PausedFor(ls: seq<Label>, id: CallId, p: Pause) {
    exists call, d ::
      BegunBy(ls, id, call) && AnsweredBy(ls, id, d) && d.verdict == Some("require_approval") && Carries(p, call, d)
  }

  ghost predicate Told(ls: seq<Label>, w: World, id: CallId) {
    && (id in w.flights && w.flights[id].Deciding? ==> BegunBy(ls, id, w.flights[id].call))
    && (id in w.flights && w.flights[id].Registering? ==>
          && BegunBy(ls, id, w.flights[id].call) && AnsweredBy(ls, id, w.flights[id].decision)
          && w.flights[id].decision.verdict == Some("require_approval"))
    && (id in w.fate && w.fate[id].Paused? ==> PausedFor(ls, id, w.fate[id].pause))
  }

  lemma ToldLater(ls: seq<Label>, w: World, id: CallId)
    requires ls != [] && Told(ls[..|ls| - 1], w, id)
    ensures Told(ls, w, id)
  {
    hide Run, Enabled, Carries;
    var before := ls[..|ls| - 1];
    assert forall i: nat | i < |before| :: before[..i] == ls[..i] && before[i] == ls[i];
    forall call | BegunBy(before, id, call) ensures BegunBy(ls, id, call) {
      var i: nat :| i < |before| && before[i].Begin? && before[i].id == id && before[i].call == call
                    && Enabled(Run(before[..i]), before[i]);
      assert ls[i] == before[i];
    }
    forall d | AnsweredBy(before, id, d) ensures AnsweredBy(ls, id, d) {
      var i: nat :| i < |before| && before[i] == Answer(id, Some(d)) && Enabled(Run(before[..i]), before[i]);
      assert ls[i] == before[i];
    }
    hide BegunBy, AnsweredBy;
  }

  // What a step does to one call's flight and pause.
  lemma CallAfter(w: World, l: Label, id: CallId)
    ensures var w' := Step(w, l); var mine := Enabled(w, l) && (l.Begin? || l.Answer? || l.Registered?) && l.id == id;
      && (id in w'.flights && w'.flights[id].Deciding? ==>
            if mine && l.Begin? then w'.flights[id].call == l.call
            else id in w.flights && w.flights[id] == w'.flights[id])
      && (id in w'.flights && w'.flights[id].Registering? ==>
            if mine && l.Answer?
            then l.reply == Some(w'.flights[id].decision) && l.reply.value.verdict == Some("require_approval")
                 && w.flights[id].call == w'.flights[id].call
            else id in w.flights && w.flights[id].Registering? && w.flights[id].call == w'.flights[id].call
                 && w.flights[id].decision == w'.flights[id].decision)
      && (id in w'.fate && w'.fate[id].Paused? ==>
            if mine && l.Registered? then Carries(w'.fate[id].pause, w.flights[id].call, w.flights[id].decision)
            else id in w.fate && w.fate[id] == w'.fate[id])
  {
    if l.Begin? { StartNeverPauses(l.look, l.conn, l.call, Ambient(w, l.pass)); }
    hide StartGate, ReasonText;
  }

  lemma {:induction false} CallsAreTold(ls: seq<Label>, id: CallId)
    ensures Told(ls, Run(ls), id)
  {
    hide Step, Enabled;
    if ls != [] {
      var n := |ls| - 1;
      var w, l := Run(ls[..n]), ls[n];
      CallsAreTold(ls[..n], id);
      ToldLater(ls, w, id);
      CallAfter(w, l, id);
      if l.Begin? && l.id == id && Enabled(w, l) { assert BegunBy(ls, id, l.call); }
      if l.Answer? && l.id == id && l.reply.Some? && Enabled(w, l) {
        assert AnsweredBy(ls, id, l.reply.value);
        AnswerInFlight(w, l);
      }
      if l.Registered? && l.id == id && Enabled(w, l) { RegisteredInFlight(w, l); }
      hide BegunBy, AnsweredBy, Carries;
    }
  }

  lemma AnswerInFlight(w: World, l: Label)
    requires l.Answer? && Enabled(w, l)
    ensures l.id in w.flights && w.flights[l.id].Deciding?
  {
  }

  lemma RegisteredInFlight(w: World, l: Label)
    requires l.Registered? && Enabled(w, l)
    ensures l.id in w.flights && w.flights[l.id].Registering?
  {
  }

  // In every reachable state, a paused call's pause is about that call as it met its gate, its tool,
  // its input and its run, and for the request of the require_approval its decide was answered with.
  lemma PausesAreAboutTheirCall(ls: seq<Label>, id: CallId)
    requires id in Run(ls).fate && Run(ls).fate[id].Paused?
    ensures PausedFor(ls, id, Run(ls).fate[id].pause)
  {
    CallsAreTold(ls, id);
  }

  // A saved policy pause is that of its call, under the call's run and with the id the pause holds; a
  // saved pause of no call is of user code.
  ghost predicate RowTold(w: World, run: RunId)
    requires run in w.rows
  {
    match w.rows[run].call
    case None => w.rows[run].reason != "policy_approval_required"
    case Some(id) =>
      && w.rows[run].reason == "policy_approval_required" && id in w.fate && w.fate[id].Paused?
      && w.fate[id].pause.runId == run && w.rows[run].pendingKey == Some(w.fate[id].pause.pendingId)
  }

  lemma RowStaysTold(w: World, l: Label, run: RunId, c: Costs)
    requires (forall r | r in w.rows :: RowTold(w, r)) && SavedOnce(w) && run in Step(w, l).rows
    requires l.Begin? || l.Answer? || l.Registered? ==> Standing(w, l.id, c)
    ensures RowTold(Step(w, l), run)
  {
    assert run in w.rows ==> RowTold(w, run);
    hide StartGate, AfterDecide, Standing;
    if (l.Begin? || l.Answer? || l.Registered?) && Enabled(w, l) && run in w.rows { NoFateInFlight(w, l, c); }
    if l.Claim? && Enabled(w, l) && run in w.rows && w.rows[l.run].call.Some? {
      assert run != l.run && w.rows[run].call != w.rows[l.run].call;
    }
  }

  lemma NoFateInFlight(w: World, l: Label, c: Costs)
    requires (l.Begin? || l.Answer? || l.Registered?) && Enabled(w, l) && Standing(w, l.id, c)
    ensures l.id !in w.fate
  {
  }

  lemma {:induction false} RowsAreTold(ls: seq<Label>)
    ensures forall run | run in Run(ls).rows :: RowTold(Run(ls), run)
  {
    hide Step, RowTold, Standing, SavedOnce;
    if ls != [] {
      var n := |ls| - 1;
      var w, l := Run(ls[..n]), ls[n];
      RowsAreTold(ls[..n]);
      var id := if l.Begin? || l.Answer? || l.Registered? then l.id else 0;
      EveryCallStands(ls[..n], id);
      forall run | run in Run(ls).rows ensures RowTold(Run(ls), run) { RowStaysTold(w, l, run, CostsOf(ls[..n], id)); }
    }
  }

  // A claim on a connection with a key records one resolution, if the insert succeeds: for a policy
  // pause an approval that names the pending run the pause holds, or that there is none; for any other
  // pause an interrupt that names nothing. A claim without a key records none.
  lemma ClaimReportsItsPause(ls: seq<Label>, l: Label)
    requires l.Claim? && Enabled(Run(ls), l)
    ensures var w, w' := Run(ls), Step(Run(ls), l); var row := w.rows[l.run];
      if l.conn.apiKey.Some? && l.saved then
        && |w'.outbox| == |w.outbox| + 1 && w'.outbox[..|w.outbox|] == w.outbox
        && var e := w'.outbox[|w.outbox|];
        && e.run == l.run && !e.seen && !e.settled
        && match row.call
           case Some(id) => id in w.fate && w.fate[id].Paused? && e.kind == Approval
                            && e.context == Names(w.fate[id].pause.pendingId)
           case None => e.kind == Interrupt && e.context == NoContext
      else w'.outbox == w.outbox
  {
    RowsAreTold(ls);
    assert RowTold(Run(ls), l.run);
    hide Run;
  }

  // ---- safety: what may run ----

  // A step that lets call `id` run: it was ungoverned or had an approved resume ambient when it reached
  // the gate, the plane answered its decide with neither deny nor require_approval, or the
  // application approved its saved pause.
  ghost predicate Authorises(w: World, l: Label, id: CallId) {
    Enabled(w, l) && match l
      case Begin(i, look, conn, call, pass) =>
        i == id && !FailsClosed(conn, call.agentId)
        && (Governed(look, conn, call) ==> Ambient(w, pass) == Some(Resume(true)))
      case Answer(i, reply) =>
        i == id && reply.Some? && reply.value.verdict !in {Some("deny"), Some("require_approval")}
      case Claim(run, resume, mode, _, _) =>
        mode.Direct? && resume.approved && w.rows[run].call == Some(id) && HitlKind(w.rows[run].reason) == Approval
      case _ => false
  }

  ghost predicate Refuses(w: World, l: Label, id: CallId) {
    Enabled(w, l) && l.Claim? && l.mode.Direct? && !l.resume.approved
    && w.rows[l.run].call == Some(id) && HitlKind(w.rows[l.run].reason) == Approval
  }

  ghost predicate Ran(w: World, id: CallId) {
    id in w.fate && w.fate[id] == Allowed
  }

  lemma RanAfter(w: World, l: Label, id: CallId, c: Costs)
    requires Standing(w, id, c)
    ensures Ran(Step(w, l), id) <==> Ran(w, id) || Authorises(w, l, id)
    ensures id in w.fate && w.fate[id].Refused? ==> id in Step(w, l).fate && Step(w, l).fate[id] == w.fate[id]
    ensures Refuses(w, l, id) ==> id in Step(w, l).fate && Step(w, l).fate[id] == Refused(ApprovalDenied)
  {
    hide Governed, FailsClosed, ReasonText;
    if l.Claim? && Enabled(w, l) && w.rows[l.run].call == Some(id) { assert Saved(w, id); }
  }

  ghost predicate AuthorisedIn(ls: seq<Label>, id: CallId) {
    exists j: nat :: j < |ls| && Authorises(Run(ls[..j]), ls[j], id)
  }

  lemma AuthorisedInLast(ls: seq<Label>, id: CallId)
    requires ls != []
    ensures var n := |ls| - 1;
      AuthorisedIn(ls, id) <==> AuthorisedIn(ls[..n], id) || Authorises(Run(ls[..n]), ls[n], id)
  {
    hide Authorises, Run;
    var n := |ls| - 1;
    var before := ls[..n];
    assert forall j: nat | j <= n :: before[..j] == ls[..j];
    if AuthorisedIn(before, id) {
      var j: nat :| j < n && Authorises(Run(before[..j]), before[j], id);
      assert Authorises(Run(ls[..j]), ls[j], id);
    }
    if AuthorisedIn(ls, id) {
      var j: nat :| j < |ls| && Authorises(Run(ls[..j]), ls[j], id);
      if j < n { assert Authorises(Run(before[..j]), before[j], id); }
    }
  }

  lemma {:induction false} RanIffAuthorised(ls: seq<Label>, id: CallId)
    ensures Ran(Run(ls), id) <==> AuthorisedIn(ls, id)
  {
    hide Authorises, Standing, Step;
    if ls != [] {
      var n := |ls| - 1;
      RanIffAuthorised(ls[..n], id);
      EveryCallStands(ls[..n], id);
      RanAfter(Run(ls[..n]), ls[n], id, CostsOf(ls[..n], id));
      AuthorisedInLast(ls, id);
    }
  }

  // Step `j` lets call `id` run, by what the run has been: where the call met its gate the fail-closed
  // mode had its policy, and the call was not governed or an approval had been claimed whose pass was
  // still going; or the plane answered its decide with neither deny nor require_approval; or its saved
  // policy pause was claimed directly with an approval.
  ghost predicate Justifies(ls: seq<Label>, j: nat, id: CallId) {
    j < |ls| && Enabled(Run(ls[..j]), ls[j]) && match ls[j]
      case Begin(i, look, conn, call, pass) =>
        i == id && !FailsClosed(conn, call.agentId)
        && (Governed(look, conn, call) ==> pass.Some? && exists k: nat :: Live(ls[..j], k, pass.value, Resume(true)))
      case Answer(i, reply) =>
        i == id && reply.Some? && reply.value.verdict !in {Some("deny"), Some("require_approval")}
      case Claim(run, resume, mode, _, _) =>
        mode.Direct? && resume.approved && Run(ls[..j]).rows[run].call == Some(id)
      case _ => false
  }

  lemma JustifiesIs(ls: seq<Label>, j: nat, id: CallId)
    requires j < |ls|
    ensures Justifies(ls, j, id) <==> Authorises(Run(ls[..j]), ls[j], id)
  {
    hide Governed, FailsClosed, Live, Run;
    match ls[j]
    case Begin(_, _, _, _, pass) => if pass.Some? { AmbientIsTheClaims(ls[..j], pass.value, Resume(true)); }
    case Claim(_, _, _, _, _) => RowsAreTold(ls[..j]);
    case _ =>
  }

  // A call runs exactly when some step of the run justified it: whatever the interleaving of calls,
  // connections, lost and late replies, pauses and resumes, nothing else makes a call run, and
  // nothing takes a justification back.
  lemma RunsExactlyWhenAuthorised(ls: seq<Label>, id: CallId)
    ensures Ran(Run(ls), id) <==> exists j: nat :: Justifies(ls, j, id)
  {
    hide Ran, Authorises, Justifies, Run;
    RanIffAuthorised(ls, id);
    forall j: nat | j < |ls| ensures Justifies(ls, j, id) <==> Authorises(Run(ls[..j]), ls[j], id) {
      JustifiesIs(ls, j, id);
    }
    assert forall j: nat | Justifies(ls, j, id) :: j < |ls| by { JustifiesWithin(ls, id); }
  }

  lemma JustifiesWithin(ls: seq<Label>, id: CallId)
    ensures forall j: nat | Justifies(ls, j, id) :: j < |ls|
  {
  }

  // A refusal is final.
  lemma {:induction false} RefusalStays(ls: seq<Label>, n: nat, id: CallId)
    requires n <= |ls| && id in Run(ls[..n]).fate && Run(ls[..n]).fate[id].Refused?
    ensures id in Run(ls).fate && Run(ls).fate[id] == Run(ls[..n]).fate[id]
    decreases |ls|
  {
    hide Standing, Step;
    if n < |ls| {
      var before := ls[..|ls| - 1];
      assert before[..n] == ls[..n];
      RefusalStays(before, n, id);
      EveryCallStands(before, id);
      RanAfter(Run(before), ls[|ls| - 1], id, CostsOf(before, id));
    } else {
      assert ls[..n] == ls;
    }
  }

  // A policy pause the application resumes directly with a rejection never runs its tool, whatever
  // the connection looks like by then and whatever happens afterwards.
  lemma RejectedPauseNeverRuns(ls: seq<Label>, j: nat, id: CallId)
    requires j < |ls| && Refuses(Run(ls[..j]), ls[j], id)
    ensures id in Run(ls).fate && Run(ls).fate[id] == Refused(ApprovalDenied)
  {
    hide Standing, Step, Refuses, CostsOf, Enabled;
    assert ls[..j + 1][..j] == ls[..j];
    EveryCallStands(ls[..j], id);
    RanAfter(Run(ls[..j]), ls[j], id, CostsOf(ls[..j], id));
    RefusalStays(ls, j + 1, id);
  }

  // A call that meets its gate in the pass of a claim does what the claim says: refused for good where
  // the fail-closed mode has no policy to go by, else, where a policy covers it, run or refused for good
  // as the resumer approved or rejected. Otherwise it runs. It costs no plane call.
  lemma RejectedPassRefusesWhatIsGoverned(ls: seq<Label>, i: nat, j: nat, resume: Resume)
    requires j < |ls| && ls[j].Begin? && Enabled(Run(ls[..j]), ls[j])
    requires ls[j].pass.Some? && Live(ls[..j], i, ls[j].pass.value, resume)
    ensures var l, w := ls[j], Run(ls);
      if FailsClosed(l.conn, l.call.agentId) then l.id in w.fate && w.fate[l.id] == Refused(FailClosedMode)
      else if Governed(l.look, l.conn, l.call) && !resume.approved
      then l.id in w.fate && w.fate[l.id] == Refused(ApprovalDenied)
      else Ran(w, l.id)
  {
    hide Governed, FailsClosed, Step, Authorises, Enabled, Live;
    var l := ls[j];
    assert ls[..j + 1][..j] == ls[..j];
    AmbientIsTheClaims(ls[..j], l.pass.value, resume);
    ResumedOutcome(Run(ls[..j]), l, resume);
    if FailsClosed(l.conn, l.call.agentId) || (Governed(l.look, l.conn, l.call) && !resume.approved) {
      RefusalStays(ls, j + 1, l.id);
    } else {
      assert AuthorisedIn(ls, l.id);
      RanIffAuthorised(ls, l.id);
    }
  }

  lemma ResumedOutcome(w: World, l: Label, resume: Resume)
    requires l.Begin? && Enabled(w, l) && Ambient(w, l.pass) == Some(resume)
    ensures
      if FailsClosed(l.conn, l.call.agentId)
      then l.id in Step(w, l).fate && Step(w, l).fate[l.id] == Refused(FailClosedMode)
      else if Governed(l.look, l.conn, l.call) && !resume.approved
      then l.id in Step(w, l).fate && Step(w, l).fate[l.id] == Refused(ApprovalDenied)
      else Authorises(w, l, l.id)
  {
    hide Governed, FailsClosed;
  }

  // ---- conservation: pending runs against verdicts ----

  predicate NeedsApproval(w: World, l: Label) {
    l.Answer? && Enabled(w, l) && l.reply.Some? && l.reply.value.verdict == Some("require_approval")
  }

  function ApprovalVerdicts(ls: seq<Label>): nat {
    if ls == [] then 0
    else ApprovalVerdicts(ls[..|ls| - 1]) + Count(NeedsApproval(Run(ls[..|ls| - 1]), ls[|ls| - 1]))
  }

  // Registrations that have not reached the plane and still may.
  function Unarrived(w: World): set<CallId> {
    set id | id in w.flights && (w.flights[id].GivenUp? || (w.flights[id].Registering? && w.flights[id].arrived.None?))
  }

  lemma AnswerUnarrived(w: World, l: Label)
    requires l.Answer? && Enabled(w, l)
    ensures Step(w, l).issued == w.issued && l.id !in Unarrived(w)
    ensures Unarrived(Step(w, l)) == if NeedsApproval(w, l) then Unarrived(w) + {l.id} else Unarrived(w)
  {
    assert AfterDecide(l.reply).Register? <==> NeedsApproval(w, l);
    hide AfterDecide, NeedsApproval;
  }

  lemma ArriveUnarrived(w: World, l: Label)
    requires l.Arrive? && Enabled(w, l)
    ensures Step(w, l).issued == w.issued + 1 && l.id in Unarrived(w)
    ensures Unarrived(Step(w, l)) == Unarrived(w) - {l.id}
  {
  }

  lemma RegisteredUnarrived(w: World, l: Label)
    requires l.Registered? && Enabled(w, l)
    ensures Step(w, l).issued == w.issued
    ensures Unarrived(Step(w, l)) == Unarrived(w) || Unarrived(Step(w, l)) == Unarrived(w) - {l.id}
  {
    hide PauseFor, Saves;
  }

  lemma BeginUnarrived(w: World, l: Label)
    requires l.Begin? && Enabled(w, l)
    ensures Step(w, l).issued == w.issued && Unarrived(Step(w, l)) == Unarrived(w)
  {
    hide StartGate;
  }

  lemma OtherUnarrived(w: World, l: Label)
    requires l.UserPause? || l.Claim? || l.EndPass? || l.Deliver? || l.Abandon? || !Enabled(w, l)
    ensures Step(w, l).issued == w.issued && Step(w, l).flights == w.flights
  {
  }

  lemma UnarrivedAfter(w: World, l: Label)
    ensures Step(w, l).issued + |Unarrived(Step(w, l))| <= w.issued + |Unarrived(w)| + Count(NeedsApproval(w, l))
  {
    hide Step, NeedsApproval, Enabled, Unarrived;
    if !Enabled(w, l) || !(l.Begin? || l.Answer? || l.Arrive? || l.Registered?) {
      OtherUnarrived(w, l);
      SameUnarrived(w, Step(w, l));
    } else if l.Answer? {
      AnswerUnarrived(w, l);
    } else if l.Arrive? {
      ArriveUnarrived(w, l);
    } else if l.Begin? {
      BeginUnarrived(w, l);
    } else {
      RegisteredUnarrived(w, l);
    }
  }

  lemma SameUnarrived(w: World, w': World)
    requires w.flights == w'.flights
    ensures Unarrived(w) == Unarrived(w')
  {
  }

  // The pending runs the plane has opened, with those that may still arrive, never outnumber its
  // require_approval verdicts.
  lemma {:induction false} RunsOpenedNeverExceedVerdicts(ls: seq<Label>)
    ensures Run(ls).issued + |Unarrived(Run(ls))| <= ApprovalVerdicts(ls)
  {
    hide Step, NeedsApproval, Unarrived;
    if ls == [] {
      NothingUnarrived();
    } else {
      RunsOpenedNeverExceedVerdicts(ls[..|ls| - 1]);
      UnarrivedAfter(Run(ls[..|ls| - 1]), ls[|ls| - 1]);
    }
  }

  lemma NothingUnarrived()
    ensures Unarrived(START) == {}
  {
  }
}
