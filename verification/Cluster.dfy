/** The DX-cluster connection: panel fields guarded by a generation number, and dials,
    dial results, reads and read results that may arrive in any order. */
module Cluster {
  import opened Text

  /** A socket and the generation it was dialled under. */
  datatype Client = Client(socket: nat, generation: nat)

  /** The connection fields of the application model; `named` says a station callsign is set. */
  datatype Panel = Panel(client: Option<Client>, connecting: bool, generation: nat, reconnect: bool, delay: nat, named: bool)

  datatype Command = Nothing | Dial(after: nat, generation: nat) | ReadNext(client: Client)

  /** What a handler does: the new panel, the socket it closes and the command it returns. */
  datatype Effect = Effect(panel: Panel, closes: Option<nat>, command: Command)

  const RECONNECT_BASE := 2
  const RECONNECT_MAX := 60

  function SocketOf(p: Panel): Option<nat> { if p.client.Some? then Some(p.client.value.socket) else None }

  function Connected(p: Panel): Effect {
    if p.client.Some? || p.connecting || !p.named then Effect(p, None, Nothing)
    else
      var g := p.generation + 1;
      Effect(p.(generation := g, connecting := true, reconnect := true, delay := 0), None, Dial(0, g))
  }

  function Disconnected(p: Panel): Effect {
    Effect(p.(generation := p.generation + 1, reconnect := false, delay := 0, client := None, connecting := false), SocketOf(p), Nothing)
  }

  function NextDelay(delay: nat): nat {
    if delay == 0 then RECONNECT_BASE else if 2 * delay > RECONNECT_MAX then RECONNECT_MAX else 2 * delay
  }

  /** The fields after a drop was noticed, with a backed-off dial unless the operator disconnected. */
  function Scheduled(p: Panel): Effect {
    if !p.reconnect || !p.named then Effect(p, None, Nothing)
    else
      var g, d := p.generation + 1, NextDelay(p.delay);
      Effect(p.(generation := g, connecting := true, delay := d), None, Dial(d, g))
  }

  /** A dial's result: the opened socket, or a failure. */
  function DialResult(p: Panel, generation: nat, socket: Option<nat>): Effect {
    if generation != p.generation then Effect(p, socket, Nothing)
    else
      match socket
      case None => Scheduled(p.(connecting := false))
      case Some(s) =>
        var c := Client(s, generation);
        Effect(p.(connecting := false, client := Some(c), delay := 0), None, ReadNext(c))
  }

  /** A read's result: a line, or the end of the connection. */
  function ReadResult(p: Panel, generation: nat, failed: bool): Effect {
    if generation != p.generation then Effect(p, None, Nothing)
    else if failed then Scheduled(p.(client := None, connecting := false)).(closes := SocketOf(p))
    else Effect(p, None, if p.client.Some? then ReadNext(p.client.value) else Nothing)
  }

  class Session {
    var client: Option<Client>
    var connecting: bool
    var generation: nat
    var reconnect: bool
    var delay: nat
    var named: bool

    function Fields(): Panel
      reads this
    {
      Panel(client, connecting, generation, reconnect, delay, named)
    }

    /** connectClusterIfNeeded, and F5 on the cluster screen. */
    method Connect() returns (command: Command)
      modifies this
      ensures Effect(Fields(), None, command) == Connected(old(Fields()))
    {
      if client.Some? || connecting { return Nothing; }
      if !named { return Nothing; }
      generation := generation + 1;
      connecting, reconnect, delay := true, true, 0;
      command := Dial(0, generation);
    }

    method Disconnect() returns (closes: Option<nat>)
      modifies this
      ensures Effect(Fields(), closes, Nothing) == Disconnected(old(Fields()))
    {
      generation := generation + 1;
      reconnect, delay := false, 0;
      closes := if client.Some? then Some(client.value.socket) else None;
      client, connecting := None, false;
    }

    method ScheduleReconnect() returns (command: Command)
      modifies this
      ensures Effect(Fields(), None, command) == Scheduled(old(Fields()))
    {
      if !reconnect || !named { return Nothing; }
      if delay == 0 {
        delay := RECONNECT_BASE;
      } else {
        delay := delay * 2;
        if delay > RECONNECT_MAX { delay := RECONNECT_MAX; }
      }
      generation := generation + 1;
      connecting := true;
      command := Dial(delay, generation);
    }

    method OnConnected(from: nat, socket: Option<nat>) returns (closes: Option<nat>, command: Command)
      modifies this
      ensures Effect(Fields(), closes, command) == DialResult(old(Fields()), from, socket)
    {
      if from != generation { return socket, Nothing; }
      connecting := false;
      if socket.None? {
        command := ScheduleReconnect();
        return None, command;
      }
      client, delay := Some(Client(socket.value, from)), 0;
      return None, ReadNext(client.value);
    }

    method OnLine(from: nat, failed: bool) returns (closes: Option<nat>, command: Command)
      modifies this
      ensures Effect(Fields(), closes, command) == ReadResult(old(Fields()), from, failed)
    {
      if from != generation { return None, Nothing; }
      if failed {
        closes := if client.Some? then Some(client.value.socket) else None;
        client, connecting := None, false;
        command := ScheduleReconnect();
        return;
      }
      return None, if client.Some? then ReadNext(client.value) else Nothing;
    }
  }

  // ---------- The protocol ----------

  /** Work under way outside the panel; each belongs to the generation it was started for. */
  datatype Task =
    | Dialing(generation: nat)
    | Dialled(generation: nat, socket: Option<nat>)
    | Reading(generation: nat, client: Client)
    | Line(generation: nat, client: Client, failed: bool)

  /** `fails` counts reconnects scheduled in a row, `nextSocket` numbers every socket ever opened. */
  datatype State = State(panel: Panel, tasks: seq<Task>, open: set<nat>, nextSocket: nat, fails: nat)

  datatype Step =
    | ConnectStep | DisconnectStep
    | StationStep(named: bool, renamed: bool)
    | DialEnds(i: nat, success: bool)
    | ReadEnds(i: nat, failed: bool)
    | Deliver(i: nat)

  predicate Enabled(s: State, step: Step) {
    match step
    case DialEnds(i, success) => i < |s.tasks| && s.tasks[i].Dialing?
    case ReadEnds(i, failed) => i < |s.tasks| && s.tasks[i].Reading?
    case Deliver(i) => i < |s.tasks| && (s.tasks[i].Dialled? || s.tasks[i].Line?)
    case _ => true
  }

  function Started(command: Command): seq<Task> {
    match command
    case Nothing => []
    case Dial(after, g) => [Dialing(g)]
    case ReadNext(c) => [Reading(c.generation, c)]
  }

  function Shut(open: set<nat>, closes: Option<nat>): set<nat> {
    if closes.Some? then open - {closes.value} else open
  }

  function Drop(tasks: seq<Task>, i: nat): seq<Task>
    requires i < |tasks|
  {
    tasks[..i] + tasks[i + 1..]
  }

  /** The effect of a handler on everything around it. */
  function After(s: State, e: Effect, tasks: seq<Task>, fails: nat): State {
    s.(panel := e.panel, tasks := tasks + Started(e.command), open := Shut(s.open, e.closes), fails := fails)
  }

  /** Reconnects scheduled in a row once `e` happened. */
  function Fails(s: State, e: Effect): nat {
    if e.panel.delay == 0 then 0 else if e.command.Dial? then s.fails + 1 else s.fails
  }

  function Handled(s: State, task: Task): Effect
    requires task.Dialled? || task.Line?
  {
    match task
    case Dialled(g, socket) => DialResult(s.panel, g, socket)
    case Line(g, c, failed) => ReadResult(s.panel, g, failed)
  }

  function Next(s: State, step: Step): State
    requires Enabled(s, step)
  {
    match step
    case ConnectStep => var e := Connected(s.panel); After(s, e, s.tasks, Fails(s, e))
    case DisconnectStep => var e := Disconnected(s.panel); After(s, e, s.tasks, Fails(s, e))
    case StationStep(named, renamed) =>
      var p := s.panel.(named := named);
      var off := if renamed && (p.client.Some? || p.connecting) then Disconnected(p) else Effect(p, None, Nothing);
      var mid := After(s, off, s.tasks, Fails(s, off));
      var on := Connected(mid.panel);
      After(mid, on, mid.tasks, Fails(mid, on))
    case DialEnds(i, success) =>
      var socket := if success then Some(s.nextSocket) else None;
      s.(tasks := s.tasks[i := Dialled(s.tasks[i].generation, socket)],
         open := if success then s.open + {s.nextSocket} else s.open,
         nextSocket := if success then s.nextSocket + 1 else s.nextSocket)
    case ReadEnds(i, failed) => s.(tasks := s.tasks[i := Line(s.tasks[i].generation, s.tasks[i].client, failed)])
    case Deliver(i) =>
      var e := Handled(s, s.tasks[i]);
      After(s, e, Drop(s.tasks, i), Fails(s, e))
  }

  predicate Init(s: State) {
    && s.tasks == [] && s.open == {} && s.fails == 0
    && s.panel.client == None && !s.panel.connecting && !s.panel.reconnect && s.panel.delay == 0
  }

  // ---------- The invariant ----------

  /** Every task has a generation of its own. */
  predicate TasksApart(tasks: seq<Task>) {
    forall i, j :: 0 <= i < j < |tasks| ==> tasks[i].generation != tasks[j].generation
  }

  predicate IsDial(t: Task) { t.Dialing? || t.Dialled? }

  /** A task of the current generation is the one dial when connecting, else the one read of the adopted client. */
  ghost predicate TaskFits(p: Panel, t: Task) {
    && t.generation <= p.generation
    && (IsDial(t) || t.client.generation == t.generation)
    && (t.generation == p.generation ==>
          if IsDial(t) then p.connecting else p.client == Some(t.client))
  }

  ghost predicate PanelFits(p: Panel, tasks: seq<Task>) {
    && (p.client.Some? ==> !p.connecting && p.client.value.generation == p.generation)
    && (p.connecting || p.client.Some? ==> exists t :: t in tasks && t.generation == p.generation)
    && (forall t :: t in tasks ==> TaskFits(p, t))
  }

  predicate Carries(t: Task, socket: nat) { t.Dialled? && t.socket == Some(socket) }

  /** The open sockets are the adopted one and those still in a dial result, each in one place. */
  ghost predicate SocketsHeld(s: State) {
    && (forall x: nat :: x in s.open <==> SocketOf(s.panel) == Some(x) || exists t :: t in s.tasks && Carries(t, x))
    && (forall t, x: nat :: t in s.tasks && Carries(t, x) ==> SocketOf(s.panel) != Some(x) && x < s.nextSocket)
    && (forall t, u, x: nat :: t in s.tasks && u in s.tasks && Carries(t, x) && Carries(u, x) ==> t == u)
    && (forall x: nat :: SocketOf(s.panel) == Some(x) ==> x < s.nextSocket)
  }

  function Backoff(fails: nat): nat {
    if fails == 0 then 0 else NextDelay(Backoff(fails - 1))
  }

  ghost predicate Inv(s: State) {
    && TasksApart(s.tasks) && PanelFits(s.panel, s.tasks) && SocketsHeld(s)
    && s.panel.delay == Backoff(s.fails)
  }

  // ---------- Each step keeps it ----------

  lemma DropMembers(tasks: seq<Task>, i: nat)
    requires i < |tasks| && TasksApart(tasks)
    ensures TasksApart(Drop(tasks, i))
    ensures forall t :: t in Drop(tasks, i) <==> t in tasks && t != tasks[i]
    ensures forall t :: t in Drop(tasks, i) ==> t.generation != tasks[i].generation
  {
    var rest := Drop(tasks, i);
    forall t | t in tasks && t != tasks[i] ensures t in rest {
      var j :| 0 <= j < |tasks| && tasks[j] == t;
      assert rest[if j < i then j else j - 1] == t;
    }
    forall t | t in rest ensures t in tasks && t.generation != tasks[i].generation {
      var j :| 0 <= j < |rest| && rest[j] == t;
      assert t == tasks[if j < i then j else j + 1];
    }
  }

  lemma AddTask(tasks: seq<Task>, t: Task)
    requires TasksApart(tasks) && forall u :: u in tasks ==> u.generation != t.generation
    ensures TasksApart(tasks + [t])
    ensures forall u :: u in tasks + [t] <==> u in tasks || u == t
  {
    assert forall i :: 0 <= i < |tasks| ==> tasks[i] in tasks;
  }

  lemma Replace(tasks: seq<Task>, i: nat, t: Task)
    requires i < |tasks| && TasksApart(tasks) && t.generation == tasks[i].generation
    ensures TasksApart(tasks[i := t])
    ensures forall u :: u in tasks[i := t] <==> u == t || (u in tasks && u != tasks[i])
  {
    var after := tasks[i := t];
    assert after[i] == t;
    forall u | u in tasks && u != tasks[i] ensures u in after {
      var j :| 0 <= j < |tasks| && tasks[j] == u;
      assert after[j] == u;
    }
  }

  /** The panel and the tasks between two handlers: what `Inv` says without the backoff. */
  ghost predicate Sound(p: Panel, tasks: seq<Task>, open: set<nat>, nextSocket: nat) {
    TasksApart(tasks) && PanelFits(p, tasks) && SocketsHeld(State(p, tasks, open, nextSocket, 0))
  }

  lemma StartDial(p: Panel, tasks: seq<Task>, open: set<nat>, nextSocket: nat, q: Panel)
    requires Sound(p, tasks, open, nextSocket) && p.client == None && !p.connecting
    requires q.client == None && q.connecting && q.generation == p.generation + 1
    ensures Sound(q, tasks + [Dialing(q.generation)], open, nextSocket)
  {
    AddTask(tasks, Dialing(q.generation));
    assert Dialing(q.generation) in tasks + [Dialing(q.generation)];
    hide TasksApart;
  }

  lemma ConnectKeeps(p: Panel, tasks: seq<Task>, open: set<nat>, nextSocket: nat)
    requires Sound(p, tasks, open, nextSocket)
    ensures var e := Connected(p); Sound(e.panel, tasks + Started(e.command), Shut(open, e.closes), nextSocket)
  {
    var e := Connected(p);
    hide Sound;
    if e.command.Dial? {
      StartDial(p, tasks, open, nextSocket, e.panel);
    } else {
      assert tasks + [] == tasks;
    }
  }

  lemma ScheduleKeeps(p: Panel, tasks: seq<Task>, open: set<nat>, nextSocket: nat)
    requires Sound(p, tasks, open, nextSocket) && p.client == None && !p.connecting
    ensures var e := Scheduled(p); Sound(e.panel, tasks + Started(e.command), open, nextSocket)
  {
    var e := Scheduled(p);
    hide Sound;
    if e.command.Dial? {
      StartDial(p, tasks, open, nextSocket, e.panel);
    } else {
      assert tasks + [] == tasks;
    }
  }

  /** Closing the adopted socket and letting go of it, with no task left for the generation. */
  lemma LetGo(p: Panel, tasks: seq<Task>, open: set<nat>, nextSocket: nat, q: Panel)
    requires Sound(p, tasks, open, nextSocket)
    requires q.client == None && !q.connecting && q.generation >= p.generation
    requires forall t :: t in tasks ==> t.generation < q.generation
    ensures Sound(q, tasks, Shut(open, SocketOf(p)), nextSocket)
  {
    hide TasksApart;
  }

  lemma DisconnectKeeps(p: Panel, tasks: seq<Task>, open: set<nat>, nextSocket: nat)
    requires Sound(p, tasks, open, nextSocket)
    ensures var e := Disconnected(p); Sound(e.panel, tasks + Started(e.command), Shut(open, e.closes), nextSocket)
  {
    LetGo(p, tasks, open, nextSocket, Disconnected(p).panel);
    assert tasks + [] == tasks;
  }

  /** A result whose generation has passed: the panel ignores it, its socket is closed. */
  lemma StaleKeeps(p: Panel, tasks: seq<Task>, open: set<nat>, nextSocket: nat, i: nat, socket: Option<nat>)
    requires Sound(p, tasks, open, nextSocket) && i < |tasks| && tasks[i].generation != p.generation
    requires tasks[i].Dialled? ==> socket == tasks[i].socket
    requires !tasks[i].Dialled? ==> socket == None
    ensures Sound(p, Drop(tasks, i), Shut(open, socket), nextSocket)
  {
    hide TasksApart, Drop;
    DropMembers(tasks, i);
  }

  lemma AdoptKeeps(p: Panel, tasks: seq<Task>, open: set<nat>, nextSocket: nat, i: nat, q: Panel)
    requires Sound(p, tasks, open, nextSocket) && i < |tasks|
    requires tasks[i].Dialled? && tasks[i].generation == p.generation && tasks[i].socket.Some?
    requires q.generation == p.generation && !q.connecting && q.client == Some(Client(tasks[i].socket.value, p.generation))
    ensures Sound(q, Drop(tasks, i) + [Reading(p.generation, q.client.value)], open, nextSocket)
  {
    var t := Reading(p.generation, q.client.value);
    DropMembers(tasks, i);
    hide Drop;
    AddTask(Drop(tasks, i), t);
    assert t in Drop(tasks, i) + [t];
    assert Carries(tasks[i], tasks[i].socket.value);
    hide TasksApart;
  }

  lemma DialFailedKeeps(p: Panel, tasks: seq<Task>, open: set<nat>, nextSocket: nat, i: nat)
    requires Sound(p, tasks, open, nextSocket) && i < |tasks|
    requires tasks[i].Dialled? && tasks[i].generation == p.generation && tasks[i].socket.None?
    ensures p.client == None && Sound(p.(connecting := false), Drop(tasks, i), open, nextSocket)
  {
    DropMembers(tasks, i);
    assert TaskFits(p, tasks[i]);
    hide TasksApart, Drop;
  }

  lemma ReadFailedKeeps(p: Panel, tasks: seq<Task>, open: set<nat>, nextSocket: nat, i: nat)
    requires Sound(p, tasks, open, nextSocket) && i < |tasks|
    requires tasks[i].Line? && tasks[i].generation == p.generation
    ensures p.client == Some(tasks[i].client)
    ensures Sound(p.(client := None, connecting := false), Drop(tasks, i), Shut(open, SocketOf(p)), nextSocket)
  {
    DropMembers(tasks, i);
    assert TaskFits(p, tasks[i]);
    hide TasksApart, Drop;
  }

  lemma LineKeeps(p: Panel, tasks: seq<Task>, open: set<nat>, nextSocket: nat, i: nat)
    requires Sound(p, tasks, open, nextSocket) && i < |tasks|
    requires tasks[i].Line? && tasks[i].generation == p.generation
    ensures p.client == Some(tasks[i].client)
    ensures Sound(p, Drop(tasks, i) + [Reading(p.generation, tasks[i].client)], open, nextSocket)
  {
    var t := Reading(p.generation, tasks[i].client);
    DropMembers(tasks, i);
    assert TaskFits(p, tasks[i]);
    hide Drop;
    AddTask(Drop(tasks, i), t);
    assert t in Drop(tasks, i) + [t];
    hide TasksApart;
  }

  lemma DeliverKeeps(s: State, i: nat)
    requires Sound(s.panel, s.tasks, s.open, s.nextSocket) && Enabled(s, Deliver(i))
    ensures var t := Next(s, Deliver(i)); Sound(t.panel, t.tasks, t.open, t.nextSocket)
  {
    var p, task, e := s.panel, s.tasks[i], Handled(s, s.tasks[i]);
    hide Sound, Drop;
    assert Drop(s.tasks, i) + [] == Drop(s.tasks, i);
    if task.generation != p.generation {
      StaleKeeps(p, s.tasks, s.open, s.nextSocket, i, e.closes);
    } else if task.Line? && task.failed {
      ReadFailedKeeps(p, s.tasks, s.open, s.nextSocket, i);
      ScheduleKeeps(p.(client := None, connecting := false), Drop(s.tasks, i), Shut(s.open, SocketOf(p)), s.nextSocket);
    } else if task.Line? {
      LineKeeps(p, s.tasks, s.open, s.nextSocket, i);
      ReaderGeneration(s, i);
    } else if task.socket.None? {
      DialFailedKeeps(p, s.tasks, s.open, s.nextSocket, i);
      ScheduleKeeps(p.(connecting := false), Drop(s.tasks, i), s.open, s.nextSocket);
    } else {
      AdoptKeeps(p, s.tasks, s.open, s.nextSocket, i, e.panel);
    }
  }

  lemma ReaderGeneration(s: State, i: nat)
    requires Sound(s.panel, s.tasks, s.open, s.nextSocket) && i < |s.tasks| && s.tasks[i].Line?
    ensures s.tasks[i].client.generation == s.tasks[i].generation
  {
    assert TaskFits(s.panel, s.tasks[i]);
    hide TasksApart, SocketsHeld;
  }

  lemma DialEndsKeeps(s: State, i: nat, success: bool)
    requires Sound(s.panel, s.tasks, s.open, s.nextSocket) && Enabled(s, DialEnds(i, success))
    ensures var t := Next(s, DialEnds(i, success)); Sound(t.panel, t.tasks, t.open, t.nextSocket)
  {
    var t := Next(s, DialEnds(i, success));
    Replace(s.tasks, i, t.tasks[i]);
    assert s.tasks[i] in s.tasks && t.tasks[i] in t.tasks;
    hide TasksApart;
  }

  lemma ReadEndsKeeps(s: State, i: nat, failed: bool)
    requires Sound(s.panel, s.tasks, s.open, s.nextSocket) && Enabled(s, ReadEnds(i, failed))
    ensures var t := Next(s, ReadEnds(i, failed)); Sound(t.panel, t.tasks, t.open, t.nextSocket)
  {
    var t := Next(s, ReadEnds(i, failed));
    Replace(s.tasks, i, t.tasks[i]);
    assert s.tasks[i] in s.tasks && t.tasks[i] in t.tasks;
    hide TasksApart;
  }

  lemma StationKeeps(s: State, named: bool, renamed: bool)
    requires Sound(s.panel, s.tasks, s.open, s.nextSocket)
    ensures var t := Next(s, StationStep(named, renamed)); Sound(t.panel, t.tasks, t.open, t.nextSocket)
  {
    var p := s.panel.(named := named);
    assert Sound(p, s.tasks, s.open, s.nextSocket) by { hide TasksApart; }
    hide Sound;
    assert s.tasks + [] == s.tasks;
    if renamed && (p.client.Some? || p.connecting) {
      DisconnectKeeps(p, s.tasks, s.open, s.nextSocket);
      ConnectKeeps(Disconnected(p).panel, s.tasks, Shut(s.open, SocketOf(p)), s.nextSocket);
    } else {
      ConnectKeeps(p, s.tasks, s.open, s.nextSocket);
    }
  }

  // ---------- Backoff ----------

  predicate Paced(s: State) { s.panel.delay == Backoff(s.fails) }

  lemma {:induction false} BackoffBound(fails: nat)
    ensures Backoff(fails) <= RECONNECT_MAX
    ensures fails > 0 ==> Backoff(fails) >= RECONNECT_BASE
    ensures 1 <= fails <= 5 ==> Backoff(fails) == Pow2(fails)
    ensures fails >= 6 ==> Backoff(fails) == RECONNECT_MAX
  {
    if fails > 0 { BackoffBound(fails - 1); }
  }

  lemma PacedStep(s: State, step: Step)
    requires Paced(s) && Enabled(s, step)
    ensures Paced(Next(s, step))
  {
    BackoffBound(s.fails);
  }

  lemma StepKeeps(s: State, step: Step)
    requires Inv(s) && Enabled(s, step)
    ensures Inv(Next(s, step))
  {
    PacedStep(s, step);
    assert Sound(s.panel, s.tasks, s.open, s.nextSocket);
    var t := Next(s, step);
    assert Sound(t.panel, t.tasks, t.open, t.nextSocket) by {
      hide Sound, Inv;
      match step
      case ConnectStep => ConnectKeeps(s.panel, s.tasks, s.open, s.nextSocket);
      case DisconnectStep => DisconnectKeeps(s.panel, s.tasks, s.open, s.nextSocket);
      case StationStep(named, renamed) => StationKeeps(s, named, renamed);
      case DialEnds(i, success) => DialEndsKeeps(s, i, success);
      case ReadEnds(i, failed) => ReadEndsKeeps(s, i, failed);
      case Deliver(i) => DeliverKeeps(s, i);
    }
    hide Next, Backoff;
  }

  // ---------- Whole runs ----------

  ghost predicate Run(states: seq<State>, steps: seq<Step>) {
    && |states| == |steps| + 1 && Init(states[0])
    && forall i :: 0 <= i < |steps| ==> Enabled(states[i], steps[i]) && states[i + 1] == Next(states[i], steps[i])
  }

  lemma {:induction false} RunKeeps(states: seq<State>, steps: seq<Step>, n: nat)
    requires Run(states, steps) && n < |states|
    ensures Inv(states[n])
  {
    if n > 0 {
      RunKeeps(states, steps, n - 1);
      hide Inv, Next, Enabled;
      StepKeeps(states[n - 1], steps[n - 1]);
    }
  }

  predicate ReadsFor(t: Task, c: Client) { !IsDial(t) && t.client == c }

  /** The adopted socket is open and has exactly one outstanding read. */
  lemma OneRead(states: seq<State>, steps: seq<Step>, n: nat)
    requires Run(states, steps) && n < |states| && states[n].panel.client.Some?
    ensures var s := states[n]; s.panel.client.value.socket in s.open
    ensures var s := states[n]; exists t :: t in s.tasks && ReadsFor(t, s.panel.client.value)
    ensures var s := states[n];
      forall i, j :: 0 <= i < j < |s.tasks| ==> !(ReadsFor(s.tasks[i], s.panel.client.value) && ReadsFor(s.tasks[j], s.panel.client.value))
  {
    RunKeeps(states, steps, n);
    var s := states[n];
    hide Run;
    assert SocketOf(s.panel) == Some(s.panel.client.value.socket);
    var t :| t in s.tasks && t.generation == s.panel.generation;
    assert TaskFits(s.panel, t) && ReadsFor(t, s.panel.client.value);
    assert forall i :: 0 <= i < |s.tasks| ==> s.tasks[i] in s.tasks;
  }

  /** At most one dial of the current generation is under way, none beside an adopted
      socket, and the panel shows "connecting" exactly while there is one. */
  lemma OneDial(states: seq<State>, steps: seq<Step>, n: nat)
    requires Run(states, steps) && n < |states|
    ensures var s := states[n];
      s.panel.connecting <==> exists t :: t in s.tasks && IsDial(t) && t.generation == s.panel.generation
    ensures var s := states[n]; s.panel.connecting ==> s.panel.client.None?
    ensures var s := states[n]; forall i, j :: 0 <= i < j < |s.tasks| ==> s.tasks[i].generation != s.tasks[j].generation
  {
    RunKeeps(states, steps, n);
    var s := states[n];
    hide Run;
    if s.panel.connecting {
      var t :| t in s.tasks && t.generation == s.panel.generation;
      assert TaskFits(s.panel, t);
    }
  }

  /** Every socket ever opened is adopted, or waits in one dial result, or is closed. */
  lemma NoLeak(states: seq<State>, steps: seq<Step>, n: nat, socket: nat)
    requires Run(states, steps) && n < |states| && socket < states[n].nextSocket
    ensures var s := states[n];
      socket in s.open <==> SocketOf(s.panel) == Some(socket) || exists t :: t in s.tasks && Carries(t, socket)
    ensures var s := states[n];
      SocketOf(s.panel) == Some(socket) ==> forall t :: t in s.tasks ==> !Carries(t, socket)
    ensures var s := states[n];
      forall i, j :: 0 <= i < j < |s.tasks| ==> !(Carries(s.tasks[i], socket) && Carries(s.tasks[j], socket))
  {
    RunKeeps(states, steps, n);
    hide Run;
  }

  /** The reconnect delay after k drops in a row is 2, 4, 8, 16, 32 and then 60 seconds. */
  lemma BackoffSchedule(states: seq<State>, steps: seq<Step>, n: nat)
    requires Run(states, steps) && n < |states|
    ensures states[n].panel.delay <= RECONNECT_MAX
    ensures var k := states[n].fails;
      states[n].panel.delay == if k == 0 then 0 else if k <= 5 then Pow2(k) else RECONNECT_MAX
  {
    RunKeeps(states, steps, n);
    BackoffBound(states[n].fails);
    hide Run;
  }

  /** Once nothing is in flight and the operator has disconnected, no socket is open. */
  lemma QuietMeansClosed(states: seq<State>, steps: seq<Step>, n: nat)
    requires Run(states, steps) && n < |states| && states[n].tasks == []
    ensures states[n].panel.client == None && !states[n].panel.connecting && states[n].open == {}
  {
    RunKeeps(states, steps, n);
    hide Run;
  }

  // ---------- What each event does ----------

  /** Connecting starts one dial of a new generation at once, unless a socket is held, a dial runs or no callsign is set. */
  lemma ConnectDials(s: State)
    ensures var t, p := Next(s, ConnectStep), s.panel;
      && t.open == s.open
      && (p.client == None && !p.connecting && p.named ==>
            && t.panel == Panel(None, true, p.generation + 1, true, 0, true)
            && t.tasks == s.tasks + [Dialing(p.generation + 1)])
      && (p.client != None || p.connecting || !p.named ==> t.panel == p && t.tasks == s.tasks)
  {
    assert s.tasks + [] == s.tasks;
  }

  /** Disconnecting closes the socket held and leaves every running task to a generation that has passed. */
  lemma DisconnectCloses(s: State)
    ensures var t, p := Next(s, DisconnectStep), s.panel;
      && t.panel == Panel(None, false, p.generation + 1, false, 0, p.named) && t.tasks == s.tasks
      && (forall c :: p.client == Some(c) ==> t.open == s.open - {c.socket})
      && (p.client == None ==> t.open == s.open)
  {
    assert s.tasks + [] == s.tasks;
  }

  /** A new callsign drops the connection of the old one and dials again; a callsign where there was none dials. */
  lemma StationDials(s: State, named: bool, renamed: bool)
    requires Inv(s)
    ensures var t, p := Next(s, StationStep(named, renamed)), s.panel;
      && (renamed && (p.client != None || p.connecting) ==>
            && t.panel == (if named then Panel(None, true, p.generation + 2, true, 0, true) else Panel(None, false, p.generation + 1, false, 0, false))
            && t.tasks == s.tasks + (if named then [Dialing(p.generation + 2)] else [])
            && t.open == if p.client == None then s.open else s.open - {p.client.value.socket})
      && (!renamed && (p.client != None || p.connecting) ==> t.panel == p.(named := named) && t.tasks == s.tasks && t.open == s.open)
      && (p.client == None && !p.connecting ==>
            && t.panel == (if named then Panel(None, true, p.generation + 1, true, 0, true) else p.(named := false))
            && t.tasks == s.tasks + (if named then [Dialing(p.generation + 1)] else []) && t.open == s.open)
  {
    hide Inv, Fails;
    assert s.tasks + [] == s.tasks;
  }

  /** The dial of the current generation has failed, or the connection it made has ended. */
  ghost predicate Drops(s: State, i: nat) {
    && i < |s.tasks| && s.tasks[i].generation == s.panel.generation
    && match s.tasks[i]
       case Dialled(g, socket) => socket == None
       case Line(g, c, failed) => failed
       case _ => false
  }

  /** A drop lets the socket go and starts one dial of a new generation, two seconds later and then twice as
      long every time up to a minute, unless the operator disconnected or no callsign is set. */
  lemma DropRedials(s: State, i: nat)
    requires Inv(s) && Drops(s, i)
    ensures var t, p, rest := Next(s, Deliver(i)), s.panel, s.tasks[..i] + s.tasks[i + 1..];
      && t.open == (if s.tasks[i].Line? then s.open - {s.tasks[i].client.socket} else s.open)
      && (p.reconnect && p.named ==>
            && t.tasks == rest + [Dialing(p.generation + 1)]
            && t.panel.delay == (if p.delay == 0 then 2 else if p.delay > 30 then 60 else 2 * p.delay)
            && t.panel == Panel(None, true, p.generation + 1, true, t.panel.delay, true))
      && (!p.reconnect || !p.named ==> t.tasks == rest && t.panel == p.(client := None, connecting := false))
  {
    assert TaskFits(s.panel, s.tasks[i]) && (s.panel.connecting ==> s.panel.client == None) by {
      hide TasksApart, SocketsHeld, Backoff;
      assert s.tasks[i] in s.tasks;
    }
    hide Inv, Fails;
    assert Drop(s.tasks, i) + [] == Drop(s.tasks, i);
  }

  /** A dial of the current generation that succeeded is adopted and read from; the delays start over. */
  lemma DialAdopts(s: State, i: nat, socket: nat)
    requires i < |s.tasks| && s.tasks[i] == Dialled(s.panel.generation, Some(socket))
    ensures var t, p, c := Next(s, Deliver(i)), s.panel, Client(socket, s.panel.generation);
      && t.panel == Panel(Some(c), false, p.generation, p.reconnect, 0, p.named) && t.open == s.open
      && t.tasks == s.tasks[..i] + s.tasks[i + 1..] + [Reading(p.generation, c)]
  {
  }

  /** A line of the current connection asks for the next one. */
  lemma LineReads(s: State, i: nat)
    requires Inv(s) && i < |s.tasks| && s.tasks[i].Line? && !s.tasks[i].failed && s.tasks[i].generation == s.panel.generation
    ensures var t := Next(s, Deliver(i));
      && t.panel == s.panel && t.open == s.open
      && t.tasks == s.tasks[..i] + s.tasks[i + 1..] + [Reading(s.panel.generation, s.tasks[i].client)]
  {
    assert TaskFits(s.panel, s.tasks[i]) by { hide TasksApart, SocketsHeld, Backoff; assert s.tasks[i] in s.tasks; }
    hide Inv, Fails;
  }

  /** A result of a generation that has passed changes no field; a socket it brings is closed. */
  lemma StaleIgnored(s: State, i: nat)
    requires i < |s.tasks| && (s.tasks[i].Dialled? || s.tasks[i].Line?) && s.tasks[i].generation != s.panel.generation
    ensures var t := Next(s, Deliver(i));
      && t.panel == s.panel && t.tasks == s.tasks[..i] + s.tasks[i + 1..]
      && (forall x :: s.tasks[i] == Dialled(s.tasks[i].generation, Some(x)) ==> t.open == s.open - {x})
      && ((s.tasks[i].Dialled? ==> s.tasks[i].socket == None) ==> t.open == s.open)
  {
    assert Drop(s.tasks, i) + [] == Drop(s.tasks, i);
  }

  /** A dial ends with a socket never seen before, or with none; a read ends with a line or the end of the connection. */
  lemma TasksEnd(s: State, i: nat, failed: bool)
    ensures Enabled(s, DialEnds(i, !failed)) ==>
              var t, g := Next(s, DialEnds(i, !failed)), s.tasks[i].generation;
              && t.panel == s.panel
              && (failed ==> t.tasks == s.tasks[i := Dialled(g, None)] && t.open == s.open && t.nextSocket == s.nextSocket)
              && (!failed ==> t.tasks == s.tasks[i := Dialled(g, Some(s.nextSocket))] && t.open == s.open + {s.nextSocket}
                              && t.nextSocket == s.nextSocket + 1)
    ensures Enabled(s, ReadEnds(i, failed)) ==>
              var t := Next(s, ReadEnds(i, failed));
              t == s.(tasks := s.tasks[i := Line(s.tasks[i].generation, s.tasks[i].client, failed)])
  {
  }

  /** Whatever a handler starts, a dial waits the delay the panel holds and is of its generation. */
  lemma DialsArePaced(s: State, task: Task)
    requires task.Dialled? || task.Line?
    ensures var e := Handled(s, task); forall after, g :: e.command == Dial(after, g) ==> after == e.panel.delay && g == e.panel.generation
    ensures forall after, g :: Connected(s.panel).command == Dial(after, g) ==> after == 0 && g == Connected(s.panel).panel.generation
  {
  }

  // ---------- The connection is kept up ----------

  /** Unless the operator disconnected, a session with a callsign holds a socket or dials; after that, neither. */
  ghost predicate KeptUp(p: Panel) {
    && (p.reconnect && p.named ==> p.client.Some? || p.connecting)
    && (!p.reconnect ==> p.client == None && !p.connecting)
  }

  lemma StepKeepsUp(s: State, step: Step)
    requires Inv(s) && KeptUp(s.panel) && Enabled(s, step)
    ensures KeptUp(Next(s, step).panel)
  {
    hide TasksApart, SocketsHeld, Backoff, Fails;
    match step
    case Deliver(i) => assert s.tasks[i] in s.tasks; assert TaskFits(s.panel, s.tasks[i]);
    case _ =>
  }

  /** Over every run: until the operator disconnects, a session with a callsign holds a socket with one read
      outstanding, or one dial of its generation is under way; once disconnected, neither. */
  lemma {:induction false} AlwaysUp(states: seq<State>, steps: seq<Step>, n: nat)
    requires Run(states, steps) && n < |states|
    ensures KeptUp(states[n].panel)
  {
    if n > 0 {
      AlwaysUp(states, steps, n - 1);
      RunKeeps(states, steps, n - 1);
      hide Inv, Next, Enabled, KeptUp, Init;
      StepKeepsUp(states[n - 1], steps[n - 1]);
    }
  }
}
