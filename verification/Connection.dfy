// The connection manager as a protocol: the module-level variables of api.ts, the tasks that are
// suspended at an await, and one event for every segment of code that runs without yielding.
module Connection {
  import opened Options

  // One ApiPromise, with the endpoint its provider was built for.
  datatype Handle = Handle(id: nat, endpoint: string)

  // Where a running call is suspended. Each constructor is one await of api.ts.
  datatype Pc =
    | ClosingToReconnect(request: Option<string>, target: string, closing: Handle)
    | Creating(target: string)
    | AwaitingReady
    | Reconnecting(handle: Handle)
    | AwaitingReadyAgain
    | Disconnecting(closing: Handle)

  // How a call ended. `Returned` carries whatever `api` held when the call returned it, perhaps null.
  datatype Outcome = Returned(api: Option<Handle>) | Closed | Rejected

  datatype State = State(
    env: string,              // REACT_APP_WS_ENDPOINT, "" when it is not set
    saved: Option<string>,    // the saved endpoint in localStorage
    current: string,          // currentEndpoint
    api: Option<Handle>,      // api
    open: set<Handle>,        // handles whose connection is open
    nextHandle: nat,
    tasks: map<nat, Pc>,      // calls that have started and not ended
    nextTask: nat,
    results: map<nat, Outcome>,
    leader: nat,              // the last call that began while no other call was running
    overlaps: nat             // how many calls began while another call was running
  )

  datatype Event =
    | CallInitialize(request: Option<string>, connected: bool)
    | CallDisconnect
    | DisconnectResolved(task: nat)
    | DisconnectRejected(task: nat, closed: bool)
    | CreateResolved(task: nat)
    | CreateRejected(task: nat)
    | ReadyResolved(task: nat, connected: bool)
    | ReadyRejected(task: nat)
    | ConnectResolved(task: nat)
    | ConnectRejected(task: nat)

  function DefaultEndpoint(saved: Option<string>, env: string): string {
    if saved.Some? && saved.value != "" then saved.value
    else if env != "" then env
    else ""
  }

  function Boot(saved: Option<string>, env: string): State {
    State(env, saved, DefaultEndpoint(saved, env), None, {}, 0, map[], 0, map[], 0, 0)
  }

  // ---- The pieces the segments are made of ----

  predicate Names(request: Option<string>) { request.Some? && request.value != "" }

  function Target(s: State, request: Option<string>): string {
    if Names(request) then request.value else s.current
  }

  // A call gets its number, and is counted if it overlaps another.
  function Begin(s: State): State {
    s.(nextTask := s.nextTask + 1,
       leader := if s.tasks == map[] then s.nextTask else s.leader,
       overlaps := if s.tasks == map[] then s.overlaps else s.overlaps + 1)
  }

  function Suspend(s: State, t: nat, pc: Pc): State { s.(tasks := s.tasks[t := pc]) }

  function End(s: State, t: nat, outcome: Outcome): State {
    s.(tasks := s.tasks - {t}, results := s.results[t := outcome])
  }

  // Lines 41-62: record the request if it names an endpoint, then wait for the new handle.
  function RecordAndCreate(s: State, t: nat, request: Option<string>, target: string): State {
    var recorded := if Names(request) then s.(current := request.value, saved := request) else s;
    Suspend(recorded, t, Creating(target))
  }

  // Lines 71-78: reconnect if `api` exists and is not connected, else return `api`.
  function CheckConnected(s: State, t: nat, connected: bool): State {
    if s.api.Some? && !connected then Suspend(s, t, Reconnecting(s.api.value))
    else End(s, t, Returned(s.api))
  }

  // ---- Events ----

  // Only a handle that is open can report that it is connected.
  predicate Plausible(s: State, connected: bool) {
    connected && s.api.Some? ==> s.api.value in s.open
  }

  predicate Closing(pc: Pc) { pc.ClosingToReconnect? || pc.Disconnecting? }

  predicate Enabled(s: State, e: Event) {
    match e
    case CallInitialize(_, connected) => Plausible(s, connected)
    case CallDisconnect => true
    case DisconnectResolved(t) => t in s.tasks && Closing(s.tasks[t])
    case DisconnectRejected(t, _) => t in s.tasks && Closing(s.tasks[t])
    // No provider can be built for the empty endpoint.
    case CreateResolved(t) => t in s.tasks && s.tasks[t].Creating? && s.tasks[t].target != ""
    case CreateRejected(t) => t in s.tasks && s.tasks[t].Creating?
    case ReadyResolved(t, connected) =>
      t in s.tasks && ((s.tasks[t].AwaitingReady? && Plausible(s, connected)) || s.tasks[t].AwaitingReadyAgain?)
    case ReadyRejected(t) => t in s.tasks && (s.tasks[t].AwaitingReady? || s.tasks[t].AwaitingReadyAgain?)
    case ConnectResolved(t) => t in s.tasks && s.tasks[t].Reconnecting?
    case ConnectRejected(t) => t in s.tasks && s.tasks[t].Reconnecting?
  }

  function Apply(s: State, e: Event): State
    requires Enabled(s, e)
  {
    match e
    case CallInitialize(request, connected) =>
      var t, target, b := s.nextTask, Target(s, request), Begin(s);
      if s.api.None? then RecordAndCreate(b, t, request, target)
      else if request != Some(s.current) then Suspend(b, t, ClosingToReconnect(request, target, s.api.value))
      else CheckConnected(b, t, connected)
    case CallDisconnect =>
      var t, b := s.nextTask, Begin(s);
      if s.api.Some? then Suspend(b, t, Disconnecting(s.api.value)) else End(b, t, Closed)
    case DisconnectResolved(t) =>
      var pc := s.tasks[t];
      var cleared := s.(open := s.open - {pc.closing}, api := None);
      if pc.Disconnecting? then End(cleared, t, Closed)
      else RecordAndCreate(cleared, t, pc.request, pc.target)
    case DisconnectRejected(t, closed) =>
      End(s.(open := if closed then s.open - {s.tasks[t].closing} else s.open), t, Rejected)
    case CreateResolved(t) =>
      var h := Handle(s.nextHandle, s.tasks[t].target);
      Suspend(s.(api := Some(h), open := s.open + {h}, nextHandle := s.nextHandle + 1), t, AwaitingReady)
    case CreateRejected(t) => End(s, t, Rejected)
    case ReadyResolved(t, connected) =>
      if s.tasks[t].AwaitingReady? then CheckConnected(s, t, connected) else End(s, t, Returned(s.api))
    case ReadyRejected(t) => End(s, t, Rejected)
    case ConnectResolved(t) =>
      // Line 74 dereferences `api` again, which throws if another call has cleared it meanwhile.
      var reopened := s.(open := s.open + {s.tasks[t].handle});
      if s.api.None? then End(reopened, t, Rejected) else Suspend(reopened, t, AwaitingReadyAgain)
    case ConnectRejected(t) => End(s, t, Rejected)
  }

  // ---- Runs ----

  predicate ValidRun(s: State, es: seq<Event>)
    decreases |es|
  {
    es == [] || (Enabled(s, es[0]) && ValidRun(Apply(s, es[0]), es[1..]))
  }

  function Run(s: State, es: seq<Event>): State
    requires ValidRun(s, es)
    decreases |es|
  {
    if es == [] then s else Run(Apply(s, es[0]), es[1..])
  }

  // Open connections that nothing refers to any more.
  function Orphans(s: State): set<Handle> {
    set h | h in s.open && Some(h) != s.api
  }

  lemma {:induction false} RunConcat(s: State, es: seq<Event>, fs: seq<Event>)
    requires ValidRun(s, es) && ValidRun(Run(s, es), fs)
    ensures ValidRun(s, es + fs) && Run(s, es + fs) == Run(Run(s, es), fs)
    decreases |es|
  {
    if es == [] {
      assert es + fs == fs;
    } else {
      assert (es + fs)[0] == es[0] && (es + fs)[1..] == es[1..] + fs;
      RunConcat(Apply(s, es[0]), es[1..], fs);
    }
  }
}
