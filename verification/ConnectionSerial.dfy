// What holds when calls do not overlap, what holds regardless, and where overlapping calls differ.
module ConnectionSerial {
  import opened Options
  import opened Connection
  import ConnectionLeaks

  // ---- Persistence, in every interleaving ----

  lemma {:induction false} CurrentIsSaved(s: State, es: seq<Event>)
    requires s.current == DefaultEndpoint(s.saved, s.env) && ValidRun(s, es)
    ensures var s' := Run(s, es); s'.current == DefaultEndpoint(s'.saved, s'.env) && s'.env == s.env
    decreases |es|
  {
    if es != [] { CurrentIsSaved(Apply(s, es[0]), es[1..]); }
  }

  // A first load starts at the saved endpoint if there is one, else at the environment's, else at none.
  lemma FirstLoad(saved: Option<string>, env: string)
    ensures Boot(saved, env).current == (if Names(saved) then saved.value else env) && Boot(saved, env).api == None
  {
  }

  // Reloading the page after any run, at any point of it, starts at the endpoint the run was at.
  lemma ReloadResumes(saved: Option<string>, env: string, es: seq<Event>)
    requires ValidRun(Boot(saved, env), es)
    ensures var s := Run(Boot(saved, env), es); Boot(s.saved, env).current == s.current
  {
    CurrentIsSaved(Boot(saved, env), es);
  }

  // ---- Serialized runs: no call began while another was running ----

  // One call at most is running, and it knows all there is to know about the connection.
  ghost predicate Serial(s: State) {
    && (forall t :: t in s.tasks ==> t == s.leader && t < s.nextTask)
    && (forall h :: h in s.open ==> s.api == Some(h))
    && (s.api.Some? ==> s.api.value.endpoint == s.current)
    && forall t :: t in s.tasks ==>
      match s.tasks[t]
      case ClosingToReconnect(request, target, h) => s.api == Some(h) && target == Target(s, request)
      case Creating(target) => s.api == None && target == s.current
      case AwaitingReady => s.api.Some?
      case Reconnecting(h) => s.api == Some(h)
      case AwaitingReadyAgain => s.api.Some? && s.api.value in s.open
      case Disconnecting(h) => s.api == Some(h)
  }

  lemma StepSerial(s: State, e: Event)
    requires Serial(s) && Enabled(s, e) && Apply(s, e).overlaps == s.overlaps
    ensures Serial(Apply(s, e))
  {
    ConnectionLeaks.OnlyActorMoves(s, e);
    if e.CallInitialize? || e.CallDisconnect? { CallSerial(s, e); } else { ResumeSerial(s, e); }
  }

  lemma CallSerial(s: State, e: Event)
    requires Serial(s) && Enabled(s, e) && (e.CallInitialize? || e.CallDisconnect?) && Apply(s, e).overlaps == s.overlaps
    ensures Serial(Apply(s, e))
  {
  }

  lemma ResumeSerial(s: State, e: Event)
    requires Serial(s) && Enabled(s, e) && !e.CallInitialize? && !e.CallDisconnect?
    ensures Serial(Apply(s, e))
  {
  }

  lemma OverlapsKept(s: State, e: Event)
    requires Enabled(s, e)
    ensures s.overlaps <= Apply(s, e).overlaps
    ensures (e.CallInitialize? || e.CallDisconnect? ==> s.tasks == map[]) ==> Apply(s, e).overlaps == s.overlaps
  {
  }

  lemma {:induction false} OverlapsGrow(s: State, es: seq<Event>)
    requires ValidRun(s, es)
    ensures s.overlaps <= Run(s, es).overlaps
    decreases |es|
  {
    if es != [] {
      OverlapsKept(s, es[0]);
      OverlapsGrow(Apply(s, es[0]), es[1..]);
    }
  }

  lemma {:induction false} RunSerial(s: State, es: seq<Event>)
    requires Serial(s) && ValidRun(s, es) && Run(s, es).overlaps == s.overlaps
    ensures Serial(Run(s, es))
    decreases |es|
  {
    if es != [] {
      OverlapsGrow(Apply(s, es[0]), es[1..]);
      StepSerial(s, es[0]);
      RunSerial(Apply(s, es[0]), es[1..]);
    }
  }

  // ---- The one-slot specification ----

  // A connection manager that owns one slot: the endpoint it aims at, and what the slot is connected to.
  datatype Slot = Slot(live: Option<string>, aim: string)
  datatype Move = Vacate | Aim(endpoint: string) | Connect

  // The aim changes and a connection is made only while the slot is empty.
  predicate MoveEnabled(slot: Slot, m: Move) { m.Vacate? <==> slot.live.Some? }

  function Make(slot: Slot, m: Move): Slot
    requires MoveEnabled(slot, m)
  {
    match m
    case Vacate => slot.(live := None)
    case Aim(endpoint) => slot.(aim := endpoint)
    case Connect => slot.(live := Some(slot.aim))
  }

  predicate ValidMoves(slot: Slot, ms: seq<Move>)
    decreases |ms|
  {
    ms == [] || (MoveEnabled(slot, ms[0]) && ValidMoves(Make(slot, ms[0]), ms[1..]))
  }

  function MakeAll(slot: Slot, ms: seq<Move>): Slot
    requires ValidMoves(slot, ms)
    decreases |ms|
  {
    if ms == [] then slot else MakeAll(Make(slot, ms[0]), ms[1..])
  }

  lemma {:induction false} MovesConcat(slot: Slot, ms: seq<Move>, ns: seq<Move>)
    requires ValidMoves(slot, ms) && ValidMoves(MakeAll(slot, ms), ns)
    ensures ValidMoves(slot, ms + ns) && MakeAll(slot, ms + ns) == MakeAll(MakeAll(slot, ms), ns)
    decreases |ms|
  {
    if ms == [] {
      assert ms + ns == ns;
    } else {
      assert (ms + ns)[0] == ms[0] && (ms + ns)[1..] == ms[1..] + ns;
      MovesConcat(Make(slot, ms[0]), ms[1..], ns);
    }
  }

  function Abs(s: State): Slot {
    Slot(if s.api.Some? && s.api.value in s.open then Some(s.api.value.endpoint) else None, s.current)
  }

  // The moves an event stands for.
  function MovesOf(s: State, e: Event): seq<Move>
    requires Enabled(s, e)
  {
    var s' := Apply(s, e);
    (if Abs(s).live.Some? && (e.DisconnectResolved? || (e.DisconnectRejected? && e.closed)) then [Vacate] else [])
    + (if s'.current != s.current then [Aim(s'.current)] else [])
    + (if e.CreateResolved? || (e.ConnectResolved? && Abs(s).live.None?) then [Connect] else [])
  }

  function MovesOfRun(s: State, es: seq<Event>): seq<Move>
    requires ValidRun(s, es)
    decreases |es|
  {
    if es == [] then [] else MovesOf(s, es[0]) + MovesOfRun(Apply(s, es[0]), es[1..])
  }

  lemma StepRefines(s: State, e: Event)
    requires Serial(s) && Enabled(s, e) && Apply(s, e).overlaps == s.overlaps
    ensures ValidMoves(Abs(s), MovesOf(s, e)) && MakeAll(Abs(s), MovesOf(s, e)) == Abs(Apply(s, e))
  {
    var ms, s' := MovesOf(s, e), Apply(s, e);
    if e.DisconnectResolved? && |ms| == 2 {
      assert ms == [Vacate, Aim(s'.current)];
      var vacated := Make(Abs(s), Vacate);
      assert ms[1..] == [Aim(s'.current)];
      assert ms[1..][1..] == [];
      assert MakeAll(vacated, ms[1..]) == Make(vacated, Aim(s'.current));
    } else {
      assert |ms| <= 1;
      assert |ms| == 1 ==> ms[1..] == [];
    }
  }

  lemma {:induction false} RunRefines(s: State, es: seq<Event>)
    requires Serial(s) && ValidRun(s, es) && Run(s, es).overlaps == s.overlaps
    ensures ValidMoves(Abs(s), MovesOfRun(s, es)) && MakeAll(Abs(s), MovesOfRun(s, es)) == Abs(Run(s, es))
    decreases |es|
  {
    if es != [] {
      OverlapsGrow(Apply(s, es[0]), es[1..]);
      StepSerial(s, es[0]);
      StepRefines(s, es[0]);
      RunRefines(Apply(s, es[0]), es[1..]);
      MovesConcat(Abs(s), MovesOf(s, es[0]), MovesOfRun(Apply(s, es[0]), es[1..]));
    }
  }

  // A run in which no two calls overlap, with any of them failing anywhere, is a run of the one-slot
  // manager; no other connection is open and `api` belongs to the current endpoint.
  lemma SerializedRunIsOneSlot(saved: Option<string>, env: string, es: seq<Event>)
    requires ValidRun(Boot(saved, env), es) && Run(Boot(saved, env), es).overlaps == 0
    ensures var s0, s := Boot(saved, env), Run(Boot(saved, env), es);
      && ValidMoves(Abs(s0), MovesOfRun(s0, es)) && MakeAll(Abs(s0), MovesOfRun(s0, es)) == Abs(s)
      && Orphans(s) == {} && |s.open| <= 1
      && (s.api.Some? ==> s.api.value.endpoint == s.current)
  {
    RunRefines(Boot(saved, env), es);
    RunSerial(Boot(saved, env), es);
    var s := Run(Boot(saved, env), es);
    if s.open != {} { assert s.open == {s.api.value}; }
  }

  // Without overlaps, a call that returns hands out `api`, open and at the current endpoint.
  lemma StepReturnsApi(s: State, e: Event)
    requires Serial(s) && Enabled(s, e) && Apply(s, e).overlaps == s.overlaps
    ensures var s', t := Apply(s, e), ConnectionLeaks.Actor(s, e);
      && (t in s'.tasks || t in s'.results)
      && (t !in s'.tasks && s'.results[t].Returned? ==>
            && s'.results[t].api == s'.api && s'.api.Some?
            && s'.api.value in s'.open && s'.api.value.endpoint == s'.current)
  {
  }

  // In a serialized run, a call that returns hands out `api`, open and at the current endpoint.
  lemma SerializedCallReturnsApi(saved: Option<string>, env: string, es: seq<Event>, e: Event, t: nat)
    requires ValidRun(Boot(saved, env), es) && Enabled(Run(Boot(saved, env), es), e)
    requires Apply(Run(Boot(saved, env), es), e).overlaps == 0
    requires var s := Run(Boot(saved, env), es);
      t == ConnectionLeaks.Actor(s, e) && t !in Apply(s, e).tasks && Apply(s, e).results[t].Returned?
    ensures var s' := Apply(Run(Boot(saved, env), es), e);
      && s'.results[t].api == s'.api && s'.api.Some?
      && s'.api.value in s'.open && s'.api.value.endpoint == s'.current
  {
    OverlapsKept(Run(Boot(saved, env), es), e);
    OverlapsGrow(Boot(saved, env), es);
    RunSerial(Boot(saved, env), es);
    StepReturnsApi(Run(Boot(saved, env), es), e);
  }

  // ---- Disconnecting disconnects ----

  // Without overlaps, nothing is open and there is no `api` once disconnectApi has ended unrefused.
  lemma StepCloses(s: State, e: Event)
    requires Serial(s) && Enabled(s, e) && Apply(s, e).overlaps == s.overlaps
    ensures var s', t := Apply(s, e), ConnectionLeaks.Actor(s, e);
      t !in s'.tasks && s'.results[t] == Closed ==> s'.api == None && s'.open == {}
  {
  }

  lemma SerializedDisconnectCloses(saved: Option<string>, env: string, es: seq<Event>, e: Event, t: nat)
    requires ValidRun(Boot(saved, env), es) && Enabled(Run(Boot(saved, env), es), e)
    requires Apply(Run(Boot(saved, env), es), e).overlaps == 0
    requires var s := Run(Boot(saved, env), es);
      t == ConnectionLeaks.Actor(s, e) && t !in Apply(s, e).tasks && Apply(s, e).results[t] == Closed
    ensures var s' := Apply(Run(Boot(saved, env), es), e); s'.api == None && s'.open == {}
  {
    OverlapsKept(Run(Boot(saved, env), es), e);
    OverlapsGrow(Boot(saved, env), es);
    RunSerial(Boot(saved, env), es);
    StepCloses(Run(Boot(saved, env), es), e);
  }

  // A disconnectApi that has begun on a handle waits for that handle's disconnect, or is over.
  ghost predicate ClosesOrOver(s: State, t: nat, h: Handle) {
    t < s.nextTask && (t in s.tasks ==> s.tasks[t] == Disconnecting(h))
  }

  lemma {:induction false} RunClosesOrOver(s: State, es: seq<Event>, t: nat, h: Handle)
    requires ClosesOrOver(s, t, h) && ValidRun(s, es)
    ensures ClosesOrOver(Run(s, es), t, h)
    decreases |es|
  {
    if es != [] {
      ConnectionLeaks.OnlyActorMoves(s, es[0]);
      StepClosesOrOver(s, es[0], t, h);
      RunClosesOrOver(Apply(s, es[0]), es[1..], t, h);
    }
  }

  lemma StepClosesOrOver(s: State, e: Event, t: nat, h: Handle)
    requires ClosesOrOver(s, t, h) && Enabled(s, e)
    ensures ClosesOrOver(Apply(s, e), t, h)
  {
    ConnectionLeaks.OnlyActorMoves(s, e);
  }

  // In every interleaving: a disconnectApi that begins with a handle in `api` does not end at once, and
  // when it ends unrefused, whatever came in between, that handle is not open.
  lemma DisconnectCloses(s: State, es: seq<Event>, e: Event, h: Handle)
    requires s.api == Some(h)
    ensures s.nextTask in Apply(s, CallDisconnect).tasks
    ensures var s1, t := Apply(s, CallDisconnect), s.nextTask;
      && ValidRun(s1, es) && Enabled(Run(s1, es), e) && t in Run(s1, es).tasks
      && t !in Apply(Run(s1, es), e).tasks && Apply(Run(s1, es), e).results[t] == Closed
      ==> h !in Apply(Run(s1, es), e).open
  {
    var s1, t := Apply(s, CallDisconnect), s.nextTask;
    if ValidRun(s1, es) && Enabled(Run(s1, es), e) && t in Run(s1, es).tasks && t !in Apply(Run(s1, es), e).tasks {
      RunClosesOrOver(s1, es, t, h);
      ConnectionLeaks.OnlyActorMoves(Run(s1, es), e);
    }
  }

  // ---- A handle is for the endpoint its call aimed at ----

  // What a call that has not created its handle yet will create it for.
  ghost predicate AimsAt(s: State, t: nat, target: string) {
    && t < s.nextTask
    && (t in s.tasks && s.tasks[t].ClosingToReconnect? ==> s.tasks[t].target == target)
    && (t in s.tasks && s.tasks[t].Creating? ==> s.tasks[t].target == target)
  }

  lemma StepAimsAt(s: State, e: Event, t: nat, target: string)
    requires AimsAt(s, t, target) && Enabled(s, e)
    ensures AimsAt(Apply(s, e), t, target)
  {
    ConnectionLeaks.OnlyActorMoves(s, e);
  }

  lemma {:induction false} RunAimsAt(s: State, es: seq<Event>, t: nat, target: string)
    requires AimsAt(s, t, target) && ValidRun(s, es)
    ensures AimsAt(Run(s, es), t, target)
    decreases |es|
  {
    if es != [] {
      StepAimsAt(s, es[0], t, target);
      RunAimsAt(Apply(s, es[0]), es[1..], t, target);
    }
  }

  // In every interleaving the handle a call creates is for the endpoint it was given, or for the one that
  // was current when it began, whatever the current endpoint has become meanwhile.
  lemma CreatesWhatItAimedAt(s: State, request: Option<string>, connected: bool, es: seq<Event>)
    requires Enabled(s, CallInitialize(request, connected))
    ensures var s1, t := Apply(s, CallInitialize(request, connected)), s.nextTask;
      && ValidRun(s1, es) && Enabled(Run(s1, es), CreateResolved(t))
      ==> var s2 := Apply(Run(s1, es), CreateResolved(t));
          && s2.api.Some? && s2.api.value in s2.open
          && s2.api.value.endpoint == if Names(request) then request.value else s.current
  {
    var s1, t := Apply(s, CallInitialize(request, connected)), s.nextTask;
    if ValidRun(s1, es) && Enabled(Run(s1, es), CreateResolved(t)) {
      RunAimsAt(s1, es, t, if Names(request) then request.value else s.current);
    }
  }

  // Every await of every running call can fail, and can succeed but for a create without an endpoint.
  lemma AwaitsCanEnd(s: State, t: nat)
    requires t in s.tasks
    ensures Enabled(s, DisconnectRejected(t, true)) || Enabled(s, CreateRejected(t))
      || Enabled(s, ReadyRejected(t)) || Enabled(s, ConnectRejected(t))
    ensures s.tasks[t] != Creating("") ==>
      || Enabled(s, DisconnectResolved(t)) || Enabled(s, CreateResolved(t))
      || Enabled(s, ReadyResolved(t, false)) || Enabled(s, ConnectResolved(t))
  {
  }

  // How calls end, in every interleaving. A call returns only on news that its instance is ready and
  // with nothing to reconnect, or at once when it asks for the current endpoint and that is connected.
  lemma CallEndsIff(s: State, e: Event)
    requires Enabled(s, e)
    ensures var s', t := Apply(s, e), ConnectionLeaks.Actor(s, e);
      && (t in s'.tasks || t in s'.results)
      && (t !in s'.tasks && s'.results[t].Returned? <==>
            || (e.ReadyResolved? && (s.tasks[t].AwaitingReadyAgain? || s.api == None || e.connected))
            || (e.CallInitialize? && s.api.Some? && e.request == Some(s.current) && e.connected))
      && (t !in s'.tasks && s'.results[t].Closed? <==>
            (e.CallDisconnect? && s.api == None) || (e.DisconnectResolved? && s.tasks[t].Disconnecting?))
      && (t !in s'.tasks && s'.results[t].Rejected? <==>
            || e.DisconnectRejected? || e.CreateRejected? || e.ReadyRejected? || e.ConnectRejected?
            || (e.ConnectResolved? && s.api == None))
  {
  }

  // ---- Which request a serialized run ends at ----

  // Read off the events alone: the last endpoint asked for, not counting a request whose disconnect
  // was refused.
  function LastGranted(granted: string, es: seq<Event>): string
    decreases |es|
  {
    if es == [] then granted
    else if es[0].CallInitialize? && Names(es[0].request) && !(|es| > 1 && es[1].DisconnectRejected?)
    then LastGranted(es[0].request.value, es[1..])
    else LastGranted(granted, es[1..])
  }

  ghost predicate AtRest(s: State) { s.tasks == map[] }

  lemma {:induction false} SerializedEndsAtLastGranted(s: State, es: seq<Event>)
    requires Serial(s) && AtRest(s) && ValidRun(s, es)
    requires Run(s, es).overlaps == s.overlaps && AtRest(Run(s, es))
    ensures Run(s, es).current == LastGranted(s.current, es)
    decreases |es|
  {
    if es != [] {
      OverlapsGrow(Apply(s, es[0]), es[1..]);
      StepSerial(s, es[0]);
      BusyEndsAtLastGranted(Apply(s, es[0]), es[1..]);
    }
  }

  lemma {:induction false} BusyEndsAtLastGranted(s: State, es: seq<Event>)
    requires Serial(s) && ValidRun(s, es)
    requires Run(s, es).overlaps == s.overlaps && AtRest(Run(s, es))
    ensures Run(s, es).current ==
      if s.leader in s.tasks && s.tasks[s.leader].ClosingToReconnect? && Names(s.tasks[s.leader].request)
         && es != [] && !es[0].DisconnectRejected?
      then LastGranted(s.tasks[s.leader].request.value, es)
      else LastGranted(s.current, es)
    decreases |es|
  {
    if es != [] {
      OverlapsGrow(Apply(s, es[0]), es[1..]);
      StepSerial(s, es[0]);
      BusyEndsAtLastGranted(Apply(s, es[0]), es[1..]);
    }
  }

  // ---- Which request any run ends at ----

  // The last endpoint asked for.
  function Asked(asked: string, e: Event): string {
    if e.CallInitialize? && Names(e.request) then e.request.value else asked
  }

  function LastAsked(asked: string, es: seq<Event>): string
    decreases |es|
  {
    if es == [] then asked else LastAsked(Asked(asked, es[0]), es[1..])
  }

  // A request that has to disconnect first is put into effect only when its disconnect is done.
  predicate Deferred(s: State, e: Event) {
    e.CallInitialize? && s.api.Some? && e.request != Some(s.current)
  }

  // The endpoint an event puts into effect, if any: that of a request that need not wait, or that of
  // the call whose disconnect is done.
  function Granted(s: State, e: Event): Option<string>
    requires Enabled(s, e)
  {
    if e.CallInitialize? && Names(e.request) && !Deferred(s, e) then e.request
    else if e.DisconnectResolved? && s.tasks[e.task].ClosingToReconnect? && Names(s.tasks[e.task].request)
    then s.tasks[e.task].request
    else None
  }

  // The last endpoint put into effect: requests in the order in which their disconnects are done.
  function LastRecorded(s: State, es: seq<Event>, recorded: string): string
    requires ValidRun(s, es)
    decreases |es|
  {
    if es == [] then recorded
    else
      var granted := Granted(s, es[0]);
      LastRecorded(Apply(s, es[0]), es[1..], if granted.Some? then granted.value else recorded)
  }

  // From a state at the last endpoint asked for, exactly two events part from it: a request for another
  // endpoint that has to disconnect first, and the end of the disconnect of an earlier request.
  lemma PartsExactlyBy(s: State, e: Event, asked: string)
    requires Enabled(s, e) && s.current == asked
    ensures Apply(s, e).current != Asked(asked, e) <==>
      || (Deferred(s, e) && Names(e.request))
      || (e.DisconnectResolved? && s.tasks[e.task].ClosingToReconnect? && Names(s.tasks[e.task].request)
          && s.tasks[e.task].request != Some(asked))
  {
  }

  // In every interleaving the endpoint kept is the one whose disconnect was done last, so it is the last
  // one asked for exactly when that request was also the last to be put into effect.
  lemma {:induction false} RunEndsAtLastRecorded(s: State, es: seq<Event>, asked: string)
    requires ValidRun(s, es)
    ensures Run(s, es).current == LastRecorded(s, es, s.current)
    ensures Run(s, es).current == LastAsked(asked, es) <==> LastRecorded(s, es, s.current) == LastAsked(asked, es)
    decreases |es|
  {
    if es != [] {
      StepRecords(s, es[0]);
      RunEndsAtLastRecorded(Apply(s, es[0]), es[1..], Asked(asked, es[0]));
    }
  }

  lemma StepRecords(s: State, e: Event)
    requires Enabled(s, e)
    ensures Apply(s, e).current == if Granted(s, e).Some? then Granted(s, e).value else s.current
  {
  }

  // ---- The endpoint read off the events alone, in every interleaving ----

  // All that decides the endpoint: how many calls began, whether a handle is in place, which calls wait
  // for a disconnect with which request, and the endpoint kept.
  datatype Ledger = Ledger(calls: nat, connected: bool, waiting: map<nat, Option<string>>, kept: string)

  function Keep(l: Ledger, request: Option<string>): Ledger {
    if Names(request) then l.(kept := request.value) else l
  }

  function Note(l: Ledger, e: Event): Ledger {
    match e
    case CallInitialize(request, _) =>
      var begun := l.(calls := l.calls + 1);
      if l.connected && request != Some(l.kept) then begun.(waiting := l.waiting[l.calls := request])
      else Keep(begun, request)
    case CallDisconnect => l.(calls := l.calls + 1)
    case DisconnectResolved(t) =>
      var closed := l.(connected := false, waiting := l.waiting - {t});
      if t in l.waiting then Keep(closed, l.waiting[t]) else closed
    case DisconnectRejected(t, _) => l.(waiting := l.waiting - {t})
    case CreateResolved(_) => l.(connected := true)
    case _ => l
  }

  function NoteAll(l: Ledger, es: seq<Event>): Ledger
    decreases |es|
  {
    if es == [] then l else NoteAll(Note(l, es[0]), es[1..])
  }

  function Waiting(tasks: map<nat, Pc>): map<nat, Option<string>> {
    map t | t in tasks && tasks[t].ClosingToReconnect? :: tasks[t].request
  }

  function LedgerOf(s: State): Ledger { Ledger(s.nextTask, s.api.Some?, Waiting(s.tasks), s.current) }

  // Only the acting call can change whether, and with which request, it waits.
  lemma WaitingMoves(tasks: map<nat, Pc>, tasks': map<nat, Pc>, t: nat)
    requires forall u :: u != t ==> (u in tasks' <==> u in tasks) && (u in tasks ==> tasks'[u] == tasks[u])
    ensures Waiting(tasks') ==
      if t in tasks' && tasks'[t].ClosingToReconnect? then Waiting(tasks)[t := tasks'[t].request] else Waiting(tasks) - {t}
  {
    forall u | u != t ensures u in Waiting(tasks') <==> u in Waiting(tasks) {}
  }

  lemma ActorWaits(s: State, e: Event)
    requires Enabled(s, e)
    ensures var s', t := Apply(s, e), ConnectionLeaks.Actor(s, e);
      && (t in s'.tasks && s'.tasks[t].ClosingToReconnect? <==> Deferred(s, e))
      && (Deferred(s, e) ==> s'.tasks[t].request == e.request)
  {
  }

  lemma StepNotedScalars(s: State, e: Event)
    requires Enabled(s, e)
    ensures var l := Note(LedgerOf(s), e);
      Apply(s, e).nextTask == l.calls && (Apply(s, e).api.Some? <==> l.connected) && Apply(s, e).current == l.kept
  {
  }

  lemma StepNoted(s: State, e: Event)
    requires ConnectionLeaks.Fresh(s) && Enabled(s, e)
    ensures LedgerOf(Apply(s, e)) == Note(LedgerOf(s), e)
  {
    ConnectionLeaks.OnlyActorMoves(s, e);
    ActorWaits(s, e);
    WaitingMoves(s.tasks, Apply(s, e).tasks, ConnectionLeaks.Actor(s, e));
    StepNotedScalars(s, e);
    StepNotedWaiting(s, e);
  }

  lemma StepNotedWaiting(s: State, e: Event)
    requires ConnectionLeaks.Fresh(s) && Enabled(s, e)
    ensures var w, t := Waiting(s.tasks), ConnectionLeaks.Actor(s, e);
      Note(LedgerOf(s), e).waiting == if Deferred(s, e) then w[t := e.request] else w - {t}
  {
    var w, t := Waiting(s.tasks), ConnectionLeaks.Actor(s, e);
    if !Deferred(s, e) && t !in w { assert w - {t} == w; }
  }

  lemma {:induction false} RunNoted(s: State, es: seq<Event>)
    requires ConnectionLeaks.Fresh(s) && ValidRun(s, es)
    ensures LedgerOf(Run(s, es)) == NoteAll(LedgerOf(s), es)
    decreases |es|
  {
    if es != [] {
      StepNoted(s, es[0]);
      ConnectionLeaks.StepFresh(s, es[0]);
      RunNoted(Apply(s, es[0]), es[1..]);
    }
  }

  // Every interleaving, with any call failing anywhere, ends at the endpoint and with the requests still
  // waiting that its events alone say.
  lemma EndpointReadOffEvents(saved: Option<string>, env: string, es: seq<Event>)
    requires ValidRun(Boot(saved, env), es)
    ensures var s, l := Run(Boot(saved, env), es), NoteAll(Ledger(0, false, map[], DefaultEndpoint(saved, env)), es);
      && s.current == l.kept && (s.api.Some? <==> l.connected)
      && l.waiting == Waiting(s.tasks)
  {
    ConnectionLeaks.BootInv(saved, env);
    RunNoted(Boot(saved, env), es);
    assert Waiting(map[]) == map[];
  }

  // ---- What overlapping calls break ----

  lemma Extend(s: State, e: Event, es: seq<Event>)
    requires Enabled(s, e) && ValidRun(Apply(s, e), es)
    ensures ValidRun(s, [e] + es) && Run(s, [e] + es) == Run(Apply(s, e), es)
  {
  }

  function MountTwice(): seq<Event> {
    [CallInitialize(None, true), CallDisconnect, CallInitialize(None, true)]
  }

  function CreateTwice(): seq<Event> { [CreateResolved(0), CreateResolved(2)] }

  lemma MountedTwice(saved: Option<string>, env: string)
    ensures ValidRun(Boot(saved, env), MountTwice())
    ensures var s0, s := Boot(saved, env), Run(Boot(saved, env), MountTwice());
      && s.tasks == map[0 := Creating(s.current), 2 := Creating(s.current)]
      && s.api == None && s.open == {} && s.nextHandle == 0 && s.current == s0.current
  {
  }

  lemma CreatedTwice(s: State)
    requires s.tasks == map[0 := Creating(s.current), 2 := Creating(s.current)] && s.current != ""
    requires s.api == None && s.open == {} && s.nextHandle == 0
    ensures ValidRun(s, CreateTwice())
    ensures var s' := Run(s, CreateTwice());
      s'.open == {Handle(0, s'.current), Handle(1, s'.current)} && s'.api == Some(Handle(1, s'.current))
  {
  }

  // Mount, clean up and mount again before the first create is done: the cleanup finds nothing to
  // disconnect, so the first connection is left open behind the second.
  lemma StrictModeLeaks(saved: Option<string>, env: string)
    requires DefaultEndpoint(saved, env) != ""
    ensures ValidRun(Boot(saved, env), MountTwice() + CreateTwice())
    ensures var s := Run(Boot(saved, env), MountTwice() + CreateTwice());
      |s.open| == 2 && Orphans(s) == {Handle(0, s.current)} && s.api == Some(Handle(1, s.current))
  {
    MountedTwice(saved, env);
    CreatedTwice(Run(Boot(saved, env), MountTwice()));
    RunConcat(Boot(saved, env), MountTwice(), CreateTwice());
  }

  function CrossedRequests(t: nat, b: string, c: string): seq<Event> {
    [CallInitialize(Some(b), true), CallInitialize(Some(c), true),
     DisconnectResolved(t + 1), DisconnectResolved(t)]
  }

  // Two overlapping changes from a connected state, nothing rejected: the endpoint kept and saved is
  // the one asked for first, when its disconnect is the later one to finish.
  lemma OverlappingRequestsCross(s: State, b: string, c: string)
    requires AtRest(s) && s.api.Some? && s.api.value in s.open
    requires b !in {"", c, s.current} && c !in {"", s.current}
    ensures ValidRun(s, CrossedRequests(s.nextTask, b, c))
    ensures var es := CrossedRequests(s.nextTask, b, c);
      Run(s, es).current == b && Run(s, es).saved == Some(b) && LastAsked(s.current, es) == c
  {
    var t, h := s.nextTask, s.api.value;
    var es := CrossedRequests(t, b, c);
    var s1 := Apply(s, es[0]);
    assert s1.tasks == map[t := ClosingToReconnect(Some(b), b, h)] && s1.api == s.api && s1.current == s.current;
    var s2 := Apply(s1, es[1]);
    assert s2.tasks == s1.tasks[t + 1 := ClosingToReconnect(Some(c), c, h)];
    var s3 := Apply(s2, es[2]);
    assert s3.tasks[t] == s1.tasks[t];
    assert Run(Apply(s3, es[3]), []) == Apply(s3, es[3]);
    Extend(s3, es[3], []);
    Extend(s2, es[2], [es[3]]);
    Extend(s1, es[1], [es[2]] + [es[3]]);
    Extend(s, es[0], [es[1]] + ([es[2]] + [es[3]]));
    assert es == [es[0]] + ([es[1]] + ([es[2]] + [es[3]]));
    CrossedAsked(s.current, t, b, c);
  }

  lemma CrossedAsked(asked: string, t: nat, b: string, c: string)
    requires b != "" && c != ""
    ensures LastAsked(asked, CrossedRequests(t, b, c)) == c
  {
    var es := CrossedRequests(t, b, c);
    assert [es[3]][1..] == [] && LastAsked(c, [es[3]]) == c;
    assert [es[2], es[3]][1..] == [es[3]] && LastAsked(c, [es[2], es[3]]) == c;
    assert es[1..][1..] == [es[2], es[3]] && LastAsked(b, es[1..]) == c;
  }
}
