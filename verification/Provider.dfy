// The API context (ApiContext.tsx) on top of the connection manager: what the page believes about the
// connection, updated by the continuations of the calls it makes.
module Providers {
  import opened Options
  import opened Connection
  import Leaks = ConnectionLeaks
  import Serial = ConnectionSerial

  datatype Attempt = Change(endpoint: string) | Connect | Cleanup
  datatype Problem = CannotConnect(endpoint: string) | ConnectFailed | Transport

  datatype Context = Context(
    api: Option<Handle>, ready: bool, connecting: bool, error: Option<Problem>, endpoint: string)

  // How the last attempt that ended, if any, ended.
  datatype Last = Never | Succeeded(attempt: Attempt) | Failed

  datatype Provider = Provider(
    service: State,
    context: Context,
    attempts: map<nat, Attempt>,   // attempts whose service call is running
    settling: map<nat, Handle>,    // initial connects waiting for apiInstance.isReady
    listening: set<Handle>,        // instances whose transport events are observed
    mounted: bool,
    last: Last                     // only the account of what happened
  )

  datatype Happening =
    | ChangeEndpoint(endpoint: string, connected: bool)
    | Mount(connected: bool)
    | Unmount
    | Resume(e: Event)
    | InstanceReady(task: nat)
    | InstanceFailed(task: nat)
    | TransportDropped(handle: Handle)
    | TransportErrored(handle: Handle)

  function Fresh(saved: Option<string>, env: string): Provider {
    var s := Boot(saved, env);
    Provider(s, Context(None, false, false, None, s.current), map[], map[], {}, false, Never)
  }

  predicate Starts(h: Happening) { h.ChangeEndpoint? || h.Mount? || h.Unmount? }

  function Call(h: Happening): Event
    requires Starts(h)
  {
    match h
    case ChangeEndpoint(endpoint, connected) => CallInitialize(Some(endpoint), connected)
    case Mount(connected) => CallInitialize(None, connected)
    case _ => CallDisconnect
  }

  function Begun(h: Happening): Attempt
    requires Starts(h)
  {
    match h
    case ChangeEndpoint(endpoint, _) => Change(endpoint)
    case Mount(_) => Connect
    case _ => Cleanup
  }

  predicate Possible(p: Provider, h: Happening) {
    match h
    case Resume(e) => !e.CallInitialize? && !e.CallDisconnect? && Enabled(p.service, e) && e.task in p.attempts
    case InstanceReady(t) => t in p.settling
    case InstanceFailed(t) => t in p.settling
    case TransportDropped(handle) => handle in p.listening
    case TransportErrored(handle) => handle in p.listening
    case ChangeEndpoint(_, _) => p.mounted && Enabled(p.service, Call(h))
    case _ => Enabled(p.service, Call(h))
  }

  // The three ways an attempt ends for the context.
  function Fail(p: Provider, problem: Problem): Provider {
    p.(context := p.context.(error := Some(problem), ready := false, connecting := false),
       last := Failed)
  }

  function Changed(p: Provider, api: Option<Handle>, endpoint: string): Provider {
    p.(context := Context(api, true, false, None, endpoint),
       last := Succeeded(Change(endpoint)))
  }

  function Connected(p: Provider, handle: Handle): Provider {
    p.(context := p.context.(api := Some(handle), ready := true, connecting := false, endpoint := p.service.current),
       listening := p.listening + {handle},
       last := Succeeded(Connect))
  }

  // The continuation of attempt t, once its service call is over.
  function Settle(p: Provider, t: nat): Provider
    requires t in p.attempts && t in p.service.results
  {
    var rest, outcome := p.(attempts := p.attempts - {t}), p.service.results[t];
    match p.attempts[t]
    case Cleanup => rest
    case Change(endpoint) =>
      if outcome.Returned? then Changed(rest, outcome.api, endpoint) else Fail(rest, CannotConnect(endpoint))
    case Connect =>
      // Line 77 dereferences the instance, which throws when the call returned null.
      if outcome.Returned? && outcome.api.Some? then rest.(settling := rest.settling[t := outcome.api.value])
      else Fail(rest, ConnectFailed)
  }

  function SettleIfOver(p: Provider, t: nat): Provider
    requires t in p.attempts && (t in p.service.tasks || t in p.service.results)
  {
    if t in p.service.tasks then p else Settle(p, t)
  }

  // A call starts or goes on, up to its next await or its end.
  function BeforeSettling(p: Provider, h: Happening): Provider
    requires Possible(p, h) && (Starts(h) || h.Resume?)
  {
    match h
    case Resume(e) => p.(service := Apply(p.service, e))
    case _ =>
      p.(service := Apply(p.service, Call(h)), attempts := p.attempts[p.service.nextTask := Begun(h)],
         context := if h.Unmount? then p.context else p.context.(connecting := true, error := None),
         mounted := if h.ChangeEndpoint? then p.mounted else h.Mount?)
  }

  function Happen(p: Provider, h: Happening): Provider
    requires Possible(p, h)
  {
    match h
    case Resume(e) => SettleIfOver(BeforeSettling(p, h), e.task)
    case InstanceReady(t) => Connected(p.(settling := p.settling - {t}), p.settling[t])
    case InstanceFailed(t) => Fail(p.(settling := p.settling - {t}), ConnectFailed)
    case TransportDropped(_) => p.(context := p.context.(ready := false))
    case TransportErrored(_) => p.(context := p.context.(error := Some(Transport)))
    case _ => SettleIfOver(BeforeSettling(p, h), p.service.nextTask)
  }

  predicate ValidHistory(p: Provider, hs: seq<Happening>)
    decreases |hs|
  {
    hs == [] || (Possible(p, hs[0]) && ValidHistory(Happen(p, hs[0]), hs[1..]))
  }

  function History(p: Provider, hs: seq<Happening>): Provider
    requires ValidHistory(p, hs)
    decreases |hs|
  {
    if hs == [] then p else History(Happen(p, hs[0]), hs[1..])
  }

  predicate Idle(p: Provider) { p.attempts == map[] && p.settling == map[] }

  // No attempt starts before the previous one has ended.
  predicate Serialized(p: Provider, hs: seq<Happening>)
    requires ValidHistory(p, hs)
    decreases |hs|
  {
    hs == [] || ((Starts(hs[0]) ==> Idle(p)) && Serialized(Happen(p, hs[0]), hs[1..]))
  }

  // ---- The context only ever runs the connection manager ----

  // What the connection manager gets to see of a happening: a change asks for its endpoint, a mount for
  // none, and the end of a page for a disconnect.
  function Seen(h: Happening): seq<Event> {
    match h
    case ChangeEndpoint(endpoint, connected) => [CallInitialize(Some(endpoint), connected)]
    case Mount(connected) => [CallInitialize(None, connected)]
    case Unmount => [CallDisconnect]
    case Resume(e) => [e]
    case _ => []
  }

  function EventsOf(hs: seq<Happening>): seq<Event> {
    if hs == [] then [] else Seen(hs[0]) + EventsOf(hs[1..])
  }

  lemma HappenRunsService(p: Provider, h: Happening)
    requires Possible(p, h)
    ensures Starts(h) ==> Seen(h) == [Call(h)]
    ensures Seen(h) == [] ==> Happen(p, h).service == p.service
    ensures Seen(h) != [] ==> Enabled(p.service, Seen(h)[0]) && Happen(p, h).service == Apply(p.service, Seen(h)[0])
  {
  }

  // So every theorem about runs of the connection manager holds of what the context does.
  lemma {:induction false} HistoryRunsService(p: Provider, hs: seq<Happening>)
    requires ValidHistory(p, hs)
    ensures ValidRun(p.service, EventsOf(hs)) && Run(p.service, EventsOf(hs)) == History(p, hs).service
    decreases |hs|
  {
    if hs != [] {
      var p', rest := Happen(p, hs[0]), EventsOf(hs[1..]);
      HistoryRunsService(p', hs[1..]);
      HappenRunsService(p, hs[0]);
      if Seen(hs[0]) != [] {
        assert Seen(hs[0]) == [Seen(hs[0])[0]];
        Serial.Extend(p.service, Seen(hs[0])[0], rest);
      } else {
        assert EventsOf(hs) == rest;
      }
    }
  }

  // ---- In every history, overlapping attempts included ----

  // What a happening says about the connection, read off the calls and how they end: a change is decided
  // by its call, an initial connect by the wait for its instance unless the call gave none.
  function Verdict(p: Provider, h: Happening): Option<bool>
    requires Possible(p, h)
  {
    match h
    case InstanceReady(_) => Some(true)
    case InstanceFailed(_) => Some(false)
    case TransportDropped(_) => Some(false)
    case TransportErrored(_) => None
    case Resume(e) => CallVerdict(Apply(p.service, e), e.task, p.attempts[e.task])
    case _ => CallVerdict(Apply(p.service, Call(h)), p.service.nextTask, Begun(h))
  }

  function CallVerdict(s: State, t: nat, attempt: Attempt): Option<bool> {
    if t in s.tasks || t !in s.results || attempt.Cleanup? then None
    else if attempt.Change? then Some(s.results[t].Returned?)
    else if s.results[t].Returned? && s.results[t].api.Some? then None
    else Some(false)
  }

  function LastVerdict(p: Provider, hs: seq<Happening>, verdict: bool): bool
    requires ValidHistory(p, hs)
    decreases |hs|
  {
    if hs == [] then verdict
    else
      var v := Verdict(p, hs[0]);
      LastVerdict(Happen(p, hs[0]), hs[1..], if v.Some? then v.value else verdict)
  }

  // The page calls itself ready exactly when the last verdict was good: the last call of a change, or
  // wait of a connect, to end did not fail, and no transport drop was reported since.
  lemma {:induction false} ReadyIsLastVerdict(p: Provider, hs: seq<Happening>)
    requires ValidHistory(p, hs)
    ensures History(p, hs).context.ready == LastVerdict(p, hs, p.context.ready)
    decreases |hs|
  {
    if hs != [] {
      StepVerdict(p, hs[0]);
      ReadyIsLastVerdict(Happen(p, hs[0]), hs[1..]);
    }
  }

  lemma StepVerdict(p: Provider, h: Happening)
    requires Possible(p, h)
    ensures Happen(p, h).context.ready == if Verdict(p, h).Some? then Verdict(p, h).value else p.context.ready
  {
  }

  // Whether the page says it is connecting: from the start of a change or a connect to the next verdict
  // on one of them, be it on another.
  predicate Connecting(p: Provider, h: Happening, connecting: bool)
    requires Possible(p, h)
  {
    if h.TransportDropped? then connecting
    else Verdict(p, h) == None && (h.ChangeEndpoint? || h.Mount? || connecting)
  }

  predicate LastConnecting(p: Provider, hs: seq<Happening>, connecting: bool)
    requires ValidHistory(p, hs)
    decreases |hs|
  {
    if hs == [] then connecting else LastConnecting(Happen(p, hs[0]), hs[1..], Connecting(p, hs[0], connecting))
  }

  // In every history, overlaps included, the page says it is connecting exactly when no verdict was
  // reached since the last change or initial connect began.
  lemma {:induction false} ConnectingIff(p: Provider, hs: seq<Happening>)
    requires ValidHistory(p, hs)
    ensures History(p, hs).context.connecting <==> LastConnecting(p, hs, p.context.connecting)
    decreases |hs|
  {
    if hs != [] {
      StepConnecting(p, hs[0]);
      ConnectingIff(Happen(p, hs[0]), hs[1..]);
    }
  }

  lemma StepConnecting(p: Provider, h: Happening)
    requires Possible(p, h)
    ensures Happen(p, h).context.connecting <==> Connecting(p, h, p.context.connecting)
  {
    if Starts(h) {
      Leaks.TasksAfter(p.service, Call(h));
      SettledConnecting(BeforeSettling(p, h), p.service.nextTask);
    } else if h.Resume? {
      Leaks.TasksAfter(p.service, h.e);
      SettledConnecting(BeforeSettling(p, h), h.e.task);
    }
  }

  lemma SettledConnecting(p: Provider, t: nat)
    requires t in p.attempts && (t in p.service.tasks || t in p.service.results)
    ensures SettleIfOver(p, t).context.connecting <==>
      p.context.connecting && CallVerdict(p.service, t, p.attempts[t]) == None
  {
  }

  // The error a happening leaves: a beginning attempt clears it, a failure or a transport error sets it,
  // a change that succeeds clears it, an initial connect that succeeds does not.
  function Complaint(p: Provider, h: Happening, error: Option<Problem>): Option<Problem>
    requires Possible(p, h)
  {
    match h
    case InstanceReady(_) => error
    case InstanceFailed(_) => Some(ConnectFailed)
    case TransportDropped(_) => error
    case TransportErrored(_) => Some(Transport)
    case Resume(e) => CallComplaint(p.attempts[e.task], Verdict(p, h), error)
    case _ => CallComplaint(Begun(h), Verdict(p, h), if h.Unmount? then error else None)
  }

  function CallComplaint(attempt: Attempt, verdict: Option<bool>, error: Option<Problem>): Option<Problem> {
    if verdict == None then error
    else if verdict == Some(true) then None
    else if attempt.Change? then Some(CannotConnect(attempt.endpoint))
    else Some(ConnectFailed)
  }

  function LastComplaint(p: Provider, hs: seq<Happening>, error: Option<Problem>): Option<Problem>
    requires ValidHistory(p, hs)
    decreases |hs|
  {
    if hs == [] then error else LastComplaint(Happen(p, hs[0]), hs[1..], Complaint(p, hs[0], error))
  }

  // The error shown is the last complaint: of which attempt, read off how calls and waits ended.
  lemma {:induction false} ErrorIsLastComplaint(p: Provider, hs: seq<Happening>)
    requires ValidHistory(p, hs)
    ensures History(p, hs).context.error == LastComplaint(p, hs, p.context.error)
    decreases |hs|
  {
    if hs != [] {
      StepComplaint(p, hs[0]);
      ErrorIsLastComplaint(Happen(p, hs[0]), hs[1..]);
    }
  }

  lemma StepComplaint(p: Provider, h: Happening)
    requires Possible(p, h)
    ensures Happen(p, h).context.error == Complaint(p, h, p.context.error)
  {
    if Starts(h) {
      Leaks.TasksAfter(p.service, Call(h));
      SettledComplaint(BeforeSettling(p, h), p.service.nextTask);
    } else if h.Resume? {
      Leaks.TasksAfter(p.service, h.e);
      SettledComplaint(BeforeSettling(p, h), h.e.task);
    }
  }

  lemma SettledComplaint(p: Provider, t: nat)
    requires t in p.attempts && (t in p.service.tasks || t in p.service.results)
    ensures SettleIfOver(p, t).context.error ==
      CallComplaint(p.attempts[t], CallVerdict(p.service, t, p.attempts[t]), p.context.error)
  {
  }

  // What every step keeps, whatever overlaps: each running call has the attempt that waits for it, a
  // ready page comes from a last attempt that succeeded, a page that says it is connecting has an attempt
  // under way, and the connection manager's leaks stay bounded.
  ghost predicate Inv(p: Provider) {
    && p.attempts.Keys == p.service.tasks.Keys && ReadyIsLast(p) && HearsInstance(p)
    && (p.context.connecting ==> Underway(p)) && Leaks.Inv(p.service)
  }

  ghost predicate Underway(p: Provider) { (exists t :: t in p.attempts && !p.attempts[t].Cleanup?) || p.settling != map[] }

  // After an initial connect the page listens to the instance it shows.
  ghost predicate HearsInstance(p: Provider) {
    p.last == Succeeded(Connect) ==> p.context.api.Some? && p.context.api.value in p.listening
  }

  ghost predicate ReadyIsLast(p: Provider) { p.context.ready ==> p.last.Succeeded? }

  lemma StepReady(p: Provider, h: Happening)
    requires ReadyIsLast(p) && HearsInstance(p) && Possible(p, h)
    ensures ReadyIsLast(Happen(p, h)) && HearsInstance(Happen(p, h))
  {
  }

  lemma SettledUnderway(p: Provider, t: nat)
    requires t in p.attempts && (t in p.service.tasks || t in p.service.results)
    requires p.context.connecting ==> Underway(p)
    ensures SettleIfOver(p, t).context.connecting ==> Underway(SettleIfOver(p, t))
  {
    var p' := SettleIfOver(p, t);
    if p'.settling != p.settling { assert t in p'.settling; }
    if u :| u in p.attempts && !p.attempts[u].Cleanup? && u != t { assert u in p'.attempts; }
  }

  lemma StepUnderway(p: Provider, h: Happening)
    requires p.attempts.Keys == p.service.tasks.Keys && Leaks.Fresh(p.service) && Possible(p, h)
    requires p.context.connecting ==> Underway(p)
    ensures Happen(p, h).context.connecting ==> Underway(Happen(p, h))
  {
    if Starts(h) {
      var q, t := BeforeSettling(p, h), p.service.nextTask;
      Leaks.TasksAfter(p.service, Call(h));
      assert t !in p.attempts && q.attempts == p.attempts[t := Begun(h)];
      if h.Unmount? {
        if u :| u in p.attempts && !p.attempts[u].Cleanup? { assert u in q.attempts; }
      } else {
        assert t in q.attempts && !q.attempts[t].Cleanup?;
      }
      SettledUnderway(q, t);
    } else if h.Resume? {
      Leaks.TasksAfter(p.service, h.e);
      SettledUnderway(BeforeSettling(p, h), h.e.task);
    }
  }

  lemma SettledAttempts(p: Provider, t: nat)
    requires t in p.attempts && (t in p.service.tasks || t in p.service.results)
    ensures var p' := SettleIfOver(p, t);
      p'.service == p.service && p'.attempts.Keys == if t in p.service.tasks then p.attempts.Keys else p.attempts.Keys - {t}
  {
  }

  lemma StepAttempts(p: Provider, h: Happening)
    requires p.attempts.Keys == p.service.tasks.Keys && Possible(p, h)
    ensures Happen(p, h).attempts.Keys == Happen(p, h).service.tasks.Keys
  {
    HappenRunsService(p, h);
    if Starts(h) {
      Leaks.TasksAfter(p.service, Call(h));
      SettledAttempts(BeforeSettling(p, h), p.service.nextTask);
    } else if h.Resume? {
      Leaks.TasksAfter(p.service, h.e);
      SettledAttempts(BeforeSettling(p, h), h.e.task);
    }
  }

  lemma StepInv(p: Provider, h: Happening)
    requires Inv(p) && Possible(p, h)
    ensures Inv(Happen(p, h))
  {
    StepReady(p, h);
    StepUnderway(p, h);
    StepAttempts(p, h);
    HappenRunsService(p, h);
    if Seen(h) != [] { Leaks.StepInv(p.service, Seen(h)[0]); }
  }

  // At any point of any history: the attempts still waiting are exactly those whose call is running, a
  // page at rest does not say that it is connecting, and the connections leaked are at most the calls
  // that began while another was running.
  lemma {:induction false} HistoryInv(p: Provider, hs: seq<Happening>)
    requires Inv(p) && ValidHistory(p, hs)
    ensures Inv(History(p, hs)) && |Orphans(History(p, hs).service)| <= History(p, hs).service.overlaps
    ensures Idle(History(p, hs)) ==> !History(p, hs).context.connecting
    decreases |hs|
  {
    if hs != [] {
      StepInv(p, hs[0]);
      HistoryInv(Happen(p, hs[0]), hs[1..]);
    } else {
      Leaks.InvBoundsOrphans(p.service);
    }
  }

  lemma FreshInv(saved: Option<string>, env: string)
    ensures Inv(Fresh(saved, env))
  {
    Leaks.BootInv(saved, env);
  }

  // ---- Waiting for an instance ----

  // A call that is over never runs again, so no later attempt takes its place.
  ghost predicate WaitsFor(p: Provider, t: nat, handle: Handle) {
    && p.attempts.Keys == p.service.tasks.Keys && Leaks.Fresh(p.service)
    && t < p.service.nextTask && t !in p.attempts && t in p.settling && p.settling[t] == handle
  }

  lemma StepWaitsFor(p: Provider, h: Happening, t: nat, handle: Handle)
    requires WaitsFor(p, t, handle) && Possible(p, h) && h != InstanceReady(t) && h != InstanceFailed(t)
    ensures WaitsFor(Happen(p, h), t, handle)
  {
    HappenRunsService(p, h);
    StepAttempts(p, h);
    if Starts(h) || h.Resume? {
      var e := Seen(h)[0];
      Leaks.StepFresh(p.service, e);
      Leaks.TasksAfter(p.service, e);
      SettledKeeps(BeforeSettling(p, h), Leaks.Actor(p.service, e), t);
    }
  }

  lemma SettledKeeps(p: Provider, u: nat, t: nat)
    requires u in p.attempts && (u in p.service.tasks || u in p.service.results) && t in p.settling && t != u
    ensures t in SettleIfOver(p, u).settling && SettleIfOver(p, u).settling[t] == p.settling[t]
  {
  }

  // An initial connect whose call is over waits for its instance until that is ready or fails, whatever
  // other attempts come, go or wait meanwhile.
  lemma {:induction false} WaitsUntilDecided(p: Provider, hs: seq<Happening>, t: nat, handle: Handle)
    requires WaitsFor(p, t, handle) && ValidHistory(p, hs)
    requires InstanceReady(t) !in hs && InstanceFailed(t) !in hs
    ensures Possible(History(p, hs), InstanceReady(t)) && History(p, hs).settling[t] == handle
    decreases |hs|
  {
    if hs != [] {
      StepWaitsFor(p, hs[0], t, handle);
      WaitsUntilDecided(Happen(p, hs[0]), hs[1..], t, handle);
    }
  }

  // ---- What the page shows, and when it is ready without an instance ----

  predicate Succeeds(p: Provider, h: Happening)
    requires Possible(p, h)
  {
    Verdict(p, h) == Some(true)
  }

  // The call of a change returns `api` at a moment when another call has cleared it.
  predicate NullReturn(p: Provider, h: Happening)
    requires Possible(p, h)
  {
    h.Resume? && h.e.ReadyResolved? && p.attempts[h.e.task].Change? && p.service.api == None
  }

  ghost predicate ShowsTheSame(p: Provider, p': Provider) {
    && p'.context.api == p.context.api && p'.context.endpoint == p.context.endpoint
    && (p'.context.ready ==> p.context.ready)
  }

  lemma SettleShows(p: Provider, t: nat)
    requires t in p.attempts && (t in p.service.tasks || t in p.service.results)
    ensures var p', verdict := SettleIfOver(p, t), CallVerdict(p.service, t, p.attempts[t]);
      if verdict == Some(true)
      then p'.context.ready && p.attempts[t].Change? && p.service.results[t] == Returned(p'.context.api)
      else ShowsTheSame(p, p')
  {
  }

  lemma NullReturned(s: State, e: Event)
    requires Enabled(s, e)
    ensures var s', t := Apply(s, e), Leaks.Actor(s, e);
      && (t in s'.tasks || t in s'.results)
      && (t !in s'.tasks && s'.results[t] == Returned(None) <==> e.ReadyResolved? && s.api == None)
  {
  }

  // A success makes the page ready, without an instance if it is a null return; nothing else changes the
  // instance or the endpoint shown.
  lemma StepShows(p: Provider, h: Happening)
    requires Possible(p, h)
    ensures var p' := Happen(p, h);
      if Succeeds(p, h)
      then p'.context.ready && (p'.context.api == None <==> NullReturn(p, h))
      else ShowsTheSame(p, p') && !NullReturn(p, h)
  {
    if Starts(h) {
      NullReturned(p.service, Call(h));
      SettleShows(BeforeSettling(p, h), p.service.nextTask);
    } else if h.Resume? {
      NullReturned(p.service, h.e);
      SettleShows(BeforeSettling(p, h), h.e.task);
    }
  }

  // The one way for the page to become ready without an instance.
  lemma LosesInstanceIff(p: Provider, h: Happening)
    requires Possible(p, h) && (p.context.ready ==> p.context.api.Some?)
    ensures Happen(p, h).context.ready && Happen(p, h).context.api == None <==> NullReturn(p, h)
  {
    StepShows(p, h);
  }

  // Whether the last success was a null return.
  predicate LastSuccessIsNull(p: Provider, hs: seq<Happening>, lost: bool)
    requires ValidHistory(p, hs)
    decreases |hs|
  {
    if hs == [] then lost
    else LastSuccessIsNull(Happen(p, hs[0]), hs[1..], if Succeeds(p, hs[0]) then NullReturn(p, hs[0]) else lost)
  }

  // In every history the page is ready without an instance exactly when the last verdict was good and
  // the last success was a null return: no later success has replaced it.
  lemma ReadyWithoutInstanceIff(p: Provider, hs: seq<Happening>)
    requires ValidHistory(p, hs) && (p.context.ready ==> p.context.api.Some?)
    ensures History(p, hs).context.ready && History(p, hs).context.api == None
      <==> LastVerdict(p, hs, p.context.ready) && LastSuccessIsNull(p, hs, false)
  {
    InstanceLost(p, hs, false);
    ReadyIsLastVerdict(p, hs);
  }

  lemma {:induction false} InstanceLost(p: Provider, hs: seq<Happening>, lost: bool)
    requires ValidHistory(p, hs) && (p.context.ready ==> (p.context.api == None <==> lost))
    ensures History(p, hs).context.ready ==> (History(p, hs).context.api == None <==> LastSuccessIsNull(p, hs, lost))
    decreases |hs|
  {
    if hs != [] {
      StepShows(p, hs[0]);
      InstanceLost(Happen(p, hs[0]), hs[1..], if Succeeds(p, hs[0]) then NullReturn(p, hs[0]) else lost);
    }
  }

  predicate NeverSucceeds(p: Provider, hs: seq<Happening>)
    requires ValidHistory(p, hs)
    decreases |hs|
  {
    hs == [] || (!Succeeds(p, hs[0]) && NeverSucceeds(Happen(p, hs[0]), hs[1..]))
  }

  // Attempts that fail leave the instance and the endpoint the page shows alone, and cannot make it ready.
  lemma {:induction false} FailuresChangeNothingShown(p: Provider, hs: seq<Happening>)
    requires ValidHistory(p, hs) && NeverSucceeds(p, hs)
    ensures ShowsTheSame(p, History(p, hs))
    decreases |hs|
  {
    if hs != [] {
      StepShows(p, hs[0]);
      FailuresChangeNothingShown(Happen(p, hs[0]), hs[1..]);
    }
  }

  predicate HeardIn(p: Provider, hs: seq<Happening>, handle: Handle)
    requires ValidHistory(p, hs)
    decreases |hs|
  {
    hs != [] &&
      ((hs[0].InstanceReady? && p.settling[hs[0].task] == handle) || HeardIn(Happen(p, hs[0]), hs[1..], handle))
  }

  // A drop of an instance can be noticed exactly when an initial connect waited for that instance and got
  // it: the page never listens to an instance that only a change has put in place.
  lemma {:induction false} HearsOnlyConnects(p: Provider, hs: seq<Happening>, handle: Handle)
    requires ValidHistory(p, hs)
    ensures Possible(History(p, hs), TransportDropped(handle)) <==> handle in p.listening || HeardIn(p, hs, handle)
    decreases |hs|
  {
    if hs != [] {
      StepHears(p, hs[0], handle);
      HearsOnlyConnects(Happen(p, hs[0]), hs[1..], handle);
    }
  }

  lemma StepHears(p: Provider, h: Happening, handle: Handle)
    requires Possible(p, h)
    ensures handle in Happen(p, h).listening <==>
      handle in p.listening || (h.InstanceReady? && p.settling[h.task] == handle)
  {
  }

  // ---- Agreement, when attempts do not overlap ----

  ghost predicate OneAttempt(p: Provider) {
    && p.attempts.Keys == p.service.tasks.Keys
    && (p.settling == map[] || p.attempts == map[])
    && (p.context.connecting <==> Underway(p))
    && (forall t :: t in p.settling ==> SettlesTo(p, t))
    && (forall t :: t in p.attempts ==>
          (p.attempts[t].Cleanup? ==> !p.mounted) && Aimed(p.service, p.attempts[t], t))
  }

  ghost predicate SettlesTo(p: Provider, t: nat)
    requires t in p.settling
  {
    p.settling.Keys == {t} && p.service.api == Some(p.settling[t]) && p.settling[t] in p.service.open
  }

  // What holds of a mounted context between attempts. Its endpoint is the connection manager's unless
  // the last attempt asked for the empty endpoint while another one was current.
  ghost predicate InStep(p: Provider) {
    p.last.Succeeded? ==>
      && p.service.api.Some? && p.service.api.value in p.service.open
      && p.context.api == p.service.api
      && (p.context.endpoint == p.service.current <==> p.last.attempt != Change("") || p.service.current == "")
  }

  ghost predicate Agrees(p: Provider) {
    Serial.Serial(p.service) && OneAttempt(p) && (Idle(p) && p.mounted ==> InStep(p))
  }

  // A change has put its endpoint in place unless it is still waiting for the old handle to close.
  ghost predicate Aimed(s: State, attempt: Attempt, t: nat) {
    attempt.Change? && attempt.endpoint != "" ==>
      if t in s.tasks && s.tasks[t].ClosingToReconnect?
      then s.tasks[t].request == Some(attempt.endpoint)
      else s.current == attempt.endpoint
  }

  lemma StepAimed(s: State, e: Event, attempt: Attempt, t: nat)
    requires Serial.Serial(s) && Enabled(s, e) && t == Leaks.Actor(s, e)
    requires if t in s.tasks then Aimed(s, attempt, t)
             else attempt.Change? ==> e.CallInitialize? && e.request == Some(attempt.endpoint)
    requires e.CallInitialize? || e.CallDisconnect? ==> s.tasks == map[]
    ensures Aimed(Apply(s, e), attempt, t) || (t !in Apply(s, e).tasks && !Apply(s, e).results[t].Returned?)
  {
  }

  // The state a settling attempt starts from: its call has just ended, and it is the only one.
  lemma SettleAgrees(p: Provider, t: nat)
    requires Serial.Serial(p.service) && p.service.tasks == map[] && p.settling == map[]
    requires p.attempts.Keys == {t} && t in p.service.results
    requires p.attempts[t].Cleanup? ==> !p.mounted
    requires p.context.connecting <==> !p.attempts[t].Cleanup?
    requires p.service.results[t].Returned? ==>
      && p.service.api.Some? && p.service.results[t].api == p.service.api && p.service.api.value in p.service.open
      && Aimed(p.service, p.attempts[t], t)
    ensures Agrees(Settle(p, t))
  {
  }

  lemma AttemptAgrees(p: Provider, q: Provider, t: nat, e: Event)
    requires Serial.Serial(p.service) && Enabled(p.service, e) && t == Leaks.Actor(p.service, e)
    requires e.CallInitialize? || e.CallDisconnect? ==> p.service.tasks == map[]
    requires q.service == Apply(p.service, e) && q.settling == map[]
    requires q.attempts.Keys == {t} && (q.attempts[t].Cleanup? ==> !q.mounted)
    requires q.context.connecting <==> !q.attempts[t].Cleanup?
    requires if t in p.service.tasks then Aimed(p.service, q.attempts[t], t)
             else q.attempts[t].Change? ==> e.CallInitialize? && e.request == Some(q.attempts[t].endpoint)
    requires t in p.service.tasks || p.service.tasks == map[]
    ensures (t in q.service.tasks || t in q.service.results) && Agrees(SettleIfOver(q, t))
  {
    Serial.OverlapsKept(p.service, e);
    Serial.StepSerial(p.service, e);
    Serial.StepReturnsApi(p.service, e);
    StepAimed(p.service, e, q.attempts[t], t);
    Leaks.OnlyActorMoves(p.service, e);
    if t in q.service.tasks {
      assert q.service.tasks.Keys == {t};
    } else {
      assert q.service.tasks.Keys == {};
      SettleAgrees(q, t);
    }
  }

  lemma HappenAgrees(p: Provider, h: Happening)
    requires Agrees(p) && Possible(p, h) && (Starts(h) ==> Idle(p))
    ensures Agrees(Happen(p, h))
  {
    var p' := Happen(p, h);
    if Starts(h) {
      var t := p.service.nextTask;
      assert p.service.tasks.Keys == {};
      var q := p.(service := Apply(p.service, Call(h)), attempts := p.attempts[t := Begun(h)],
                  context := if h.Unmount? then p.context else p.context.(connecting := true, error := None),
                  mounted := !h.Unmount?);
      AttemptAgrees(p, q, t, Call(h));
    } else if h.Resume? {
      var q := p.(service := Apply(p.service, h.e));
      assert p.attempts.Keys == {h.e.task};
      AttemptAgrees(p, q, h.e.task, h.e);
    }
  }

  lemma IdleStartsKeepOverlaps(p: Provider, h: Happening)
    requires OneAttempt(p) && Possible(p, h) && (Starts(h) ==> Idle(p))
    ensures Happen(p, h).service.overlaps == p.service.overlaps
  {
  }

  lemma {:induction false} HistoryAgrees(p: Provider, hs: seq<Happening>)
    requires Agrees(p) && ValidHistory(p, hs) && Serialized(p, hs)
    ensures Agrees(History(p, hs)) && History(p, hs).service.overlaps == p.service.overlaps
    decreases |hs|
  {
    if hs != [] {
      HappenAgrees(p, hs[0]);
      IdleStartsKeepOverlaps(p, hs[0]);
      HistoryAgrees(Happen(p, hs[0]), hs[1..]);
    }
  }

  // Serialized attempts, any of them failing anywhere, with transport drops anywhere: between attempts
  // a mounted page is ready exactly when the last verdict was good. After a success it shows the
  // connection manager's own open handle and, but for an empty request, its endpoint; and the connection
  // manager is at the last endpoint it was granted.
  lemma ContextAgreement(saved: Option<string>, env: string, hs: seq<Happening>)
    requires ValidHistory(Fresh(saved, env), hs) && Serialized(Fresh(saved, env), hs)
    requires Idle(History(Fresh(saved, env), hs)) && History(Fresh(saved, env), hs).mounted
    ensures var p := History(Fresh(saved, env), hs);
      && p.context.ready == LastVerdict(Fresh(saved, env), hs, false)
      && (p.context.ready ==> p.last.Succeeded?) && InStep(p)
      && p.service.current == Serial.LastGranted(DefaultEndpoint(saved, env), EventsOf(hs))
      && Orphans(p.service) == {}
  {
    var p0 := Fresh(saved, env);
    HistoryAgrees(p0, hs);
    FreshInv(saved, env);
    HistoryInv(p0, hs);
    ReadyIsLastVerdict(p0, hs);
    HistoryRunsService(p0, hs);
    assert History(p0, hs).service.tasks.Keys == {};
    Serial.SerializedEndsAtLastGranted(p0.service, EventsOf(hs));
  }

  // After serialized attempts that all failed, the page still shows what it showed, while the
  // connection manager has moved to the last endpoint it was granted.
  lemma FailedChangeSplitsEndpoints(p: Provider, hs: seq<Happening>)
    requires Agrees(p) && Idle(p) && ValidHistory(p, hs) && Serialized(p, hs)
    requires Idle(History(p, hs)) && NeverSucceeds(p, hs)
    ensures var p' := History(p, hs);
      && p'.context.endpoint == p.context.endpoint && p'.context.api == p.context.api
      && p'.service.current == Serial.LastGranted(p.service.current, EventsOf(hs))
  {
    HistoryAgrees(p, hs);
    HistoryRunsService(p, hs);
    FailuresChangeNothingShown(p, hs);
    assert p.service.tasks.Keys == {} && History(p, hs).service.tasks.Keys == {};
    Serial.SerializedEndsAtLastGranted(p.service, EventsOf(hs));
  }

  // Without overlaps the page says that it is connecting exactly while a change or an initial connect is
  // under way.
  lemma SerializedConnectingIff(saved: Option<string>, env: string, hs: seq<Happening>)
    requires ValidHistory(Fresh(saved, env), hs) && Serialized(Fresh(saved, env), hs)
    ensures History(Fresh(saved, env), hs).context.connecting <==> Underway(History(Fresh(saved, env), hs))
  {
    HistoryAgrees(Fresh(saved, env), hs);
  }

  // ---- After the page is gone ----

  // Whether the last cleanup's disconnect was refused.
  predicate Refused(p: Provider, h: Happening, refused: bool)
    requires Possible(p, h)
  {
    if h.Unmount? then false
    else refused || (h.Resume? && h.e.DisconnectRejected? && p.attempts[h.e.task].Cleanup?)
  }

  predicate LastCleanupRefused(p: Provider, hs: seq<Happening>, refused: bool)
    requires ValidHistory(p, hs)
    decreases |hs|
  {
    if hs == [] then refused else LastCleanupRefused(Happen(p, hs[0]), hs[1..], Refused(p, hs[0], refused))
  }

  // An unmounted page is cleaning up, or has done so.
  ghost predicate Gone(p: Provider, refused: bool) {
    !p.mounted ==>
      && p.settling == map[]
      && (forall t :: t in p.attempts ==>
            p.attempts[t].Cleanup? && t in p.service.tasks && p.service.tasks[t].Disconnecting? && !refused)
      && (p.attempts == map[] ==> (p.service.api == None <==> !refused))
  }

  lemma HappenGone(p: Provider, h: Happening, refused: bool)
    requires Agrees(p) && Gone(p, refused) && Possible(p, h) && (Starts(h) ==> Idle(p))
    ensures Gone(Happen(p, h), Refused(p, h, refused))
  {
    if Starts(h) { assert p.service.tasks.Keys == {}; }
    if h.Resume? { assert p.attempts.Keys == {h.e.task}; }
  }

  lemma {:induction false} HistoryGone(p: Provider, hs: seq<Happening>, refused: bool)
    requires Agrees(p) && Gone(p, refused) && ValidHistory(p, hs) && Serialized(p, hs)
    ensures Agrees(History(p, hs)) && Gone(History(p, hs), LastCleanupRefused(p, hs, refused))
    decreases |hs|
  {
    if hs != [] {
      HappenAgrees(p, hs[0]);
      HappenGone(p, hs[0], refused);
      HistoryGone(Happen(p, hs[0]), hs[1..], Refused(p, hs[0], refused));
    }
  }

  // An unmounted page at rest has no `api` and no open connection, exactly unless the disconnect of its
  // last cleanup was refused.
  lemma UnmountedIsClosed(saved: Option<string>, env: string, hs: seq<Happening>)
    requires ValidHistory(Fresh(saved, env), hs) && Serialized(Fresh(saved, env), hs)
    requires Idle(History(Fresh(saved, env), hs)) && !History(Fresh(saved, env), hs).mounted
    ensures var s := History(Fresh(saved, env), hs).service;
      && (s.api == None <==> !LastCleanupRefused(Fresh(saved, env), hs, false))
      && (s.api == None ==> s.open == {})
  {
    HistoryGone(Fresh(saved, env), hs, false);
  }

  // ---- Requests that name an endpoint ----

  ghost predicate NeverEmpty(p: Provider) {
    && p.last != Succeeded(Change(""))
    && forall t :: t in p.attempts ==> p.attempts[t] != Change("")
  }

  lemma StepStaysNamed(p: Provider, h: Happening)
    requires NeverEmpty(p) && Possible(p, h) && (h.ChangeEndpoint? ==> h.endpoint != "")
    ensures NeverEmpty(Happen(p, h))
  {
  }

  lemma {:induction false} NamedRequestsStayNamed(p: Provider, hs: seq<Happening>)
    requires NeverEmpty(p) && ValidHistory(p, hs)
    requires forall h :: h in hs && h.ChangeEndpoint? ==> h.endpoint != ""
    ensures NeverEmpty(History(p, hs))
    decreases |hs|
  {
    if hs != [] {
      assert hs[0] in hs;
      assert forall h :: h in hs[1..] ==> h in hs;
      StepStaysNamed(p, hs[0]);
      NamedRequestsStayNamed(Happen(p, hs[0]), hs[1..]);
    }
  }

  // With the selector's guard against empty endpoints, the page's endpoint is the current one.
  lemma GuardedContextAgrees(saved: Option<string>, env: string, hs: seq<Happening>)
    requires ValidHistory(Fresh(saved, env), hs) && Serialized(Fresh(saved, env), hs)
    requires Idle(History(Fresh(saved, env), hs)) && History(Fresh(saved, env), hs).mounted
    requires forall h :: h in hs && h.ChangeEndpoint? ==> h.endpoint != ""
    ensures var p := History(Fresh(saved, env), hs);
      p.last.Succeeded? ==> p.context.endpoint == p.service.current && p.context.api == p.service.api
  {
    ContextAgreement(saved, env, hs);
    NamedRequestsStayNamed(Fresh(saved, env), hs);
  }

  // ---- What overlapping attempts break ----

  lemma Precede(p: Provider, h: Happening, hs: seq<Happening>)
    requires Possible(p, h) && ValidHistory(Happen(p, h), hs)
    ensures ValidHistory(p, [h] + hs) && History(p, [h] + hs) == History(Happen(p, h), hs)
  {
  }

  function FirstMount(): seq<Happening> {
    [Mount(true), Resume(CreateResolved(0)), Resume(ReadyResolved(0, true)), InstanceReady(0)]
  }

  // Nothing fails: a first mount ends at a ready page that shows, and listens to, an open instance at the
  // endpoint the page was loaded with.
  lemma FirstMountConnects(saved: Option<string>, env: string)
    requires DefaultEndpoint(saved, env) != ""
    ensures ValidHistory(Fresh(saved, env), FirstMount())
    ensures var p, h := History(Fresh(saved, env), FirstMount()), Handle(0, DefaultEndpoint(saved, env));
      && p.context == Context(Some(h), true, false, None, DefaultEndpoint(saved, env))
      && p.service.open == {h} && h in p.listening && Idle(p)
  {
    var hs, p0 := FirstMount(), Fresh(saved, env);
    var p1 := Happen(p0, hs[0]);
    assert p1.service.tasks == map[0 := Creating(p0.service.current)] && p1.attempts == map[0 := Connect];
    CreatedConnects(p1);
    Precede(p0, hs[0], [hs[1], hs[2], hs[3]]);
    assert hs == [hs[0]] + [hs[1], hs[2], hs[3]];
  }

  lemma CreatedConnects(p: Provider)
    requires p.service.tasks == map[0 := Creating(p.service.current)] && p.attempts == map[0 := Connect]
    requires p.service.current != "" && p.settling == map[] && p.service.open == {} && p.service.nextHandle == 0
    requires p.context.error == None
    ensures var hs, h := [Resume(CreateResolved(0)), Resume(ReadyResolved(0, true)), InstanceReady(0)], Handle(0, p.service.current);
      && ValidHistory(p, hs)
      && History(p, hs).context == Context(Some(h), true, false, None, p.service.current)
      && History(p, hs).service.open == {h} && h in History(p, hs).listening && Idle(History(p, hs))
  {
    var hs := [Resume(CreateResolved(0)), Resume(ReadyResolved(0, true)), InstanceReady(0)];
    var p2 := Happen(p, hs[0]);
    assert p2.service.tasks == map[0 := AwaitingReady] && p2.attempts == map[0 := Connect];
    var p3 := Happen(p2, hs[1]);
    assert p3.attempts == map[] && p3.settling == map[0 := p2.service.api.value];
    Precede(p3, hs[2], []);
    Precede(p2, hs[1], [hs[2]]);
    Precede(p, hs[0], [hs[1]] + [hs[2]]);
    assert hs == [hs[0]] + ([hs[1]] + [hs[2]]);
  }

  function StartOfChange(t: nat, b: string): seq<Happening> {
    [ChangeEndpoint(b, true), Resume(DisconnectResolved(t)), Resume(CreateResolved(t))]
  }

  function Overtaking(t: nat, c: string): seq<Happening> {
    [ChangeEndpoint(c, true), Resume(DisconnectResolved(t + 1)), Resume(ReadyResolved(t, true))]
  }

  // A change overtaken by another while its handle gets ready returns null: the page then calls itself
  // ready without an instance, at an endpoint that is no longer the current one.
  lemma ReadyWithoutInstance(p: Provider, b: string, c: string)
    requires Agrees(p) && Idle(p) && p.mounted && p.service.api.Some? && p.service.api.value in p.service.open
    requires b !in {"", c, p.service.current} && c != ""
    ensures ValidHistory(p, StartOfChange(p.service.nextTask, b) + Overtaking(p.service.nextTask, c))
    ensures var p' := History(p, StartOfChange(p.service.nextTask, b) + Overtaking(p.service.nextTask, c));
      p'.context.ready && p'.context.api == None && p'.context.endpoint == b && p'.service.current == c
  {
    var t := p.service.nextTask;
    var p' := StartChange(p, b);
    Overtake(p', t, b, c);
  }

  ghost predicate GettingReady(p: Provider, t: nat, b: string) {
    && t in p.service.tasks && p.service.tasks[t] == AwaitingReady && t in p.attempts && p.attempts[t] == Change(b)
    && p.mounted && p.service.api.Some? && p.service.api.value in p.service.open
    && p.service.nextTask == t + 1 && p.service.current == b
  }

  // The state reached when the change's handle is getting ready, from which any history may go on.
  lemma StartChange(p: Provider, b: string) returns (p': Provider)
    requires Agrees(p) && Idle(p) && p.mounted && p.service.api.Some? && p.service.api.value in p.service.open
    requires b !in {"", p.service.current}
    ensures GettingReady(p', p.service.nextTask, b)
    ensures forall gs :: ValidHistory(p', gs) ==>
      var hs := StartOfChange(p.service.nextTask, b) + gs; ValidHistory(p, hs) && History(p, hs) == History(p', gs)
  {
    var t, h := p.service.nextTask, p.service.api.value;
    assert p.service.tasks.Keys == {};
    var hs := StartOfChange(t, b);
    var p1 := Happen(p, hs[0]);
    assert p1.service.tasks[t] == ClosingToReconnect(Some(b), b, h) && p1.attempts[t] == Change(b);
    var p2 := Happen(p1, hs[1]);
    assert p2.service.tasks[t] == Creating(b) && p2.attempts[t] == Change(b);
    p' := Happen(p2, hs[2]);
    forall gs | ValidHistory(p', gs) ensures ValidHistory(p, hs + gs) && History(p, hs + gs) == History(p', gs) {
      Precede(p2, hs[2], gs);
      Precede(p1, hs[1], [hs[2]] + gs);
      Precede(p, hs[0], [hs[1]] + ([hs[2]] + gs));
      assert hs + gs == [hs[0]] + ([hs[1]] + ([hs[2]] + gs));
    }
  }

  lemma Overtake(p: Provider, t: nat, b: string, c: string)
    requires GettingReady(p, t, b) && c !in {"", b}
    ensures ValidHistory(p, Overtaking(t, c))
    ensures var p' := History(p, Overtaking(t, c));
      p'.context.ready && p'.context.api == None && p'.context.endpoint == b && p'.service.current == c
  {
    var hs := Overtaking(t, c);
    var p1 := Happen(p, hs[0]);
    assert p1.service.tasks[t + 1] == ClosingToReconnect(Some(c), c, p.service.api.value);
    var p2 := Happen(p1, hs[1]);
    assert p2.service.api == None && p2.service.tasks[t] == AwaitingReady && p2.service.current == c;
    var p3 := Happen(p2, hs[2]);
    Precede(p2, hs[2], []);
    Precede(p1, hs[1], [hs[2]]);
    Precede(p, hs[0], [hs[1]] + [hs[2]]);
    assert hs == [hs[0]] + ([hs[1]] + [hs[2]]);
  }
}
