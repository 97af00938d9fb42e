// api.ts in its own form: module-level variables that each segment between two awaits reassigns.
module ApiServices {
  import opened Options
  import opened Connection
  import Leaks = ConnectionLeaks

  class ApiService {
    const env: string
    var saved: Option<string>
    var currentEndpoint: string
    var api: Option<Handle>
    var tasks: map<nat, Pc>          // the suspended calls
    var nextTask: nat
    var results: map<nat, Outcome>   // the ended calls
    // Only the account of what happened; no branch depends on it.
    var nextHandle: nat
    ghost var open: set<Handle>
    ghost var leader: nat
    ghost var overlaps: nat

    ghost function View(): State
      reads this
    {
      State(env, saved, currentEndpoint, api, open, nextHandle, tasks, nextTask, results, leader, overlaps)
    }

    constructor (saved: Option<string>, env: string)
      ensures View() == Boot(saved, env)
    {
      this.env, this.saved := env, saved;
      currentEndpoint := DefaultEndpoint(saved, env);
      api, tasks, nextTask, results, nextHandle := None, map[], 0, map[], 0;
      open, leader, overlaps := {}, 0, 0;
    }

    method Start() returns (t: nat)
      modifies this
      ensures t == old(nextTask) && View() == Begin(old(View()))
    {
      t := nextTask;
      if tasks == map[] { leader := t; } else { overlaps := overlaps + 1; }
      nextTask := nextTask + 1;
    }

    method Await(t: nat, pc: Pc)
      modifies this
      ensures View() == Suspend(old(View()), t, pc)
    {
      tasks := tasks[t := pc];
    }

    method Leave(t: nat, outcome: Outcome)
      modifies this
      ensures View() == End(old(View()), t, outcome)
    {
      tasks := tasks - {t};
      results := results[t := outcome];
    }

    static lemma KeepInv(s: State, e: Event)
      requires Enabled(s, e)
      ensures Leaks.Inv(s) ==> Leaks.Inv(Apply(s, e)) && |Orphans(Apply(s, e))| <= Apply(s, e).overlaps
    {
      if Leaks.Inv(s) {
        Leaks.StepInv(s, e);
        Leaks.InvBoundsOrphans(Apply(s, e));
      }
    }

    // initializeApi up to its first await.
    method InitializeApi(endpoint: Option<string>, connected: bool) returns (t: nat)
      requires Enabled(View(), CallInitialize(endpoint, connected))
      modifies this
      ensures t == old(nextTask)
      ensures View() == Apply(old(View()), CallInitialize(endpoint, connected))
      ensures old(Leaks.Inv(View())) ==> Leaks.Inv(View())
    {
      KeepInv(View(), CallInitialize(endpoint, connected));
      var wsEndpoint := if Names(endpoint) then endpoint.value else currentEndpoint;
      t := Start();
      if api.None? || endpoint != Some(currentEndpoint) {
        if api.Some? && endpoint != Some(currentEndpoint) {
          Await(t, ClosingToReconnect(endpoint, wsEndpoint, api.value));
          return;
        }
        Record(t, endpoint, wsEndpoint);
      } else {
        ReconnectOrReturn(t, connected);
      }
    }

    // Lines 41-59, reached at once or after the old handle is disconnected.
    method Record(t: nat, endpoint: Option<string>, wsEndpoint: string)
      modifies this
      ensures View() == RecordAndCreate(old(View()), t, endpoint, wsEndpoint)
    {
      if Names(endpoint) {
        currentEndpoint := endpoint.value;
        saved := endpoint;
      }
      Await(t, Creating(wsEndpoint));
    }

    method ReconnectOrReturn(t: nat, connected: bool)
      modifies this
      ensures View() == CheckConnected(old(View()), t, connected)
    {
      if api.Some? && !connected {
        Await(t, Reconnecting(api.value));
      } else {
        Leave(t, Returned(api));
      }
    }

    method DisconnectApi() returns (t: nat)
      modifies this
      ensures t == old(nextTask)
      ensures View() == Apply(old(View()), CallDisconnect)
      ensures old(Leaks.Inv(View())) ==> Leaks.Inv(View())
    {
      KeepInv(View(), CallDisconnect);
      t := Start();
      if api.Some? {
        Await(t, Disconnecting(api.value));
      } else {
        Leave(t, Closed);
      }
    }

    // The await of a disconnect, in initializeApi or in disconnectApi.
    method ResumeClosed(t: nat)
      requires Enabled(View(), DisconnectResolved(t))
      modifies this
      ensures View() == Apply(old(View()), DisconnectResolved(t))
      ensures old(Leaks.Inv(View())) ==> Leaks.Inv(View())
    {
      KeepInv(View(), DisconnectResolved(t));
      open := open - {tasks[t].closing};
      api := None;
      if tasks[t].Disconnecting? {
        Leave(t, Closed);
      } else {
        Record(t, tasks[t].request, tasks[t].target);
      }
    }

    method ResumeCreated(t: nat)
      requires Enabled(View(), CreateResolved(t))
      modifies this
      ensures View() == Apply(old(View()), CreateResolved(t))
      ensures old(Leaks.Inv(View())) ==> Leaks.Inv(View())
    {
      KeepInv(View(), CreateResolved(t));
      var created := Handle(nextHandle, tasks[t].target);
      nextHandle := nextHandle + 1;
      open := open + {created};
      api := Some(created);
      Await(t, AwaitingReady);
    }

    method ResumeReady(t: nat, connected: bool)
      requires Enabled(View(), ReadyResolved(t, connected))
      modifies this
      ensures View() == Apply(old(View()), ReadyResolved(t, connected))
      ensures old(Leaks.Inv(View())) ==> Leaks.Inv(View())
    {
      KeepInv(View(), ReadyResolved(t, connected));
      if tasks[t].AwaitingReady? {
        ReconnectOrReturn(t, connected);
      } else {
        Leave(t, Returned(api));
      }
    }

    method ResumeConnected(t: nat)
      requires Enabled(View(), ConnectResolved(t))
      modifies this
      ensures View() == Apply(old(View()), ConnectResolved(t))
      ensures old(Leaks.Inv(View())) ==> Leaks.Inv(View())
    {
      KeepInv(View(), ConnectResolved(t));
      open := open + {tasks[t].handle};
      if api.None? {
        Leave(t, Rejected);   // api.isReady on null
      } else {
        Await(t, AwaitingReadyAgain);
      }
    }

    // An await that throws: nothing catches it, so the call rejects.
    method ResumeRejected(t: nat, e: Event)
      requires e.DisconnectRejected? || e.CreateRejected? || e.ReadyRejected? || e.ConnectRejected?
      requires e.task == t && Enabled(View(), e)
      modifies this
      ensures View() == Apply(old(View()), e)
      ensures old(Leaks.Inv(View())) ==> Leaks.Inv(View())
    {
      KeepInv(View(), e);
      if e.DisconnectRejected? && e.closed {
        open := open - {tasks[t].closing};
      }
      Leave(t, Rejected);
    }

    // Runs the segment an event triggers. The invariant behind the leak bound survives each of them.
    method Deliver(e: Event) returns (t: nat)
      requires Enabled(View(), e)
      modifies this
      ensures View() == Apply(old(View()), e)
      ensures old(Leaks.Inv(View())) ==> Leaks.Inv(View()) && |Orphans(View())| <= overlaps
      ensures t == if e.CallInitialize? || e.CallDisconnect? then old(nextTask) else e.task
    {
      KeepInv(View(), e);
      match e
      case CallInitialize(request, connected) => t := InitializeApi(request, connected);
      case CallDisconnect => t := DisconnectApi();
      case DisconnectResolved(u) => t := u; ResumeClosed(u);
      case CreateResolved(u) => t := u; ResumeCreated(u);
      case ReadyResolved(u, connected) => t := u; ResumeReady(u, connected);
      case ConnectResolved(u) => t := u; ResumeConnected(u);
      case _ => t := e.task; ResumeRejected(e.task, e);
    }

    method GetCurrentEndpoint() returns (endpoint: string)
      ensures endpoint == currentEndpoint
    {
      endpoint := currentEndpoint;
    }
  }
}
