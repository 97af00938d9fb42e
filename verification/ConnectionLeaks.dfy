// How many connections overlapping calls can leak, which events leak one, and that a leak is final.
module ConnectionLeaks {
  import opened Options
  import opened Connection

  // ---- The invariant behind the bound ----

  function Working(s: State): set<nat> {
    set t | t in s.tasks && (Closing(s.tasks[t]) || s.tasks[t].Creating?)
  }

  function Reopening(s: State): set<Handle> {
    set t | t in s.tasks && s.tasks[t].Reconnecting? :: s.tasks[t].handle
  }

  function ApiHandle(s: State): set<Handle> { if s.api.Some? then {s.api.value} else {} }

  // Handles that are open or may still become so: the open ones, `api`, and those being reopened.
  function Held(s: State): set<Handle> { s.open + ApiHandle(s) + Reopening(s) }

  predicate SomeCreating(s: State) { exists t :: t in s.tasks && s.tasks[t].Creating? }

  // The leader's own target still counts as held although the leader is about to close it.
  predicate LeaderPaysBack(s: State) {
    && s.leader in s.tasks && Closing(s.tasks[s.leader])
    && s.tasks[s.leader].closing in Held(s) - Reopening(s)
  }

  function One(b: bool): nat { if b then 1 else 0 }

  ghost predicate Accounted(s: State) {
    |Held(s)| + |Working(s)| <= s.overlaps + One(s.api.Some? || SomeCreating(s)) + One(LeaderPaysBack(s))
  }

  ghost predicate Fresh(s: State) {
    && (forall t :: t in s.tasks ==> t < s.nextTask)
    && (s.tasks != map[] ==> s.leader < s.nextTask)
    && (forall h :: h in Held(s) ==> h.id < s.nextHandle)
    && (forall t :: t in s.tasks && Closing(s.tasks[t]) ==> s.tasks[t].closing.id < s.nextHandle)
  }

  // A call that has created its handle never sees the handle the leader set out to close as `api`.
  ghost predicate LeaderTargetGone(s: State) {
    s.leader in s.tasks && Closing(s.tasks[s.leader]) ==>
      forall t :: t in s.tasks && s.tasks[t].AwaitingReady? ==> s.api != Some(s.tasks[s.leader].closing)
  }

  ghost predicate Inv(s: State) { Accounted(s) && Fresh(s) && LeaderTargetGone(s) }

  lemma SubsetCard<T>(a: set<T>, b: set<T>)
    requires a <= b
    ensures |a| <= |b|
    ensures a < b ==> |a| < |b|
  {
    assert b == a + (b - a);
    assert |b| == |a| + |b - a|;
    if a < b {
      var x :| x in b && x !in a;
      assert x in b - a;
    }
  }

  // The task an event starts or resumes.
  function Actor(s: State, e: Event): nat {
    if e.CallInitialize? || e.CallDisconnect? then s.nextTask else e.task
  }

  lemma OnlyActorMoves(s: State, e: Event)
    requires Enabled(s, e)
    ensures forall t :: t != Actor(s, e) ==>
      (t in Apply(s, e).tasks <==> t in s.tasks) && (t in s.tasks ==> Apply(s, e).tasks[t] == s.tasks[t])
  {
  }

  lemma TasksAfter(s: State, e: Event)
    requires Enabled(s, e)
    ensures var s', t := Apply(s, e), Actor(s, e);
      && (t in s'.tasks || t in s'.results)
      && s'.tasks.Keys == if t in s'.tasks then s.tasks.Keys + {t} else s.tasks.Keys - {t}
  {
    OnlyActorMoves(s, e);
  }

  lemma StepFresh(s: State, e: Event)
    requires Fresh(s) && Enabled(s, e)
    ensures Fresh(Apply(s, e))
  {
    StepFreshTasks(s, e);
    StepFreshHeld(s, e);
    StepFreshClosing(s, e);
  }

  lemma StepFreshTasks(s: State, e: Event)
    requires Fresh(s) && Enabled(s, e)
    ensures var s' := Apply(s, e);
      (forall t :: t in s'.tasks ==> t < s'.nextTask) && (s'.tasks != map[] ==> s'.leader < s'.nextTask)
  {
    OnlyActorMoves(s, e);
  }

  lemma StepFreshHeld(s: State, e: Event)
    requires Fresh(s) && Enabled(s, e)
    ensures forall h :: h in Held(Apply(s, e)) ==> h.id < Apply(s, e).nextHandle
  {
    forall h | h in Held(Apply(s, e)) ensures h.id < Apply(s, e).nextHandle { HeldGrowth(s, e, h); }
  }

  // A call that starts to close a handle closes `api`, which is held.
  lemma StepFreshClosing(s: State, e: Event)
    requires Fresh(s) && Enabled(s, e)
    ensures var s' := Apply(s, e);
      forall t :: t in s'.tasks && Closing(s'.tasks[t]) ==> s'.tasks[t].closing.id < s'.nextHandle
  {
    OnlyActorMoves(s, e);
    var s', t := Apply(s, e), Actor(s, e);
    if t in s'.tasks && Closing(s'.tasks[t]) { assert s'.tasks[t].closing in ApiHandle(s); }
  }

  // A handle becomes held only by being created.
  lemma HeldGrowth(s: State, e: Event, h: Handle)
    requires Enabled(s, e) && h in Held(Apply(s, e))
    ensures h in Held(s) || (e.CreateResolved? && h.id == s.nextHandle)
  {
  }

  lemma StepLeaderTarget(s: State, e: Event)
    requires Fresh(s) && LeaderTargetGone(s) && Enabled(s, e)
    ensures LeaderTargetGone(Apply(s, e))
  {
  }

  // What one event does to the two sets the accounting measures.
  lemma HeldShrinks(s: State, e: Event)
    requires Enabled(s, e) && !e.CreateResolved?
    ensures Held(Apply(s, e)) <= Held(s)
    ensures |Held(Apply(s, e))| <= |Held(s)|
  {
    forall h | h in Held(Apply(s, e)) ensures h in Held(s) { HeldGrowth(s, e, h); }
    SubsetCard(Held(Apply(s, e)), Held(s));
  }

  lemma OffByOne(a: set<nat>, b: set<nat>, t: nat)
    requires a - {t} == b - {t}
    ensures |a| - One(t in a) == |b| - One(t in b)
  {
    assert |a - {t}| == |a| - One(t in a);
    assert |b - {t}| == |b| - One(t in b);
  }

  lemma WorkingChanges(s: State, e: Event)
    requires Enabled(s, e)
    ensures |Working(Apply(s, e))| - One(Actor(s, e) in Working(Apply(s, e)))
         == |Working(s)| - One(Actor(s, e) in Working(s))
  {
    var s', t := Apply(s, e), Actor(s, e);
    OnlyActorMoves(s, e);
    forall u | u != t ensures u in Working(s) <==> u in Working(s') {}
    assert Working(s') - {t} == Working(s) - {t};
    OffByOne(Working(s'), Working(s), t);
  }

  lemma CreatingChanges(s: State, e: Event)
    requires Fresh(s) && Enabled(s, e) && SomeCreating(s)
    ensures SomeCreating(Apply(s, e)) || e.CreateResolved? || e.CreateRejected?
  {
    OnlyActorMoves(s, e);
    var u :| u in s.tasks && s.tasks[u].Creating?;
    if u != Actor(s, e) { assert u in Apply(s, e).tasks; }
  }

  // The leader's claim is lost only when the leader moves, when the handle is no longer held,
  // or when a new call starts to reopen that handle.
  lemma ClaimLost(s: State, e: Event)
    requires Fresh(s) && LeaderTargetGone(s) && Enabled(s, e)
    requires LeaderPaysBack(s) && !LeaderPaysBack(Apply(s, e)) && s.leader != Actor(s, e)
    ensures s.tasks[s.leader].closing !in Held(Apply(s, e)) || e.CallInitialize?
  {
  }

  lemma LosesOne(a: set<Handle>, b: set<Handle>, g: Handle)
    requires a <= b && g in b && g !in a
    ensures |a| < |b|
  {
    SubsetCard(a, b);
  }

  // The arithmetic of one step: what the left side gains is covered by what the right side gains.
  lemma Balance(s: State, s': State, held: int, working: int, called: int, creating: int, claim: int)
    requires Accounted(s)
    requires |Held(s')| <= |Held(s)| + held && |Working(s')| <= |Working(s)| + working
    requires s'.overlaps == s.overlaps + called
    requires One(s'.api.Some? || SomeCreating(s')) >= One(s.api.Some? || SomeCreating(s)) + creating
    requires One(LeaderPaysBack(s')) >= One(LeaderPaysBack(s)) + claim
    requires held + working <= called + creating + claim
    ensures Accounted(s')
  {
  }

  lemma CallAccounted(s: State, e: Event)
    requires Inv(s) && Enabled(s, e) && (e.CallInitialize? || e.CallDisconnect?)
    ensures Accounted(Apply(s, e))
  {
    WorkingChanges(s, e);
    HeldShrinks(s, e);
    assert s.nextTask !in Working(s);
    if s.tasks == map[] { FirstCall(s, e); } else { OverlappingCall(s, e); }
  }

  // A call that overlaps another brings its own credit, unless it is spent on reopening a handle.
  lemma OverlappingCall(s: State, e: Event)
    requires Inv(s) && Enabled(s, e) && (e.CallInitialize? || e.CallDisconnect?) && s.tasks != map[]
    requires |Held(Apply(s, e))| <= |Held(s)|
    requires |Working(Apply(s, e))| == |Working(s)| + One(s.nextTask in Working(Apply(s, e)))
    ensures Accounted(Apply(s, e))
  {
    var s', t := Apply(s, e), s.nextTask;
    if SomeCreating(s) { CreatingChanges(s, e); }
    CallKeepsApi(s, e);
    if t in Working(s') {
      ClaimSurvivesWork(s, e);
      Balance(s, s', 0, 1, 1, 0, 0);
    } else {
      Balance(s, s', 0, 0, 1, 0, -1);
    }
  }

  lemma CallKeepsApi(s: State, e: Event)
    requires Enabled(s, e) && (e.CallInitialize? || e.CallDisconnect?)
    ensures Apply(s, e).api == s.api && Apply(s, e).open == s.open
    ensures Apply(s, e).overlaps == s.overlaps + One(s.tasks != map[])
    ensures Apply(s, e).leader == if s.tasks == map[] then s.nextTask else s.leader
  {
  }

  lemma ClaimSurvivesWork(s: State, e: Event)
    requires Fresh(s) && Enabled(s, e) && (e.CallInitialize? || e.CallDisconnect?) && s.tasks != map[]
    requires s.nextTask in Working(Apply(s, e))
    ensures LeaderPaysBack(s) ==> LeaderPaysBack(Apply(s, e))
  {
  }

  lemma FirstCall(s: State, e: Event)
    requires Inv(s) && Enabled(s, e) && (e.CallInitialize? || e.CallDisconnect?) && s.tasks == map[]
    requires |Held(Apply(s, e))| <= |Held(s)|
    requires |Working(Apply(s, e))| == |Working(s)| + One(s.nextTask in Working(Apply(s, e)))
    ensures Accounted(Apply(s, e))
  {
    var s', t := Apply(s, e), s.nextTask;
    CallKeepsApi(s, e);
    assert !LeaderPaysBack(s) && !SomeCreating(s);
    if t !in Working(s') {
      Balance(s, s', 0, 0, 0, 0, 0);
    } else if s.api.Some? {
      assert s'.tasks[t].closing == s.api.value;
      assert s'.tasks.Keys == {t};
      assert Reopening(s') == {};
      assert LeaderPaysBack(s');
      Balance(s, s', 0, 1, 0, 0, 1);
    } else {
      assert t in s'.tasks && s'.tasks[t].Creating?;
      Balance(s, s', 0, 1, 0, 1, 0);
    }
  }

  // The new handle takes the place of the task that was creating it.
  lemma CreateAccounted(s: State, e: Event)
    requires Inv(s) && Enabled(s, e) && e.CreateResolved?
    ensures Accounted(Apply(s, e))
  {
    var s', t := Apply(s, e), e.task;
    WorkingChanges(s, e);
    assert t in Working(s) && t !in Working(s');
    var h := s'.api.value;
    var rest := Held(s') - {h};
    assert |Held(s')| == |rest| + 1;
    assert rest <= Held(s) by {
      forall g | g in rest ensures g in Held(s) { HeldGrowth(s, e, g); }
    }
    SubsetCard(rest, Held(s));
    if LeaderPaysBack(s) && !LeaderPaysBack(s') {
      ClaimLost(s, e);
      LosesOne(rest, Held(s), s.tasks[s.leader].closing);
      Balance(s, s', 0, -1, 0, 0, -1);
    } else {
      Balance(s, s', 1, -1, 0, 0, 0);
    }
  }

  lemma ResumeAccounted(s: State, e: Event)
    requires Inv(s) && Enabled(s, e) && !e.CallInitialize? && !e.CallDisconnect? && !e.CreateResolved?
    ensures Accounted(Apply(s, e))
  {
    var s', t := Apply(s, e), e.task;
    WorkingChanges(s, e);
    HeldShrinks(s, e);
    ResumeCounts(s, e);
    var working := One(t in Working(s')) - One(t in Working(s));
    if LeaderPaysBack(s) && !LeaderPaysBack(s') {
      if s.leader == t && !e.DisconnectResolved? {
        Balance(s, s', 0, -1, 0, 0, -1);
      } else {
        ClaimCosts(s, e);
        Balance(s, s', -1, working, 0, working, -1);
      }
    } else {
      Balance(s, s', 0, working, 0, working, 0);
    }
  }

  // A task that stops working may take `api` with it; one that goes on working leaves a create behind.
  lemma ResumeCounts(s: State, e: Event)
    requires Inv(s) && Enabled(s, e) && !e.CallInitialize? && !e.CallDisconnect? && !e.CreateResolved?
    ensures Apply(s, e).overlaps == s.overlaps
    ensures One(Apply(s, e).api.Some? || SomeCreating(Apply(s, e))) >= One(s.api.Some? || SomeCreating(s))
      + One(e.task in Working(Apply(s, e))) - One(e.task in Working(s))
    ensures e.task in Working(Apply(s, e)) ==> e.task in Working(s)
    ensures s.leader == e.task && LeaderPaysBack(s) && !e.DisconnectResolved? ==>
      e.task in Working(s) && e.task !in Working(Apply(s, e)) && Apply(s, e).api == s.api
        && (SomeCreating(s) ==> SomeCreating(Apply(s, e)))
  {
    if SomeCreating(s) { CreatingChanges(s, e); }
    ResumeWorks(s, e);
    if e.task in Working(Apply(s, e)) { assert Apply(s, e).tasks[e.task].Creating?; }
  }

  // Only the end of a disconnect goes on working, by creating; only it and a failed create give up a credit.
  lemma ResumeWorks(s: State, e: Event)
    requires Enabled(s, e) && !e.CallInitialize? && !e.CallDisconnect? && !e.CreateResolved?
    ensures var s' := Apply(s, e);
      && s'.overlaps == s.overlaps
      && (e.task in Working(s') ==> e.DisconnectResolved? && s'.tasks[e.task].Creating?)
      && (e.DisconnectResolved? || e.DisconnectRejected? || e.CreateRejected? <==> e.task in Working(s))
      && (!e.DisconnectResolved? ==> s'.api == s.api)
  {
  }

  lemma ClaimCosts(s: State, e: Event)
    requires Inv(s) && Enabled(s, e) && !e.CallInitialize? && !e.CallDisconnect? && !e.CreateResolved?
    requires LeaderPaysBack(s) && !LeaderPaysBack(Apply(s, e))
    requires s.leader == e.task ==> e.DisconnectResolved?
    ensures |Held(Apply(s, e))| <= |Held(s)| - 1
  {
    var g := s.tasks[s.leader].closing;
    HeldShrinks(s, e);
    if s.leader != e.task { ClaimLost(s, e); } else { LeaderLetsGo(s, e); }
    LosesOne(Held(Apply(s, e)), Held(s), g);
  }

  lemma LeaderLetsGo(s: State, e: Event)
    requires Enabled(s, e) && e.DisconnectResolved? && s.leader == e.task && LeaderPaysBack(s)
    ensures s.tasks[s.leader].closing !in Held(Apply(s, e))
  {
  }

  lemma StepAccounted(s: State, e: Event)
    requires Inv(s) && Enabled(s, e)
    ensures Accounted(Apply(s, e))
  {
    if e.CallInitialize? || e.CallDisconnect? { CallAccounted(s, e); }
    else if e.CreateResolved? { CreateAccounted(s, e); }
    else { ResumeAccounted(s, e); }
  }

  lemma StepInv(s: State, e: Event)
    requires Inv(s) && Enabled(s, e)
    ensures Inv(Apply(s, e))
  {
    StepFresh(s, e);
    StepLeaderTarget(s, e);
    StepAccounted(s, e);
  }

  // ---- Whole runs ----

  lemma BootInv(saved: Option<string>, env: string)
    ensures Inv(Boot(saved, env))
  {
  }

  lemma {:induction false} RunInv(s: State, es: seq<Event>)
    requires Inv(s) && ValidRun(s, es)
    ensures Inv(Run(s, es))
    decreases |es|
  {
    if es != [] {
      StepInv(s, es[0]);
      RunInv(Apply(s, es[0]), es[1..]);
    }
  }

  lemma InvBoundsOrphans(s: State)
    requires Inv(s)
    ensures |Orphans(s)| <= s.overlaps
  {
    var claim, creating := One(LeaderPaysBack(s)), One(SomeCreating(s));
    WorkingAtLeast(s);
    if s.api.Some? {
      var a := s.api.value;
      assert Orphans(s) + {a} <= Held(s);
      assert |Orphans(s) + {a}| == |Orphans(s)| + 1;
      SubsetCard(Orphans(s) + {a}, Held(s));
    } else {
      SubsetCard(Orphans(s), Held(s));
    }
  }

  lemma WorkingAtLeast(s: State)
    ensures |Working(s)| >= One(LeaderPaysBack(s)) + One(SomeCreating(s))
  {
    if SomeCreating(s) {
      var t :| t in s.tasks && s.tasks[t].Creating?;
      var some := if LeaderPaysBack(s) then {t, s.leader} else {t};
      SubsetCard(some, Working(s));
    } else if LeaderPaysBack(s) {
      SubsetCard({s.leader}, Working(s));
    }
  }

  // In every interleaving of calls, with any of them failing at any await, the open connections that
  // `api` does not refer to are at most as many as the calls that began while another was running.
  lemma LeakBound(saved: Option<string>, env: string, es: seq<Event>)
    requires ValidRun(Boot(saved, env), es)
    ensures |Orphans(Run(Boot(saved, env), es))| <= Run(Boot(saved, env), es).overlaps
  {
    BootInv(saved, env);
    RunInv(Boot(saved, env), es);
    InvBoundsOrphans(Run(Boot(saved, env), es));
  }

  // Exactly three events orphan a connection: a create that overwrites `api`, a disconnect that
  // clears `api` after another call has replaced it, and a reconnect of a handle no longer in `api`.
  lemma OrphanedExactlyBy(s: State, e: Event, h: Handle)
    requires Fresh(s) && Enabled(s, e) && h !in Orphans(s)
    ensures h in Orphans(Apply(s, e)) <==>
      || (e.CreateResolved? && s.api == Some(h) && h in s.open)
      || (e.DisconnectResolved? && s.api == Some(h) && h in s.open && s.tasks[e.task].closing != h)
      || (e.ConnectResolved? && s.tasks[e.task].handle == h && s.api != Some(h))
  {
  }

  // ---- A leak is final ----

  ghost predicate Abandoned(s: State, h: Handle) {
    && h in Orphans(s)
    && h.id < s.nextHandle
    && forall t :: t in s.tasks && Closing(s.tasks[t]) ==> s.tasks[t].closing != h
  }

  // Once no running call is closing an orphan, no later call ever does: it stays open and unreferenced.
  lemma {:induction false} LeakIsFinal(s: State, es: seq<Event>, h: Handle)
    requires Abandoned(s, h) && ValidRun(s, es)
    ensures h in Orphans(Run(s, es))
    decreases |es|
  {
    if es != [] {
      OnlyActorMoves(s, es[0]);
      assert Abandoned(Apply(s, es[0]), h);
      LeakIsFinal(Apply(s, es[0]), es[1..], h);
    }
  }

  // ---- The bound is attained ----

  function Mounts(n: nat): seq<Event> { seq(n, _ => CallInitialize(None, true)) }

  function Creates(from: nat, n: nat): seq<Event>
    decreases n
  {
    if n == 0 then [] else [CreateResolved(from)] + Creates(from + 1, n - 1)
  }

  predicate AllCreating(s: State, from: nat) {
    forall t: nat :: from <= t < s.nextTask ==> t in s.tasks && s.tasks[t].Creating? && s.tasks[t].target != ""
  }

  lemma {:induction false} MountAll(s: State, n: nat)
    requires s.api.None? && s.current != "" && AllCreating(s, 0) && (s.tasks == map[] <==> s.nextTask == 0)
    ensures ValidRun(s, Mounts(n))
    ensures var s' := Run(s, Mounts(n));
      && s'.api.None? && s'.open == s.open && s'.nextHandle == s.nextHandle
      && s'.nextTask == s.nextTask + n && AllCreating(s', 0)
      && s'.overlaps == s.overlaps + n - One(s.nextTask == 0 && n > 0)
    decreases n
  {
    if n > 0 {
      var e := CallInitialize(None, true);
      assert Mounts(n)[0] == e && Mounts(n)[1..] == Mounts(n - 1);
      var s1 := Apply(s, e);
      assert s.nextTask in s1.tasks;
      MountAll(s1, n - 1);
    }
  }

  lemma CreateOver(s: State, t: nat)
    requires AllCreating(s, t) && t < s.nextTask
    requires s.api.Some? && s.api.value in s.open && (forall h :: h in s.open ==> h.id < s.nextHandle)
    ensures Enabled(s, CreateResolved(t))
    ensures var s' := Apply(s, CreateResolved(t));
      && |Orphans(s')| == |Orphans(s)| + 1 && s'.overlaps == s.overlaps && s'.nextTask == s.nextTask
      && AllCreating(s', t + 1) && s'.api.Some? && s'.api.value in s'.open
      && (forall h :: h in s'.open ==> h.id < s'.nextHandle)
  {
    assert Orphans(Apply(s, CreateResolved(t))) == Orphans(s) + {s.api.value};
  }

  lemma {:induction false} CreateAll(s: State, from: nat, n: nat)
    requires AllCreating(s, from) && from + n <= s.nextTask
    requires s.api.Some? && s.api.value in s.open && (forall h :: h in s.open ==> h.id < s.nextHandle)
    ensures ValidRun(s, Creates(from, n))
    ensures var s' := Run(s, Creates(from, n));
      |Orphans(s')| == |Orphans(s)| + n && s'.overlaps == s.overlaps
    decreases n
  {
    if n > 0 {
      assert Creates(from, n)[0] == CreateResolved(from) && Creates(from, n)[1..] == Creates(from + 1, n - 1);
      CreateOver(s, from);
      CreateAll(Apply(s, CreateResolved(from)), from + 1, n - 1);
    }
  }

  // n + 1 mounts whose creates all finish after the last mount leave n orphans: the bound is tight.
  lemma LeakBoundAttained(saved: Option<string>, env: string, n: nat)
    requires DefaultEndpoint(saved, env) != ""
    ensures var es := Mounts(n + 1) + ([CreateResolved(0)] + Creates(1, n));
      && ValidRun(Boot(saved, env), es)
      && Run(Boot(saved, env), es).overlaps == n
      && |Orphans(Run(Boot(saved, env), es))| == n
  {
    var s0 := Boot(saved, env);
    MountAll(s0, n + 1);
    var s1 := Run(s0, Mounts(n + 1));
    var s2 := Apply(s1, CreateResolved(0));
    assert Orphans(s2) == {};
    CreateAll(s2, 1, n);
    var rest := [CreateResolved(0)] + Creates(1, n);
    assert rest[0] == CreateResolved(0) && rest[1..] == Creates(1, n);
    RunConcat(s0, Mounts(n + 1), rest);
  }
}
