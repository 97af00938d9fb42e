// What holds of the extrinsic form over all histories.
module ExtrinsicsProofs {
  import opened Options
  import opened Texts
  import opened Extrinsics

  // ---- Counting ----

  lemma {:induction false} FilledBound(values: seq<Option<string>>)
    ensures Filled(values) <= |values|
    ensures Filled(values) == |values| <==> forall i :: 0 <= i < |values| ==> NonEmpty(values[i])
    decreases |values|
  {
    if values != [] {
      FilledBound(values[1..]);
      assert forall i :: 1 <= i < |values| ==> values[i] == values[1..][i - 1];
    }
  }

  predicate AllEntered(params: seq<Param>, values: seq<Option<string>>) {
    |values| == |params| && forall i :: 0 <= i < |values| ==> NonEmpty(values[i])
  }

  // With never more values than parameters, the button's count is enough.
  lemma EnabledMeansAllEntered(f: Form)
    requires |f.values| <= |f.params| && CanSubmit(f)
    ensures AllEntered(f.params, f.values)
  {
    FilledBound(f.values);
  }

  // ---- The invariant ----

  // A click on a form whose every resolved parameter was entered.
  ghost predicate Complete(c: Clicked) {
    && Resolve(Some(c.chain), c.moduleName, c.methodName) == Some(c.params) && AllEntered(c.params, c.values)
    && c.account in c.accounts
  }

  ghost predicate FormInv(f: Form) {
    && |f.values| <= |f.params|
    && (!f.effectDue && f.chain.Some? ==> Resolve(f.chain, f.moduleName, f.methodName) == Some(f.params))
    && ClicksComplete(f.jobs)
  }

  ghost predicate ClicksComplete(jobs: Jobs) {
    && (forall t :: t in jobs.live ==> Complete(jobs.live[t].clicked))
    && (forall b :: b in jobs.built ==> Complete(b.clicked) && b.call == Prepare(b.clicked))
  }

  // The busy flag stands for exactly the last submission begun, and a subscription for its last phase.
  ghost predicate BusyJobs(submitting: bool, jobs: Jobs) {
    && (submitting ==> jobs.next > 0 && jobs.live.Keys == {jobs.next - 1})
    && (!submitting ==> jobs.live.Keys == {})
    && (forall t :: t in jobs.subscriptions <==> t in jobs.live && jobs.live[t].phase == Subscribed)
    && jobs.next == jobs.ended + (if submitting then 1 else 0)
  }

  ghost predicate BusyInv(f: Form) { BusyJobs(f.submitting, f.jobs) }

  ghost predicate Inv(f: Form) { FormInv(f) && BusyInv(f) }

  // Submissions as they come and go: a call is built from a complete click, or nothing is built.
  ghost predicate JobsStep(jobs: Jobs, jobs': Jobs) {
    && (forall t :: t in jobs'.live ==>
          Complete(jobs'.live[t].clicked) || (t in jobs.live && jobs.live[t].clicked == jobs'.live[t].clicked))
    && (jobs'.built == jobs.built
        || exists t :: t in jobs.live && jobs'.built == jobs.built + [Built(jobs.live[t].clicked, Prepare(jobs.live[t].clicked))])
  }

  lemma StepClicks(jobs: Jobs, jobs': Jobs)
    requires ClicksComplete(jobs) && JobsStep(jobs, jobs')
    ensures ClicksComplete(jobs')
  {
  }

  lemma JobsAdvance(f: Form, h: Happening)
    requires Possible(f, h) && (h.SubmitClicked? && f.chain.Some? ==>
      Resolve(f.chain, f.moduleName, f.methodName) == Some(f.params) && AllEntered(f.params, f.values))
    ensures JobsStep(f.jobs, Happen(f, h).jobs)
  {
    var jobs, jobs' := f.jobs, Happen(f, h).jobs;
    if h.SubmitClicked? {
      assert jobs'.built == jobs.built;
    } else if h.InjectorFound? {
      var c := jobs.live[h.task].clicked;
      assert jobs'.built == jobs.built + [Built(c, Prepare(c))];
    } else {
      OthersKeepClicks(f, h);
    }
  }

  lemma OthersKeepClicks(f: Form, h: Happening)
    requires Possible(f, h) && !h.SubmitClicked? && !h.InjectorFound?
    ensures Happen(f, h).jobs.built == f.jobs.built
    ensures forall t :: t in Happen(f, h).jobs.live ==>
      t in f.jobs.live && f.jobs.live[t].clicked == Happen(f, h).jobs.live[t].clicked
  {
  }

  lemma StepForm(f: Form, h: Happening)
    requires FormInv(f) && Possible(f, h)
    ensures FormInv(Happen(f, h))
  {
    if h.SubmitClicked? { EnabledMeansAllEntered(f); }
    JobsAdvance(f, h);
    StepClicks(f.jobs, Happen(f, h).jobs);
  }

  lemma StepBusy(f: Form, h: Happening)
    requires BusyInv(f) && Possible(f, h)
    ensures BusyInv(Happen(f, h))
  {
  }

  lemma StepInv(f: Form, h: Happening)
    requires Inv(f) && Possible(f, h)
    ensures Inv(Happen(f, h))
  {
    StepForm(f, h);
    StepBusy(f, h);
  }

  lemma {:induction false} HistoryInv(f: Form, hs: seq<Happening>)
    requires Inv(f) && ValidHistory(f, hs)
    ensures Inv(History(f, hs))
    decreases |hs|
  {
    if hs != [] {
      StepInv(f, hs[0]);
      HistoryInv(Happen(f, hs[0]), hs[1..]);
    }
  }

  lemma BlankInv(chain: Option<Chain>)
    ensures Inv(Blank(chain))
  {
  }

  // ---- Fully filled submissions ----

  lemma PreparedArgs(c: Clicked)
    requires AllEntered(c.params, c.values)
    ensures |Prepare(c).args| == |c.params|
    ensures forall i :: 0 <= i < |c.params| ==>
      Prepare(c).args[i] ==
        if Includes(ToLower(c.params[i].typ), "bool") then Boolean(c.values[i].value == "true") else Textual(c.values[i].value)
  {
  }

  ghost predicate FullCall(call: Call, params: seq<Param>) {
    && |call.args| == |params|
    && forall i :: 0 <= i < |params| ==>
      call.args[i].Boolean? || (call.args[i].Textual? && call.args[i].text != "")
  }

  // In every history, every call that was ever built is the one selected at its click, with exactly the
  // parameters resolved for that method on that chain, none of them missing or empty.
  lemma BuiltCallsAreFull(chain: Option<Chain>, hs: seq<Happening>, b: Built)
    requires ValidHistory(Blank(chain), hs) && b in History(Blank(chain), hs).jobs.built
    ensures b.call.moduleName == b.clicked.moduleName && b.call.methodName == b.clicked.methodName
    ensures Resolve(Some(b.clicked.chain), b.call.moduleName, b.call.methodName) == Some(b.clicked.params)
    ensures FullCall(b.call, b.clicked.params) && b.clicked.account in b.clicked.accounts
    ensures b.call == Prepare(b.clicked) && AllEntered(b.clicked.params, b.clicked.values)
  {
    BlankInv(chain);
    HistoryInv(Blank(chain), hs);
    PreparedArgs(b.clicked);
  }

  // ---- At most one live submission ----

  // In every history the form is busy exactly while one submission has begun and not ended, every
  // submission but that one ended once, and no subscription outlives its submission.
  lemma OneLiveSubmission(chain: Option<Chain>, hs: seq<Happening>)
    requires ValidHistory(Blank(chain), hs)
    ensures var f := History(Blank(chain), hs);
      && |f.jobs.live| == (if f.submitting then 1 else 0)
      && f.jobs.ended + |f.jobs.live| == f.jobs.next
      && f.jobs.subscriptions <= f.jobs.live.Keys && |f.jobs.subscriptions| <= 1
      && forall t :: t in f.jobs.subscriptions <==> t in f.jobs.live && f.jobs.live[t].phase == Subscribed
  {
    BlankInv(chain);
    HistoryInv(Blank(chain), hs);
    var f := History(Blank(chain), hs);
    assert |f.jobs.live| == |f.jobs.live.Keys|;
    if f.submitting { assert f.jobs.subscriptions <= {f.jobs.next - 1}; OnlyOne(f.jobs.subscriptions, f.jobs.next - 1); }
  }

  lemma OnlyOne(a: set<nat>, x: nat)
    requires a <= {x}
    ensures |a| <= 1
  {
    if a != {} { assert a == {x}; }
  }

  // The button is enabled exactly when a method and an account are selected, no submission is alive and
  // every parameter is entered, although the code only counts.
  lemma EnabledIff(f: Form)
    requires Inv(f)
    ensures CanSubmit(f) <==>
      && f.jobs.live == map[] && f.moduleName != "" && f.methodName != "" && f.accounts != [] && f.account != ""
      && AllEntered(f.params, f.values)
  {
    FilledBound(f.values);
    if !f.submitting { assert f.jobs.live.Keys == {}; }
  }

  // What ends a submission: an exception, a finalized status or an error status, and nothing else.
  predicate Ends(f: Form, h: Happening)
    requires Possible(f, h)
  {
    || h.InjectorFailed? || h.SigningFailed? || (h.InjectorFound? && !h.builds)
    || (h.StatusReported? && (h.tx.Finalized? || h.tx.Errored?))
  }

  lemma EndsExactly(f: Form, h: Happening)
    requires BusyInv(f) && f.submitting && Possible(f, h)
    ensures !Happen(f, h).submitting <==> Ends(f, h)
    ensures Ends(f, h) ==> Happen(f, h).jobs.live.Keys == {} && Happen(f, h).jobs.subscriptions == {}
    ensures !Ends(f, h) ==> Happen(f, h).jobs.live.Keys == f.jobs.live.Keys
  {
  }

  predicate EndsIn(f: Form, hs: seq<Happening>)
    requires ValidHistory(f, hs)
    decreases |hs|
  {
    hs != [] && (Ends(f, hs[0]) || EndsIn(Happen(f, hs[0]), hs[1..]))
  }

  // Over any history, a submission is over exactly when one of these was among what happened since: a
  // transaction reported invalid, dropped, usurped or timed out always ends it.
  lemma {:induction false} SubmissionOverIff(f: Form, hs: seq<Happening>, t: nat)
    requires BusyInv(f) && t in f.jobs.live && ValidHistory(f, hs)
    ensures t !in History(f, hs).jobs.live <==> EndsIn(f, hs)
    decreases |hs|
  {
    if hs != [] {
      EndsExactly(f, hs[0]);
      StepBusy(f, hs[0]);
      if Ends(f, hs[0]) { NeverLiveAgain(Happen(f, hs[0]), hs[1..], t); } else { SubmissionOverIff(Happen(f, hs[0]), hs[1..], t); }
    }
  }

  lemma NotRevived(f: Form, h: Happening, t: nat)
    requires Possible(f, h) && t !in f.jobs.live && t < f.jobs.next
    ensures t !in Happen(f, h).jobs.live && t < Happen(f, h).jobs.next
  {
    match h
    case SubmitClicked =>
    case StatusReported(u, tx) => assert Report(f, u, tx).jobs.live.Keys <= f.jobs.live.Keys;
    case _ =>
  }

  lemma {:induction false} NeverLiveAgain(f: Form, hs: seq<Happening>, t: nat)
    requires t !in f.jobs.live && t < f.jobs.next && ValidHistory(f, hs)
    ensures t !in History(f, hs).jobs.live
    decreases |hs|
  {
    if hs != [] {
      NotRevived(f, hs[0], t);
      NeverLiveAgain(Happen(f, hs[0]), hs[1..], t);
    }
  }

  // ---- The click ----

  // The click itself submits the values entered before it, although it empties the form.
  lemma ClickCaptures(f: Form)
    requires FormInv(f) && Possible(f, SubmitClicked) && f.chain.Some? && f.account in f.accounts
    ensures var f' := Happen(f, SubmitClicked);
      && f'.values == [] && f'.submitting && f.jobs.next in f'.jobs.live
      && var c := f'.jobs.live[f.jobs.next].clicked;
         c.values == f.values && c.params == f.params && Complete(c)
  {
    StepForm(f, SubmitClicked);
  }

  // ---- Events shown ----

  predicate Hidden(e: ChainEvent) { Includes(e.section, "system") && Includes(e.methodName, "ExtrinsicSuccess") }

  // The filter keeps an event as often as it occurs unless it is the system's success event,
  lemma {:induction false} ShownEventsCount(es: seq<ChainEvent>, e: ChainEvent)
    ensures multiset(ShownEvents(es))[e] == if Hidden(e) then 0 else multiset(es)[e]
    decreases |es|
  {
    if es != [] {
      var first, rest := es[0], es[1..];
      ShownEventsCount(rest, e);
      assert multiset(es) == multiset{first} + multiset(rest) by { assert es == [first] + rest; }
      if !Hidden(first) {
        assert multiset(ShownEvents(es)) == multiset{first} + multiset(ShownEvents(rest));
      }
    }
  }

  // and keeps the order.
  lemma {:induction false} ShownEventsOrder(es: seq<ChainEvent>, fs: seq<ChainEvent>)
    ensures ShownEvents(es + fs) == ShownEvents(es) + ShownEvents(fs)
    decreases |es|
  {
    if es == [] {
      assert es + fs == fs;
    } else {
      ShownEventsOrder(es[1..], fs);
      assert (es + fs)[1..] == es[1..] + fs;
    }
  }

  function ReportedEvents(h: Happening): Option<seq<ChainEvent>> {
    if h.StatusReported? && (h.tx.InBlock? || h.tx.Finalized?) && h.tx.events.Some?
    then Some(ShownEvents(h.tx.events.value)) else None
  }

  predicate EventsReported(hs: seq<Happening>, shown: Option<seq<ChainEvent>>) {
    exists k :: 0 <= k < |hs| && ReportedEvents(hs[k]) == shown
  }

  lemma {:induction false} EventsProvenance(f: Form, hs: seq<Happening>)
    requires ValidHistory(f, hs) && History(f, hs).shown.events.Some?
    ensures History(f, hs).shown.events == f.shown.events || EventsReported(hs, History(f, hs).shown.events)
    decreases |hs|
  {
    if hs != [] {
      var f', shown := Happen(f, hs[0]), History(f, hs).shown.events;
      EventsProvenance(f', hs[1..]);
      if EventsReported(hs[1..], shown) {
        var k :| 0 <= k < |hs[1..]| && ReportedEvents(hs[1..][k]) == shown;
        assert hs[k + 1] == hs[1..][k];
      } else {
        assert f'.shown.events == f.shown.events || f'.shown.events == None || f'.shown.events == ReportedEvents(hs[0]);
      }
    }
  }

  // Events shown after a click were reported after it: none are left over from an earlier submission.
  lemma EventsAreNew(f: Form, hs: seq<Happening>)
    requires Possible(f, SubmitClicked) && f.chain.Some? && ValidHistory(Happen(f, SubmitClicked), hs)
    requires History(Happen(f, SubmitClicked), hs).shown.events.Some?
    ensures EventsReported(hs, History(Happen(f, SubmitClicked), hs).shown.events)
  {
    EventsProvenance(Happen(f, SubmitClicked), hs);
  }
}
