// The extrinsic page as a machine that knows no submissions, phases or captured closures: one click at most
// is pending. Every history of the page is a run of it.
module ExtrinsicsDesks {
  import opened Options
  import opened Extrinsics
  import opened ExtrinsicsProofs

  datatype Desk = Desk(
    chain: Option<Chain>, moduleName: string, methodName: string, params: seq<Param>, values: seq<Option<string>>,
    accounts: seq<string>, account: string, effectDue: bool, shown: Shown,
    pending: Option<Clicked>,   // the click being worked on
    built: seq<Clicked>         // the clicks whose call was put together
  )

  function Select(d: Desk, moduleName: string, methodName: string): Desk {
    d.(moduleName := moduleName, methodName := methodName, values := [], shown := Shown(None, None, None, None, None),
       effectDue := (d.moduleName, d.methodName) != (moduleName, methodName))
  }

  function Drop(d: Desk, problem: Problem): Desk { d.(shown := d.shown.(error := Some(problem)), pending := None) }

  function Submit(d: Desk): Desk {
    if d.chain.None? then d
    else
      var begun := d.(values := [], shown := Shown(Some(Preparing), None, None, None, None));
      if d.account !in d.accounts then Drop(begun, AccountNotFound)
      else
        begun.(pending := Some(Clicked(d.chain.value, d.moduleName, d.methodName, d.params, d.values,
                                       d.accounts, d.account, d.shown.events.Some?)))
  }

  // A final status shows its events only if none were shown at the click; either way it is the end.
  function Hear(d: Desk, c: Clicked, tx: TxStatus): Desk {
    match tx
    case Pending => d
    case Errored => Drop(d, TransactionFailed)
    case InBlock(block, hash, events) =>
      d.(shown := Shown(Some(Included(block)), d.shown.error, Some(hash), Some(block),
                        if events.Some? then Some(ShownEvents(events.value)) else d.shown.events))
    case Finalized(block, events) =>
      d.(pending := None,
         shown := Shown(Some(FinalizedIn(block)), d.shown.error, d.shown.txHash, Some(block),
                        if events.Some? && !c.hadEvents then Some(ShownEvents(events.value)) else d.shown.events))
  }

  // What the page does when something happens, whichever submission it happens to.
  function Follow(d: Desk, h: Happening): Desk {
    match h
    case ChainChanged(chain) => d.(chain := chain, effectDue := true)
    case ModuleChanged(moduleName) => Select(d, moduleName, "")
    case MethodChanged(methodName) => Select(d, d.moduleName, methodName)
    case EffectRuns =>
      var params := Resolve(d.chain, d.moduleName, d.methodName);
      if params.None? then d.(effectDue := false)
      else d.(effectDue := false, params := params.value, values := seq(|params.value|, _ => Some("")))
    case ParamChanged(index, value) => d.(values := SetAt(d.values, index, value))
    case WalletConnected(accounts, sawNoAccount) =>
      d.(accounts := accounts, account := if sawNoAccount && accounts != [] then accounts[0] else d.account)
    case WalletFailed => d.(shown := d.shown.(error := Some(NoWallet)))
    case AccountPicked(account) => d.(account := account)
    case SubmitClicked => Submit(d)
    case InjectorFound(_, builds) =>
      if d.pending.None? then d
      else
        var offered := d.(shown := d.shown.(status := Some(WaitingForSignature)), built := d.built + [d.pending.value]);
        if builds then offered else Drop(offered, CannotBuild)
    case InjectorFailed(_) => Drop(d, NoInjector)
    case SignedAndSent(_) => d
    case SigningFailed(_) => Drop(d, NotSigned)
    case StatusReported(_, tx) => if d.pending.None? then d else Hear(d, d.pending.value, tx)
  }

  function FollowAll(d: Desk, hs: seq<Happening>): Desk
    decreases |hs|
  {
    if hs == [] then d else FollowAll(Follow(d, hs[0]), hs[1..])
  }

  // ---- The page is such a desk ----

  function Clicks(built: seq<Built>): seq<Clicked> { seq(|built|, i requires 0 <= i < |built| => built[i].clicked) }

  function PendingOf(submitting: bool, jobs: Jobs): Option<Clicked>
    requires BusyJobs(submitting, jobs)
  {
    if submitting then Some(jobs.live[jobs.next - 1].clicked) else None
  }

  function DeskOf(f: Form): Desk
    requires BusyInv(f)
  {
    Desk(f.chain, f.moduleName, f.methodName, f.params, f.values, f.accounts, f.account, f.effectDue, f.shown,
         PendingOf(f.submitting, f.jobs), Clicks(f.jobs.built))
  }

  lemma StepFollows(f: Form, h: Happening)
    requires BusyInv(f) && Possible(f, h)
    ensures BusyInv(Happen(f, h)) && DeskOf(Happen(f, h)) == Follow(DeskOf(f), h)
  {
    StepBusy(f, h);
    match h
    case InjectorFound(t, builds) => BuildFollows(f, t, builds);
    case StatusReported(t, tx) => ReportFollows(f, t, tx);
    case _ =>
  }

  lemma BuildFollows(f: Form, t: nat, builds: bool)
    requires BusyInv(f) && Possible(f, InjectorFound(t, builds)) && BusyInv(Happen(f, InjectorFound(t, builds)))
    ensures DeskOf(Happen(f, InjectorFound(t, builds))) == Follow(DeskOf(f), InjectorFound(t, builds))
  {
    var c := f.jobs.live[t].clicked;
    assert t == f.jobs.next - 1;
    assert Clicks(f.jobs.built + [Built(c, Prepare(c))]) == Clicks(f.jobs.built) + [c];
  }

  lemma ReportFollows(f: Form, t: nat, tx: TxStatus)
    requires BusyInv(f) && Possible(f, StatusReported(t, tx)) && BusyInv(Report(f, t, tx))
    ensures DeskOf(Report(f, t, tx)) == Hear(DeskOf(f), f.jobs.live[t].clicked, tx)
  {
    assert t == f.jobs.next - 1;
  }

  // Whatever submissions, awaits and closures the page goes through, it shows and does what the desk does
  // that remembers one click.
  lemma {:induction false} HistoryFollows(f: Form, hs: seq<Happening>)
    requires BusyInv(f) && ValidHistory(f, hs)
    ensures BusyInv(History(f, hs)) && DeskOf(History(f, hs)) == FollowAll(DeskOf(f), hs)
    decreases |hs|
  {
    if hs != [] {
      StepFollows(f, hs[0]);
      HistoryFollows(Happen(f, hs[0]), hs[1..]);
    }
  }

  // ---- No silent resubmission ----

  predicate Entered(hs: seq<Happening>, i: nat, value: string) {
    exists k :: 0 <= k < |hs| && hs[k] == ParamChanged(i, value)
  }

  // A value on the desk was there at the start, or was entered on the way.
  lemma {:induction false} DeskProvenance(d: Desk, hs: seq<Happening>, i: nat)
    requires i < |FollowAll(d, hs).values| && NonEmpty(FollowAll(d, hs).values[i])
    ensures var v := FollowAll(d, hs).values[i];
      (i < |d.values| && d.values[i] == v) || Entered(hs, i, v.value)
    decreases |hs|
  {
    if hs != [] {
      var v := FollowAll(d, hs).values[i];
      DeskProvenance(Follow(d, hs[0]), hs[1..], i);
      if Entered(hs[1..], i, v.value) {
        var k :| 0 <= k < |hs| - 1 && hs[1..][k] == ParamChanged(i, v.value);
        assert hs[k + 1] == ParamChanged(i, v.value);
      }
    }
  }

  // After a submission began, whatever happens next, the button is enabled again only once every
  // parameter of the method then selected has been entered anew, with the value it then shows.
  lemma NoSilentResubmission(f: Form, hs: seq<Happening>, i: nat)
    requires Inv(f) && Possible(f, SubmitClicked) && f.chain.Some?
    requires ValidHistory(Happen(f, SubmitClicked), hs) && CanSubmit(History(Happen(f, SubmitClicked), hs))
    requires i < |History(Happen(f, SubmitClicked), hs).params|
    ensures var f' := History(Happen(f, SubmitClicked), hs);
      |f'.values| == |f'.params| && NonEmpty(f'.values[i]) && Entered(hs, i, f'.values[i].value)
  {
    var f1 := Happen(f, SubmitClicked);
    StepInv(f, SubmitClicked);
    HistoryInv(f1, hs);
    EnabledMeansAllEntered(History(f1, hs));
    HistoryFollows(f1, hs);
    DeskProvenance(DeskOf(f1), hs, i);
  }

  // ---- Calls come from clicks ----

  // The desk shows exactly what c captured.
  predicate Shows(d: Desk, c: Clicked) {
    d.chain == Some(c.chain) && c == Clicked(c.chain, d.moduleName, d.methodName, d.params, d.values,
                                             d.accounts, d.account, d.shown.events.Some?)
  }

  // The k-th happening is a click on a form that shows it.
  predicate ClickedAt(d: Desk, hs: seq<Happening>, k: nat, c: Clicked) {
    k < |hs| && hs[k] == SubmitClicked && Shows(FollowAll(d, hs[..k]), c)
  }

  lemma LaterClick(d: Desk, hs: seq<Happening>, k: nat, c: Clicked)
    requires hs != [] && ClickedAt(Follow(d, hs[0]), hs[1..], k, c)
    ensures ClickedAt(d, hs, k + 1, c)
  {
    assert hs[..k + 1][0] == hs[0] && hs[..k + 1][1..] == hs[1..][..k];
  }

  lemma StepClicked(d: Desk, h: Happening, c: Clicked)
    requires c in Follow(d, h).built || Follow(d, h).pending == Some(c)
    ensures c in d.built || d.pending == Some(c) || (h == SubmitClicked && Shows(d, c))
  {
  }

  lemma {:induction false} ClickProvenance(d: Desk, hs: seq<Happening>, c: Clicked)
    requires var d' := FollowAll(d, hs); c in d'.built || d'.pending == Some(c)
    ensures c in d.built || d.pending == Some(c) || exists k :: ClickedAt(d, hs, k, c)
    decreases |hs|
  {
    if hs != [] {
      ClickProvenance(Follow(d, hs[0]), hs[1..], c);
      if k: nat :| ClickedAt(Follow(d, hs[0]), hs[1..], k, c) {
        LaterClick(d, hs, k, c);
      } else {
        StepClicked(d, hs[0], c);
        assert hs[..0] == [] && (hs[0] == SubmitClicked && Shows(d, c) ==> ClickedAt(d, hs, 0, c));
      }
    }
  }

  // In every history each call built is what the form showed at some click: its selection, its parameters
  // and its values, each of which the user had entered for its parameter.
  lemma BuiltFromClick(chain: Option<Chain>, hs: seq<Happening>, b: Built)
    requires ValidHistory(Blank(chain), hs) && b in History(Blank(chain), hs).jobs.built
    ensures exists k :: ClickedAt(DeskOf(Blank(chain)), hs, k, b.clicked)
    ensures |b.clicked.values| == |b.clicked.params|
    ensures forall i :: 0 <= i < |b.clicked.params| ==>
      NonEmpty(b.clicked.values[i]) && Entered(hs, i, b.clicked.values[i].value)
  {
    var d, c := DeskOf(Blank(chain)), b.clicked;
    BlankInv(chain);
    HistoryInv(Blank(chain), hs);
    HistoryFollows(Blank(chain), hs);
    var built := History(Blank(chain), hs).jobs.built;
    var j :| 0 <= j < |built| && built[j] == b;
    assert Clicks(built)[j] == c;
    ClickProvenance(d, hs, c);
    var k: nat :| ClickedAt(d, hs, k, c);
    forall i | 0 <= i < |c.params| ensures Entered(hs, i, c.values[i].value) {
      DeskProvenance(d, hs[..k], i);
      var n :| 0 <= n < k && hs[..k][n] == ParamChanged(i, c.values[i].value);
      assert hs[n] == ParamChanged(i, c.values[i].value);
    }
  }
}
