// Extrinsics.tsx in its own form: state fields that handlers, the effect and the callback assign.
module ExtrinsicsPages {
  import opened Options
  import opened Extrinsics
  import Proofs = ExtrinsicsProofs

  class ExtrinsicsPage {
    var api: Option<Chain>
    var selectedModule: string
    var selectedMethod: string
    var methodParameters: seq<Param>
    var paramValues: seq<Option<string>>
    var accounts: seq<string>
    var selectedAccount: string
    var isSubmitting: bool
    var submissionStatus: Option<Progress>
    var submissionError: Option<Problem>
    var txHash: Option<string>
    var blockHash: Option<string>
    var txEvents: Option<seq<ChainEvent>>
    var effectDue: bool
    var live: map<nat, Submission>    // what the suspended handlers and the callbacks have captured
    var next: nat
    // Only the account of what happened; no branch depends on it.
    ghost var subscriptions: set<nat>
    ghost var ended: nat
    ghost var built: seq<Built>

    ghost function Display(): Shown
      reads this
    {
      Shown(submissionStatus, submissionError, txHash, blockHash, txEvents)
    }

    ghost function Work(): Jobs
      reads this
    {
      Jobs(live, subscriptions, next, ended, built)
    }

    ghost function View(): Form
      reads this
    {
      Form(api, selectedModule, selectedMethod, methodParameters, paramValues, accounts, selectedAccount,
           isSubmitting, effectDue, Display(), Work())
    }

    constructor (api: Option<Chain>)
      ensures View() == Blank(api) && Proofs.Inv(View())
    {
      this.api := api;
      selectedModule, selectedMethod, methodParameters, paramValues := "", "", [], [];
      accounts, selectedAccount, isSubmitting := [], "", false;
      submissionStatus, submissionError, txHash, blockHash, txEvents := None, None, None, None, None;
      effectDue, live, next := true, map[], 0;
      subscriptions, ended, built := {}, 0, [];
    }

    static lemma KeepInv(f: Form, h: Happening)
      requires Possible(f, h)
      ensures Proofs.Inv(f) ==> Proofs.Inv(Happen(f, h))
    {
      if Proofs.Inv(f) { Proofs.StepInv(f, h); }
    }

    method ResetTxState()
      modifies this
      ensures View() == ResetTx(old(View()))
    {
      submissionStatus, txHash, blockHash := None, None, None;
      txEvents, submissionError, paramValues := None, None, [];
    }

    method ApiChanges(chain: Option<Chain>)
      modifies this
      ensures View() == Happen(old(View()), ChainChanged(chain))
      ensures old(Proofs.Inv(View())) ==> Proofs.Inv(View())
    {
      KeepInv(View(), ChainChanged(chain));
      api := chain;
      effectDue := true;
    }

    method HandleModuleChange(newModule: string)
      requires Possible(View(), ModuleChanged(newModule))
      modifies this
      ensures View() == Happen(old(View()), ModuleChanged(newModule))
      ensures old(Proofs.Inv(View())) ==> Proofs.Inv(View())
    {
      KeepInv(View(), ModuleChanged(newModule));
      effectDue := selectedModule != newModule || selectedMethod != "";
      selectedModule := newModule;
      selectedMethod := "";
      ResetTxState();
    }

    method HandleMethodChange(newMethod: string)
      requires Possible(View(), MethodChanged(newMethod))
      modifies this
      ensures View() == Happen(old(View()), MethodChanged(newMethod))
      ensures old(Proofs.Inv(View())) ==> Proofs.Inv(View())
    {
      KeepInv(View(), MethodChanged(newMethod));
      effectDue := selectedMethod != newMethod;
      selectedMethod := newMethod;
      ResetTxState();
    }

    // The parameter effect.
    method ResolveParameters()
      requires Possible(View(), EffectRuns)
      modifies this
      ensures View() == Happen(old(View()), EffectRuns)
      ensures old(Proofs.Inv(View())) ==> Proofs.Inv(View())
    {
      KeepInv(View(), EffectRuns);
      effectDue := false;
      var params := Resolve(api, selectedModule, selectedMethod);
      if params.Some? {
        methodParameters := params.value;
        paramValues := Blanks(|params.value|);
      }
    }

    method HandleParamChange(index: nat, value: string)
      requires Possible(View(), ParamChanged(index, value))
      modifies this
      ensures View() == Happen(old(View()), ParamChanged(index, value))
      ensures old(Proofs.Inv(View())) ==> Proofs.Inv(View())
    {
      KeepInv(View(), ParamChanged(index, value));
      paramValues := SetAt(paramValues, index, value);
    }

    method ConnectWallet(found: Option<seq<string>>, sawNoAccount: bool)
      modifies this
      ensures View() == Happen(old(View()), if found.Some? then WalletConnected(found.value, sawNoAccount) else WalletFailed)
      ensures old(Proofs.Inv(View())) ==> Proofs.Inv(View())
    {
      KeepInv(View(), if found.Some? then WalletConnected(found.value, sawNoAccount) else WalletFailed);
      if found.None? {
        submissionError := Some(NoWallet);
        return;
      }
      accounts := found.value;
      if accounts != [] && sawNoAccount {
        selectedAccount := accounts[0];
      }
    }

    method PickAccount(account: string)
      requires Possible(View(), AccountPicked(account))
      modifies this
      ensures View() == Happen(old(View()), AccountPicked(account))
      ensures old(Proofs.Inv(View())) ==> Proofs.Inv(View())
    {
      KeepInv(View(), AccountPicked(account));
      selectedAccount := account;
    }

    // handleSubmit up to its first await.
    method HandleSubmit()
      requires Possible(View(), SubmitClicked)
      modifies this
      ensures View() == Happen(old(View()), SubmitClicked)
      ensures old(Proofs.Inv(View())) ==> Proofs.Inv(View())
    {
      KeepInv(View(), SubmitClicked);
      if api.None? || selectedAccount == "" { return; }
      var captured := Clicked(api.value, selectedModule, selectedMethod, methodParameters, paramValues,
                              accounts, selectedAccount, txEvents.Some?);
      var t := Start();
      if selectedAccount !in accounts {
        Catch(t, AccountNotFound);
      } else {
        live := live[t := Submission(Injecting, captured)];
      }
    }

    method Start() returns (t: nat)
      modifies this
      ensures t == old(next) && View() == Begin(old(View()))
    {
      t := next;
      next := next + 1;
      isSubmitting := true;
      ResetTxState();
      submissionStatus := Some(Preparing);
    }

    method Catch(t: nat, problem: Problem)
      modifies `submissionError, `isSubmitting, `live, `subscriptions, `ended
      ensures View() == Abort(old(View()), t, problem)
    {
      submissionError := Some(problem);
      Finish(t);
    }

    method Finish(t: nat)
      modifies `isSubmitting, `live, `subscriptions, `ended
      ensures View() == End(old(View()), t)
    {
      isSubmitting := false;
      live := live - {t};
      subscriptions := subscriptions - {t};
      ended := ended + 1;
    }

    method ResumeWithInjector(t: nat, builds: bool)
      requires Possible(View(), InjectorFound(t, builds))
      modifies this
      ensures View() == Happen(old(View()), InjectorFound(t, builds))
      ensures old(Proofs.Inv(View())) ==> Proofs.Inv(View())
    {
      KeepInv(View(), InjectorFound(t, builds));
      var captured := live[t].clicked;
      Offer(captured);
      if builds {
        Keep(t, Submission(Signing, captured));
      } else {
        Catch(t, CannotBuild);
      }
    }

    method Offer(captured: Clicked)
      modifies `submissionStatus, `built
      ensures View() == old(View()).(
        shown := old(Display()).(status := Some(WaitingForSignature)),
        jobs := old(Work()).(built := old(built) + [Built(captured, Prepare(captured))]))
    {
      submissionStatus := Some(WaitingForSignature);
      built := built + [Built(captured, Prepare(captured))];
    }

    method Keep(t: nat, submission: Submission)
      modifies `live
      ensures View() == old(View()).(jobs := Extrinsics.Keep(old(Work()), t, submission))
    {
      live := live[t := submission];
    }

    method ResumeRejected(t: nat, h: Happening)
      requires h == InjectorFailed(t) || h == SigningFailed(t)
      requires Possible(View(), h)
      modifies this
      ensures View() == Happen(old(View()), h)
      ensures old(Proofs.Inv(View())) ==> Proofs.Inv(View())
    {
      KeepInv(View(), h);
      Catch(t, if h.InjectorFailed? then NoInjector else NotSigned);
    }

    method ResumeSigned(t: nat)
      requires Possible(View(), SignedAndSent(t))
      modifies this
      ensures View() == Happen(old(View()), SignedAndSent(t))
      ensures old(Proofs.Inv(View())) ==> Proofs.Inv(View())
    {
      KeepInv(View(), SignedAndSent(t));
      live := live[t := Submission(Subscribed, live[t].clicked)];
      subscriptions := subscriptions + {t};
    }

    // The status callback: the step Happen takes for StatusReported(t, tx).
    method OnStatus(t: nat, tx: TxStatus)
      requires Possible(View(), StatusReported(t, tx))
      modifies this
      ensures View() == Happen(old(View()), StatusReported(t, tx))
      ensures old(Proofs.Inv(View())) ==> Proofs.Inv(View())
    {
      KeepInv(View(), StatusReported(t, tx));
      Show(t, tx);
      if tx.Finalized? || tx.Errored? {
        Finish(t);
      }
    }

    method Show(t: nat, tx: TxStatus)
      requires t in live
      modifies `submissionStatus, `submissionError, `txHash, `blockHash, `txEvents
      ensures View() == old(View()).(shown := ShowStatus(old(Display()), live[t].clicked.hadEvents, tx))
    {
      match tx
      case InBlock(block, hash, events) =>
        txHash := Some(hash);
        Place(block, Included(block), events);
      case Finalized(block, events) =>
        Place(block, FinalizedIn(block), if live[t].clicked.hadEvents then None else events);
      case Errored => submissionError := Some(TransactionFailed);
      case Pending =>
    }

    // The block, the progress and the events, if there are any to show.
    method Place(block: string, progress: Progress, events: Option<seq<ChainEvent>>)
      modifies `submissionStatus, `blockHash, `txEvents
      ensures Display() == old(Display()).(blockHash := Some(block), status := Some(progress),
        events := if events.Some? then Some(ShownEvents(events.value)) else old(txEvents))
    {
      blockHash := Some(block);
      submissionStatus := Some(progress);
      if events.Some? { txEvents := Some(ShownEvents(events.value)); }
    }

    method SubmitEnabled() returns (enabled: bool)
      ensures enabled <==> CanSubmit(View())
      ensures Proofs.Inv(View()) ==>
        (enabled <==>
          && live == map[] && selectedModule != "" && selectedMethod != "" && accounts != [] && selectedAccount != ""
          && Proofs.AllEntered(methodParameters, paramValues))
    {
      if Proofs.Inv(View()) { Proofs.EnabledIff(View()); }
      enabled := !isSubmitting && selectedModule != "" && selectedMethod != "" && accounts != [] && selectedAccount != ""
        && (methodParameters != [] ==> Filled(paramValues) == |methodParameters|);
    }
  }
}
