// Transfer.tsx in its own form: state fields that handlers, effects and the callback assign.
module TransferPages {
  import opened Options
  import opened Decimals
  import opened Amounts
  import opened Percentages
  import opened Transfers
  import TransferProofs

  class TransferPage {
    var api: Option<Chain>
    var isApiReady: bool
    var tokenDecimals: nat
    var balanceRaw: Option<nat>
    var accounts: seq<string>
    var selectedAccount: string
    var recipient: string
    var amount: string
    var isConnecting: bool
    var isSubmitting: bool
    var status: Message
    var txHash: Option<string>
    var blockHash: Option<string>
    var live: map<nat, Submission>    // what the suspended handlers and the callbacks have captured
    var next: nat
    // Only the account of what happened; no branch depends on it.
    ghost var subscriptions: set<nat>
    ghost var ended: nat
    ghost var payments: seq<Payment>

    ghost function Display(): Shown
      reads this
    {
      Shown(status, txHash, blockHash)
    }

    ghost function Work(): Jobs
      reads this
    {
      Jobs(live, subscriptions, next, ended, payments)
    }

    ghost function View(): Form
      reads this
    {
      Form(api, isApiReady, tokenDecimals, balanceRaw, accounts, selectedAccount, recipient, amount,
           isConnecting, isSubmitting, Display(), Work())
    }

    constructor ()
      ensures View() == Blank() && TransferProofs.Inv(View())
    {
      api, isApiReady, tokenDecimals, balanceRaw := None, false, 12, None;
      accounts, selectedAccount, recipient, amount := [], "", "", "";
      isConnecting, isSubmitting := false, false;
      status, txHash, blockHash := Silent, None, None;
      live, next, subscriptions, ended, payments := map[], 0, {}, 0, [];
    }

    static lemma KeepInv(f: Form, h: Happening)
      requires Possible(f, h)
      ensures TransferProofs.Inv(f) ==> TransferProofs.Inv(Happen(f, h))
    {
      if TransferProofs.Inv(f) { TransferProofs.StepInv(f, h); }
    }

    method SetPercentage(percent: nat)
      requires Possible(View(), PercentagePressed(percent))
      modifies `amount
      ensures View() == Happen(old(View()), PercentagePressed(percent))
      ensures balanceRaw.Some? && tokenDecimals >= 3 ==>
        && IsAmount(amount) && Digits(ExactAmount(amount, tokenDecimals))
        && Value(ExactAmount(amount, tokenDecimals)) * 100 <= balanceRaw.value * percent
      ensures old(TransferProofs.Inv(View())) ==> TransferProofs.Inv(View())
    {
      KeepInv(View(), PercentagePressed(percent));
      if balanceRaw.None? { return; }
      if tokenDecimals >= 3 { PercentageBound(balanceRaw.value, percent, tokenDecimals); }
      amount := PercentageText(balanceRaw.value, percent, tokenDecimals);
    }

    method ConnectWallet()
      requires Possible(View(), WalletStarted)
      modifies `isConnecting, `status
      ensures View() == Happen(old(View()), WalletStarted)
      ensures old(TransferProofs.Inv(View())) ==> TransferProofs.Inv(View())
    {
      KeepInv(View(), WalletStarted);
      isConnecting := true;
      status := ConnectingWallet;
    }

    // What connectWallet does with the accounts it is given, or with the exception instead.
    method WalletAnswers(found: Option<seq<string>>)
      requires Possible(View(), if found.Some? then WalletFound(found.value) else WalletFailed)
      modifies `isConnecting, `status, `accounts, `selectedAccount
      ensures View() == Happen(old(View()), if found.Some? then WalletFound(found.value) else WalletFailed)
      ensures old(TransferProofs.Inv(View())) ==> TransferProofs.Inv(View())
    {
      KeepInv(View(), if found.Some? then WalletFound(found.value) else WalletFailed);
      if found.Some? {
        accounts := found.value;
        selectedAccount := found.value[0];
        status := WalletReady;
      } else {
        status := Failed(NoWallet);
      }
      isConnecting := false;
    }

    // handleSubmit up to its first await.
    method HandleSubmit()
      requires Possible(View(), SubmitClicked)
      modifies this
      ensures View() == Happen(old(View()), SubmitClicked)
      ensures old(TransferProofs.Inv(View())) ==> TransferProofs.Inv(View())
    {
      KeepInv(View(), SubmitClicked);
      if api.None? || !isApiReady || selectedAccount == "" || recipient == "" || amount == "" {
        status := FillInAllFields;
        return;
      }
      Prepare();
    }

    method Prepare()
      requires api.Some?
      modifies this
      ensures View() == Click(old(View()))
    {
      ghost var before := View();
      var t := Start();
      var balances := api.value.balances;
      if balances.None? {
        Catch(t, NoBalancesModule);
      } else if "transfer" !in balances.value && !LooksTransferable(balances.value) {
        Catch(t, NoTransferMethod);
      } else if selectedAccount !in accounts {
        Catch(t, AccountNotFound);
      } else {
        assert EarlyFailure(before) == None;
        if "transfer" !in balances.value { status := UsingAlternative; }
        live := live[t := Submission(Injecting, Clicked(api.value, tokenDecimals, accounts, selectedAccount, recipient, amount))];
      }
    }

    method Start() returns (t: nat)
      modifies `isSubmitting, `status, `txHash, `blockHash, `next
      ensures t == old(next) && View() == Begin(old(View()))
    {
      t := next;
      next := next + 1;
      isSubmitting := true;
      ResetTxState();
      status := Preparing;
    }

    method ResetTxState()
      modifies `status, `txHash, `blockHash
      ensures Display() == Shown(Silent, None, None)
    {
      status, txHash, blockHash := Silent, None, None;
    }

    method Catch(t: nat, reason: Reason)
      modifies `status, `isSubmitting, `live, `subscriptions, `ended
      ensures View() == Abort(old(View()), t, reason)
    {
      status := Failed(reason);
      Finish(t);
    }

    method Finish(t: nat)
      modifies `isSubmitting, `live, `subscriptions, `ended
      ensures View() == End(old(View()), t)
    {
      isSubmitting := false;
      live := live - {t};
      subscriptions := subscriptions - {t};
      ended := ended + 1;
    }

    // From the injector to the second await, with the amount converted on the way.
    method ResumeWithInjector(t: nat, builds: bool)
      requires Possible(View(), InjectorFound(t, builds))
      modifies this
      ensures View() == Happen(old(View()), InjectorFound(t, builds))
      ensures old(TransferProofs.Inv(View())) ==> TransferProofs.Inv(View())
    {
      KeepInv(View(), InjectorFound(t, builds));
      var captured := live[t].clicked;
      var rawAmount := RawAmount(captured.amount, captured.decimals);
      status := WaitingForSignature;
      var entry := TransferEntry(captured.chain.balances);
      if entry.None? {
        Catch(t, NoSuitableMethod);
      } else if !builds {
        Catch(t, CannotBuild);
      } else {
        Send(t, Payment(t, entry.value, captured.account, captured.recipient, rawAmount, captured));
      }
    }

    method Send(t: nat, payment: Payment)
      modifies `live, `payments
      ensures View() == old(View()).(jobs := Keep(old(Work()), t, Submission(Signing, payment.clicked))
        .(payments := old(payments) + [payment]))
    {
      payments := payments + [payment];
      live := live[t := Submission(Signing, payment.clicked)];
    }

    method ResumeRejected(t: nat, h: Happening)
      requires h == InjectorFailed(t) || h == SigningFailed(t)
      requires Possible(View(), h)
      modifies this
      ensures View() == Happen(old(View()), h)
      ensures old(TransferProofs.Inv(View())) ==> TransferProofs.Inv(View())
    {
      KeepInv(View(), h);
      Catch(t, if h.InjectorFailed? then NoInjector else NotSigned);
    }

    method ResumeSigned(t: nat)
      requires Possible(View(), SignedAndSent(t))
      modifies `live, `subscriptions
      ensures View() == Happen(old(View()), SignedAndSent(t))
      ensures old(TransferProofs.Inv(View())) ==> TransferProofs.Inv(View())
    {
      KeepInv(View(), SignedAndSent(t));
      live := live[t := Submission(Subscribed, live[t].clicked)];
      subscriptions := subscriptions + {t};
    }

    // The status callback: the step Happen takes for StatusReported(t, hash, tx).
    method OnStatus(t: nat, hash: Option<string>, tx: TxStatus)
      requires Possible(View(), StatusReported(t, hash, tx))
      modifies this
      ensures View() == Happen(old(View()), StatusReported(t, hash, tx))
      ensures old(TransferProofs.Inv(View())) ==> TransferProofs.Inv(View())
    {
      KeepInv(View(), StatusReported(t, hash, tx));
      Show(hash, tx);
      if Success(tx) {
        ClearFields();
      }
      if Concludes(tx) {
        Finish(t);
      }
    }

    method ClearFields()
      modifies `amount, `recipient
      ensures View() == old(View()).(amount := "", recipient := "")
    {
      amount := "";
      recipient := "";
    }

    method Show(hash: Option<string>, tx: TxStatus)
      modifies `status, `txHash, `blockHash
      ensures View() == old(View()).(shown := ShowReport(old(Display()), hash, tx))
    {
      if hash.Some? {
        txHash := hash;
      }
      match tx
      case InBlock(block) =>
        blockHash := Some(block);
        status := Included(block);
      case Finalized(block, dispatch) =>
        blockHash := Some(block);
        match dispatch {
          case NoError => status := Succeeded(block);
          case ModuleError(decodes) => if decodes { status := DispatchFailed; }
          case OtherError => status := DispatchFailed;
        }
      case OtherStatus =>
    }

    method SubmitEnabled() returns (enabled: bool)
      ensures TransferProofs.Inv(View()) ==>
        (enabled <==> accounts != [] && recipient != "" && amount != "" && live == map[])
      ensures enabled <==> CanSubmit(View())
    {
      if TransferProofs.Inv(View()) { TransferProofs.EnabledIff(View()); }
      enabled := accounts != [] && !isSubmitting && recipient != "" && amount != "";
    }
  }
}
