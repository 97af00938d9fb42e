// The transfer form (Transfer.tsx) as a state machine: edits, the percentage buttons, clicks, and the
// awaits and callbacks of a payment, which sees the form as it was when it was clicked.
module Transfers {
  import opened Options
  import opened Texts
  import opened Amounts
  import opened Percentages

  // A connected API, with the names of the methods of its balances module if it has one.
  datatype Chain = Chain(id: nat, balances: Option<set<string>>)

  datatype Message =
    | Silent | FillInAllFields | ConnectingWallet | WalletReady | Preparing | UsingAlternative
    | WaitingForSignature | Included(block: string) | Succeeded(block: string) | DispatchFailed | Failed(reason: Reason)

  datatype Reason =
    | NoWallet | NoBalancesModule | NoTransferMethod | AccountNotFound | NoInjector | NoSuitableMethod | CannotBuild | NotSigned

  // What the handler's closure captured at the click.
  datatype Clicked = Clicked(
    chain: Chain, decimals: nat, accounts: seq<string>, account: string, recipient: string, amount: string)
  datatype Phase = Injecting | Signing | Subscribed
  datatype Submission = Submission(phase: Phase, clicked: Clicked)

  // A transfer extrinsic that was built and is to be signed by an account, with the click it stems from.
  datatype Payment = Payment(task: nat, entry: string, account: string, recipient: string, raw: string, clicked: Clicked)

  datatype Shown = Shown(message: Message, txHash: Option<string>, blockHash: Option<string>)

  datatype Jobs = Jobs(
    live: map<nat, Submission>,     // submissions begun and not ended
    subscriptions: set<nat>,        // submissions whose status subscription is open
    next: nat, ended: nat,          // how many submissions began, and how many ended
    payments: seq<Payment>
  )

  datatype Form = Form(
    chain: Option<Chain>, ready: bool, decimals: nat, balance: Option<nat>,
    accounts: seq<string>, account: string, recipient: string, amount: string,
    connecting: bool, submitting: bool, shown: Shown, jobs: Jobs)

  datatype Dispatch = NoError | ModuleError(decodes: bool) | OtherError
  datatype TxStatus = InBlock(block: string) | Finalized(block: string, dispatch: Dispatch) | OtherStatus

  datatype Happening =
    | ApiChanged(chain: Option<Chain>, ready: bool)
    | DecimalsRead(decimals: nat)
    | BalanceRead(balance: Option<nat>)
    | RecipientEdited(recipient: string)
    | AmountEdited(amount: string)
    | PercentagePressed(percent: nat)
    | AccountPicked(account: string)
    | WalletStarted
    | WalletFound(accounts: seq<string>)
    | WalletFailed
    | SubmitClicked
    | InjectorFound(task: nat, builds: bool)
    | InjectorFailed(task: nat)
    | SignedAndSent(task: nat)
    | SigningFailed(task: nat)
    | StatusReported(task: nat, hash: Option<string>, tx: TxStatus)

  // ---- Choosing the method ----

  // Some method of the balances module is named like a transfer; this is checked before the first await.
  predicate LooksTransferable(entries: set<string>) {
    exists entry :: entry in entries && Includes(ToLower(entry), "transfer")
  }

  // The method used after it.
  function TransferEntry(balances: Option<set<string>>): Option<string> {
    if balances.None? then None
    else if "transfer" in balances.value then Some("transfer")
    else if "transferKeepAlive" in balances.value then Some("transferKeepAlive")
    else None
  }

  // Why a click fails before its first await, if it does.
  function EarlyFailure(f: Form): Option<Reason>
    requires f.chain.Some?
  {
    if f.chain.value.balances.None? then Some(NoBalancesModule)
    else if "transfer" !in f.chain.value.balances.value && !LooksTransferable(f.chain.value.balances.value)
    then Some(NoTransferMethod)
    else if f.account !in f.accounts then Some(AccountNotFound)
    else None
  }

  // ---- Segments ----

  predicate CanSubmit(f: Form) { f.accounts != [] && !f.submitting && f.recipient != "" && f.amount != "" }

  predicate Complete(f: Form) {
    f.chain.Some? && f.ready && f.account != "" && f.recipient != "" && f.amount != ""
  }

  function Say(f: Form, message: Message): Form { f.(shown := f.shown.(message := message)) }

  function Begin(f: Form): Form {
    f.(submitting := true, shown := Shown(Preparing, None, None), jobs := f.jobs.(next := f.jobs.next + 1))
  }

  function Close(jobs: Jobs, t: nat): Jobs {
    jobs.(live := jobs.live - {t}, subscriptions := jobs.subscriptions - {t}, ended := jobs.ended + 1)
  }

  function End(f: Form, t: nat): Form { f.(submitting := false, jobs := Close(f.jobs, t)) }

  function Abort(f: Form, t: nat, reason: Reason): Form { End(Say(f, Failed(reason)), t) }

  function Keep(jobs: Jobs, t: nat, submission: Submission): Jobs { jobs.(live := jobs.live[t := submission]) }

  function Click(f: Form): Form
    requires f.chain.Some?
  {
    var t, failure := f.jobs.next, EarlyFailure(f);
    var begun := Begin(f);
    if failure.Some? then Abort(begun, t, failure.value)
    else
      var message := if "transfer" in f.chain.value.balances.value then Preparing else UsingAlternative;
      Say(begun, message).(jobs := Keep(begun.jobs, t, Submission(Injecting,
        Clicked(f.chain.value, f.decimals, f.accounts, f.account, f.recipient, f.amount))))
  }

  function Pay(t: nat, entry: string, c: Clicked): Payment {
    Payment(t, entry, c.account, c.recipient, RawAmount(c.amount, c.decimals), c)
  }

  function Build(f: Form, t: nat, builds: bool): Form
    requires t in f.jobs.live
  {
    var c, waiting := f.jobs.live[t].clicked, Say(f, WaitingForSignature);
    var entry := TransferEntry(c.chain.balances);
    if entry.None? then Abort(waiting, t, NoSuitableMethod)
    else if !builds then Abort(waiting, t, CannotBuild)
    else waiting.(jobs := Keep(f.jobs, t, Submission(Signing, c)).(payments := f.jobs.payments + [Pay(t, entry.value, c)]))
  }

  // A status report ends the submission only when it is final and its error, if any, can be decoded;
  // decoding failure throws out of the callback.
  predicate Concludes(tx: TxStatus) { tx.Finalized? && tx.dispatch != ModuleError(false) }

  predicate Success(tx: TxStatus) { tx.Finalized? && tx.dispatch == NoError }

  function ShowReport(shown: Shown, hash: Option<string>, tx: TxStatus): Shown {
    var hashed := if hash.Some? then shown.(txHash := hash) else shown;
    match tx
    case InBlock(block) => hashed.(blockHash := Some(block), message := Included(block))
    case Finalized(block, dispatch) =>
      var placed := hashed.(blockHash := Some(block));
      if dispatch == NoError then placed.(message := Succeeded(block))
      else if Concludes(tx) then placed.(message := DispatchFailed)
      else placed
    case OtherStatus => hashed
  }

  function Report(f: Form, t: nat, hash: Option<string>, tx: TxStatus): Form {
    var shown := f.(shown := ShowReport(f.shown, hash, tx));
    var cleared := if Success(tx) then shown.(amount := "", recipient := "") else shown;
    if Concludes(tx) then End(cleared, t) else cleared
  }

  predicate InPhase(f: Form, t: nat, phase: Phase) { t in f.jobs.live && f.jobs.live[t].phase == phase }

  predicate Possible(f: Form, h: Happening) {
    match h
    case WalletStarted => !f.connecting
    case WalletFound(accounts) => f.connecting && accounts != []
    case WalletFailed => f.connecting
    case SubmitClicked => CanSubmit(f)
    case InjectorFound(t, _) => InPhase(f, t, Injecting)
    case InjectorFailed(t) => InPhase(f, t, Injecting)
    case SignedAndSent(t) => InPhase(f, t, Signing)
    case SigningFailed(t) => InPhase(f, t, Signing)
    case StatusReported(t, _, _) => InPhase(f, t, Subscribed)
    case _ => true
  }

  function Happen(f: Form, h: Happening): Form
    requires Possible(f, h)
  {
    match h
    case ApiChanged(chain, ready) => f.(chain := chain, ready := ready)
    case DecimalsRead(decimals) => f.(decimals := decimals)
    case BalanceRead(balance) => f.(balance := balance)
    case RecipientEdited(recipient) => f.(recipient := recipient)
    case AmountEdited(amount) => f.(amount := amount)
    case PercentagePressed(percent) =>
      if f.balance.None? then f else f.(amount := PercentageText(f.balance.value, percent, f.decimals))
    case AccountPicked(account) => f.(account := account)
    case WalletStarted => Say(f.(connecting := true), ConnectingWallet)
    case WalletFound(accounts) => Say(f.(connecting := false, accounts := accounts, account := accounts[0]), WalletReady)
    case WalletFailed => Say(f.(connecting := false), Failed(NoWallet))
    case SubmitClicked => if Complete(f) then Click(f) else Say(f, FillInAllFields)
    case InjectorFound(t, builds) => Build(f, t, builds)
    case InjectorFailed(t) => Abort(f, t, NoInjector)
    case SignedAndSent(t) =>
      f.(jobs := Keep(f.jobs, t, Submission(Subscribed, f.jobs.live[t].clicked))
                 .(subscriptions := f.jobs.subscriptions + {t}))
    case SigningFailed(t) => Abort(f, t, NotSigned)
    case StatusReported(t, hash, tx) => Report(f, t, hash, tx)
  }

  function Blank(): Form {
    Form(None, false, 12, None, [], "", "", "", false, false, Shown(Silent, None, None), Jobs(map[], {}, 0, 0, []))
  }

  predicate ValidHistory(f: Form, hs: seq<Happening>)
    decreases |hs|
  {
    hs == [] || (Possible(f, hs[0]) && ValidHistory(Happen(f, hs[0]), hs[1..]))
  }

  function History(f: Form, hs: seq<Happening>): Form
    requires ValidHistory(f, hs)
    decreases |hs|
  {
    if hs == [] then f else History(Happen(f, hs[0]), hs[1..])
  }
}
