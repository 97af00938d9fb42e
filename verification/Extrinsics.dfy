// The extrinsic form (Extrinsics.tsx) as a state machine: selections, the parameter effect, clicks, and
// the awaits and callbacks of a submission, which sees the form as it was when it was clicked.
module Extrinsics {
  import opened Options
  import opened Texts

  datatype Param = Param(name: string, typ: string)

  // A connected API, with the parameter lists its metadata gives for the methods it describes.
  datatype Chain = Chain(id: nat, calls: map<(string, string), seq<Param>>)

  datatype Arg = Boolean(value: bool) | Textual(text: string) | Missing
  datatype Call = Call(moduleName: string, methodName: string, args: seq<Arg>)
  datatype ChainEvent = ChainEvent(section: string, methodName: string, data: string)

  datatype Progress = Preparing | WaitingForSignature | Included(block: string) | FinalizedIn(block: string)
  datatype Problem = AccountNotFound | NoInjector | CannotBuild | NotSigned | TransactionFailed | NoWallet

  // What the handler's closure captured at the click.
  datatype Clicked = Clicked(
    chain: Chain, moduleName: string, methodName: string, params: seq<Param>, values: seq<Option<string>>,
    accounts: seq<string>, account: string, hadEvents: bool)

  // The two awaits of a submission, and the subscription that outlives the handler.
  datatype Phase = Injecting | Signing | Subscribed
  datatype Submission = Submission(phase: Phase, clicked: Clicked)
  datatype Built = Built(clicked: Clicked, call: Call)

  // What the page shows of the transaction.
  datatype Shown = Shown(
    status: Option<Progress>, error: Option<Problem>,
    txHash: Option<string>, blockHash: Option<string>, events: Option<seq<ChainEvent>>)

  datatype Jobs = Jobs(
    live: map<nat, Submission>,     // submissions begun and not ended
    subscriptions: set<nat>,        // submissions whose status subscription is open
    next: nat, ended: nat,          // how many submissions began, and how many ended
    built: seq<Built>               // the calls built so far, each with the click it stems from
  )

  datatype Form = Form(
    chain: Option<Chain>, moduleName: string, methodName: string,
    params: seq<Param>, values: seq<Option<string>>,   // a hole in the values array is None
    accounts: seq<string>, account: string,
    submitting: bool,
    effectDue: bool,                // a dependency of the parameter effect changed and it has not run yet
    shown: Shown,
    jobs: Jobs
  )

  datatype TxStatus =
    | InBlock(block: string, hash: string, events: Option<seq<ChainEvent>>)
    | Finalized(block: string, events: Option<seq<ChainEvent>>)
    | Errored      // invalid, dropped, usurped or timed out
    | Pending      // any other status

  datatype Happening =
    | ChainChanged(chain: Option<Chain>)
    | ModuleChanged(moduleName: string)
    | MethodChanged(methodName: string)
    | EffectRuns
    | ParamChanged(index: nat, value: string)
    | WalletConnected(accounts: seq<string>, sawNoAccount: bool)
    | WalletFailed
    | AccountPicked(account: string)
    | SubmitClicked
    | InjectorFound(task: nat, builds: bool)
    | InjectorFailed(task: nat)
    | SignedAndSent(task: nat)
    | SigningFailed(task: nat)
    | StatusReported(task: nat, tx: TxStatus)

  // ---- Parameters ----

  const TO: Param := Param("dest", "MultiAddress")
  const WHO: Param := Param("who", "MultiAddress")
  const AMOUNT: Param := Param("value", "Compact<Balance>")

  function KnownParameters(moduleName: string, methodName: string): Option<seq<Param>> {
    match moduleName
    case "balances" => BalancesParameters(methodName)
    case "system" => SystemParameters(methodName)
    case "timestamp" => if methodName == "set" then Some([Param("now", "Compact<u64>")]) else None
    case "sudo" => SudoParameters(methodName)
    case "assets" => AssetsParameters(methodName)
    case _ => None
  }

  function BalancesParameters(methodName: string): Option<seq<Param>> {
    match methodName
    case "transfer" => Some([TO, AMOUNT])
    case "transferKeepAlive" => Some([TO, AMOUNT])
    case "transferAll" => Some([TO, Param("keepAlive", "bool")])
    case "forceTransfer" => Some([Param("source", "MultiAddress"), TO, AMOUNT])
    case "setBalance" => Some([WHO, Param("newFree", "Compact<Balance>"), Param("newReserved", "Compact<Balance>")])
    case "forceSetBalance" => Some([WHO, Param("newFree", "Compact<Balance>")])
    case "upgradeAccounts" => Some([Param("who", "Vec<AccountId32>")])
    case "transferAllowDeath" => Some([TO, AMOUNT])
    case "forceUnreserve" => Some([WHO, Param("amount", "u128")])
    case "forceAdjustTotalIssuance" => Some([Param("adjustment", "i128")])
    case "burn" => Some([Param("amount", "Compact<Balance>")])
    case _ => None
  }

  function SystemParameters(methodName: string): Option<seq<Param>> {
    match methodName
    case "remark" => Some([Param("remark", "Bytes")])
    case "setCode" => Some([Param("code", "Bytes")])
    case "setStorage" => Some([Param("items", "Vec<KeyValue>")])
    case "killStorage" => Some([Param("keys", "Vec<Key>")])
    case "killPrefix" => Some([Param("prefix", "Key"), Param("subkeys", "u32")])
    case "remarkWithEvent" => Some([Param("remark", "Bytes")])
    case _ => None
  }

  function SudoParameters(methodName: string): Option<seq<Param>> {
    match methodName
    case "sudo" => Some([Param("call", "Call")])
    case "sudoAs" => Some([WHO, Param("call", "Call")])
    case "sudoUncheckedWeight" => Some([Param("call", "Call"), Param("weight", "Weight")])
    case _ => None
  }

  function AssetsParameters(methodName: string): Option<seq<Param>> {
    match methodName
    case "create" => Some([Param("id", "Compact<u32>"), Param("admin", "MultiAddress"), Param("minBalance", "u128")])
    case "transfer" => Some([Param("id", "Compact<u32>"), Param("target", "MultiAddress"), Param("amount", "Compact<u128>")])
    case _ => None
  }

  // The parameters of the selected method; None while there is no API to ask, which leaves them as they are.
  function Resolve(chain: Option<Chain>, moduleName: string, methodName: string): Option<seq<Param>> {
    if moduleName == "" || methodName == "" then Some([])
    else if KnownParameters(moduleName, methodName).Some? then KnownParameters(moduleName, methodName)
    else if Includes(ToLower(methodName), "transfer") then Some([TO, AMOUNT])
    else if Includes(ToLower(methodName), "set") then Some([Param("value", "any")])
    else if chain.None? then None
    else Some(if (moduleName, methodName) in chain.value.calls then chain.value.calls[(moduleName, methodName)] else [])
  }

  function Blanks(n: nat): seq<Option<string>> { seq(n, _ => Some("")) }

  // Assignment to an array element, which leaves holes when it is beyond the end.
  function SetAt(values: seq<Option<string>>, i: nat, value: string): (r: seq<Option<string>>)
    ensures |r| == if i < |values| then |values| else i + 1
    ensures r[i] == Some(value)
    ensures forall k :: 0 <= k < |r| && k != i ==> r[k] == if k < |values| then values[k] else None
  {
    if i < |values| then values[i := Some(value)]
    else values + seq(i - |values|, _ => None) + [Some(value)]
  }

  predicate NonEmpty(value: Option<string>) { value.Some? && value.value != "" }

  // paramValues.filter(Boolean).length
  function Filled(values: seq<Option<string>>): nat {
    if values == [] then 0 else (if NonEmpty(values[0]) then 1 else 0) + Filled(values[1..])
  }

  function FormatParameter(value: Option<string>, typ: string): Arg {
    if Includes(ToLower(typ), "bool") then Boolean(value == Some("true"))
    else if value.Some? then Textual(value.value)
    else Missing
  }

  function Prepare(c: Clicked): Call {
    Call(c.moduleName, c.methodName, seq(|c.params|, i requires 0 <= i < |c.params| =>
      FormatParameter(if i < |c.values| then c.values[i] else None, c.params[i].typ)))
  }

  function ShownEvents(events: seq<ChainEvent>): seq<ChainEvent> {
    if events == [] then []
    else if Includes(events[0].section, "system") && Includes(events[0].methodName, "ExtrinsicSuccess") then ShownEvents(events[1..])
    else [events[0]] + ShownEvents(events[1..])
  }

  // ---- Segments ----

  function Nothing(): Shown { Shown(None, None, None, None, None) }

  function ResetTx(f: Form): Form { f.(shown := Nothing(), values := []) }

  predicate CanSubmit(f: Form) {
    && !f.submitting && f.moduleName != "" && f.methodName != "" && f.accounts != [] && f.account != ""
    && (f.params != [] ==> Filled(f.values) == |f.params|)
  }

  function Begin(f: Form): Form {
    f.(submitting := true, values := [], shown := Nothing().(status := Some(Preparing)),
       jobs := f.jobs.(next := f.jobs.next + 1))
  }

  function Close(jobs: Jobs, t: nat): Jobs {
    jobs.(live := jobs.live - {t}, subscriptions := jobs.subscriptions - {t}, ended := jobs.ended + 1)
  }

  function End(f: Form, t: nat): Form { f.(submitting := false, jobs := Close(f.jobs, t)) }

  function Abort(f: Form, t: nat, problem: Problem): Form {
    End(f.(shown := f.shown.(error := Some(problem))), t)
  }

  function Keep(jobs: Jobs, t: nat, submission: Submission): Jobs { jobs.(live := jobs.live[t := submission]) }

  // The callback's effect on what is shown; `hadEvents` is captured at the click, not read now.
  function ShowStatus(shown: Shown, hadEvents: bool, tx: TxStatus): Shown {
    match tx
    case InBlock(block, hash, events) =>
      shown.(blockHash := Some(block), txHash := Some(hash), status := Some(Included(block)),
             events := if events.Some? then Some(ShownEvents(events.value)) else shown.events)
    case Finalized(block, events) =>
      shown.(blockHash := Some(block), status := Some(FinalizedIn(block)),
             events := if !hadEvents && events.Some? then Some(ShownEvents(events.value)) else shown.events)
    case Errored => shown.(error := Some(TransactionFailed))
    case Pending => shown
  }

  function Report(f: Form, t: nat, tx: TxStatus): Form
    requires t in f.jobs.live
  {
    var reported := f.(shown := ShowStatus(f.shown, f.jobs.live[t].clicked.hadEvents, tx));
    if tx.Finalized? || tx.Errored? then End(reported, t) else reported
  }

  predicate Possible(f: Form, h: Happening) {
    match h
    // The user acts on a rendered page, whose effects have run.
    case ModuleChanged(_) => !f.effectDue
    case MethodChanged(_) => !f.effectDue
    case ParamChanged(index, _) => !f.effectDue && f.methodName != "" && index < |f.params|
    case AccountPicked(_) => !f.effectDue
    case SubmitClicked => !f.effectDue && CanSubmit(f)
    case EffectRuns => f.effectDue
    case InjectorFound(t, _) => t in f.jobs.live && f.jobs.live[t].phase == Injecting
    case InjectorFailed(t) => t in f.jobs.live && f.jobs.live[t].phase == Injecting
    case SignedAndSent(t) => t in f.jobs.live && f.jobs.live[t].phase == Signing
    case SigningFailed(t) => t in f.jobs.live && f.jobs.live[t].phase == Signing
    case StatusReported(t, _) => t in f.jobs.live && f.jobs.live[t].phase == Subscribed
    case _ => true
  }

  function Happen(f: Form, h: Happening): Form
    requires Possible(f, h)
  {
    match h
    case ChainChanged(chain) => f.(chain := chain, effectDue := true)
    case ModuleChanged(moduleName) =>
      ResetTx(f.(moduleName := moduleName, methodName := "", effectDue := f.moduleName != moduleName || f.methodName != ""))
    case MethodChanged(methodName) => ResetTx(f.(methodName := methodName, effectDue := f.methodName != methodName))
    case EffectRuns =>
      var params := Resolve(f.chain, f.moduleName, f.methodName);
      if params.Some? then f.(params := params.value, values := Blanks(|params.value|), effectDue := false)
      else f.(effectDue := false)
    case ParamChanged(index, value) => f.(values := SetAt(f.values, index, value))
    case WalletConnected(accounts, sawNoAccount) =>
      f.(accounts := accounts, account := if accounts != [] && sawNoAccount then accounts[0] else f.account)
    case WalletFailed => f.(shown := f.shown.(error := Some(NoWallet)))
    case AccountPicked(account) => f.(account := account)
    case SubmitClicked =>
      var t := f.jobs.next;
      if f.chain.None? then f
      else if f.account !in f.accounts then Abort(Begin(f), t, AccountNotFound)
      else
        var clicked := Clicked(f.chain.value, f.moduleName, f.methodName, f.params, f.values,
                               f.accounts, f.account, f.shown.events.Some?);
        var begun := Begin(f);
        begun.(jobs := Keep(begun.jobs, t, Submission(Injecting, clicked)))
    case InjectorFound(t, builds) =>
      var c := f.jobs.live[t].clicked;
      var waiting := f.(shown := f.shown.(status := Some(WaitingForSignature)),
                        jobs := f.jobs.(built := f.jobs.built + [Built(c, Prepare(c))]));
      if builds then waiting.(jobs := Keep(waiting.jobs, t, Submission(Signing, c))) else Abort(waiting, t, CannotBuild)
    case InjectorFailed(t) => Abort(f, t, NoInjector)
    case SignedAndSent(t) =>
      f.(jobs := Keep(f.jobs, t, Submission(Subscribed, f.jobs.live[t].clicked))
                 .(subscriptions := f.jobs.subscriptions + {t}))
    case SigningFailed(t) => Abort(f, t, NotSigned)
    case StatusReported(t, tx) => Report(f, t, tx)
  }

  function Blank(chain: Option<Chain>): Form {
    Form(chain, "", "", [], [], [], "", false, true, Nothing(), Jobs(map[], {}, 0, 0, []))
  }

  predicate ValidHistory(f: Form, hs: seq<Happening>)
    decreases |hs|
  {
    hs == [] || (Possible(f, hs[0]) && ValidHistory(Happen(f, hs[0]), hs[1..]))
  }

  function History(f: Form, hs: seq<Happening>): Form
    requires ValidHistory(f, hs)
    decreases |hs|
  {
    if hs == [] then f else History(Happen(f, hs[0]), hs[1..])
  }
}
