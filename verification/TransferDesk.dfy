// The transfer page as a machine that knows no submissions, phases or captured closures: one click at most
// is pending. Every history of the page is a run of it.
module TransferDesks {
  import opened Options
  import opened Texts
  import opened Percentages
  import opened Transfers
  import opened TransferProofs

  datatype Desk = Desk(
    chain: Option<Chain>, ready: bool, decimals: nat, balance: Option<nat>,
    accounts: seq<string>, account: string, recipient: string, amount: string,
    connecting: bool, shown: Shown,
    pending: Option<Clicked>,   // the click being worked on
    paid: seq<Clicked>          // the clicks whose transfer was built
  )

  function Tell(d: Desk, message: Message): Desk { d.(shown := d.shown.(message := message)) }

  function Drop(d: Desk, message: Message): Desk { Tell(d, message).(pending := None) }

  function Submit(d: Desk): Desk {
    if d.chain.None? || !d.ready || d.account == "" || d.recipient == "" || d.amount == "" then Tell(d, FillInAllFields)
    else
      var begun, balances := d.(shown := Shown(Preparing, None, None)), d.chain.value.balances;
      if balances.None? then Tell(begun, Failed(NoBalancesModule))
      else if !LooksTransferable(balances.value) then Tell(begun, Failed(NoTransferMethod))
      else if d.account !in d.accounts then Tell(begun, Failed(AccountNotFound))
      else
        Tell(begun, if "transfer" in balances.value then Preparing else UsingAlternative)
          .(pending := Some(Clicked(d.chain.value, d.decimals, d.accounts, d.account, d.recipient, d.amount)))
  }

  function Offer(d: Desk, c: Clicked, builds: bool): Desk {
    if c.chain.balances.None? || {"transfer", "transferKeepAlive"} !! c.chain.balances.value
    then Drop(d, Failed(NoSuitableMethod))
    else if !builds then Drop(d, Failed(CannotBuild))
    else Tell(d, WaitingForSignature).(paid := d.paid + [c])
  }

  function Hear(d: Desk, hash: Option<string>, tx: TxStatus): Desk {
    var heard := if hash.Some? then d.(shown := d.shown.(txHash := hash)) else d;
    match tx
    case OtherStatus => heard
    case InBlock(block) => Tell(heard, Included(block)).(shown := Shown(Included(block), heard.shown.txHash, Some(block)))
    case Finalized(block, dispatch) =>
      var placed := heard.(shown := heard.shown.(blockHash := Some(block)));
      match dispatch
      case NoError => Drop(placed, Succeeded(block)).(amount := "", recipient := "")
      case OtherError => Drop(placed, DispatchFailed)
      case ModuleError(decodes) => if decodes then Drop(placed, DispatchFailed) else placed
  }

  // What the page does when something happens, whichever submission it happens to.
  function Follow(d: Desk, h: Happening): Desk {
    match h
    case ApiChanged(chain, ready) => d.(chain := chain, ready := ready)
    case DecimalsRead(decimals) => d.(decimals := decimals)
    case BalanceRead(balance) => d.(balance := balance)
    case RecipientEdited(recipient) => d.(recipient := recipient)
    case AmountEdited(amount) => d.(amount := amount)
    case PercentagePressed(percent) =>
      if d.balance.Some? then d.(amount := PercentageText(d.balance.value, percent, d.decimals)) else d
    case AccountPicked(account) => d.(account := account)
    case WalletStarted => Tell(d.(connecting := true), ConnectingWallet)
    case WalletFound(accounts) =>
      Tell(d.(connecting := false, accounts := accounts, account := if accounts != [] then accounts[0] else ""), WalletReady)
    case WalletFailed => Tell(d.(connecting := false), Failed(NoWallet))
    case SubmitClicked => Submit(d)
    case InjectorFound(_, builds) => if d.pending.Some? then Offer(d, d.pending.value, builds) else d
    case InjectorFailed(_) => Drop(d, Failed(NoInjector))
    case SignedAndSent(_) => d
    case SigningFailed(_) => Drop(d, Failed(NotSigned))
    case StatusReported(_, hash, tx) => Hear(d, hash, tx)
  }

  function FollowAll(d: Desk, hs: seq<Happening>): Desk
    decreases |hs|
  {
    if hs == [] then d else FollowAll(Follow(d, hs[0]), hs[1..])
  }

  // ---- The page is such a desk ----

  function Clicks(payments: seq<Payment>): seq<Clicked> {
    seq(|payments|, i requires 0 <= i < |payments| => payments[i].clicked)
  }

  function Pending(submitting: bool, jobs: Jobs): Option<Clicked>
    requires BusyJobs(submitting, jobs)
  {
    if submitting then Some(jobs.live[jobs.next - 1].clicked) else None
  }

  function DeskOf(f: Form): Desk
    requires Inv(f)
  {
    Desk(f.chain, f.ready, f.decimals, f.balance, f.accounts, f.account, f.recipient, f.amount, f.connecting, f.shown,
         Pending(f.submitting, f.jobs), Clicks(f.jobs.payments))
  }

  lemma StepFollows(f: Form, h: Happening)
    requires Inv(f) && Possible(f, h)
    ensures Inv(Happen(f, h)) && DeskOf(Happen(f, h)) == Follow(DeskOf(f), h)
  {
    StepInv(f, h);
    match h
    case SubmitClicked => ClickFollows(f);
    case InjectorFound(t, builds) => BuildFollows(f, t, builds);
    case StatusReported(t, hash, tx) => ReportFollows(f, t, hash, tx);
    case _ =>
  }

  lemma ClickFollows(f: Form)
    requires Inv(f) && Possible(f, SubmitClicked) && Inv(Happen(f, SubmitClicked))
    ensures DeskOf(Happen(f, SubmitClicked)) == Submit(DeskOf(f))
  {
    if f.chain.Some? { TransferLooksTransferable(f.chain.value.balances); }
  }

  lemma BuildFollows(f: Form, t: nat, builds: bool)
    requires Inv(f) && InPhase(f, t, Injecting) && Inv(Build(f, t, builds))
    ensures DeskOf(Build(f, t, builds)) == Offer(DeskOf(f), f.jobs.live[t].clicked, builds)
  {
    var c := f.jobs.live[t].clicked;
    var entry := TransferEntry(c.chain.balances);
    assert t == f.jobs.next - 1;
    NoEntryIff(c.chain.balances);
    if entry.Some? && builds { ClicksPaid(f.jobs.payments, Pay(t, entry.value, c)); }
  }

  lemma NoEntryIff(balances: Option<set<string>>)
    ensures TransferEntry(balances) == None <==> balances.None? || {"transfer", "transferKeepAlive"} !! balances.value
  {
  }

  lemma ClicksPaid(payments: seq<Payment>, p: Payment)
    ensures Clicks(payments + [p]) == Clicks(payments) + [p.clicked]
  {
  }

  lemma ReportFollows(f: Form, t: nat, hash: Option<string>, tx: TxStatus)
    requires Inv(f) && InPhase(f, t, Subscribed) && Inv(Report(f, t, hash, tx))
    ensures DeskOf(Report(f, t, hash, tx)) == Hear(DeskOf(f), hash, tx)
  {
    HeardShown(f.shown, DeskOf(f), hash, tx);
    assert t == f.jobs.next - 1;
  }

  lemma HeardShown(shown: Shown, d: Desk, hash: Option<string>, tx: TxStatus)
    requires d.shown == shown
    ensures ShowReport(shown, hash, tx) == Hear(d, hash, tx).shown
  {
  }

  // Whatever submissions, awaits and closures the page goes through, it shows and does what the desk does
  // that remembers one click.
  lemma {:induction false} HistoryFollows(f: Form, hs: seq<Happening>)
    requires Inv(f) && ValidHistory(f, hs)
    ensures Inv(History(f, hs)) && DeskOf(History(f, hs)) == FollowAll(DeskOf(f), hs)
    decreases |hs|
  {
    if hs != [] {
      StepFollows(f, hs[0]);
      HistoryFollows(Happen(f, hs[0]), hs[1..]);
    }
  }

  // ---- Payments come from clicks ----

  // The desk shows exactly what c captured.
  predicate Shows(d: Desk, c: Clicked) {
    d.chain == Some(c.chain) && d.ready && c == Clicked(c.chain, d.decimals, d.accounts, d.account, d.recipient, d.amount)
  }

  // The k-th happening is a click on a form that shows it.
  predicate ClickedAt(d: Desk, hs: seq<Happening>, k: nat, c: Clicked) {
    k < |hs| && hs[k] == SubmitClicked && Shows(FollowAll(d, hs[..k]), c)
  }

  lemma LaterClick(d: Desk, hs: seq<Happening>, k: nat, c: Clicked)
    requires hs != [] && ClickedAt(Follow(d, hs[0]), hs[1..], k, c)
    ensures ClickedAt(d, hs, k + 1, c)
  {
    assert hs[..k + 1][0] == hs[0] && hs[..k + 1][1..] == hs[1..][..k];
  }

  lemma StepClicked(d: Desk, h: Happening, c: Clicked)
    requires c in Follow(d, h).paid || Follow(d, h).pending == Some(c)
    ensures c in d.paid || d.pending == Some(c) || (h == SubmitClicked && Shows(d, c))
  {
    match h
    case SubmitClicked => SubmitPends(d);
    case InjectorFound(_, builds) => if d.pending.Some? { OfferPays(d, d.pending.value, builds); }
    case StatusReported(_, hash, tx) => HearPends(d, hash, tx);
    case _ =>
  }

  lemma SubmitPends(d: Desk)
    ensures Submit(d).paid == d.paid
    ensures Submit(d).pending == d.pending || (Submit(d).pending.Some? && Shows(d, Submit(d).pending.value))
  {
  }

  lemma OfferPays(d: Desk, c: Clicked, builds: bool)
    requires d.pending == Some(c)
    ensures Offer(d, c, builds).paid in {d.paid, d.paid + [c]} && Offer(d, c, builds).pending in {None, Some(c)}
  {
  }

  lemma HearPends(d: Desk, hash: Option<string>, tx: TxStatus)
    ensures Hear(d, hash, tx).paid == d.paid && Hear(d, hash, tx).pending in {None, d.pending}
  {
  }

  lemma {:induction false} ClickProvenance(d: Desk, hs: seq<Happening>, c: Clicked)
    requires var d' := FollowAll(d, hs); c in d'.paid || d'.pending == Some(c)
    ensures c in d.paid || d.pending == Some(c) || exists k :: ClickedAt(d, hs, k, c)
    decreases |hs|
  {
    if hs != [] {
      ClickProvenance(Follow(d, hs[0]), hs[1..], c);
      if k: nat :| ClickedAt(Follow(d, hs[0]), hs[1..], k, c) {
        LaterClick(d, hs, k, c);
      } else {
        StepClicked(d, hs[0], c);
        assert hs[..0] == [] && (hs[0] == SubmitClicked && Shows(d, c) ==> ClickedAt(d, hs, 0, c));
      }
    }
  }

  // In every history each payment pays what the form showed at some click: to the recipient and with the
  // amount then in the fields, from the account then selected among the accounts then known.
  lemma PaymentsComeFromClicks(hs: seq<Happening>, p: Payment)
    requires ValidHistory(Blank(), hs) && p in History(Blank(), hs).jobs.payments
    ensures exists k :: ClickedAt(DeskOf(Blank()), hs, k, p.clicked)
  {
    HistoryFollows(Blank(), hs);
    var ps := History(Blank(), hs).jobs.payments;
    var i :| 0 <= i < |ps| && ps[i] == p;
    assert Clicks(ps)[i] == p.clicked;
    ClickProvenance(DeskOf(Blank()), hs, p.clicked);
  }

  // ---- Success is never claimed early ----

  // Whether a happening makes the page say something new.
  predicate Speaks(h: Happening) {
    match h
    case StatusReported(_, _, tx) => tx.InBlock? || Final(tx)
    case _ =>
      || h.WalletStarted? || h.WalletFound? || h.WalletFailed? || h.SubmitClicked?
      || h.InjectorFound? || h.InjectorFailed? || h.SigningFailed?
  }

  function LastSaid(hs: seq<Happening>, said: Option<Happening>): Option<Happening> {
    if hs == [] then said else LastSaid(hs[1..], if Speaks(hs[0]) then Some(hs[0]) else said)
  }

  predicate Confirms(said: Option<Happening>, block: string) {
    said.Some? && FinalizedWell(said.value) && said.value.tx.block == block
  }

  // The page says that a transfer succeeded in a block exactly when the last thing it had to say was a
  // final status for that block without a dispatch error.
  lemma {:induction false} SuccessShownIff(f: Form, hs: seq<Happening>, said: Option<Happening>, block: string)
    requires ValidHistory(f, hs) && (f.shown.message == Succeeded(block) <==> Confirms(said, block))
    ensures History(f, hs).shown.message == Succeeded(block) <==> Confirms(LastSaid(hs, said), block)
    decreases |hs|
  {
    if hs != [] {
      StepSays(f, hs[0], block);
      SuccessShownIff(Happen(f, hs[0]), hs[1..], if Speaks(hs[0]) then Some(hs[0]) else said, block);
    }
  }

  lemma StepSays(f: Form, h: Happening, block: string)
    requires Possible(f, h)
    ensures Speaks(h) ==> (Happen(f, h).shown.message == Succeeded(block) <==> Confirms(Some(h), block))
    ensures !Speaks(h) ==> Happen(f, h).shown.message == f.shown.message
  {
  }
}
