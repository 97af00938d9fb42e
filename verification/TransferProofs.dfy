// What holds of the transfer form over all histories.
module TransferProofs {
  import opened Options
  import opened Texts
  import opened Decimals
  import opened Amounts
  import opened Transfers

  // ---- The busy flag ----

  // The flag stands for exactly the last submission begun, and a subscription for its last phase.
  ghost predicate BusyJobs(submitting: bool, jobs: Jobs) {
    && (submitting ==> jobs.next > 0 && jobs.live.Keys == {jobs.next - 1})
    && (!submitting ==> jobs.live.Keys == {})
    && (forall t :: t in jobs.subscriptions <==> t in jobs.live && jobs.live[t].phase == Subscribed)
    && jobs.next == jobs.ended + (if submitting then 1 else 0)
  }

  // Payments come in the order of their clicks, at most one for each, and none for a click still waiting
  // for its wallet.
  ghost predicate PaidOnce(jobs: Jobs) {
    && (forall i, j :: 0 <= i < j < |jobs.payments| ==> jobs.payments[i].task < jobs.payments[j].task)
    && (forall p :: p in jobs.payments ==> p.task < jobs.next)
    && (forall t, p :: t in jobs.live && jobs.live[t].phase == Injecting && p in jobs.payments ==> p.task < t)
  }

  ghost predicate Faithful(p: Payment) {
    && TransferEntry(p.clicked.chain.balances) == Some(p.entry)
    && p == Pay(p.task, p.entry, p.clicked)
    && Sendable(p.clicked)
  }

  // A click that went on to the wallet.
  ghost predicate Sendable(c: Clicked) { c.account in c.accounts && c.recipient != "" && c.amount != "" }

  ghost predicate PaidAsClicked(jobs: Jobs) {
    && (forall p :: p in jobs.payments ==> Faithful(p))
    && (forall t :: t in jobs.live ==> Sendable(jobs.live[t].clicked))
  }

  ghost predicate Inv(f: Form) { BusyJobs(f.submitting, f.jobs) && PaidOnce(f.jobs) && PaidAsClicked(f.jobs) }

  lemma CloseInv(jobs: Jobs, t: nat)
    requires BusyJobs(true, jobs) && PaidOnce(jobs) && PaidAsClicked(jobs) && t in jobs.live
    ensures BusyJobs(false, Close(jobs, t)) && PaidOnce(Close(jobs, t)) && PaidAsClicked(Close(jobs, t))
  {
  }

  lemma SubscribeInv(jobs: Jobs, t: nat)
    requires BusyJobs(true, jobs) && PaidOnce(jobs) && PaidAsClicked(jobs)
    requires t in jobs.live && jobs.live[t].phase == Signing
    ensures var jobs' := Keep(jobs, t, Submission(Subscribed, jobs.live[t].clicked)).(subscriptions := jobs.subscriptions + {t});
      BusyJobs(true, jobs') && PaidOnce(jobs') && PaidAsClicked(jobs')
  {
  }

  lemma PayInv(jobs: Jobs, t: nat, entry: string)
    requires BusyJobs(true, jobs) && PaidOnce(jobs) && PaidAsClicked(jobs)
    requires t in jobs.live && jobs.live[t].phase == Injecting
    requires TransferEntry(jobs.live[t].clicked.chain.balances) == Some(entry)
    ensures var c := jobs.live[t].clicked;
      var jobs' := Keep(jobs, t, Submission(Signing, c)).(payments := jobs.payments + [Pay(t, entry, c)]);
      BusyJobs(true, jobs') && PaidOnce(jobs') && PaidAsClicked(jobs')
  {
  }

  lemma ClickInv(f: Form)
    requires Inv(f) && !f.submitting && Complete(f)
    ensures Inv(Click(f))
  {
  }

  lemma BuildInv(f: Form, t: nat, builds: bool)
    requires Inv(f) && InPhase(f, t, Injecting)
    ensures Inv(Build(f, t, builds))
  {
    var entry := TransferEntry(f.jobs.live[t].clicked.chain.balances);
    if entry.None? || !builds { CloseInv(f.jobs, t); } else { PayInv(f.jobs, t, entry.value); }
  }

  lemma ReportInv(f: Form, t: nat, hash: Option<string>, tx: TxStatus)
    requires Inv(f) && t in f.jobs.live
    ensures Inv(Report(f, t, hash, tx))
  {
  }

  lemma StepInv(f: Form, h: Happening)
    requires Inv(f) && Possible(f, h)
    ensures Inv(Happen(f, h))
  {
    match h
    case SubmitClicked => if Complete(f) { ClickInv(f); }
    case InjectorFound(t, builds) => BuildInv(f, t, builds);
    case InjectorFailed(t) => CloseInv(f.jobs, t);
    case SignedAndSent(t) => SubscribeInv(f.jobs, t);
    case SigningFailed(t) => CloseInv(f.jobs, t);
    case StatusReported(t, hash, tx) => ReportInv(f, t, hash, tx);
    case _ => assert Happen(f, h).jobs == f.jobs && Happen(f, h).submitting == f.submitting;
  }

  lemma {:induction false} HistoryInv(f: Form, hs: seq<Happening>)
    requires Inv(f) && ValidHistory(f, hs)
    ensures Inv(History(f, hs))
    decreases |hs|
  {
    if hs != [] {
      StepInv(f, hs[0]);
      HistoryInv(Happen(f, hs[0]), hs[1..]);
    }
  }

  // In every history the form is busy exactly while one submission has begun and not ended.
  lemma OneLiveSubmission(hs: seq<Happening>)
    requires ValidHistory(Blank(), hs)
    ensures var f := History(Blank(), hs);
      && |f.jobs.live| == (if f.submitting then 1 else 0)
      && f.jobs.ended + |f.jobs.live| == f.jobs.next
      && forall t :: t in f.jobs.subscriptions <==> InPhase(f, t, Subscribed)
  {
    HistoryInv(Blank(), hs);
    var jobs := History(Blank(), hs).jobs;
    assert |jobs.live| == |jobs.live.Keys|;
  }

  // ---- Payments ----

  // In every history no click pays twice, and a payment is signed by the account of its click, which was
  // among the wallet's, and carries the recipient and the amount of its click, converted with the decimals
  // of its click, to a method the chain has.
  lemma PaymentsAreFaithful(hs: seq<Happening>, i: nat)
    requires ValidHistory(Blank(), hs) && i < |History(Blank(), hs).jobs.payments|
    ensures var ps := History(Blank(), hs).jobs.payments;
      && (forall j :: 0 <= j < |ps| && j != i ==> ps[j].task != ps[i].task)
      && ps[i].account == ps[i].clicked.account && ps[i].account in ps[i].clicked.accounts
      && ps[i].recipient == ps[i].clicked.recipient != ""
      && ps[i].raw == RawAmount(ps[i].clicked.amount, ps[i].clicked.decimals)
      && ps[i].clicked.chain.balances.Some? && ps[i].entry in ps[i].clicked.chain.balances.value
      && ps[i].entry in {"transfer", "transferKeepAlive"}
      && (ps[i].entry == "transfer" <==> "transfer" in ps[i].clicked.chain.balances.value)
  {
    HistoryInv(Blank(), hs);
    var p := History(Blank(), hs).jobs.payments[i];
    assert p in History(Blank(), hs).jobs.payments && Faithful(p);
  }

  // Exactly when a payment of a decimal amount transfers that amount.
  lemma PaymentExactIff(hs: seq<Happening>, p: Payment)
    requires ValidHistory(Blank(), hs) && p in History(Blank(), hs).jobs.payments && IsAmount(p.clicked.amount)
    ensures Digits(p.raw)
    ensures var s, d := p.clicked.amount, p.clicked.decimals;
      Exact(s, d, Value(p.raw)) <==> !HasDot(s) || Significand(s) == 0 || Places(s) == Min(|Whole(s)|, d)
  {
    HistoryInv(Blank(), hs);
    RawAmountExactIff(p.clicked.amount, p.clicked.decimals);
  }

  // Which clicks of a complete form go on to the wallet, and what the others are told, in this order.
  lemma ClickGoesOnIff(f: Form)
    requires Inv(f) && Possible(f, SubmitClicked)
    requires f.chain.Some? && f.ready && f.account != "" && f.recipient != "" && f.amount != ""
    ensures var f1, balances := Happen(f, SubmitClicked), f.chain.value.balances;
      && f1.jobs.payments == f.jobs.payments
      && (InPhase(f1, f.jobs.next, Injecting) <==>
            balances.Some? && LooksTransferable(balances.value) && f.account in f.accounts)
      && (InPhase(f1, f.jobs.next, Injecting) ==> f1.jobs.live[f.jobs.next].clicked.chain == f.chain.value)
      && (balances.None? ==> f1.shown.message == Failed(NoBalancesModule))
      && (balances.Some? && !LooksTransferable(balances.value) ==> f1.shown.message == Failed(NoTransferMethod))
      && (balances.Some? && LooksTransferable(balances.value) && f.account !in f.accounts ==>
            f1.shown.message == Failed(AccountNotFound))
  {
    TransferLooksTransferable(f.chain.value.balances);
  }

  // The test for the exact name is one of the test for a name like it.
  lemma TransferLooksTransferable(balances: Option<set<string>>)
    ensures balances.Some? && "transfer" in balances.value ==> LooksTransferable(balances.value)
  {
    assert ToLower("transfer") == "transfer";
    assert OccursAt("transfer", "transfer", 0);
  }

  // The chain has a method named like a transfer, but none of the two the page can call.
  predicate OnlyOtherTransfers(entries: set<string>) {
    LooksTransferable(entries) && "transfer" !in entries && "transferKeepAlive" !in entries
  }

  // A click that goes on to the wallet still fails after it has answered exactly when the chain has only
  // other transfers; else it pays once the wallet has answered.
  lemma LateMethodFailureIff(f: Form)
    requires Inv(f) && Possible(f, SubmitClicked)
    requires f.chain.Some? && f.ready && f.account != "" && f.recipient != "" && f.amount != ""
    requires f.chain.value.balances.Some? && LooksTransferable(f.chain.value.balances.value) && f.account in f.accounts
    ensures var f1, t := Happen(f, SubmitClicked), f.jobs.next;
      && InPhase(f1, t, Injecting)
      && var f2 := Happen(f1, InjectorFound(t, true));
         && (f2.shown.message == Failed(NoSuitableMethod) <==> OnlyOtherTransfers(f.chain.value.balances.value))
         && (f2.jobs.payments == f.jobs.payments <==> OnlyOtherTransfers(f.chain.value.balances.value))
  {
    ClickGoesOnIff(f);
  }

  // Such a chain: one that only has forceTransfer.
  lemma ForceTransferIsOther()
    ensures OnlyOtherTransfers({"forceTransfer"})
  {
    var lower := ToLower("forceTransfer");
    assert lower == "forcetransfer";
    assert OccursAt(lower, "transfer", 5);
  }

  // ---- Outcomes ----

  // A final status without an error, or with one that can be shown.
  predicate Final(tx: TxStatus) { tx.Finalized? && tx.dispatch in {NoError, OtherError, ModuleError(true)} }

  predicate Ends(f: Form, h: Happening)
    requires Possible(f, h)
  {
    || h.InjectorFailed? || h.SigningFailed?
    || (h.InjectorFound? && (!h.builds || TransferEntry(f.jobs.live[h.task].clicked.chain.balances).None?))
    || (h.StatusReported? && Final(h.tx))
  }

  lemma EndsExactly(f: Form, h: Happening)
    requires Inv(f) && f.submitting && Possible(f, h)
    ensures !Happen(f, h).submitting <==> Ends(f, h)
    ensures Ends(f, h) ==> Happen(f, h).jobs.live.Keys == {} && Happen(f, h).jobs.subscriptions == {}
    ensures !Ends(f, h) ==> Happen(f, h).jobs.live.Keys == f.jobs.live.Keys
  {
    match h
    case InjectorFound(t, builds) => BuildEnds(f, t, builds);
    case StatusReported(t, hash, tx) => ReportEnds(f, t, hash, tx);
    case _ =>
  }

  lemma BuildEnds(f: Form, t: nat, builds: bool)
    requires BusyJobs(f.submitting, f.jobs) && t in f.jobs.live
    ensures var f' := Build(f, t, builds);
      if !builds || TransferEntry(f.jobs.live[t].clicked.chain.balances).None?
      then !f'.submitting && f'.jobs.live.Keys == {} && f'.jobs.subscriptions == {}
      else f'.submitting && f'.jobs.live.Keys == f.jobs.live.Keys
  {
  }

  lemma ReportEnds(f: Form, t: nat, hash: Option<string>, tx: TxStatus)
    requires BusyJobs(f.submitting, f.jobs) && t in f.jobs.live
    ensures var f' := Report(f, t, hash, tx);
      if Final(tx) then !f'.submitting && f'.jobs.live.Keys == {} && f'.jobs.subscriptions == {}
      else f'.submitting && f'.jobs == f.jobs
  {
  }

  predicate EndsIn(f: Form, hs: seq<Happening>)
    requires ValidHistory(f, hs)
    decreases |hs|
  {
    hs != [] && (Ends(f, hs[0]) || EndsIn(Happen(f, hs[0]), hs[1..]))
  }

  // Over any history, a submission is over exactly when an exception before its subscription, or a final
  // status whose error, if any, decodes, was among what happened since.
  lemma {:induction false} SubmissionOverIff(f: Form, hs: seq<Happening>, t: nat)
    requires Inv(f) && t in f.jobs.live && ValidHistory(f, hs)
    ensures t !in History(f, hs).jobs.live <==> EndsIn(f, hs)
    decreases |hs|
  {
    if hs != [] {
      EndsExactly(f, hs[0]);
      StepInv(f, hs[0]);
      if Ends(f, hs[0]) { NeverLiveAgain(Happen(f, hs[0]), hs[1..], t); } else { SubmissionOverIff(Happen(f, hs[0]), hs[1..], t); }
    }
  }

  lemma NotRevived(f: Form, h: Happening, t: nat)
    requires Possible(f, h) && t !in f.jobs.live && t < f.jobs.next
    ensures t !in Happen(f, h).jobs.live && t < Happen(f, h).jobs.next
  {
    match h
    case SubmitClicked => if Complete(f) { assert Click(f).jobs.next == f.jobs.next + 1; }
    case InjectorFound(u, builds) => BuildKeys(f, u, builds);
    case StatusReported(u, hash, tx) => ReportKeys(f, u, hash, tx);
    case _ =>
  }

  lemma BuildKeys(f: Form, t: nat, builds: bool)
    requires t in f.jobs.live
    ensures Build(f, t, builds).jobs.live.Keys <= f.jobs.live.Keys && Build(f, t, builds).jobs.next == f.jobs.next
  {
  }

  lemma ReportKeys(f: Form, t: nat, hash: Option<string>, tx: TxStatus)
    ensures Report(f, t, hash, tx).jobs.live.Keys <= f.jobs.live.Keys && Report(f, t, hash, tx).jobs.next == f.jobs.next
  {
  }

  lemma {:induction false} NeverLiveAgain(f: Form, hs: seq<Happening>, t: nat)
    requires t !in f.jobs.live && t < f.jobs.next && ValidHistory(f, hs)
    ensures t !in History(f, hs).jobs.live
    decreases |hs|
  {
    if hs != [] {
      NotRevived(f, hs[0], t);
      NeverLiveAgain(Happen(f, hs[0]), hs[1..], t);
    }
  }

  // Once subscribed, a submission whose statuses never conclude keeps the form busy for good, whatever
  // else happens: a dropped or invalid transaction can never be followed by another.
  lemma {:induction false} BusyForGood(f: Form, hs: seq<Happening>, t: nat)
    requires Inv(f) && InPhase(f, t, Subscribed) && ValidHistory(f, hs)
    requires forall h :: h in hs && h.StatusReported? ==> !Final(h.tx)
    ensures var f' := History(f, hs);
      f'.submitting && !CanSubmit(f') && InPhase(f', t, Subscribed) && f'.jobs.payments == f.jobs.payments
    decreases |hs|
  {
    if hs != [] {
      assert hs[0] in hs;
      assert forall h :: h in hs[1..] ==> h in hs;
      StepInv(f, hs[0]);
      BusyStays(f, hs[0], t);
      BusyForGood(Happen(f, hs[0]), hs[1..], t);
    }
  }

  lemma BusyStays(f: Form, h: Happening, t: nat)
    requires Inv(f) && InPhase(f, t, Subscribed) && Possible(f, h) && (h.StatusReported? ==> !Final(h.tx))
    ensures InPhase(Happen(f, h), t, Subscribed) && Happen(f, h).jobs.payments == f.jobs.payments
  {
  }

  // The button is enabled exactly on a filled-in form with accounts and no submission alive.
  lemma EnabledIff(f: Form)
    requires Inv(f)
    ensures CanSubmit(f) <==> f.accounts != [] && f.jobs.live == map[] && f.recipient != "" && f.amount != ""
  {
    if !f.submitting { assert f.jobs.live.Keys == {}; }
  }

  predicate FinalizedWell(h: Happening) { h.StatusReported? && h.tx.Finalized? && h.tx.dispatch == NoError }

  predicate SucceededIn(hs: seq<Happening>) {
    exists k :: 0 <= k < |hs| && FinalizedWell(hs[k])
  }

  predicate AmountTouched(hs: seq<Happening>) {
    exists k :: 0 <= k < |hs| && (hs[k].AmountEdited? || hs[k].PercentagePressed?)
  }

  predicate RecipientTouched(hs: seq<Happening>) { exists k :: 0 <= k < |hs| && hs[k].RecipientEdited? }

  // Unless the user touches them, the amount and the recipient change only by being cleared, together
  // with a transaction that was finalized without a dispatch error.
  lemma {:induction false} ClearedOnlyBySuccess(f: Form, hs: seq<Happening>)
    requires ValidHistory(f, hs)
    ensures var f' := History(f, hs);
      && (!AmountTouched(hs) ==> f'.amount == if SucceededIn(hs) then "" else f.amount)
      && (!RecipientTouched(hs) ==> f'.recipient == if SucceededIn(hs) then "" else f.recipient)
    decreases |hs|
  {
    if hs != [] {
      ClearedOnlyBySuccess(Happen(f, hs[0]), hs[1..]);
      StepFields(f, hs[0]);
      FirstOrLater(hs);
    }
  }

  lemma StepFields(f: Form, h: Happening)
    requires Possible(f, h)
    ensures var f', cleared := Happen(f, h), FinalizedWell(h);
      && (!h.AmountEdited? && !h.PercentagePressed? ==> f'.amount == if cleared then "" else f.amount)
      && (!h.RecipientEdited? ==> f'.recipient == if cleared then "" else f.recipient)
  {
  }

  lemma FirstOrLater(hs: seq<Happening>)
    requires hs != []
    ensures SucceededIn(hs) <==> FinalizedWell(hs[0]) || SucceededIn(hs[1..])
    ensures AmountTouched(hs) <==> hs[0].AmountEdited? || hs[0].PercentagePressed? || AmountTouched(hs[1..])
    ensures RecipientTouched(hs) <==> hs[0].RecipientEdited? || RecipientTouched(hs[1..])
  {
    assert forall k :: 0 <= k < |hs| - 1 ==> hs[1..][k] == hs[k + 1];
    assert forall k :: 1 <= k < |hs| ==> hs[k] == hs[1..][k - 1];
  }
}
