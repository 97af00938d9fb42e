# Verification of the chain interface and its fee polynomial

This project models the parts of the repository that decide something, and proves what they do for every
input, every run or every interleaving:

- **the connection manager** (`api.ts`): module-level variables that overlapping asynchronous calls read and
  write, one event for every segment of code between two awaits, any await failing at any time;
- **the API context and the endpoint selector** on top of it (`ApiContext.tsx`, `EndpointSelector.tsx`);
- **the amount arithmetic** of the transfer page and its percentage buttons (`Transfer.tsx`);
- **the transfer and the extrinsic form** as state machines over clicks, awaits, status callbacks and edits
  (`Transfer.tsx`, `Extrinsics.tsx`), where a submission sees the form as it was when it was clicked;
- **the classifier** that picks the control of a parameter (`ParamInput.tsx`);
- **the weight-to-fee polynomial** of the runtime (`lib.rs`).

Each state machine is written twice. A `State`, `Provider` or `Form` datatype with a step function
(`Connection.Apply`, `Providers.Happen`, `Extrinsics.Happen`, `Transfers.Happen`) is what the theorems over
whole runs are about. A class with the source's fields (`ApiService`, `ApiProvider`, `EndpointSelector`,
`ExtrinsicsPage`, `TransferPage`) has one method for each handler, effect or segment; each method is proved to
take exactly that step and to keep the invariant of the machine. Fields marked ghost only keep account of what
happened. Each page is moreover proved to be a run of a simpler machine that knows no submissions
(`TransferDesks`, `ExtrinsicsDesks`), as the connection manager is of a ledger read off its events.

What the proofs found, stated as lemmas below:

- Overlapping connection calls leak connections: at most one for each overlapping call, the bound is attained,
  a leak is final, and mounting under React's strict mode already leaks one.
- The last endpoint asked for is not always the one kept: it is the last one whose disconnect was done. A request
  whose disconnect is refused is dropped, and overlapping requests can be kept in the wrong order.
- The context can call itself ready without an instance: exactly when its last success was a change whose call
  returned after another call had cleared `api`. This and the crossing of requests need a user event while the
  promise of `api.disconnect()` or of `isReady` is unresolved, which the library does not exclude; the model lets
  each of them stay pending across any number of events.
- An instance that only a change of the endpoint has put in place is not listened to: its transport can drop and
  the page stays ready.
- With at least three decimals, sending what a percentage button filled in transfers more than the share exactly
  when the text is a non-zero amount with more fraction digits than whole digits (capped by the decimals).
- The conversion of an amount with a dot is exact only when the fraction has as many digits as the whole part
  (capped by the decimals) or the amount is zero; `1.25` goes out as `12.5`, `10.5` as `1.05`. The comment at
  `Transfer.tsx:192` promises exactness; the code is modelled as it is, and the conversion that keeps the
  promise is proved beside it.
- A transfer whose transaction is dropped or invalid keeps the page busy for good; the extrinsic form recovers.
- 100 base weights, not one, cost a tenth of a MILLIUNIT; the comment at `lib.rs:147-148` reads differently.

## Model

| member | source | states |
|---|---|---|
| ConnectionLeaks.LeakBound | polkadotjs-interface/src/services/polkadot/api.ts:28-90 | in every interleaving, with failures anywhere, open handles other than `api` are at most the calls that began while another was running |
| ConnectionLeaks.LeakBoundAttained | polkadotjs-interface/src/services/polkadot/api.ts:28-62 | for every n, and from every endpoint a saved value or the environment gives, there is a run with n overlapping calls and n orphaned connections |
| ConnectionLeaks.OrphanedExactlyBy | polkadotjs-interface/src/services/polkadot/api.ts:37-87 | a step orphans a handle iff it is a create overwriting `api` with the old handle open, a disconnect clearing an `api` it did not close, or a reconnect of a handle no longer in `api` |
| ConnectionLeaks.LeakIsFinal | polkadotjs-interface/src/services/polkadot/api.ts:28-90 | an orphan no running call is closing stays open and unreferenced after any further run |
| ConnectionLeaks.StepAccounted | polkadotjs-interface/src/services/polkadot/api.ts:28-90 | every segment keeps the accounting: handles held plus calls at work never exceed overlaps plus the credits for `api` or a running create and for the handle the first call is closing |
| ConnectionLeaks.StepLeaderTarget | polkadotjs-interface/src/services/polkadot/api.ts:58-76 | no segment lets a call that has created its handle see the handle the first call set out to close |
| ConnectionSerial.FirstLoad | polkadotjs-interface/src/services/polkadot/api.ts:5-23 | a first load starts at the saved endpoint if it is named, else at the environment's, with no API |
| ConnectionSerial.ReloadResumes | polkadotjs-interface/src/services/polkadot/api.ts:5-22 | after any run, at any point, a reload starts at the endpoint that is current |
| ConnectionSerial.SerializedRunIsOneSlot | polkadotjs-interface/src/services/polkadot/api.ts:28-90 | a run without overlaps, failures included, is a run of a one-slot manager that re-aims and connects only while empty; nothing else is open and `api` is at the current endpoint |
| ConnectionSerial.SerializedCallReturnsApi | polkadotjs-interface/src/services/polkadot/api.ts:70-78 | without overlaps, a call that returns hands out `api`, never null, open and at the current endpoint |
| ConnectionSerial.SerializedDisconnectCloses | polkadotjs-interface/src/services/polkadot/api.ts:84-90 | without overlaps, nothing is open and there is no `api` once disconnectApi has ended unrefused |
| ConnectionSerial.DisconnectCloses | polkadotjs-interface/src/services/polkadot/api.ts:84-90 | in every interleaving, a disconnectApi that begins with a handle in `api` does not end at once, and when it ends unrefused that handle is not open |
| ConnectionSerial.CreatesWhatItAimedAt | polkadotjs-interface/src/services/polkadot/api.ts:30-62 | in every interleaving, the handle a call creates is for the endpoint it was given, else for the one current when it began, whatever is current by then |
| ConnectionSerial.CallEndsIff | polkadotjs-interface/src/services/polkadot/api.ts:28-90 | a call returns iff its instance was just reported ready with nothing to reconnect, or it asked for the current endpoint while that is connected; ends without a result iff its disconnect is done or there was nothing to disconnect; rejects iff an await throws or `api` is null after the reconnect |
| ConnectionSerial.AwaitsCanEnd | polkadotjs-interface/src/services/polkadot/api.ts:28-90 | every await of every running call can fail, and can succeed but for a create without an endpoint |
| ConnectionSerial.SerializedEndsAtLastGranted | polkadotjs-interface/src/services/polkadot/api.ts:30-46 | without overlaps, the endpoint at rest is the last one asked for, not counting requests whose disconnect was refused, read off the events alone |
| ConnectionSerial.StrictModeLeaks | polkadotjs-interface/src/context/ApiContext.tsx:108-114 | mount, cleanup, mount before the first create ends leaves exactly one orphan, from every endpoint a saved value or the environment gives |
| ConnectionSerial.PartsExactlyBy | polkadotjs-interface/src/services/polkadot/api.ts:28-46 | while the current endpoint is the last one asked for, a step parts them iff it is a request for another endpoint that must disconnect first, or the end of the disconnect of a call that asked for another endpoint |
| ConnectionSerial.RunEndsAtLastRecorded | polkadotjs-interface/src/services/polkadot/api.ts:33-46 | in every interleaving the current endpoint is the last one put into effect, in the order in which disconnects end; so it is the last one asked for iff that request was put into effect last |
| ConnectionSerial.EndpointReadOffEvents | polkadotjs-interface/src/services/polkadot/api.ts:28-90 | in every interleaving, failures included, the current endpoint, whether there is an `api`, and the requests still waiting for a disconnect are those of a four-field ledger read off the events alone |
| ConnectionSerial.OverlappingRequestsCross | polkadotjs-interface/src/services/polkadot/api.ts:33-46 | from every connected state, two overlapping changes of which none is refused can end at the endpoint asked for first, although the second was asked for last |
| ApiServices.ApiService.constructor | polkadotjs-interface/src/services/polkadot/api.ts:5-23 | the module starts at the saved endpoint, else the environment's, else none, with no API |
| ApiServices.ApiService.InitializeApi | polkadotjs-interface/src/services/polkadot/api.ts:28-79 | up to its first await it takes the step of the protocol (disconnect first, create, reconnect or return) and keeps the leak invariant |
| ApiServices.ApiService.DisconnectApi | polkadotjs-interface/src/services/polkadot/api.ts:84-90 | waits for the disconnect of `api` if there is one, else ends at once; keeps the leak invariant |
| ApiServices.ApiService.ResumeClosed | polkadotjs-interface/src/services/polkadot/api.ts:37-59 | the closed handle is the one captured, while `api` is cleared whatever it holds by then; a reconnecting call then records its request and creates; keeps the leak invariant |
| ApiServices.ApiService.ResumeCreated | polkadotjs-interface/src/services/polkadot/api.ts:59-65 | the new handle overwrites `api` whatever it holds, and the leak invariant still holds |
| ApiServices.ApiService.ResumeReady | polkadotjs-interface/src/services/polkadot/api.ts:65-78 | goes on to the connection check, or returns `api` as it is by then; keeps the leak invariant |
| ApiServices.ApiService.ResumeConnected | polkadotjs-interface/src/services/polkadot/api.ts:71-76 | the captured handle is open again, the call rejects if `api` is null by then, and the leak invariant still holds |
| ApiServices.ApiService.ResumeRejected | polkadotjs-interface/src/services/polkadot/api.ts:28-90 | a failing await ends the call, leaves `api`, the endpoint and the saved endpoint alone, and keeps the leak invariant |
| ApiServices.ApiService.Deliver | polkadotjs-interface/src/services/polkadot/api.ts:28-90 | any segment at all: its step, the invariant, and the bound on the connections leaked so far |
| Providers.HistoryRunsService | polkadotjs-interface/src/context/ApiContext.tsx:42-114 | every history of the context is a run of the connection manager, so its theorems carry over |
| Providers.ReadyIsLastVerdict | polkadotjs-interface/src/context/ApiContext.tsx:42-106 | in every history, overlaps included, the ready flag is the last verdict, read off how the calls of changes, the waits of connects and the transport ended |
| Providers.HistoryInv | polkadotjs-interface/src/context/ApiContext.tsx:42-114 | at any point of any history the attempts still waiting are exactly those whose call is running, a ready page comes from a last attempt that succeeded, a page at rest does not say it is connecting, and the leak bound holds |
| Providers.ConnectingIff | polkadotjs-interface/src/context/ApiContext.tsx:43-103 | in every history, overlaps included, the page says it is connecting iff no verdict was reached since the last change or initial connect began |
| Providers.SerializedConnectingIff | polkadotjs-interface/src/context/ApiContext.tsx:43-103 | without overlaps it says so iff a change or an initial connect is under way |
| Providers.ErrorIsLastComplaint | polkadotjs-interface/src/context/ApiContext.tsx:44-105 | in every history the error shown is the last complaint: cleared by a beginning attempt or a successful change, set by a failure (with its endpoint) or a transport error, untouched by a successful connect |
| Providers.WaitsUntilDecided | polkadotjs-interface/src/context/ApiContext.tsx:74-105 | an initial connect whose call is over waits for its instance until that is ready or fails, whatever other attempts do |
| Providers.HearsOnlyConnects | polkadotjs-interface/src/context/ApiContext.tsx:89-98 | in every history a drop of an instance can be noticed iff an initial connect waited for that instance and got it |
| Providers.FailuresChangeNothingShown | polkadotjs-interface/src/context/ApiContext.tsx:57-63 | histories without a success leave the shown instance and endpoint alone and cannot make the page ready |
| Providers.ContextAgreement | polkadotjs-interface/src/context/ApiContext.tsx:42-114 | without overlaps, at rest and mounted: ready iff the last verdict was good; after a success the shown instance is the manager's open handle, and the shown endpoint is the manager's iff the last request was not the empty endpoint (or nothing is current); the manager is at the last endpoint granted |
| Providers.FailedChangeSplitsEndpoints | polkadotjs-interface/src/context/ApiContext.tsx:42-64 | after serialized attempts that all failed the page shows what it showed, while the manager is at the last endpoint granted |
| Providers.GuardedContextAgrees | polkadotjs-interface/src/components/common/EndpointSelector.tsx:46-54 | with the guard against empty endpoints, a successful last attempt means the shown endpoint and instance are the manager's |
| Providers.UnmountedIsClosed | polkadotjs-interface/src/context/ApiContext.tsx:108-114 | without overlaps, an unmounted page at rest has no `api` iff its last cleanup was not refused, and then nothing is open |
| Providers.FirstMountConnects | polkadotjs-interface/src/context/ApiContext.tsx:67-114 | if nothing fails, a first mount ends ready, without an error, showing and listening to an open instance at the endpoint the page was loaded with |
| Providers.LosesInstanceIff | polkadotjs-interface/src/context/ApiContext.tsx:46-54 | a step makes the page ready without an instance iff it ends the call of a change at a moment when `api` is null |
| Providers.ReadyWithoutInstanceIff | polkadotjs-interface/src/context/ApiContext.tsx:42-106 | in every history the page is ready without an instance iff the last verdict was good and the last success was such a null return |
| Providers.ReadyWithoutInstance | polkadotjs-interface/src/context/ApiContext.tsx:46-54 | from every connected rest state, a change overtaken by another gets there, at an outdated endpoint |
| ApiContexts.ApiProvider.constructor | polkadotjs-interface/src/context/ApiContext.tsx:35-39 | the context starts not ready, at the manager's current endpoint, with the invariant of every history |
| ApiContexts.ApiProvider.HandleChangeEndpoint | polkadotjs-interface/src/context/ApiContext.tsx:42-64 | sets connecting, clears the error and starts the change, showing its result if it is over at once; keeps the invariant |
| ApiContexts.ApiProvider.ConnectOnMount | polkadotjs-interface/src/context/ApiContext.tsx:67-74 | sets connecting, clears the error and starts an initialization without an endpoint; keeps the invariant |
| ApiContexts.ApiProvider.CleanUp | polkadotjs-interface/src/context/ApiContext.tsx:110-113 | starts a disconnect, leaves the flags alone and keeps the invariant |
| ApiContexts.ApiProvider.Deliver | polkadotjs-interface/src/context/ApiContext.tsx:46-106 | a segment of a call and, once the call is over, the continuation of its attempt; keeps the invariant, and a page with an instance loses it exactly by a null return |
| ApiContexts.ApiProvider.InstanceIsReady | polkadotjs-interface/src/context/ApiContext.tsx:76-93 | the wait for the instance ends in a successful connect, at the manager's endpoint; keeps the invariant |
| ApiContexts.ApiProvider.InstanceFails | polkadotjs-interface/src/context/ApiContext.tsx:100-105 | the wait for the instance ends in a reported failure; keeps the invariant |
| ApiContexts.ApiProvider.OnDisconnected | polkadotjs-interface/src/context/ApiContext.tsx:90-93 | a transport drop clears ready only, and keeps the invariant |
| ApiContexts.PresetRoundTrip | polkadotjs-interface/src/components/common/EndpointSelector.tsx:12-43 | every preset is a named endpoint that the selector maps back to the same preset |
| ApiContexts.PresetNetworks | polkadotjs-interface/src/services/polkadot/api.ts:168-174 | each preset asks for a host of the network it names, the local node for this machine |
| ApiContexts.NoOtherPreset | polkadotjs-interface/src/services/polkadot/api.ts:168-174 | no other preset is offered |
| ApiContexts.EndpointSelector.Follow | polkadotjs-interface/src/components/common/EndpointSelector.tsx:12-26 | shows the preset of the endpoint if it has one, else the endpoint as a custom one, which it does iff no preset has that endpoint |
| ApiContexts.EndpointSelector.HandlePresetChange | polkadotjs-interface/src/components/common/EndpointSelector.tsx:29-43 | asks for the endpoint of the preset, never an empty one, whether or not an attempt is connecting; that endpoint leads back to the preset |
| ApiContexts.EndpointSelector.PressConnect | polkadotjs-interface/src/components/common/EndpointSelector.tsx:133-135 | asks for the custom endpoint iff it is not empty and nothing is connecting: the guard `Providers.GuardedContextAgrees` relies on |
| Amounts.RawAmountComputes | polkadotjs-interface/src/pages/Transfer.tsx:193-195 | for every amount text and decimals: exact without a dot; with n whole digits and f fraction digits the result times 10^min(n, d) is the significand times 10^d |
| Amounts.RawAmountExactIff | polkadotjs-interface/src/pages/Transfer.tsx:192-195 | the result is amount times 10^d iff there is no dot, the amount is zero or f = min(n, d); it is below iff non-zero, dotted and f < min(n, d) |
| Amounts.ExactAmountExactIff | polkadotjs-interface/src/pages/Transfer.tsx:192-195 | padding to the whole digits plus decimals is exact iff the amount is zero or f <= d |
| Amounts.SameTextIff | polkadotjs-interface/src/pages/Transfer.tsx:193-195 | when the code and the intended conversion give the same text |
| Amounts.ExactRoundTrip | polkadotjs-interface/src/pages/Transfer.tsx:192-195 | printing any raw integer with d decimals and converting it back as intended gives the integer |
| Amounts.CodeRoundTripIff | polkadotjs-interface/src/pages/Transfer.tsx:192-195 | with the code's conversion it does iff the text has no dot or f = min(n, d) |
| Amounts.MispaddedAmounts | polkadotjs-interface/src/pages/Transfer.tsx:193-195 | two amounts the code sends ten times too large and ten times too small |
| Percentages.PercentageBound | polkadotjs-interface/src/pages/Transfer.tsx:110-138 | for every balance, percentage and d >= 3 the intended conversion of the text is the share itself if that is a whole number of units up to 2^53 - 1, else the largest whole number of thousandths of a token that is at most the share |
| Percentages.CodeSendsIntendedIff | polkadotjs-interface/src/pages/Transfer.tsx:192-195 | for amounts that fit the decimals, when the code sends the intended amount and when it sends more |
| Percentages.PressThenSendIff | polkadotjs-interface/src/pages/Transfer.tsx:110-195 | for every balance, percentage and d >= 3, pressing a percentage button and sending transfers more than the share iff the text over-pads: a non-zero dotted amount with f > min(n, d) |
| Percentages.AllOfTheBalanceOverdraws | polkadotjs-interface/src/pages/Transfer.tsx:110-195 | all of a balance of 1.25 tokens is sent as ten times the balance |
| TransferProofs.OneLiveSubmission | polkadotjs-interface/src/pages/Transfer.tsx:146-256 | over all histories the page is busy iff exactly one submission has begun and not ended, and a subscription is open iff that submission has reached it |
| TransferProofs.PaymentsAreFaithful | polkadotjs-interface/src/pages/Transfer.tsx:184-216 | over all histories no click pays twice and each payment is signed by the account of its click, which was among the wallet's, and carries the recipient and the converted amount of its click, to transfer if the chain has it, else to transferKeepAlive |
| TransferProofs.PaymentExactIff | polkadotjs-interface/src/pages/Transfer.tsx:192-207 | when a payment of a decimal amount transfers that amount |
| TransferProofs.ClickGoesOnIff | polkadotjs-interface/src/pages/Transfer.tsx:146-190 | a click on a complete form goes on to the wallet iff the chain has balances, some method there is named like a transfer and the account is among the wallet's; otherwise it is told the first of these that is missing |
| TransferProofs.LateMethodFailureIff | polkadotjs-interface/src/pages/Transfer.tsx:158-212 | having gone on, it still fails after the wallet has answered, and pays nothing, iff the chain has neither transfer nor transferKeepAlive |
| TransferProofs.ForceTransferIsOther | polkadotjs-interface/src/pages/Transfer.tsx:168-172 | a chain whose balances module only has forceTransfer is such a chain |
| TransferProofs.SubmissionOverIff | polkadotjs-interface/src/pages/Transfer.tsx:214-255 | over any history a submission is over iff, since, an await or the building threw, or a status was final with no error, an error of another kind or a module error that decodes |
| TransferProofs.BusyForGood | polkadotjs-interface/src/pages/Transfer.tsx:217-249 | a subscribed submission that never gets a concluding status keeps the page busy and unable to submit, whatever else happens |
| TransferProofs.ClearedOnlyBySuccess | polkadotjs-interface/src/pages/Transfer.tsx:225-248 | untouched by the user, amount and recipient are cleared iff some transaction was finalized without a dispatch error, and are otherwise unchanged |
| TransferProofs.EnabledIff | polkadotjs-interface/src/pages/Transfer.tsx:398-403 | the button is enabled iff there are accounts, a recipient and an amount and no submission is alive |
| TransferDesks.HistoryFollows | polkadotjs-interface/src/pages/Transfer.tsx:8-256 | every history of the page, with its submissions, awaits and captured closures, is a run of a machine that remembers one pending click |
| TransferDesks.PaymentsComeFromClicks | polkadotjs-interface/src/pages/Transfer.tsx:146-216 | over all histories each payment pays what the fields, the selection and the chain showed at some click |
| TransferDesks.SuccessShownIff | polkadotjs-interface/src/pages/Transfer.tsx:219-244 | the page says a transfer succeeded in a block iff the last thing it had to say was a final status for that block without a dispatch error |
| TransferPages.TransferPage.constructor | polkadotjs-interface/src/pages/Transfer.tsx:8-21 | the initial state, with 12 decimals, satisfies the invariant behind `OneLiveSubmission` and `PaymentsAreFaithful` |
| TransferPages.TransferPage.SetPercentage | polkadotjs-interface/src/pages/Transfer.tsx:110-138 | without a balance nothing happens; else the amount becomes a decimal text that, converted as intended, is at most the share of the raw balance |
| TransferPages.TransferPage.WalletAnswers | polkadotjs-interface/src/pages/Transfer.tsx:88-107 | takes the accounts and selects the first, or reports the failure; connecting ends either way; keeps the invariant |
| TransferPages.TransferPage.HandleSubmit | polkadotjs-interface/src/pages/Transfer.tsx:146-190 | an incomplete form only gets a message; otherwise a submission begins, is checked in the source's order and captures the form; keeps the invariant |
| TransferPages.TransferPage.ResumeWithInjector | polkadotjs-interface/src/pages/Transfer.tsx:190-216 | converts the captured amount and builds the transfer by transfer, else transferKeepAlive, else fails; no payment is made twice or with another amount |
| TransferPages.TransferPage.ResumeRejected | polkadotjs-interface/src/pages/Transfer.tsx:251-255 | an exception is reported and ends the submission; keeps the invariant |
| TransferPages.TransferPage.ResumeSigned | polkadotjs-interface/src/pages/Transfer.tsx:214-217 | the submission has its subscription; keeps the invariant |
| TransferPages.TransferPage.OnStatus | polkadotjs-interface/src/pages/Transfer.tsx:217-249 | what each status shows, clears and ends; an undecodable dispatch error ends nothing; keeps the invariant |
| TransferPages.TransferPage.SubmitEnabled | polkadotjs-interface/src/pages/Transfer.tsx:398-403 | enabled iff the form is filled in, has accounts and no submission is alive |
| ExtrinsicsProofs.BuiltCallsAreFull | polkadotjs-interface/src/pages/Extrinsics.tsx:196-382 | over all histories every call built is the one selected at its click, with exactly the parameters resolved for it, none missing or empty, for an account among the wallet's |
| ExtrinsicsProofs.EnabledIff | polkadotjs-interface/src/pages/Extrinsics.tsx:585-586 | the button is enabled iff a method and an account are selected, no submission is alive and every parameter is entered, although the code only counts |
| ExtrinsicsProofs.PreparedArgs | polkadotjs-interface/src/pages/Extrinsics.tsx:337-372 | each argument is its value as text, or for a bool parameter whether the value is `true` |
| ExtrinsicsProofs.OneLiveSubmission | polkadotjs-interface/src/pages/Extrinsics.tsx:352-445 | over all histories the form is busy iff exactly one submission has begun and not ended, each other one ended once, and no subscription outlives its submission |
| ExtrinsicsProofs.SubmissionOverIff | polkadotjs-interface/src/pages/Extrinsics.tsx:412-444 | over any history a submission is over iff, since, an await or the building threw, or a final or an error status arrived |
| ExtrinsicsDesks.NoSilentResubmission | polkadotjs-interface/src/pages/Extrinsics.tsx:303-316 | after a click, whatever happens, submit is enabled again only when every parameter of the method then selected was entered anew |
| ExtrinsicsDesks.HistoryFollows | polkadotjs-interface/src/pages/Extrinsics.tsx:114-445 | every history of the page, with its submissions, awaits and captured closures, is a run of a machine that remembers one pending click |
| ExtrinsicsDesks.BuiltFromClick | polkadotjs-interface/src/pages/Extrinsics.tsx:312-372 | over all histories each call built is what the form showed at some click, and the user had entered each of its values for its parameter |
| KnownParameterProofs.BuiltTransferIsAsEntered | polkadotjs-interface/src/pages/Extrinsics.tsx:8-30 | over all histories a balances transfer is built from the text entered in the address control for dest and the text entered in the balance control for value, in this order |
| KnownParameterProofs.TransfersResolveAlike | polkadotjs-interface/src/pages/Extrinsics.tsx:10-44 | the hardcoded balances transfers have the parameters any method named like a transfer falls back to |
| KnownParameterProofs.KnownControls | polkadotjs-interface/src/pages/Extrinsics.tsx:8-100 | every hardcoded parameter gets the control its name calls for, through the classifier: an address for accounts, a balance for amounts, a number, a list, a flag or text for the others |
| KnownParameterProofs.BalancesTransferNames | polkadotjs-interface/src/pages/Extrinsics.tsx:9-26 | the hardcoded transfers take destination and value, a forced one its source before them |
| KnownParameterProofs.BalancesSetterNames | polkadotjs-interface/src/pages/Extrinsics.tsx:27-55 | the other balances methods take the account first and the amounts in the pallet's order |
| KnownParameterProofs.OtherNames | polkadotjs-interface/src/pages/Extrinsics.tsx:57-107 | the parameters of the other hardcoded methods, in order |
| KnownParameterProofs.KnownMethods | polkadotjs-interface/src/pages/Extrinsics.tsx:197-211 | a selection that is not complete has no parameters, a hardcoded method its hardcoded ones whatever its name |
| KnownParameterProofs.UnknownMethods | polkadotjs-interface/src/pages/Extrinsics.tsx:213-283 | another method has a destination and a value if named like a transfer, else one value if named like a setter, else what the metadata of a connected chain says |
| ExtrinsicsProofs.ClickCaptures | polkadotjs-interface/src/pages/Extrinsics.tsx:352-372 | the click empties the form, yet submits the complete values it held |
| ExtrinsicsProofs.ShownEventsCount | polkadotjs-interface/src/pages/Extrinsics.tsx:399-408 | the filter keeps every event as often as it occurs, except the system's success event |
| ExtrinsicsProofs.ShownEventsOrder | polkadotjs-interface/src/pages/Extrinsics.tsx:399-408 | filtering two lists one after the other is filtering them together: the order is kept |
| ExtrinsicsProofs.EventsAreNew | polkadotjs-interface/src/pages/Extrinsics.tsx:352-429 | events shown after a click were reported by a status after it, although the callback tests the events captured at the click |
| ExtrinsicsProofs.StepForm | polkadotjs-interface/src/pages/Extrinsics.tsx:196-316 | no event leaves more values than parameters, or a settled form with parameters other than the selected method's |
| ExtrinsicsPages.ExtrinsicsPage.constructor | polkadotjs-interface/src/pages/Extrinsics.tsx:114-125 | the initial state satisfies the invariant behind `BuiltCallsAreFull` and `OneLiveSubmission` |
| ExtrinsicsPages.ExtrinsicsPage.HandleModuleChange | polkadotjs-interface/src/pages/Extrinsics.tsx:286-310 | selects the module, deselects the method, and clears the values and what is shown of a transaction; keeps the invariant |
| ExtrinsicsPages.ExtrinsicsPage.HandleMethodChange | polkadotjs-interface/src/pages/Extrinsics.tsx:298-310 | selects the method and resets likewise; keeps the invariant |
| ExtrinsicsPages.ExtrinsicsPage.ResolveParameters | polkadotjs-interface/src/pages/Extrinsics.tsx:196-284 | the parameters of the selection with blank values, without an API unknown methods leave both as they are; keeps the invariant |
| ExtrinsicsPages.ExtrinsicsPage.HandleParamChange | polkadotjs-interface/src/pages/Extrinsics.tsx:312-316 | sets one value, leaving holes before it when it is beyond the end; never more values than parameters |
| ExtrinsicsPages.ExtrinsicsPage.ConnectWallet | polkadotjs-interface/src/pages/Extrinsics.tsx:318-335 | takes the accounts and selects the first if the click saw none selected, or reports the failure; keeps the invariant |
| ExtrinsicsPages.ExtrinsicsPage.HandleSubmit | polkadotjs-interface/src/pages/Extrinsics.tsx:352-367 | begins a submission with the form captured before the reset, or ends it at once when the account is gone; keeps the invariant |
| ExtrinsicsPages.ExtrinsicsPage.ResumeWithInjector | polkadotjs-interface/src/pages/Extrinsics.tsx:367-391 | builds the captured call, all its parameters entered, or ends the submission; keeps the invariant |
| ExtrinsicsPages.ExtrinsicsPage.ResumeRejected | polkadotjs-interface/src/pages/Extrinsics.tsx:440-444 | an exception is reported and ends the submission; keeps the invariant |
| ExtrinsicsPages.ExtrinsicsPage.ResumeSigned | polkadotjs-interface/src/pages/Extrinsics.tsx:389-392 | the submission has its subscription; keeps the invariant |
| ExtrinsicsPages.ExtrinsicsPage.OnStatus | polkadotjs-interface/src/pages/Extrinsics.tsx:392-438 | what each status shows and ends, a final one replaces the events only if none were shown at the click; keeps the invariant |
| ExtrinsicsPages.ExtrinsicsPage.SubmitEnabled | polkadotjs-interface/src/pages/Extrinsics.tsx:585-586 | enabled iff a method and an account are selected, no submission is alive and every parameter of the method is entered |
| ParamInputs.NormalForm | polkadotjs-interface/src/components/common/ParamInput.tsx:37-164 | for all strings the chain equals the chain without the multiaddress, compact<balance>, string and struct tests |
| ParamInputs.StructIsNeverJson | polkadotjs-interface/src/components/common/ParamInput.tsx:118-152 | a type containing struct never gets the JSON or the list control |
| ParamInputs.VectorsOfScalarsAreNotLists | polkadotjs-interface/src/components/common/ParamInput.tsx:51-140 | a vector of numbers or of accounts never gets the list control |
| KnownParameterProofs.IntegerControl | polkadotjs-interface/src/components/common/ParamInput.tsx:91-114 | every fixed-width integer type from 8 to 128 bits gets the number control, but for an account's name or a balance's |
| KnownParameterProofs.CompactControl | polkadotjs-interface/src/components/common/ParamInput.tsx:75-114 | so does every compact type that names no balance, flag or account, other than compact<u128> |
| WeightFees.FeeErrorBound | runtime/src/lib.rs:149-155 | w·p/q − w/10^9 − 1/2 <= fee(w) <= w·p/q + 1/2 for all p, q > 0 and w |
| WeightFees.FeeMonotone | runtime/src/lib.rs:146-157 | for every coefficient the fee grows with the weight |
| WeightFees.FeeNearlyAdditive | runtime/src/lib.rs:146-157 | for every coefficient, splitting a weight changes the fee by at most one unit |
| WeightFees.RuntimeFee | runtime/src/lib.rs:149-155 | at the runtime's constants the fee is the weight divided by 125, to the nearest |
| WeightFees.RuntimeFeeOfBaseWeights | runtime/src/weights/extrinsic_weights.rs:26-27 | k times 100 base weights cost exactly k tenths of a MILLIUNIT, and k base weights k MICROUNITs |
| WeightFees.RuntimeFeeNeverSaturates | runtime/src/lib.rs:149-155 | no 64-bit weight reaches the saturation of the 128-bit arithmetic |

## Left out

- Providers.ContextAgreement: speaks of attempts that do not overlap; with overlaps `Providers.ReadyWithoutInstance` shows that it fails, and `Providers.ReadyIsLastVerdict`, `Providers.ReadyWithoutInstanceIff`, `Providers.HistoryInv` and `ConnectionSerial.RunEndsAtLastRecorded` are what remains true.
- Percentages.PercentageBound: exact rational arithmetic and plain decimal text; binary floating point and exponents in printed numbers are not modelled, nor fewer than three decimals.
- Amounts.RawAmountExactIff: amounts are digits with at most one dot, a subset of the floating-point number syntax in section 2.3.4.3 of the HTML Standard.
- The WebSocket transport: a rejected create leaves no open handle, a provider that throws on a malformed endpoint counts as a rejected create (the only one the model can tell is the empty endpoint, for which no create completes), a rejected disconnect may or may not have closed the handle, and a dropped connection does not change which handles exist.
- Creates still waiting count as running calls, not as open handles.
- React's rendering: a render, and the effects it triggers, happen between two events of the user; callbacks and awaits may come in between. Status callbacks come after the subscription's handle has been returned.
- Setting state on an unmounted context is modelled as taking effect, which strict mode relies on.
- Wallet calls, signing, address formats and building an extrinsic in the API library: they succeed or fail, as inputs.
- The text of messages, log output, and the lists of modules and methods offered for selection.
- `toLowerCase` of method and type names in `Extrinsics.tsx` and `Transfer.tsx` is modelled on ASCII letters; the classifier's theorems hold for any lower-casing. Names that clash with properties every JavaScript object has are not considered.
- A parameter control's own copy of its value in `ParamInput.tsx`, which keeps showing a text that a submission has removed from the form.
- `testConnection`, `getApi`, `connectExtension`, `useChainState`, `useExtrinsics`, `wsProxy.js`, the node and the genesis presets: I/O, reflection or constants.
- The runtime's configuration of the FRAME pallets: the code that decides it is not part of this model. `Perbill::from_rational` is taken to round down and `Perbill` multiplication to round to the nearest with ties down; a nanosecond is 1000 units of reference time.
- Several browser tabs writing the same saved endpoint.
