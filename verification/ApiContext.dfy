// ApiContext.tsx and EndpointSelector.tsx in their own form: fields that handlers, effects and
// continuations assign.
module ApiContexts {
  import opened Options
  import opened Connection
  import opened Providers
  import opened ApiServices

  class ApiProvider {
    const service: ApiService
    var api: Option<Handle>
    var isApiReady: bool
    var isConnecting: bool
    var connectionError: Option<Problem>
    var endpoint: string
    var attempts: map<nat, Attempt>
    var settling: map<nat, Handle>
    var listening: set<Handle>
    ghost var mounted: bool
    ghost var last: Last

    ghost function Shown(): Context
      reads this
    {
      Context(api, isApiReady, isConnecting, connectionError, endpoint)
    }

    ghost function View(): Provider
      reads this, service
    {
      Provider(service.View(), Shown(), attempts, settling, listening, mounted, last)
    }

    constructor (service: ApiService, saved: Option<string>, env: string)
      requires service.View() == Boot(saved, env)
      ensures this.service == service && View() == Fresh(saved, env) && Inv(View())
    {
      this.service := service;
      api, isApiReady, isConnecting, connectionError := None, false, false, None;
      endpoint := service.currentEndpoint;
      attempts, settling, listening := map[], map[], {};
      mounted, last := false, Never;
      new;
      FreshInv(saved, env);
    }

    static lemma KeepInv(p: Provider, h: Happening)
      requires Possible(p, h)
      ensures Inv(p) ==> Inv(Happen(p, h))
    {
      if Inv(p) { StepInv(p, h); }
    }

    static lemma KeepInstance(p: Provider, h: Happening)
      requires Possible(p, h)
      ensures (p.context.ready ==> p.context.api.Some?) ==>
        (Happen(p, h).context.ready && Happen(p, h).context.api == None <==> NullReturn(p, h))
    {
      if p.context.ready ==> p.context.api.Some? { LosesInstanceIff(p, h); }
    }

    method HandleChangeEndpoint(newEndpoint: string, connected: bool)
      requires Possible(View(), ChangeEndpoint(newEndpoint, connected))
      modifies this, service
      ensures View() == Happen(old(View()), ChangeEndpoint(newEndpoint, connected))
      ensures old(Inv(View())) ==> Inv(View())
    {
      KeepInv(View(), ChangeEndpoint(newEndpoint, connected));
      isConnecting := true;
      connectionError := None;
      var t := service.InitializeApi(Some(newEndpoint), connected);
      attempts := attempts[t := Change(newEndpoint)];
      Continue(t);
    }

    // The initial connection effect.
    method ConnectOnMount(connected: bool)
      requires Possible(View(), Mount(connected))
      modifies this, service
      ensures View() == Happen(old(View()), Mount(connected))
      ensures old(Inv(View())) ==> Inv(View())
    {
      KeepInv(View(), Mount(connected));
      mounted := true;
      isConnecting := true;
      connectionError := None;
      var t := service.InitializeApi(None, connected);
      attempts := attempts[t := Connect];
      Continue(t);
    }

    // The effect's cleanup.
    method CleanUp()
      modifies this, service
      ensures View() == Happen(old(View()), Unmount)
      ensures old(Inv(View())) ==> Inv(View())
    {
      KeepInv(View(), Unmount);
      mounted := false;
      var t := service.DisconnectApi();
      attempts := attempts[t := Cleanup];
      Continue(t);
    }

    method Deliver(e: Event)
      requires Possible(View(), Resume(e))
      modifies this, service
      ensures View() == Happen(old(View()), Resume(e))
      ensures old(Inv(View())) ==> Inv(View())
      ensures old(isApiReady ==> api.Some?) ==> (isApiReady && api == None <==> old(NullReturn(View(), Resume(e))))
    {
      KeepInv(View(), Resume(e));
      KeepInstance(View(), Resume(e));
      var t := service.Deliver(e);
      Continue(t);
    }

    // What follows the awaited call, once it is over.
    method Continue(t: nat)
      requires t in attempts && (t in service.tasks || t in service.results)
      modifies this
      ensures View() == SettleIfOver(old(View()), t)
    {
      if t in service.tasks { return; }
      var attempt, outcome := attempts[t], service.results[t];
      attempts := attempts - {t};
      match attempt
      case Cleanup =>
      case Change(newEndpoint) =>
        if outcome.Returned? {
          ShowChange(outcome.api, newEndpoint);
        } else {
          Report(CannotConnect(newEndpoint));
        }
      case Connect =>
        if outcome.Returned? && outcome.api.Some? {
          settling := settling[t := outcome.api.value];
        } else {
          Report(ConnectFailed);
        }
    }

    method ShowChange(apiInstance: Option<Handle>, newEndpoint: string)
      modifies `api, `endpoint, `isApiReady, `connectionError, `isConnecting, `last
      ensures View() == Changed(old(View()), apiInstance, newEndpoint)
    {
      api := apiInstance;
      endpoint := newEndpoint;
      isApiReady := true;
      connectionError := None;
      last := Succeeded(Change(newEndpoint));
      isConnecting := false;
    }

    method ShowConnected(apiInstance: Handle)
      modifies `api, `endpoint, `isApiReady, `isConnecting, `listening, `last
      ensures View() == Connected(old(View()), apiInstance)
    {
      ghost var shown := Connected(View(), apiInstance).context;
      api := Some(apiInstance);
      isApiReady := true;
      isConnecting := false;
      endpoint := service.GetCurrentEndpoint();
      listening := listening + {apiInstance};
      last := Succeeded(Connect);
      assert Shown() == shown;
    }

    method Report(problem: Problem)
      modifies this
      ensures View() == Fail(old(View()), problem)
    {
      connectionError := Some(problem);
      isApiReady := false;
      isConnecting := false;
      last := Failed;
    }

    method InstanceIsReady(t: nat)
      requires Possible(View(), InstanceReady(t))
      modifies this
      ensures View() == Happen(old(View()), InstanceReady(t))
      ensures old(Inv(View())) ==> Inv(View())
    {
      KeepInv(View(), InstanceReady(t));
      var apiInstance := settling[t];
      settling := settling - {t};
      ShowConnected(apiInstance);
    }

    method InstanceFails(t: nat)
      requires Possible(View(), InstanceFailed(t))
      modifies this
      ensures View() == Happen(old(View()), InstanceFailed(t))
      ensures old(Inv(View())) ==> Inv(View())
    {
      KeepInv(View(), InstanceFailed(t));
      settling := settling - {t};
      Report(ConnectFailed);
    }

    method OnDisconnected(handle: Handle)
      requires Possible(View(), TransportDropped(handle))
      modifies this
      ensures View() == Happen(old(View()), TransportDropped(handle))
      ensures old(Inv(View())) ==> Inv(View())
    {
      KeepInv(View(), TransportDropped(handle));
      isApiReady := false;
    }

    method OnError(handle: Handle)
      requires Possible(View(), TransportErrored(handle))
      modifies this
      ensures View() == Happen(old(View()), TransportErrored(handle))
      ensures old(Inv(View())) ==> Inv(View())
    {
      KeepInv(View(), TransportErrored(handle));
      connectionError := Some(Transport);
    }
  }

  const PREDEFINED_ENDPOINTS: seq<(string, string)> := [
    ("Local Node", "ws://127.0.0.1:41689"),
    ("Polkadot", "wss://rpc.polkadot.io"),
    ("Kusama", "wss://kusama-rpc.polkadot.io"),
    ("Westend", "wss://westend-rpc.polkadot.io"),
    ("Rococo", "wss://rococo-rpc.polkadot.io")
  ]

  function FindKey(entries: seq<(string, string)>, endpoint: string): Option<string> {
    if entries == [] then None
    else if entries[0].1 == endpoint then Some(entries[0].0)
    else FindKey(entries[1..], endpoint)
  }

  function FindValue(entries: seq<(string, string)>, key: string): Option<string> {
    if entries == [] then None
    else if entries[0].0 == key then Some(entries[0].1)
    else FindValue(entries[1..], key)
  }

  predicate Distinct(entries: seq<(string, string)>) {
    forall i, j :: 0 <= i < j < |entries| ==> entries[i].0 != entries[j].0 && entries[i].1 != entries[j].1
  }

  lemma {:induction false} FoundValue(entries: seq<(string, string)>, key: string)
    requires FindValue(entries, key).Some?
    ensures exists i :: 0 <= i < |entries| && entries[i] == (key, FindValue(entries, key).value)
  {
    if entries[0].0 != key {
      FoundValue(entries[1..], key);
      var i :| 0 <= i < |entries[1..]| && entries[1..][i] == (key, FindValue(entries, key).value);
      assert entries[i + 1] == (key, FindValue(entries, key).value);
    }
  }

  // Looking an endpoint up by its key, and then the key up by that endpoint, finds the key again.
  lemma {:induction false} KeyRoundTrip(entries: seq<(string, string)>, key: string)
    requires Distinct(entries) && FindValue(entries, key).Some?
    ensures FindKey(entries, FindValue(entries, key).value) == Some(key)
  {
    if entries[0].0 != key {
      FoundValue(entries[1..], key);
      KeyRoundTrip(entries[1..], key);
    }
  }

  // An endpoint has a key exactly if it is one of the values.
  lemma {:induction false} KeyIff(entries: seq<(string, string)>, endpoint: string)
    ensures FindKey(entries, endpoint).Some? <==> exists i :: 0 <= i < |entries| && entries[i].1 == endpoint
    ensures FindKey(entries, endpoint).Some? ==>
      exists i :: 0 <= i < |entries| && entries[i] == (FindKey(entries, endpoint).value, endpoint)
  {
    if entries != [] {
      KeyIff(entries[1..], endpoint);
      assert forall i :: 1 <= i < |entries| ==> entries[i] == entries[1..][i - 1];
      if entries[0].1 != endpoint && FindKey(entries, endpoint).Some? {
        var i :| 0 <= i < |entries[1..]| && entries[1..][i] == (FindKey(entries, endpoint).value, endpoint);
        assert entries[i + 1] == (FindKey(entries, endpoint).value, endpoint);
      }
    }
  }

  // A preset the user picks is a named endpoint, and once the page is at that endpoint the selector
  // shows the preset again instead of a custom endpoint.
  lemma PresetRoundTrip(key: string)
    requires FindValue(PREDEFINED_ENDPOINTS, key).Some?
    ensures var endpoint := FindValue(PREDEFINED_ENDPOINTS, key).value;
      endpoint != "" && key != "custom" && FindKey(PREDEFINED_ENDPOINTS, endpoint) == Some(key)
  {
    FoundValue(PREDEFINED_ENDPOINTS, key);
    KeyRoundTrip(PREDEFINED_ENDPOINTS, key);
  }

  // Picking a network asks for a host of that network, picking the local node for this machine.
  lemma PresetNetworks()
    ensures FindValue(PREDEFINED_ENDPOINTS, "Local Node") == Some("ws://127.0.0.1:41689")
    ensures FindValue(PREDEFINED_ENDPOINTS, "Polkadot") == Some("wss://rpc.polkadot.io")
    ensures FindValue(PREDEFINED_ENDPOINTS, "Kusama") == Some("wss://kusama-rpc.polkadot.io")
    ensures FindValue(PREDEFINED_ENDPOINTS, "Westend") == Some("wss://westend-rpc.polkadot.io")
    ensures FindValue(PREDEFINED_ENDPOINTS, "Rococo") == Some("wss://rococo-rpc.polkadot.io")
  {
    FindsAt(PREDEFINED_ENDPOINTS, 0);
    FindsAt(PREDEFINED_ENDPOINTS, 1);
    FindsAt(PREDEFINED_ENDPOINTS, 2);
    FindsAt(PREDEFINED_ENDPOINTS, 3);
    FindsAt(PREDEFINED_ENDPOINTS, 4);
  }

  lemma {:induction false} FindsAt(entries: seq<(string, string)>, i: nat)
    requires Distinct(entries) && i < |entries|
    ensures FindValue(entries, entries[i].0) == Some(entries[i].1)
  {
    if i > 0 { FindsAt(entries[1..], i - 1); }
  }

  // Only those are offered.
  lemma NoOtherPreset(key: string)
    requires FindValue(PREDEFINED_ENDPOINTS, key).Some?
    ensures key in {"Local Node", "Polkadot", "Kusama", "Westend", "Rococo"}
  {
    FoundValue(PREDEFINED_ENDPOINTS, key);
  }

  class EndpointSelector {
    var selectedEndpoint: string
    var customEndpoint: string
    var showCustom: bool

    constructor ()
      ensures selectedEndpoint == "custom" && customEndpoint == "" && !showCustom
    {
      selectedEndpoint, customEndpoint, showCustom := "custom", "", false;
    }

    // The effect that follows the context's endpoint.
    method Follow(endpoint: string)
      modifies this
      ensures match FindKey(PREDEFINED_ENDPOINTS, endpoint)
        case Some(key) => selectedEndpoint == key && customEndpoint == old(customEndpoint) && !showCustom
        case None => selectedEndpoint == "custom" && customEndpoint == endpoint && showCustom
      ensures showCustom <==> forall i :: 0 <= i < |PREDEFINED_ENDPOINTS| ==> PREDEFINED_ENDPOINTS[i].1 != endpoint
    {
      KeyIff(PREDEFINED_ENDPOINTS, endpoint);
      var foundKey := FindKey(PREDEFINED_ENDPOINTS, endpoint);
      if foundKey.Some? {
        selectedEndpoint := foundKey.value;
        showCustom := false;
      } else {
        selectedEndpoint := "custom";
        customEndpoint := endpoint;
        showCustom := true;
      }
    }

    // Returns the endpoint it asks the context to change to, if any: never an empty one, and never
    // held back while another attempt is connecting.
    method HandlePresetChange(selected: string) returns (request: Option<string>)
      modifies this
      ensures selectedEndpoint == selected && customEndpoint == old(customEndpoint)
      ensures showCustom == (selected == "custom")
      ensures Names(request) || request == None
      ensures request == if selected == "custom" then None else FindValue(PREDEFINED_ENDPOINTS, selected)
      ensures request.Some? ==> FindKey(PREDEFINED_ENDPOINTS, request.value) == Some(selected)
    {
      selectedEndpoint := selected;
      request := None;
      if selected == "custom" {
        showCustom := true;
      } else {
        showCustom := false;
        var newEndpoint := FindValue(PREDEFINED_ENDPOINTS, selected);
        if newEndpoint.Some? {
          PresetRoundTrip(selected);
          request := HandleConnect(newEndpoint.value);
        }
      }
    }

    method HandleConnect(endpointToUse: string) returns (request: Option<string>)
      ensures Names(request) || request == None
      ensures request.Some? <==> endpointToUse != ""
      ensures request.Some? ==> request.value == endpointToUse
    {
      request := if endpointToUse == "" then None else Some(endpointToUse);
    }

    // The Connect button, disabled while an attempt is connecting or the field is empty.
    method PressConnect(isConnecting: bool) returns (request: Option<string>)
      ensures Names(request) || request == None
      ensures request.Some? <==> !isConnecting && customEndpoint != ""
      ensures request.Some? ==> request.value == customEndpoint
    {
      request := None;
      if !isConnecting && customEndpoint != "" {
        request := HandleConnect(customEndpoint);
      }
    }
  }
}
