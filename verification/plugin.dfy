/**
 * The plugin object: command dispatch, the queue of callers waiting for the
 * location permission before they get scan results, the change listener and
 * everything the plugin sends to its callbacks.
 *
 * Each operation is specified by a step function on `PluginState`; the class
 * `WifiManagerPlugin` carries the same state in fields and its methods are
 * proved to perform exactly those steps. The WifiManager and the permission
 * checks are not modelled: what they answer is passed in.
 */
module Plugin {
  import opened Wrappers
  import opened Json
  import Codes
  import opened PluginResults
  import WifiConfig
  import Broadcast

  const REQUEST_CODE_SCAN_RESULTS: int := 0
  const ACCESS_COARSE_LOCATION: string := "android.permission.ACCESS_COARSE_LOCATION"

  /** One call to requestPermission: the request code and the permission asked for. */
  datatype PermissionRequest = PermissionRequest(requestCode: int, permission: string)

  /** The only request the plugin makes. */
  const ScanResultsRequest := PermissionRequest(REQUEST_CODE_SCAN_RESULTS, ACCESS_COARSE_LOCATION)

  /**
   * What the platform answers during one command. `permittedFirst` and
   * `permittedInLock` are the two calls to hasLocationPermission (coarse or
   * fine location held) made by getScanResults, before and after taking the
   * queue's lock. `scanResults`, `connectionInfo` and `dhcpInfo` are the
   * WifiManager's answers after their serialisers; a null answer is `None`.
   * getConfiguredNetworks may answer a null list, also `None`.
   */
  datatype Platform = Platform(
    permittedFirst: bool,
    permittedInLock: bool,
    scanResults: Json,
    configuredNetworks: Option<seq<WifiConfig.WifiConfiguration>>,
    connectionInfo: Option<Json>,
    dhcpInfo: Option<Json>,
    wifiState: int,
    wifiEnabled: bool,
    scanAlwaysAvailable: bool,
    addNetwork: WifiConfig.WifiConfiguration -> int,
    setWifiEnabled: bool -> bool,
    startScan: bool)

  // --------------------------------------------------------------- dispatch

  datatype Command =
    | AddNetwork
    | GetConfiguredNetworks
    | GetConnectionInfo
    | GetDhcpInfo
    | GetScanResults
    | GetWifiState
    | IsWifiEnabled
    | IsScanAlwaysAvailable
    | SetWifiEnabled
    | StartScan
    | OnChange

  /** The action name JavaScript uses for a command. */
  function ActionName(command: Command): string {
    match command
    case AddNetwork => "addNetwork"
    case GetConfiguredNetworks => "getConfiguredNetworks"
    case GetConnectionInfo => "getConnectionInfo"
    case GetDhcpInfo => "getDhcpInfo"
    case GetScanResults => "getScanResults"
    case GetWifiState => "getWifiState"
    case IsWifiEnabled => "isWifiEnabled"
    case IsScanAlwaysAvailable => "isScanAlwaysAvailable"
    case SetWifiEnabled => "setWifiEnabled"
    case StartScan => "startScan"
    case OnChange => "onChange"
  }

  const ActionNames: set<string> :=
    {"addNetwork", "getConfiguredNetworks", "getConnectionInfo", "getDhcpInfo", "getScanResults",
     "getWifiState", "isWifiEnabled", "isScanAlwaysAvailable", "setWifiEnabled", "startScan", "onChange"}

  /** The command an action name selects; an unknown name selects none. */
  function Dispatch(action: string): (r: Option<Command>)
    ensures r.None? <==> action !in ActionNames
    ensures r.Some? ==> ActionName(r.value) == action
  {
    if action == "addNetwork" then Some(AddNetwork)
    else if action == "getConfiguredNetworks" then Some(GetConfiguredNetworks)
    else if action == "getConnectionInfo" then Some(GetConnectionInfo)
    else if action == "getDhcpInfo" then Some(GetDhcpInfo)
    else if action == "getScanResults" then Some(GetScanResults)
    else if action == "getWifiState" then Some(GetWifiState)
    else if action == "isWifiEnabled" then Some(IsWifiEnabled)
    else if action == "isScanAlwaysAvailable" then Some(IsScanAlwaysAvailable)
    else if action == "setWifiEnabled" then Some(SetWifiEnabled)
    else if action == "startScan" then Some(StartScan)
    else if action == "onChange" then Some(OnChange)
    else None
  }

  /** Every command is reached by its own action name. */
  lemma DispatchActionName(command: Command)
    ensures Dispatch(ActionName(command)) == Some(command)
  {
  }

  // ------------------------------------------------------------ the replies

  /** The JSON array of the configured networks, one encoded record each. */
  function ConfiguredNetworksJson(networks: seq<WifiConfig.WifiConfiguration>): (r: Json)
    ensures r.JArray? && |r.items| == |networks|
    ensures forall i :: 0 <= i < |networks| ==> r.items[i] == WifiConfig.EncodeConfig(networks[i])
  {
    JArray(seq(|networks|, i requires 0 <= i < |networks| => WifiConfig.EncodeConfig(networks[i])))
  }

  /** The exception a command throws out of execute. */
  datatype Thrown =
    | ThrownJsonException
    | ThrownNullPointerException

  /**
   * The single result a command that answers at once sends to its caller,
   * or the exception it throws before sending anything: addNetwork reads a
   * record from the first argument, setWifiEnabled a boolean, and
   * getConfiguredNetworks iterates over a list that may be null.
   */
  function CommandReply(command: Command, args: seq<Json>, p: Platform): (r: Result<PluginResult, Thrown>)
    requires command != GetScanResults && command != OnChange
    ensures r == Err(ThrownJsonException) ==> command == AddNetwork || command == SetWifiEnabled
    ensures r == Err(ThrownNullPointerException) <==> command == GetConfiguredNetworks && p.configuredNetworks.None?
    ensures r.Ok? ==> r.value.status == OkStatus && !r.value.keepCallback
  {
    match command
    case AddNetwork =>
      if |args| == 0 || !args[0].JObject? then Err(ThrownJsonException)
      else (match WifiConfig.DecodeConfig(args[0].fields)
        case Err(_) => Err(ThrownJsonException)
        case Ok(config) => Ok(OK(Some(JInt(p.addNetwork(config))))))
    case GetConfiguredNetworks =>
      (match p.configuredNetworks
        case None => Err(ThrownNullPointerException)
        case Some(networks) => Ok(OK(Some(ConfiguredNetworksJson(networks)))))
    case GetConnectionInfo => Ok(OK(p.connectionInfo))
    case GetDhcpInfo => Ok(OK(p.dhcpInfo))
    case GetWifiState => Ok(OK(StringValue(Codes.ToStringWifiState(p.wifiState))))
    case IsWifiEnabled => Ok(OK(Some(JBool(p.wifiEnabled))))
    case IsScanAlwaysAvailable => Ok(OK(Some(JBool(p.scanAlwaysAvailable))))
    case SetWifiEnabled =>
      if |args| == 0 then Err(ThrownJsonException)
      else (match AsBool(args[0])
        case Err(_) => Err(ThrownJsonException)
        case Ok(enabled) => Ok(OK(Some(JBool(p.setWifiEnabled(enabled))))))
    case StartScan => Ok(OK(Some(JBool(p.startScan))))
  }

  /**
   * addNetwork answers with the id the WifiManager gives the record decoded
   * from the first argument, and throws when there is no object there or it
   * does not decode.
   */
  lemma AddNetworkReply(args: seq<Json>, p: Platform)
    ensures CommandReply(AddNetwork, args, p).Ok? <==>
      |args| > 0 && args[0].JObject? && WifiConfig.DecodeConfig(args[0].fields).Ok?
    ensures CommandReply(AddNetwork, args, p).Ok? ==>
      CommandReply(AddNetwork, args, p).value.message ==
        JObject(map["data" := JInt(p.addNetwork(WifiConfig.DecodeConfig(args[0].fields).value))])
  {
  }

  /**
   * getConfiguredNetworks answers with one encoded record per configured
   * network, and a null list makes it throw a NullPointerException.
   */
  lemma ConfiguredNetworksReply(args: seq<Json>, p: Platform)
    ensures p.configuredNetworks.None? ==> CommandReply(GetConfiguredNetworks, args, p) == Err(ThrownNullPointerException)
    ensures p.configuredNetworks.Some? ==>
      && CommandReply(GetConfiguredNetworks, args, p).Ok?
      && var data := CommandReply(GetConfiguredNetworks, args, p).value.message.fields["data"];
         data.JArray? && |data.items| == |p.configuredNetworks.value|
         && forall i :: 0 <= i < |data.items| ==> data.items[i] == WifiConfig.EncodeConfig(p.configuredNetworks.value[i])
  {
  }

  /** getWifiState answers with the state's name, or NULL for a code without one. */
  lemma GetWifiStateReply(args: seq<Json>, p: Platform)
    ensures CommandReply(GetWifiState, args, p).Ok?
    ensures var data := CommandReply(GetWifiState, args, p).value.message.fields["data"];
      && (data == JNull <==> p.wifiState !in Codes.WifiStates)
      && (p.wifiState in Codes.WifiStates ==> data == JString(Codes.ToStringWifiState(p.wifiState).value))
  {
  }

  // ------------------------------------------------------------ plugin state

  /**
   * The plugin's state: the callers waiting for scan results, the change
   * listener, the permission requests made so far, whether the last
   * scan-results request is still waiting for its answer, and every result
   * sent so far, in order. `pending` is held by the host, not the plugin:
   * it is set when the plugin asks and cleared when the answer arrives.
   */
  datatype PluginState = PluginState(
    waiters: seq<CallbackId>,
    listener: Option<CallbackId>,
    prompts: seq<PermissionRequest>,
    pending: bool,
    sent: seq<Delivery>)

  const Initial := PluginState([], None, [], false, [])

  /**
   * Callers wait exactly while a scan-results request is outstanding, and
   * an outstanding request is one the plugin has made.
   */
  predicate ValidState(s: PluginState) {
    && (s.waiters != [] <==> s.pending)
    && (s.pending ==> |s.prompts| > 0 && s.prompts[|s.prompts| - 1] == ScanResultsRequest)
  }

  /**
   * The result each waiting caller gets when the permission answer arrives:
   * the scan results when every grant result is PERMISSION_GRANTED, an
   * error naming the permissions asked for otherwise.
   */
  function PermissionReply(permissions: seq<string>, grantResults: seq<int>, scanResults: Json): (r: PluginResult)
    ensures AllGranted(grantResults) ==> r == OK(Some(scanResults))
    ensures !AllGranted(grantResults) ==>
      r.status == ErrorStatus && !r.keepCallback
      && r.message == JObject(map["data" := JString("Permission denied " + Join(", ", permissions))])
  {
    if AllGranted(grantResults) then OK(Some(scanResults))
    else ERROR(Some(JString("Permission denied " + Join(", ", permissions))))
  }

  /** Permission counts as granted when no grant result says otherwise. */
  predicate AllGranted(grantResults: seq<int>) {
    forall i :: 0 <= i < |grantResults| ==> grantResults[i] == Codes.PERMISSION_GRANTED
  }

  /** The strings with the separator between each neighbouring pair. */
  function Join(sep: string, parts: seq<string>): (r: string)
    ensures |parts| == 0 ==> r == ""
    ensures |parts| == 1 ==> r == parts[0]
  {
    if |parts| == 0 then ""
    else if |parts| == 1 then parts[0]
    else parts[0] + sep + Join(sep, parts[1..])
  }

  /** Joining one more string appends the separator and the string. */
  lemma {:induction false} JoinAppend(sep: string, parts: seq<string>, last: string)
    requires parts != []
    ensures Join(sep, parts + [last]) == Join(sep, parts) + sep + last
  {
    if |parts| == 1 {
      assert parts + [last] == [parts[0], last];
    } else {
      assert (parts + [last])[1..] == parts[1..] + [last];
      JoinAppend(sep, parts[1..], last);
    }
  }

  /** The same result sent to each of the callbacks, in order. */
  function Fanout(callbacks: seq<CallbackId>, result: PluginResult): (r: seq<Delivery>)
    ensures |r| == |callbacks|
    ensures forall i :: 0 <= i < |r| ==> r[i] == Delivery(callbacks[i], result)
  {
    seq(|callbacks|, i requires 0 <= i < |callbacks| => Delivery(callbacks[i], result))
  }

  // ------------------------------------------------------------------ steps

  /**
   * getScanResults: with permission at either check the caller is answered
   * at once and nothing else changes; otherwise the caller joins the queue,
   * and permission is requested exactly when it is the only one waiting.
   */
  function GetScanResultsStep(s: PluginState, cb: CallbackId, permittedFirst: bool, permittedInLock: bool, scanResults: Json): (r: PluginState)
    ensures permittedFirst || permittedInLock ==>
      r == s.(sent := s.sent + [Delivery(cb, OK(Some(scanResults)))])
    ensures !permittedFirst && !permittedInLock ==>
      && r.waiters == s.waiters + [cb] && r.listener == s.listener && r.sent == s.sent
      && (r.prompts == s.prompts + [ScanResultsRequest] <==> s.waiters == [])
      && (s.waiters != [] ==> r.prompts == s.prompts)
      && (r.pending <==> s.pending || s.waiters == [])
  {
    if permittedFirst || permittedInLock then
      s.(sent := s.sent + [Delivery(cb, OK(Some(scanResults)))])
    else
      var waiters := s.waiters + [cb];
      if |waiters| == 1 then s.(waiters := waiters, prompts := s.prompts + [ScanResultsRequest], pending := true)
      else s.(waiters := waiters)
  }

  /**
   * onRequestPermissionResult: for the scan-results request every waiting
   * caller gets the same result, in queue order, the queue empties and the
   * request is answered; for any other request code nothing changes.
   */
  function PermissionResultStep(s: PluginState, requestCode: int, permissions: seq<string>, grantResults: seq<int>, scanResults: Json): (r: PluginState)
    ensures requestCode != REQUEST_CODE_SCAN_RESULTS ==> r == s
    ensures requestCode == REQUEST_CODE_SCAN_RESULTS ==>
      && r.waiters == [] && !r.pending && r.listener == s.listener && r.prompts == s.prompts
      && |r.sent| == |s.sent| + |s.waiters| && r.sent[..|s.sent|] == s.sent
      && (forall i :: 0 <= i < |s.waiters| ==>
            r.sent[|s.sent| + i] == Delivery(s.waiters[i], PermissionReply(permissions, grantResults, scanResults)))
  {
    if requestCode != REQUEST_CODE_SCAN_RESULTS then s
    else
      var reply := PermissionReply(permissions, grantResults, scanResults);
      s.(waiters := [], pending := false, sent := s.sent + Fanout(s.waiters, reply))
  }

  /** onChange: the new callback replaces any earlier listener. */
  function OnChangeStep(s: PluginState, cb: CallbackId): (r: PluginState)
    ensures r.listener == Some(cb)
    ensures r.waiters == s.waiters && r.prompts == s.prompts && r.pending == s.pending && r.sent == s.sent
  {
    s.(listener := Some(cb))
  }

  /** A broadcast: whatever the receiver sends to the current listener. */
  function ReceiveStep(s: PluginState, intent: Broadcast.Intent): (r: PluginState)
    ensures s.listener.None? ==> r == s
    ensures r.waiters == s.waiters && r.listener == s.listener && r.prompts == s.prompts && r.pending == s.pending
    ensures |s.sent| <= |r.sent| && r.sent[..|s.sent|] == s.sent
    ensures r.sent == s.sent + Broadcast.Deliveries(s.listener, intent)
  {
    s.(sent := s.sent + Broadcast.Deliveries(s.listener, intent))
  }

  /** What execute returns: true, false, or a thrown exception. */
  datatype Outcome = Handled | NotHandled | Threw(thrown: Thrown)

  datatype Executed = Executed(state: PluginState, outcome: Outcome)

  /**
   * execute: an unknown action returns false and changes nothing; a command
   * that throws changes nothing; every result a command sends goes to the
   * command's own callback, and only onChange touches the listener.
   */
  function ExecuteStep(s: PluginState, action: string, args: seq<Json>, cb: CallbackId, p: Platform): (r: Executed)
    ensures r.outcome == NotHandled <==> action !in ActionNames
    ensures r.outcome != Handled ==> r.state == s
    ensures r.outcome == Threw(ThrownNullPointerException) <==>
      Dispatch(action) == Some(GetConfiguredNetworks) && p.configuredNetworks.None?
    ensures r.state.listener == if Dispatch(action) == Some(OnChange) then Some(cb) else s.listener
    ensures |s.sent| <= |r.state.sent| && r.state.sent[..|s.sent|] == s.sent
    ensures forall i :: |s.sent| <= i < |r.state.sent| ==> r.state.sent[i].callback == cb
    ensures Dispatch(action).Some? && Dispatch(action).value != GetScanResults ==>
      r.state.waiters == s.waiters && r.state.prompts == s.prompts && r.state.pending == s.pending
    ensures Dispatch(action) == Some(OnChange) ==> r.outcome == Handled && r.state.sent == s.sent
    ensures var command := Dispatch(action);
      command.Some? && command.value != GetScanResults && command.value != OnChange ==>
        && (CommandReply(command.value, args, p).Ok? ==>
              r.outcome == Handled && r.state.sent == s.sent + [Delivery(cb, CommandReply(command.value, args, p).value)])
        && (CommandReply(command.value, args, p).Err? ==> r.outcome == Threw(CommandReply(command.value, args, p).error))
    ensures Dispatch(action) == Some(GetScanResults) ==>
      r == Executed(GetScanResultsStep(s, cb, p.permittedFirst, p.permittedInLock, p.scanResults), Handled)
  {
    match Dispatch(action)
    case None => Executed(s, NotHandled)
    case Some(command) =>
      if command == GetScanResults then
        Executed(GetScanResultsStep(s, cb, p.permittedFirst, p.permittedInLock, p.scanResults), Handled)
      else if command == OnChange then
        Executed(OnChangeStep(s, cb), Handled)
      else
        match CommandReply(command, args, p)
        case Err(e) => Executed(s, Threw(e))
        case Ok(reply) => Executed(s.(sent := s.sent + [Delivery(cb, reply)]), Handled)
  }

  // ------------------------------------------------------------- properties

  /** Callers arriving one after another while permission is missing at both checks. */
  function Enqueue(s: PluginState, callbacks: seq<CallbackId>, scanResults: Json): PluginState
    decreases |callbacks|
  {
    if callbacks == [] then s
    else Enqueue(GetScanResultsStep(s, callbacks[0], false, false, scanResults), callbacks[1..], scanResults)
  }

  /**
   * A run of callers without permission all queue up in arrival order and,
   * however many they are, cause one permission request, and only when the
   * queue was empty before them.
   */
  lemma {:induction false} EnqueuePromptsOnce(s: PluginState, callbacks: seq<CallbackId>, scanResults: Json)
    decreases |callbacks|
    ensures var r := Enqueue(s, callbacks, scanResults);
      && r.waiters == s.waiters + callbacks
      && r.listener == s.listener && r.sent == s.sent
      && r.prompts == s.prompts + (if s.waiters == [] && callbacks != [] then [ScanResultsRequest] else [])
      && (r.pending <==> s.pending || (s.waiters == [] && callbacks != []))
  {
    if callbacks != [] {
      var next := GetScanResultsStep(s, callbacks[0], false, false, scanResults);
      EnqueuePromptsOnce(next, callbacks[1..], scanResults);
      assert s.waiters + callbacks == next.waiters + callbacks[1..] by {
        assert callbacks == [callbacks[0]] + callbacks[1..];
      }
    }
  }

  /**
   * A whole wave: callers queue up without permission, then the answer to
   * the one request arrives; each caller gets one result, in arrival order,
   * and the queue is empty again.
   */
  lemma {:induction false} WaveAnsweredInOrder(s: PluginState, callbacks: seq<CallbackId>, permissions: seq<string>,
                                               grantResults: seq<int>, scanResults: Json)
    requires s.waiters == []
    ensures var r := PermissionResultStep(Enqueue(s, callbacks, scanResults), REQUEST_CODE_SCAN_RESULTS,
                                          permissions, grantResults, scanResults);
      && r.waiters == [] && !r.pending
      && r.prompts == s.prompts + (if callbacks != [] then [ScanResultsRequest] else [])
      && r.sent == s.sent + Fanout(callbacks, PermissionReply(permissions, grantResults, scanResults))
  {
    EnqueuePromptsOnce(s, callbacks, scanResults);
    var q := Enqueue(s, callbacks, scanResults);
    var r := PermissionResultStep(q, REQUEST_CODE_SCAN_RESULTS, permissions, grantResults, scanResults);
    var expected := s.sent + Fanout(callbacks, PermissionReply(permissions, grantResults, scanResults));
    assert |r.sent| == |expected|;
    forall i | 0 <= i < |r.sent| ensures r.sent[i] == expected[i] {
      if i < |s.sent| {
        assert r.sent[..|s.sent|][i] == r.sent[i];
      }
    }
  }

  /** Once the queue has been answered, the next caller without permission asks again. */
  lemma NextWavePromptsAgain(s: PluginState, permissions: seq<string>, grantResults: seq<int>, scanResults: Json, cb: CallbackId)
    ensures var answered := PermissionResultStep(s, REQUEST_CODE_SCAN_RESULTS, permissions, grantResults, scanResults);
      GetScanResultsStep(answered, cb, false, false, scanResults).prompts == s.prompts + [ScanResultsRequest]
  {
  }

  /** The denial names the permissions asked for, separated by commas. */
  lemma DeniedReplyNamesPermissions(permissions: seq<string>, grantResults: seq<int>, scanResults: Json)
    requires exists i :: 0 <= i < |grantResults| && grantResults[i] != Codes.PERMISSION_GRANTED
    ensures PermissionReply(permissions, grantResults, scanResults).status == ErrorStatus
    ensures PermissionReply(permissions, grantResults, scanResults).message.fields["data"]
      == JString("Permission denied " + Join(", ", permissions))
  {
  }

  /** With no grant results at all, permission counts as granted. */
  lemma EmptyGrantResultsGrant(permissions: seq<string>, scanResults: Json)
    ensures PermissionReply(permissions, [], scanResults) == OK(Some(scanResults))
  {
  }

  /** Only the listener registered last hears a broadcast, and it hears it. */
  lemma OnlyNewestListenerHears(s: PluginState, first: CallbackId, second: CallbackId, intent: Broadcast.Intent)
    ensures var r := ReceiveStep(OnChangeStep(OnChangeStep(s, first), second), intent);
      && |r.sent| > |s.sent|
      && r.sent[|r.sent| - 1] == Delivery(second, PluginResult(OkStatus, JObject(Broadcast.EventObject(intent)), true))
      && forall i :: |s.sent| <= i < |r.sent| ==> r.sent[i].callback == second
  {
  }

  /**
   * Every step keeps the queue and the outstanding request in step: callers
   * wait exactly while the plugin's last request is unanswered.
   */
  lemma {:induction false} StepsPreserveValidState(s: PluginState, cb: CallbackId, permittedFirst: bool, permittedInLock: bool,
                                                   requestCode: int, permissions: seq<string>, grantResults: seq<int>,
                                                   scanResults: Json, intent: Broadcast.Intent,
                                                   action: string, args: seq<Json>, p: Platform)
    requires ValidState(s)
    ensures ValidState(GetScanResultsStep(s, cb, permittedFirst, permittedInLock, scanResults))
    ensures ValidState(PermissionResultStep(s, requestCode, permissions, grantResults, scanResults))
    ensures ValidState(OnChangeStep(s, cb))
    ensures ValidState(ReceiveStep(s, intent))
    ensures ValidState(ExecuteStep(s, action, args, cb, p).state)
  {
    GetScanResultsPreservesValidState(s, cb, permittedFirst, permittedInLock, scanResults);
    PermissionResultPreservesValidState(s, requestCode, permissions, grantResults, scanResults);
    ListenerStepsPreserveValidState(s, cb, intent);
    ExecutePreservesValidState(s, action, args, cb, p);
  }

  /** Answering the request empties the queue and clears the outstanding request together. */
  lemma PermissionResultPreservesValidState(s: PluginState, requestCode: int, permissions: seq<string>,
                                            grantResults: seq<int>, scanResults: Json)
    requires ValidState(s)
    ensures ValidState(PermissionResultStep(s, requestCode, permissions, grantResults, scanResults))
  {
  }

  /** Registering a listener and delivering a broadcast leave the queue alone. */
  lemma ListenerStepsPreserveValidState(s: PluginState, cb: CallbackId, intent: Broadcast.Intent)
    requires ValidState(s)
    ensures ValidState(OnChangeStep(s, cb))
    ensures ValidState(ReceiveStep(s, intent))
  {
  }

  /** getScanResults either answers at once or queues behind a request it makes or finds outstanding. */
  lemma GetScanResultsPreservesValidState(s: PluginState, cb: CallbackId, permittedFirst: bool, permittedInLock: bool,
                                          scanResults: Json)
    requires ValidState(s)
    ensures ValidState(GetScanResultsStep(s, cb, permittedFirst, permittedInLock, scanResults))
  {
    if !permittedFirst && !permittedInLock && s.waiters != [] {
      assert s.pending;
    }
  }

  /** execute changes the queue only through getScanResults. */
  lemma ExecutePreservesValidState(s: PluginState, action: string, args: seq<Json>, cb: CallbackId, p: Platform)
    requires ValidState(s)
    ensures ValidState(ExecuteStep(s, action, args, cb, p).state)
  {
    if Dispatch(action) == Some(GetScanResults) {
      GetScanResultsPreservesValidState(s, cb, p.permittedFirst, p.permittedInLock, p.scanResults);
    }
  }

  lemma InitialValid()
    ensures ValidState(Initial) && Initial.waiters == [] && Initial.listener.None? && Initial.sent == []
  {
  }

  // ----------------------------------------------------------- the plugin

  /** The permission check of onRequestPermissionResult: true folded with `&&` over the grant results. */
  method HasPermission(grantResults: seq<int>) returns (granted: bool)
    ensures granted <==> AllGranted(grantResults)
  {
    granted := true;
    for i := 0 to |grantResults|
      invariant granted <==> forall k :: 0 <= k < i ==> grantResults[k] == Codes.PERMISSION_GRANTED
    {
      granted := granted && grantResults[i] == Codes.PERMISSION_GRANTED;
    }
  }

  /** getConfiguredNetworks' loop: each configured network encoded and appended to the array. */
  method EncodeConfiguredNetworks(networks: seq<WifiConfig.WifiConfiguration>) returns (json: Json)
    ensures json == ConfiguredNetworksJson(networks)
  {
    var items: seq<Json> := [];
    for i := 0 to |networks|
      invariant |items| == i
      invariant forall k :: 0 <= k < i ==> items[k] == WifiConfig.EncodeConfig(networks[k])
    {
      var json := WifiConfig.ToJsonWifiConfiguration(networks[i]);
      items := items + [json];
    }
    json := JArray(items);
  }

  class WifiManagerPlugin {
    var scanResultsCallbacks: seq<CallbackId>
    var onChange: Option<CallbackId>
    /** The permission requests made so far. */
    var prompts: seq<PermissionRequest>
    /** Whether the host still owes the answer to the last request; the plugin does not store it. */
    ghost var pending: bool
    /** Every result sent to a callback so far, in order. */
    var sent: seq<Delivery>

    ghost function State(): PluginState
      reads this
    {
      PluginState(scanResultsCallbacks, onChange, prompts, pending, sent)
    }

    /** initialize: an empty queue and no listener. */
    constructor ()
      ensures State() == Initial
    {
      scanResultsCallbacks := [];
      onChange := None;
      prompts := [];
      pending := false;
      sent := [];
    }

    method GetScanResults(cb: CallbackId, permittedFirst: bool, permittedInLock: bool, scanResults: Json)
      modifies this
      ensures State() == GetScanResultsStep(old(State()), cb, permittedFirst, permittedInLock, scanResults)
    {
      if permittedFirst {
        sent := sent + [Delivery(cb, OK(Some(scanResults)))];
        return;
      }
      // From here on the queue's lock is held.
      if permittedInLock {
        sent := sent + [Delivery(cb, OK(Some(scanResults)))];
        return;
      }
      scanResultsCallbacks := scanResultsCallbacks + [cb];
      if |scanResultsCallbacks| == 1 {
        prompts := prompts + [ScanResultsRequest];
        pending := true;
      }
    }

    method OnRequestPermissionResult(requestCode: int, permissions: seq<string>, grantResults: seq<int>, scanResults: Json)
      modifies this
      ensures State() == PermissionResultStep(old(State()), requestCode, permissions, grantResults, scanResults)
    {
      if requestCode != REQUEST_CODE_SCAN_RESULTS {
        return;
      }
      var granted := HasPermission(grantResults);
      var reply := if granted then OK(Some(scanResults))
                   else ERROR(Some(JString("Permission denied " + Join(", ", permissions))));
      assert reply == PermissionReply(permissions, grantResults, scanResults);
      var i := 0;
      while i < |scanResultsCallbacks|
        invariant 0 <= i <= |scanResultsCallbacks|
        invariant scanResultsCallbacks == old(scanResultsCallbacks)
        invariant onChange == old(onChange) && prompts == old(prompts) && pending == old(pending)
        invariant sent == old(sent) + Fanout(scanResultsCallbacks[..i], reply)
      {
        assert Fanout(scanResultsCallbacks[..i + 1], reply)
            == Fanout(scanResultsCallbacks[..i], reply) + [Delivery(scanResultsCallbacks[i], reply)];
        sent := sent + [Delivery(scanResultsCallbacks[i], reply)];
        i := i + 1;
      }
      assert scanResultsCallbacks[..i] == scanResultsCallbacks;
      scanResultsCallbacks := [];
      pending := false;
    }

    method OnChange(cb: CallbackId)
      modifies this
      ensures State() == OnChangeStep(old(State()), cb)
    {
      onChange := Some(cb);
    }

    /** The broadcast receiver's onReceive. */
    method OnReceive(intent: Broadcast.Intent)
      modifies this
      ensures State() == ReceiveStep(old(State()), intent)
    {
      if onChange.None? {
        return;
      }
      var listener := onChange.value;
      var data := Broadcast.EventData(intent);
      if data.Err? {
        sent := sent + [Delivery(listener, PluginResult(JsonExceptionStatus, JString(data.error), true))];
      }
      sent := sent + [Delivery(listener, PluginResult(OkStatus, JObject(Broadcast.EventObject(intent)), true))];
    }

    method Execute(action: string, args: seq<Json>, cb: CallbackId, p: Platform) returns (outcome: Outcome)
      modifies this
      ensures Executed(State(), outcome) == ExecuteStep(old(State()), action, args, cb, p)
    {
      var command := Dispatch(action);
      if command.None? {
        return NotHandled;
      }
      match command.value {
        case GetScanResults =>
          GetScanResults(cb, p.permittedFirst, p.permittedInLock, p.scanResults);
        case OnChange =>
          OnChange(cb);
        case AddNetwork =>
          if |args| == 0 || !args[0].JObject? {
            return Threw(ThrownJsonException);
          }
          var config := WifiConfig.FromJsonWifiConfiguration(args[0].fields);
          if config.Err? {
            return Threw(ThrownJsonException);
          }
          sent := sent + [Delivery(cb, OK(Some(JInt(p.addNetwork(config.value)))))];
        case GetConfiguredNetworks =>
          if p.configuredNetworks.None? {
            return Threw(ThrownNullPointerException);
          }
          var json := EncodeConfiguredNetworks(p.configuredNetworks.value);
          sent := sent + [Delivery(cb, OK(Some(json)))];
        case SetWifiEnabled =>
          if |args| == 0 || AsBool(args[0]).Err? {
            return Threw(ThrownJsonException);
          }
          var result := p.setWifiEnabled(AsBool(args[0]).value);
          sent := sent + [Delivery(cb, OK(Some(JBool(result))))];
        case GetConnectionInfo =>
          sent := sent + [Delivery(cb, OK(p.connectionInfo))];
        case GetDhcpInfo =>
          sent := sent + [Delivery(cb, OK(p.dhcpInfo))];
        case GetWifiState =>
          sent := sent + [Delivery(cb, OK(StringValue(Codes.ToStringWifiState(p.wifiState))))];
        case IsWifiEnabled =>
          sent := sent + [Delivery(cb, OK(Some(JBool(p.wifiEnabled))))];
        case IsScanAlwaysAvailable =>
          sent := sent + [Delivery(cb, OK(Some(JBool(p.scanAlwaysAvailable))))];
        case StartScan =>
          sent := sent + [Delivery(cb, OK(Some(JBool(p.startScan))))];
      }
      outcome := Handled;
    }
  }
}
