/**
 * The plugin's broadcast receiver: it turns each Wi-Fi broadcast intent into
 * an event object and sends it to the registered change listener, keeping
 * the listener's callback open.
 */
module Broadcast {
  import opened Wrappers
  import opened Json
  import Codes
  import opened PluginResults

  /** The broadcast actions the receiver recognises, and any other action. */
  datatype Action =
    | NetworkIdsChanged
    | NetworkStateChanged
    | RssiChanged
    | ScanResultsAvailable
    | SupplicantConnectionChange
    | SupplicantStateChanged
    | WifiStateChanged
    | OtherAction(name: string)

  /**
   * A parcelable extra after the serialiser for its class has run: the JSON
   * object it produced, or the message of the exception it threw. The
   * serialisers themselves are not part of this model.
   */
  type Serialised = Result<Json, string>

  /**
   * An intent: its action and the extras the receiver may read. A `None`
   * extra is one the intent does not carry. `newState` is the name of the
   * supplicant state.
   */
  datatype Intent = Intent(
    action: Action,
    networkInfo: Option<Serialised>,
    bssid: Option<string>,
    wifiInfo: Option<Serialised>,
    newRssi: Option<int>,
    resultsUpdated: Option<bool>,
    supplicantConnected: Option<bool>,
    newState: Option<string>,
    supplicantError: Option<int>,
    wifiState: Option<int>,
    previousWifiState: Option<int>)

  /** The event names the receiver sends. */
  const EventNames: set<string> :=
    {"NETWORK_IDS_CHANGED", "NETWORK_STATE_CHANGED", "RSSI_CHANGED", "SCAN_RESULTS_AVAILABLE",
     "SUPPLICANT_CONNECTION_CHANGE", "SUPPLICANT_STATE_CHANGED", "WIFI_STATE_CHANGED"}

  /** The event name of an action; an action the receiver does not know has none. */
  function EventName(action: Action): (r: Option<string>)
    ensures r.None? <==> action.OtherAction?
    ensures r.Some? ==> r.value in EventNames
  {
    match action
    case NetworkIdsChanged => Some("NETWORK_IDS_CHANGED")
    case NetworkStateChanged => Some("NETWORK_STATE_CHANGED")
    case RssiChanged => Some("RSSI_CHANGED")
    case ScanResultsAvailable => Some("SCAN_RESULTS_AVAILABLE")
    case SupplicantConnectionChange => Some("SUPPLICANT_CONNECTION_CHANGE")
    case SupplicantStateChanged => Some("SUPPLICANT_STATE_CHANGED")
    case WifiStateChanged => Some("WIFI_STATE_CHANGED")
    case OtherAction(_) => None
  }

  /** The supplicant error extra as the event reports it. */
  function SupplicantErrorName(error: Option<int>): (r: Json)
    ensures r == JNull <==> error.None?
    ensures r == JString("ERROR_AUTHENTICATING") <==> error == Some(Codes.ERROR_AUTHENTICATING)
    ensures r == JString("ERROR_UNKNOWN") <==> error.Some? && error.value != Codes.ERROR_AUTHENTICATING
  {
    match error
    case None => JNull
    case Some(code) => if code == Codes.ERROR_AUTHENTICATING then JString("ERROR_AUTHENTICATING") else JString("ERROR_UNKNOWN")
  }

  /** A wifi state extra, 0 when absent, as the name the event reports (null for an unknown code). */
  function WifiStateValue(state: Option<int>): Option<Json> {
    StringValue(Codes.ToStringWifiState(state.GetOr(0)))
  }

  /**
   * The data object of the event, or the message of the exception a
   * serialiser threw. Only the network state change reads serialised extras;
   * the network info is serialised before the wifi info.
   */
  function EventData(intent: Intent): (r: Result<map<string, Json>, string>)
    ensures r.Err? ==> intent.action == NetworkStateChanged
  {
    match intent.action
    case NetworkIdsChanged => Ok(map[])
    case NetworkStateChanged =>
      if intent.networkInfo.Some? && intent.networkInfo.value.Err? then Err(intent.networkInfo.value.error)
      else if intent.wifiInfo.Some? && intent.wifiInfo.value.Err? then Err(intent.wifiInfo.value.error)
      else
        var networkInfo := if intent.networkInfo.Some? then Some(intent.networkInfo.value.value) else None;
        var wifiInfo := if intent.wifiInfo.Some? then intent.wifiInfo.value.value else JNull;
        Ok(Put(map[], "networkInfo", networkInfo)
             ["BSSID" := StringOrNull(intent.bssid)]
             ["wifiInfo" := wifiInfo])
    case RssiChanged => Ok(map["RSSI" := JInt(intent.newRssi.GetOr(0))])
    case ScanResultsAvailable => Ok(map["resultsUpdated" := JBool(intent.resultsUpdated.GetOr(false))])
    case SupplicantConnectionChange => Ok(map["supplicantConnected" := JBool(intent.supplicantConnected.GetOr(false))])
    case SupplicantStateChanged =>
      Ok(Put(map[], "newState", StringValue(intent.newState))
           ["supplicantError" := SupplicantErrorName(intent.supplicantError)])
    case WifiStateChanged =>
      Ok(Put(Put(map[], "wifiState", WifiStateValue(intent.wifiState)),
             "previousWifiState", WifiStateValue(intent.previousWifiState)))
    case OtherAction(_) => Ok(map[])
  }

  /**
   * The object sent with the OK result: the event name and the data. A null
   * event name leaves the key out. When a serialiser threw, neither key was
   * written and the object is empty.
   */
  function EventObject(intent: Intent): (r: map<string, Json>)
    ensures EventData(intent).Err? ==> r == map[]
    ensures EventData(intent).Ok? ==>
      && "data" in r && r["data"] == JObject(EventData(intent).value)
      && ("event" in r <==> !intent.action.OtherAction?)
      && (!intent.action.OtherAction? ==> r["event"] == JString(EventName(intent.action).value))
      && r.Keys <= {"event", "data"}
  {
    match EventData(intent)
    case Ok(data) => Put(map[], "event", StringValue(EventName(intent.action)))["data" := JObject(data)]
    case Err(_) => map[]
  }

  /**
   * What the receiver sends for one intent: nothing without a listener;
   * otherwise a JSON_EXCEPTION result with the exception's message when a
   * serialiser threw, and then in every case an OK result with the event
   * object. Every result keeps the listener's callback open.
   */
  function Deliveries(listener: Option<CallbackId>, intent: Intent): (r: seq<Delivery>)
    ensures listener.None? <==> r == []
    ensures listener.Some? ==> |r| == (if EventData(intent).Err? then 2 else 1)
    ensures forall i :: 0 <= i < |r| ==> r[i].callback == listener.value && r[i].result.keepCallback
    ensures r != [] ==> r[|r| - 1].result == PluginResult(OkStatus, JObject(EventObject(intent)), true)
    ensures |r| == 2 ==> r[0].result == PluginResult(JsonExceptionStatus, JString(EventData(intent).error), true)
  {
    match listener
    case None => []
    case Some(cb) =>
      var ok := Delivery(cb, PluginResult(OkStatus, JObject(EventObject(intent)), true));
      match EventData(intent)
      case Ok(_) => [ok]
      case Err(message) => [Delivery(cb, PluginResult(JsonExceptionStatus, JString(message), true)), ok]
  }

  // ------------------------------------------------------------- properties

  /**
   * A wifi state change reports both extras through the wifi state names; a
   * code without a name leaves its key out, and a missing extra reads as 0,
   * which is the code of DISABLING.
   */
  lemma WifiStateEventNamesBothStates(intent: Intent)
    requires intent.action == WifiStateChanged
    ensures EventData(intent).Ok?
    ensures var data := EventData(intent).value;
      && ("wifiState" in data <==> intent.wifiState.GetOr(0) in Codes.WifiStates)
      && ("wifiState" in data ==> data["wifiState"] == JString(Codes.ToStringWifiState(intent.wifiState.GetOr(0)).value))
      && ("previousWifiState" in data <==> intent.previousWifiState.GetOr(0) in Codes.WifiStates)
      && ("previousWifiState" in data ==> data["previousWifiState"] == JString(Codes.ToStringWifiState(intent.previousWifiState.GetOr(0)).value))
      && (intent.wifiState.None? ==> data["wifiState"] == JString("DISABLING"))
  {
  }

  /** Wifi going from disabled to enabled is reported with both names. */
  lemma WifiEnabledEvent(intent: Intent)
    requires intent.action == WifiStateChanged
    requires intent.wifiState == Some(Codes.WIFI_STATE_ENABLED)
    requires intent.previousWifiState == Some(Codes.WIFI_STATE_DISABLED)
    ensures EventData(intent) == Ok(map["wifiState" := JString("ENABLED"), "previousWifiState" := JString("DISABLED")])
  {
  }

  /**
   * A network state change: a missing network info leaves its key out, while
   * a missing BSSID or wifi info is written as NULL.
   */
  lemma NetworkStateEventFields(intent: Intent)
    requires intent.action == NetworkStateChanged
    requires intent.networkInfo.None? || intent.networkInfo.value.Ok?
    requires intent.wifiInfo.None? || intent.wifiInfo.value.Ok?
    ensures EventData(intent).Ok?
    ensures var data := EventData(intent).value;
      && ("networkInfo" in data <==> intent.networkInfo.Some?)
      && (intent.networkInfo.Some? ==> data["networkInfo"] == intent.networkInfo.value.value)
      && data["BSSID"] == (if intent.bssid.Some? then JString(intent.bssid.value) else JNull)
      && data["wifiInfo"] == (if intent.wifiInfo.Some? then intent.wifiInfo.value.value else JNull)
  {
  }

  /**
   * The data of every recognised event except the network state change
   * always has the same keys, whatever extras the intent carries.
   */
  lemma SimpleEventFields(intent: Intent)
    ensures intent.action == RssiChanged ==>
      EventData(intent) == Ok(map["RSSI" := JInt(intent.newRssi.GetOr(0))])
    ensures intent.action == ScanResultsAvailable ==>
      EventData(intent) == Ok(map["resultsUpdated" := JBool(intent.resultsUpdated.GetOr(false))])
    ensures intent.action == SupplicantConnectionChange ==>
      EventData(intent) == Ok(map["supplicantConnected" := JBool(intent.supplicantConnected.GetOr(false))])
    ensures intent.action == SupplicantStateChanged ==>
      EventData(intent).Ok? && EventData(intent).value["supplicantError"] == SupplicantErrorName(intent.supplicantError)
      && ("newState" in EventData(intent).value <==> intent.newState.Some?)
      && (intent.newState.Some? ==> EventData(intent).value["newState"] == JString(intent.newState.value))
      && EventData(intent).value.Keys <= {"newState", "supplicantError"}
    ensures intent.action == NetworkIdsChanged ==> EventData(intent) == Ok(map[])
  {
  }

  /**
   * A recognised broadcast reaches the listener as one OK result holding the
   * event name and the data, unless a serialiser threw.
   */
  lemma RecognisedEventDelivered(listener: CallbackId, intent: Intent)
    requires !intent.action.OtherAction? && EventData(intent).Ok?
    ensures Deliveries(Some(listener), intent) ==
      [Delivery(listener, PluginResult(OkStatus,
         JObject(map["event" := JString(EventName(intent.action).value), "data" := JObject(EventData(intent).value)]), true))]
  {
  }

  /**
   * An action the receiver does not recognise still reaches the listener:
   * the null event name leaves the key out and the data object is empty.
   */
  lemma UnknownActionStillDelivered(listener: CallbackId, intent: Intent)
    requires intent.action.OtherAction?
    ensures Deliveries(Some(listener), intent) ==
      [Delivery(listener, PluginResult(OkStatus, JObject(map["data" := JObject(map[])]), true))]
  {
  }

  /**
   * When a serialiser throws, the listener first hears the exception and
   * then an OK result with an empty object.
   */
  lemma SerialiserFailureDeliveredTwice(listener: CallbackId, intent: Intent, message: string)
    requires intent.action == NetworkStateChanged && intent.networkInfo == Some(Err(message))
    ensures Deliveries(Some(listener), intent) ==
      [Delivery(listener, PluginResult(JsonExceptionStatus, JString(message), true)),
       Delivery(listener, PluginResult(OkStatus, JObject(map[]), true))]
  {
  }

  /**
   * The wifi info is serialised after the network info: when only the wifi
   * info serialiser throws, the listener hears that exception and then an
   * OK result with an empty object.
   */
  lemma WifiInfoFailureDeliveredTwice(listener: CallbackId, intent: Intent, message: string)
    requires intent.action == NetworkStateChanged
    requires intent.networkInfo.None? || intent.networkInfo.value.Ok?
    requires intent.wifiInfo == Some(Err(message))
    ensures Deliveries(Some(listener), intent) ==
      [Delivery(listener, PluginResult(JsonExceptionStatus, JString(message), true)),
       Delivery(listener, PluginResult(OkStatus, JObject(map[]), true))]
  {
  }
}
