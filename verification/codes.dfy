/**
 * The platform's integer codes and the plugin's translations between them
 * and their names. Every constant carries the Android SDK's published value;
 * the proofs rely only on the constants within one family being distinct.
 */
module Codes {
  import opened Wrappers

  // WifiManager.WIFI_STATE_*
  const WIFI_STATE_DISABLING: int := 0
  const WIFI_STATE_DISABLED: int := 1
  const WIFI_STATE_ENABLING: int := 2
  const WIFI_STATE_ENABLED: int := 3
  const WIFI_STATE_UNKNOWN: int := 4

  // WifiConfiguration.Status.*
  const STATUS_CURRENT: int := 0
  const STATUS_DISABLED: int := 1
  const STATUS_ENABLED: int := 2
  /** What fromStringWifiConfigurationStatus returns for an unknown name. */
  const STATUS_INVALID: int := -1

  // ConnectivityManager.TYPE_*
  const TYPE_MOBILE: int := 0
  const TYPE_WIFI: int := 1
  const TYPE_WIMAX: int := 6
  const TYPE_BLUETOOTH: int := 7
  const TYPE_ETHERNET: int := 9

  // ScanResult.CHANNEL_WIDTH_*
  const CHANNEL_WIDTH_20MHZ: int := 0
  const CHANNEL_WIDTH_40MHZ: int := 1
  const CHANNEL_WIDTH_80MHZ: int := 2
  const CHANNEL_WIDTH_160MHZ: int := 3
  const CHANNEL_WIDTH_80MHZ_PLUS_MHZ: int := 4

  // WifiManager.ERROR_AUTHENTICATING
  const ERROR_AUTHENTICATING: int := 1

  // PackageManager.PERMISSION_GRANTED
  const PERMISSION_GRANTED: int := 0

  const WifiStates: set<int> :=
    {WIFI_STATE_DISABLED, WIFI_STATE_DISABLING, WIFI_STATE_ENABLED, WIFI_STATE_ENABLING, WIFI_STATE_UNKNOWN}
  const Statuses: set<int> := {STATUS_CURRENT, STATUS_DISABLED, STATUS_ENABLED}
  const StatusNames: set<string> := {"CURRENT", "DISABLED", "ENABLED"}
  const NetworkTypes: set<int> := {TYPE_MOBILE, TYPE_WIFI, TYPE_WIMAX, TYPE_ETHERNET, TYPE_BLUETOOTH}
  const ChannelWidths: set<int> :=
    {CHANNEL_WIDTH_20MHZ, CHANNEL_WIDTH_40MHZ, CHANNEL_WIDTH_80MHZ, CHANNEL_WIDTH_160MHZ, CHANNEL_WIDTH_80MHZ_PLUS_MHZ}

  /** The name of a WiFi adapter state; null (None) for any code but the five states. */
  function ToStringWifiState(state: int): (r: Option<string>)
    ensures r.Some? <==> state in WifiStates
    ensures r.Some? ==> r.value in {"DISABLED", "DISABLING", "ENABLED", "ENABLING", "UNKNOWN"}
  {
    if state == WIFI_STATE_DISABLED then Some("DISABLED")
    else if state == WIFI_STATE_DISABLING then Some("DISABLING")
    else if state == WIFI_STATE_ENABLED then Some("ENABLED")
    else if state == WIFI_STATE_ENABLING then Some("ENABLING")
    else if state == WIFI_STATE_UNKNOWN then Some("UNKNOWN")
    else None
  }

  /** The name of a saved network's status; null for any other code, including STATUS_INVALID. */
  function ToStringWifiConfigurationStatus(status: int): (r: Option<string>)
    ensures r.Some? <==> status in Statuses
    ensures r.Some? ==> r.value in StatusNames
  {
    if status == STATUS_CURRENT then Some("CURRENT")
    else if status == STATUS_DISABLED then Some("DISABLED")
    else if status == STATUS_ENABLED then Some("ENABLED")
    else None
  }

  function ToStringNetworkType(networkType: int): (r: Option<string>)
    ensures r.Some? <==> networkType in NetworkTypes
    ensures r.Some? ==> r.value in {"MOBILE", "WIFI", "WIMAX", "ETHERNET", "BLUETOOTH"}
  {
    if networkType == TYPE_MOBILE then Some("MOBILE")
    else if networkType == TYPE_WIFI then Some("WIFI")
    else if networkType == TYPE_WIMAX then Some("WIMAX")
    else if networkType == TYPE_ETHERNET then Some("ETHERNET")
    else if networkType == TYPE_BLUETOOTH then Some("BLUETOOTH")
    else None
  }

  function ToStringChannelWidth(width: int): (r: Option<string>)
    ensures r.Some? <==> width in ChannelWidths
    ensures r.Some? ==> r.value in {"20MHZ", "40MHZ", "80MHZ", "160MHZ", "80MHZ_PLUS_MHZ"}
  {
    if width == CHANNEL_WIDTH_20MHZ then Some("20MHZ")
    else if width == CHANNEL_WIDTH_40MHZ then Some("40MHZ")
    else if width == CHANNEL_WIDTH_80MHZ then Some("80MHZ")
    else if width == CHANNEL_WIDTH_160MHZ then Some("160MHZ")
    else if width == CHANNEL_WIDTH_80MHZ_PLUS_MHZ then Some("80MHZ_PLUS_MHZ")
    else None
  }

  /** The status a name stands for; STATUS_INVALID for every other string. */
  function FromStringWifiConfigurationStatus(name: string): (r: int)
    ensures r == STATUS_INVALID <==> name !in StatusNames
    ensures r != STATUS_INVALID ==> r in Statuses
  {
    if name == "CURRENT" then STATUS_CURRENT
    else if name == "DISABLED" then STATUS_DISABLED
    else if name == "ENABLED" then STATUS_ENABLED
    else STATUS_INVALID
  }

  /** Naming a status and reading the name back gives the status again. */
  lemma StatusRoundTrip(status: int)
    requires status in Statuses
    ensures ToStringWifiConfigurationStatus(status).Some?
    ensures FromStringWifiConfigurationStatus(ToStringWifiConfigurationStatus(status).value) == status
  {
  }

  /** Reading a known status name and naming the result gives the name again. */
  lemma StatusNameRoundTrip(name: string)
    ensures FromStringWifiConfigurationStatus(name) != STATUS_INVALID ==>
      ToStringWifiConfigurationStatus(FromStringWifiConfigurationStatus(name)) == Some(name)
  {
  }

  /** Distinct WiFi states have distinct names. */
  lemma WifiStateNamesInjective(a: int, b: int)
    requires ToStringWifiState(a).Some? && ToStringWifiState(a) == ToStringWifiState(b)
    ensures a == b
  {
  }
}
