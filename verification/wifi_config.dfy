/**
 * The saved-network record (android.net.wifi.WifiConfiguration, the fields the
 * plugin touches) and its JSON encoder and decoder.
 */
module WifiConfig {
  import opened Wrappers
  import opened Json
  import Codes

  datatype AuthAlgorithm = LEAP | OPEN | SHARED {
    function Key(): string {
      match this
      case LEAP => "LEAP"
      case OPEN => "OPEN"
      case SHARED => "SHARED"
    }
  }

  datatype GroupCipher = CCMP | TKIP | WEP104 | WEP40 {
    function Key(): string {
      match this
      case CCMP => "CCMP"
      case TKIP => "TKIP"
      case WEP104 => "WEP104"
      case WEP40 => "WEP40"
    }
  }

  datatype KeyMgmt = IEEE8021X | NONE | WPA_EAP | WPA_PSK {
    function Key(): string {
      match this
      case IEEE8021X => "IEEE8021X"
      case NONE => "NONE"
      case WPA_EAP => "WPA_EAP"
      case WPA_PSK => "WPA_PSK"
    }
  }

  datatype PairwiseCipher = CCMP | NONE | TKIP {
    function Key(): string {
      match this
      case CCMP => "CCMP"
      case NONE => "NONE"
      case TKIP => "TKIP"
    }
  }

  datatype Protocol = RSN | WPA {
    function Key(): string {
      match this
      case RSN => "RSN"
      case WPA => "WPA"
    }
  }

  const AllAuthAlgorithms: set<AuthAlgorithm> := {AuthAlgorithm.LEAP, AuthAlgorithm.OPEN, AuthAlgorithm.SHARED}
  const AllGroupCiphers: set<GroupCipher> :=
    {GroupCipher.CCMP, GroupCipher.TKIP, GroupCipher.WEP104, GroupCipher.WEP40}
  const AllKeyMgmts: set<KeyMgmt> := {KeyMgmt.IEEE8021X, KeyMgmt.NONE, KeyMgmt.WPA_EAP, KeyMgmt.WPA_PSK}
  const AllPairwiseCiphers: set<PairwiseCipher> := {PairwiseCipher.CCMP, PairwiseCipher.NONE, PairwiseCipher.TKIP}
  const AllProtocols: set<Protocol> := {Protocol.RSN, Protocol.WPA}

  /** The bit sets of the platform record are sets of the named flags. */
  datatype WifiConfiguration = WifiConfiguration(
    BSSID: Option<string>,
    SSID: Option<string>,
    allowedAuthAlgorithms: set<AuthAlgorithm>,
    allowedGroupCiphers: set<GroupCipher>,
    allowedKeyManagement: set<KeyMgmt>,
    allowedPairwiseCiphers: set<PairwiseCipher>,
    allowedProtocols: set<Protocol>,
    hiddenSSID: bool,
    networkId: int,
    preSharedKey: Option<string>,
    status: int,
    wepKeys: seq<Option<string>>,
    wepTxKeyIndex: int)

  const WEP_KEY_COUNT: nat := 4
  const INVALID_NETWORK_ID: int := -1

  /** What `new WifiConfiguration()` holds: no names, no flags, four empty WEP key slots. */
  const Fresh: WifiConfiguration := WifiConfiguration(
    None, None, {}, {}, {}, {}, {}, false, INVALID_NETWORK_ID, None, Codes.STATUS_CURRENT,
    [None, None, None, None], 0)

  /** A record the platform can hold: Java ints and the four WEP key slots. */
  predicate WellFormed(c: WifiConfiguration) {
    IsInt32(c.networkId) && IsInt32(c.status) && IsInt32(c.wepTxKeyIndex) && |c.wepKeys| == WEP_KEY_COUNT
  }

  // ---------------------------------------------------------------- encoder

  function AuthAlgorithmsJson(s: set<AuthAlgorithm>): Json {
    JObject(map["LEAP" := JBool(AuthAlgorithm.LEAP in s),
                "OPEN" := JBool(AuthAlgorithm.OPEN in s),
                "SHARED" := JBool(AuthAlgorithm.SHARED in s)])
  }

  function GroupCiphersJson(s: set<GroupCipher>): Json {
    JObject(map["CCMP" := JBool(GroupCipher.CCMP in s),
                "TKIP" := JBool(GroupCipher.TKIP in s),
                "WEP104" := JBool(GroupCipher.WEP104 in s),
                "WEP40" := JBool(GroupCipher.WEP40 in s)])
  }

  function KeyManagementJson(s: set<KeyMgmt>): Json {
    JObject(map["IEEE8021X" := JBool(KeyMgmt.IEEE8021X in s),
                "NONE" := JBool(KeyMgmt.NONE in s),
                "WPA_EAP" := JBool(KeyMgmt.WPA_EAP in s),
                "WPA_PSK" := JBool(KeyMgmt.WPA_PSK in s)])
  }

  function PairwiseCiphersJson(s: set<PairwiseCipher>): Json {
    JObject(map["CCMP" := JBool(PairwiseCipher.CCMP in s),
                "NONE" := JBool(PairwiseCipher.NONE in s),
                "TKIP" := JBool(PairwiseCipher.TKIP in s)])
  }

  function ProtocolsJson(s: set<Protocol>): Json {
    JObject(map["RSN" := JBool(Protocol.RSN in s), "WPA" := JBool(Protocol.WPA in s)])
  }

  /** The first part of the encoder: the two names and the five flag blocks. */
  function EncodeNamesAndFlags(c: WifiConfiguration): map<string, Json> {
    Put(Put(map[], "BSSID", StringValue(c.BSSID)), "SSID", StringValue(c.SSID))
      ["allowedAuthAlgorithms" := AuthAlgorithmsJson(c.allowedAuthAlgorithms)]
      ["allowedGroupCiphers" := GroupCiphersJson(c.allowedGroupCiphers)]
      ["allowedKeyManagement" := KeyManagementJson(c.allowedKeyManagement)]
      ["allowedPairwiseCiphers" := PairwiseCiphersJson(c.allowedPairwiseCiphers)]
      ["allowedProtocols" := ProtocolsJson(c.allowedProtocols)]
  }

  /** Every key the encoder may write. */
  const ConfigKeys: set<string> :=
    {"BSSID", "SSID", "allowedAuthAlgorithms", "allowedGroupCiphers", "allowedKeyManagement",
     "allowedPairwiseCiphers", "allowedProtocols"} + ScalarKeys

  /** The keys the second part of the encoder writes. */
  const ScalarKeys: set<string> := {"hiddenSSID", "networkId", "preSharedKey", "status", "wepKeys", "wepTxKeyIndex"}

  /**
   * The second part of the encoder: the scalar fields and the already built
   * WEP key array, written over the object built so far. A status without a
   * name is a Java null, which put leaves out.
   */
  function EncodeScalars(obj: map<string, Json>, c: WifiConfiguration, wepKeys: Json): (r: map<string, Json>)
    ensures forall k :: k !in ScalarKeys ==> (k in r <==> k in obj) && (k in obj ==> r[k] == obj[k])
  {
    var status := Codes.ToStringWifiConfigurationStatus(c.status);
    var withStatus := obj["hiddenSSID" := JBool(c.hiddenSSID)]
                         ["networkId" := JInt(c.networkId)]
                         ["preSharedKey" := StringOrNull(c.preSharedKey)];
    var withStatus := if status.Some? then withStatus["status" := JString(status.value)] else withStatus - {"status"};
    withStatus["wepKeys" := wepKeys]["wepTxKeyIndex" := JInt(c.wepTxKeyIndex)]
  }

  /**
   * toJSON(WifiConfiguration): the record as a JSON object. A null BSSID,
   * SSID or status name leaves its key out (org.json drops a put of a Java
   * null); a null pre-shared key or WEP key is written as NULL. Every flag
   * is written, true or false.
   */
  function EncodeConfig(c: WifiConfiguration): (r: Json)
    ensures r.JObject? && r.fields.Keys <= ConfigKeys
  {
    JObject(EncodeScalars(EncodeNamesAndFlags(c), c, WepKeysJson(c.wepKeys)))
  }

  /** toJSON(WifiConfiguration) with its loop over the WEP key slots. */
  method ToJsonWifiConfiguration(c: WifiConfiguration) returns (r: Json)
    ensures r == EncodeConfig(c)
  {
    var wepKeys := EncodeWepKeys(c.wepKeys);
    r := JObject(EncodeScalars(EncodeNamesAndFlags(c), c, wepKeys));
  }

  /** The WEP key slots as a JSON array, NULL for an empty slot. */
  function WepKeysJson(keys: seq<Option<string>>): (r: Json)
    ensures r.JArray? && |r.items| == |keys|
    ensures forall i :: 0 <= i < |keys| ==> (r.items[i] == JNull <==> keys[i].None?)
    ensures forall i :: 0 <= i < |keys| && keys[i].Some? ==> r.items[i] == JString(keys[i].value)
  {
    JArray(seq(|keys|, i requires 0 <= i < |keys| => StringOrNull(keys[i])))
  }

  /** The encoder's loop over the key slots, appending one entry per slot. */
  method EncodeWepKeys(keys: seq<Option<string>>) returns (r: Json)
    ensures r == WepKeysJson(keys)
  {
    var items: seq<Json> := [];
    for i := 0 to |keys|
      invariant items == seq(i, k requires 0 <= k < i => StringOrNull(keys[k]))
    {
      items := items + [if keys[i].None? then JNull else JString(keys[i].value)];
    }
    r := JArray(items);
  }

  // ------------------------------------------------- decoder specification

  /** A guarded `json.getString(key)`: None when the key is null or missing. */
  function OptString(json: map<string, Json>, key: string): (r: Result<Option<string>, JsonException>)
    ensures IsNull(json, key) ==> r == Ok(None)
    ensures !IsNull(json, key) ==> (r.Ok? <==> AsString(json[key]).Ok?)
    ensures !IsNull(json, key) && r.Ok? ==> r.value == Some(AsString(json[key]).value)
  {
    if IsNull(json, key) then Ok(None)
    else match AsString(json[key])
      case Ok(v) => Ok(Some(v))
      case Err(e) => Err(e)
  }

  /** A guarded `json.getBoolean(key)`. */
  function OptBool(json: map<string, Json>, key: string): (r: Result<Option<bool>, JsonException>)
    ensures IsNull(json, key) ==> r == Ok(None)
    ensures !IsNull(json, key) ==> (r.Ok? <==> AsBool(json[key]).Ok?)
    ensures !IsNull(json, key) && r.Ok? ==> r.value == Some(AsBool(json[key]).value)
  {
    if IsNull(json, key) then Ok(None)
    else match AsBool(json[key])
      case Ok(v) => Ok(Some(v))
      case Err(e) => Err(e)
  }

  /** A guarded `json.getInt(key)`. */
  function OptInt(json: map<string, Json>, key: string): (r: Result<Option<int>, JsonException>)
    ensures IsNull(json, key) ==> r == Ok(None)
    ensures !IsNull(json, key) ==> (r.Ok? <==> AsInt(json[key]).Ok?)
    ensures !IsNull(json, key) && r.Ok? ==> r.value == Some(AsInt(json[key]).value)
  {
    if IsNull(json, key) then Ok(None)
    else match AsInt(json[key])
      case Ok(v) => Ok(Some(v))
      case Err(e) => Err(e)
  }

  /*
   * The flags a guarded sub-object sets: every flag whose key is present and
   * not NULL, whatever its value. A present sub-value that is not an object
   * throws.
   */

  function AuthFlags(json: map<string, Json>): (r: Result<set<AuthAlgorithm>, JsonException>)
    ensures IsNull(json, "allowedAuthAlgorithms") ==> r == Ok({})
    ensures r.Err? <==> !IsNull(json, "allowedAuthAlgorithms") && !json["allowedAuthAlgorithms"].JObject?
    ensures r.Ok? && !IsNull(json, "allowedAuthAlgorithms") ==>
      forall a :: a in r.value <==> a in AllAuthAlgorithms && !IsNull(json["allowedAuthAlgorithms"].fields, a.Key())
  {
    if IsNull(json, "allowedAuthAlgorithms") then Ok({})
    else match AsObject(json["allowedAuthAlgorithms"])
      case Ok(sub) => Ok(set a | a in AllAuthAlgorithms && !IsNull(sub, a.Key()))
      case Err(e) => Err(e)
  }

  function GroupFlags(json: map<string, Json>): (r: Result<set<GroupCipher>, JsonException>)
    ensures IsNull(json, "allowedGroupCiphers") ==> r == Ok({})
    ensures r.Err? <==> !IsNull(json, "allowedGroupCiphers") && !json["allowedGroupCiphers"].JObject?
    ensures r.Ok? && !IsNull(json, "allowedGroupCiphers") ==>
      forall g :: g in r.value <==> g in AllGroupCiphers && !IsNull(json["allowedGroupCiphers"].fields, g.Key())
  {
    if IsNull(json, "allowedGroupCiphers") then Ok({})
    else match AsObject(json["allowedGroupCiphers"])
      case Ok(sub) => Ok(set g | g in AllGroupCiphers && !IsNull(sub, g.Key()))
      case Err(e) => Err(e)
  }

  function KeyMgmtFlags(json: map<string, Json>): (r: Result<set<KeyMgmt>, JsonException>)
    ensures IsNull(json, "allowedKeyManagement") ==> r == Ok({})
    ensures r.Err? <==> !IsNull(json, "allowedKeyManagement") && !json["allowedKeyManagement"].JObject?
    ensures r.Ok? && !IsNull(json, "allowedKeyManagement") ==>
      forall k :: k in r.value <==> k in AllKeyMgmts && !IsNull(json["allowedKeyManagement"].fields, k.Key())
  {
    if IsNull(json, "allowedKeyManagement") then Ok({})
    else match AsObject(json["allowedKeyManagement"])
      case Ok(sub) => Ok(set k | k in AllKeyMgmts && !IsNull(sub, k.Key()))
      case Err(e) => Err(e)
  }

  function PairwiseFlags(json: map<string, Json>): (r: Result<set<PairwiseCipher>, JsonException>)
    ensures IsNull(json, "allowedPairwiseCiphers") ==> r == Ok({})
    ensures r.Err? <==> !IsNull(json, "allowedPairwiseCiphers") && !json["allowedPairwiseCiphers"].JObject?
    ensures r.Ok? && !IsNull(json, "allowedPairwiseCiphers") ==>
      forall p :: p in r.value <==> p in AllPairwiseCiphers && !IsNull(json["allowedPairwiseCiphers"].fields, p.Key())
  {
    if IsNull(json, "allowedPairwiseCiphers") then Ok({})
    else match AsObject(json["allowedPairwiseCiphers"])
      case Ok(sub) => Ok(set p | p in AllPairwiseCiphers && !IsNull(sub, p.Key()))
      case Err(e) => Err(e)
  }

  function ProtocolFlags(json: map<string, Json>): (r: Result<set<Protocol>, JsonException>)
    ensures IsNull(json, "allowedProtocols") ==> r == Ok({})
    ensures r.Err? <==> !IsNull(json, "allowedProtocols") && !json["allowedProtocols"].JObject?
    ensures r.Ok? && !IsNull(json, "allowedProtocols") ==>
      forall p :: p in r.value <==> p in AllProtocols && !IsNull(json["allowedProtocols"].fields, p.Key())
  {
    if IsNull(json, "allowedProtocols") then Ok({})
    else match AsObject(json["allowedProtocols"])
      case Ok(sub) => Ok(set p | p in AllProtocols && !IsNull(sub, p.Key()))
      case Err(e) => Err(e)
  }

  /** An index of the WEP key array whose entry is present but cannot be read as a string. */
  predicate WepKeyFails(a: seq<Json>, i: int) {
    !ArrayIsNull(a, i) && AsString(a[i]).Err?
  }

  /** Some slot below n would make getString throw. */
  predicate SomeWepKeyFails(a: seq<Json>, n: nat) {
    exists i :: 0 <= i < n && WepKeyFails(a, i)
  }

  /** The key left in slot i: the array's entry when present, the slot's old value otherwise. */
  function WepKeyAt(a: seq<Json>, base: seq<Option<string>>, i: int): Option<string>
    requires 0 <= i < |base|
  {
    if ArrayIsNull(a, i) || AsString(a[i]).Err? then base[i] else Some(AsString(a[i]).value)
  }

  /** The WEP key slots after decoding: only the first |base| entries of the array are read. */
  function WepKeysOf(json: map<string, Json>, base: seq<Option<string>>): (r: Result<seq<Option<string>>, JsonException>)
    ensures r.Ok? ==> |r.value| == |base|
  {
    if IsNull(json, "wepKeys") then Ok(base)
    else match AsArray(json["wepKeys"])
      case Err(e) => Err(e)
      case Ok(a) =>
        if SomeWepKeyFails(a, |base|) then Err(JsonException)
        else Ok(seq(|base|, i requires 0 <= i < |base| => WepKeyAt(a, base, i)))
  }

  /** Some guarded read of the BSSID, SSID or flag blocks throws. */
  predicate NamesOrFlagsFail(json: map<string, Json>) {
    OptString(json, "BSSID").Err? || OptString(json, "SSID").Err?
    || AuthFlags(json).Err? || GroupFlags(json).Err? || KeyMgmtFlags(json).Err?
    || PairwiseFlags(json).Err? || ProtocolFlags(json).Err?
  }

  /** Some guarded read of the scalar fields or the WEP keys throws. */
  predicate ScalarsFail(json: map<string, Json>, wepKeys: seq<Option<string>>) {
    OptBool(json, "hiddenSSID").Err? || OptInt(json, "networkId").Err?
    || OptString(json, "preSharedKey").Err? || OptString(json, "status").Err?
    || WepKeysOf(json, wepKeys).Err? || OptInt(json, "wepTxKeyIndex").Err?
  }

  /**
   * The names and flag blocks applied to a record: a non-null SSID is
   * stored into BSSID, after and over the BSSID key's value, and SSID is left
   * alone; each flag the block names is added to the record's flags.
   */
  function WithNamesAndFlags(json: map<string, Json>, c: WifiConfiguration): WifiConfiguration
    requires !NamesOrFlagsFail(json)
  {
    var bssid := OptString(json, "BSSID").value;
    var ssid := OptString(json, "SSID").value;
    c.(BSSID := if ssid.Some? then ssid else if bssid.Some? then bssid else c.BSSID,
       allowedAuthAlgorithms := c.allowedAuthAlgorithms + AuthFlags(json).value,
       allowedGroupCiphers := c.allowedGroupCiphers + GroupFlags(json).value,
       allowedKeyManagement := c.allowedKeyManagement + KeyMgmtFlags(json).value,
       allowedPairwiseCiphers := c.allowedPairwiseCiphers + PairwiseFlags(json).value,
       allowedProtocols := c.allowedProtocols + ProtocolFlags(json).value)
  }

  /** The scalar fields and the WEP keys applied to a record: each is its read value or stays. */
  function WithScalars(json: map<string, Json>, c: WifiConfiguration): WifiConfiguration
    requires !ScalarsFail(json, c.wepKeys)
  {
    var hidden := OptBool(json, "hiddenSSID").value;
    var networkId := OptInt(json, "networkId").value;
    var psk := OptString(json, "preSharedKey").value;
    var status := OptString(json, "status").value;
    var txIndex := OptInt(json, "wepTxKeyIndex").value;
    c.(hiddenSSID := hidden.GetOr(c.hiddenSSID),
       networkId := networkId.GetOr(c.networkId),
       preSharedKey := if psk.Some? then psk else c.preSharedKey,
       status := if status.Some? then Codes.FromStringWifiConfigurationStatus(status.value) else c.status,
       wepKeys := WepKeysOf(json, c.wepKeys).value,
       wepTxKeyIndex := txIndex.GetOr(c.wepTxKeyIndex))
  }

  /**
   * fromJSONWifiConfiguration as a whole: a JSONException as soon as one
   * guarded read throws, otherwise the fresh record with both stages applied.
   * (The fresh record's flag sets are empty, so a stage's flag set is the
   * whole set the record ends up with.)
   */
  function DecodeConfig(json: map<string, Json>): (r: Result<WifiConfiguration, JsonException>)
    ensures r.Err? <==> NamesOrFlagsFail(json) || ScalarsFail(json, Fresh.wepKeys)
    ensures r.Ok? ==> WellFormed(r.value) && r.value.SSID.None?
  {
    if NamesOrFlagsFail(json) || ScalarsFail(json, Fresh.wepKeys) then Err(JsonException)
    else Ok(WithScalars(json, WithNamesAndFlags(json, Fresh)))
  }

  // ------------------------------------------------------------- decoder

  /** The allowedAuthAlgorithms block: each flag is set when its key is present and not NULL. */
  method ReadAuthAlgorithms(json: map<string, Json>) returns (r: Result<set<AuthAlgorithm>, JsonException>)
    ensures r == AuthFlags(json)
  {
    var flags: set<AuthAlgorithm> := {};
    if !IsNull(json, "allowedAuthAlgorithms") {
      var sub := AsObject(json["allowedAuthAlgorithms"]);
      if sub.Err? { return Err(JsonException); }
      var auth := sub.value;
      if !IsNull(auth, "LEAP") { flags := flags + {AuthAlgorithm.LEAP}; }
      if !IsNull(auth, "OPEN") { flags := flags + {AuthAlgorithm.OPEN}; }
      if !IsNull(auth, "SHARED") { flags := flags + {AuthAlgorithm.SHARED}; }
      assert flags == set a | a in AllAuthAlgorithms && !IsNull(auth, a.Key());
    }
    return Ok(flags);
  }

  /** The allowedGroupCiphers block. */
  method ReadGroupCiphers(json: map<string, Json>) returns (r: Result<set<GroupCipher>, JsonException>)
    ensures r == GroupFlags(json)
  {
    var flags: set<GroupCipher> := {};
    if !IsNull(json, "allowedGroupCiphers") {
      var sub := AsObject(json["allowedGroupCiphers"]);
      if sub.Err? { return Err(JsonException); }
      var group := sub.value;
      if !IsNull(group, "CCMP") { flags := flags + {GroupCipher.CCMP}; }
      if !IsNull(group, "TKIP") { flags := flags + {GroupCipher.TKIP}; }
      if !IsNull(group, "WEP104") { flags := flags + {GroupCipher.WEP104}; }
      if !IsNull(group, "WEP40") { flags := flags + {GroupCipher.WEP40}; }
      assert flags == set g | g in AllGroupCiphers && !IsNull(group, g.Key());
    }
    return Ok(flags);
  }

  /** The allowedKeyManagement block. */
  method ReadKeyManagement(json: map<string, Json>) returns (r: Result<set<KeyMgmt>, JsonException>)
    ensures r == KeyMgmtFlags(json)
  {
    var flags: set<KeyMgmt> := {};
    if !IsNull(json, "allowedKeyManagement") {
      var sub := AsObject(json["allowedKeyManagement"]);
      if sub.Err? { return Err(JsonException); }
      var keyMgmt := sub.value;
      if !IsNull(keyMgmt, "IEEE8021X") { flags := flags + {KeyMgmt.IEEE8021X}; }
      if !IsNull(keyMgmt, "NONE") { flags := flags + {KeyMgmt.NONE}; }
      if !IsNull(keyMgmt, "WPA_EAP") { flags := flags + {KeyMgmt.WPA_EAP}; }
      if !IsNull(keyMgmt, "WPA_PSK") { flags := flags + {KeyMgmt.WPA_PSK}; }
      assert flags == set k | k in AllKeyMgmts && !IsNull(keyMgmt, k.Key());
    }
    return Ok(flags);
  }

  /** The allowedPairwiseCiphers block. */
  method ReadPairwiseCiphers(json: map<string, Json>) returns (r: Result<set<PairwiseCipher>, JsonException>)
    ensures r == PairwiseFlags(json)
  {
    var flags: set<PairwiseCipher> := {};
    if !IsNull(json, "allowedPairwiseCiphers") {
      var sub := AsObject(json["allowedPairwiseCiphers"]);
      if sub.Err? { return Err(JsonException); }
      var pairwise := sub.value;
      if !IsNull(pairwise, "CCMP") { flags := flags + {PairwiseCipher.CCMP}; }
      if !IsNull(pairwise, "NONE") { flags := flags + {PairwiseCipher.NONE}; }
      if !IsNull(pairwise, "TKIP") { flags := flags + {PairwiseCipher.TKIP}; }
      assert flags == set p | p in AllPairwiseCiphers && !IsNull(pairwise, p.Key());
    }
    return Ok(flags);
  }

  /** The allowedProtocols block. */
  method ReadProtocols(json: map<string, Json>) returns (r: Result<set<Protocol>, JsonException>)
    ensures r == ProtocolFlags(json)
  {
    var flags: set<Protocol> := {};
    if !IsNull(json, "allowedProtocols") {
      var sub := AsObject(json["allowedProtocols"]);
      if sub.Err? { return Err(JsonException); }
      var protocols := sub.value;
      if !IsNull(protocols, "RSN") { flags := flags + {Protocol.RSN}; }
      if !IsNull(protocols, "WPA") { flags := flags + {Protocol.WPA}; }
      assert flags == set p | p in AllProtocols && !IsNull(protocols, p.Key());
    }
    return Ok(flags);
  }

  /**
   * The wepKeys block: the record's key array is overwritten slot by slot
   * for every index below its length whose array entry is not NULL.
   */
  method ReadWepKeys(json: map<string, Json>, base: seq<Option<string>>) returns (r: Result<seq<Option<string>>, JsonException>)
    ensures r == WepKeysOf(json, base)
  {
    if IsNull(json, "wepKeys") { return Ok(base); }
    var arr := AsArray(json["wepKeys"]);
    if arr.Err? { return Err(JsonException); }
    var a := arr.value;
    var keys := new Option<string>[|base|](i requires 0 <= i < |base| => base[i]);
    for i := 0 to keys.Length
      invariant forall k :: 0 <= k < i ==> !WepKeyFails(a, k)
      invariant forall k :: 0 <= k < i ==> keys[k] == WepKeyAt(a, base, k)
      invariant forall k :: i <= k < keys.Length ==> keys[k] == base[k]
    {
      if !ArrayIsNull(a, i) {
        var s := AsString(a[i]);
        if s.Err? {
          assert WepKeyFails(a, i);
          return Err(JsonException);
        }
        keys[i] := Some(s.value);
      }
    }
    assert keys[..] == seq(|base|, i requires 0 <= i < |base| => WepKeyAt(a, base, i));
    return Ok(keys[..]);
  }

  /**
   * The names and the five flag blocks read into the record `cfg`; each
   * flag read is added to the flags `cfg` already has, as BitSet.set does.
   */
  method ReadNamesAndFlags(json: map<string, Json>, cfg: WifiConfiguration) returns (r: Result<WifiConfiguration, JsonException>)
    ensures NamesOrFlagsFail(json) ==> r == Err(JsonException)
    ensures !NamesOrFlagsFail(json) ==> r == Ok(WithNamesAndFlags(json, cfg))
  {
    var c := cfg;

    var bssid := OptString(json, "BSSID");
    if bssid.Err? { return Err(JsonException); }
    if bssid.value.Some? { c := c.(BSSID := bssid.value); }
    var ssid := OptString(json, "SSID");
    if ssid.Err? { return Err(JsonException); }
    if ssid.value.Some? { c := c.(BSSID := ssid.value); }

    var auth := ReadAuthAlgorithms(json);
    if auth.Err? { return Err(JsonException); }
    c := c.(allowedAuthAlgorithms := c.allowedAuthAlgorithms + auth.value);
    assert c.allowedAuthAlgorithms == cfg.allowedAuthAlgorithms + AuthFlags(json).value;
    var group := ReadGroupCiphers(json);
    if group.Err? { return Err(JsonException); }
    c := c.(allowedGroupCiphers := c.allowedGroupCiphers + group.value);
    assert c.allowedGroupCiphers == cfg.allowedGroupCiphers + GroupFlags(json).value;
    var keyMgmt := ReadKeyManagement(json);
    if keyMgmt.Err? { return Err(JsonException); }
    c := c.(allowedKeyManagement := c.allowedKeyManagement + keyMgmt.value);
    assert c.allowedKeyManagement == cfg.allowedKeyManagement + KeyMgmtFlags(json).value;
    var pairwise := ReadPairwiseCiphers(json);
    if pairwise.Err? { return Err(JsonException); }
    c := c.(allowedPairwiseCiphers := c.allowedPairwiseCiphers + pairwise.value);
    assert c.allowedPairwiseCiphers == cfg.allowedPairwiseCiphers + PairwiseFlags(json).value;
    var protocols := ReadProtocols(json);
    if protocols.Err? { return Err(JsonException); }
    c := c.(allowedProtocols := c.allowedProtocols + protocols.value);
    assert c.allowedProtocols == cfg.allowedProtocols + ProtocolFlags(json).value;

    return Ok(c);
  }

  /** The scalar fields and the WEP keys read into the record `cfg`. */
  method ReadScalars(json: map<string, Json>, cfg: WifiConfiguration) returns (r: Result<WifiConfiguration, JsonException>)
    ensures ScalarsFail(json, cfg.wepKeys) ==> r == Err(JsonException)
    ensures !ScalarsFail(json, cfg.wepKeys) ==> r == Ok(WithScalars(json, cfg))
  {
    var c := cfg;

    var hidden := OptBool(json, "hiddenSSID");
    if hidden.Err? { return Err(JsonException); }
    if hidden.value.Some? { c := c.(hiddenSSID := hidden.value.value); }
    var networkId := OptInt(json, "networkId");
    if networkId.Err? { return Err(JsonException); }
    if networkId.value.Some? { c := c.(networkId := networkId.value.value); }
    var psk := OptString(json, "preSharedKey");
    if psk.Err? { return Err(JsonException); }
    if psk.value.Some? { c := c.(preSharedKey := psk.value); }
    var status := OptString(json, "status");
    if status.Err? { return Err(JsonException); }
    if status.value.Some? { c := c.(status := Codes.FromStringWifiConfigurationStatus(status.value.value)); }

    var wepKeys := ReadWepKeys(json, c.wepKeys);
    if wepKeys.Err? { return Err(JsonException); }
    c := c.(wepKeys := wepKeys.value);

    var txIndex := OptInt(json, "wepTxKeyIndex");
    if txIndex.Err? { return Err(JsonException); }
    if txIndex.value.Some? { c := c.(wepTxKeyIndex := txIndex.value.value); }

    return Ok(c);
  }

  /**
   * fromJSONWifiConfiguration: starts from a fresh record and overwrites it
   * field by field, in the source's order, stopping at the first read that
   * throws. Each `if(!json.isNull(key)) ... json.getX(key)` is one guarded read.
   */
  method FromJsonWifiConfiguration(json: map<string, Json>) returns (r: Result<WifiConfiguration, JsonException>)
    ensures r == DecodeConfig(json)
  {
    var cfg := ReadNamesAndFlags(json, Fresh);
    if cfg.Err? { return Err(JsonException); }
    assert cfg.value == WithNamesAndFlags(json, Fresh);
    r := ReadScalars(json, cfg.value);
  }

  // ------------------------------------------------------------- properties

  /** The SSID key never reaches SSID: a non-null SSID lands in BSSID, over the BSSID key. */
  lemma DecodeStoresSsidInBssid(json: map<string, Json>)
    requires DecodeConfig(json).Ok?
    ensures DecodeConfig(json).value.SSID == None
    ensures !IsNull(json, "SSID") ==> DecodeConfig(json).value.BSSID == Some(AsString(json["SSID"]).value)
    ensures IsNull(json, "SSID") && !IsNull(json, "BSSID") ==>
      DecodeConfig(json).value.BSSID == Some(AsString(json["BSSID"]).value)
    ensures IsNull(json, "SSID") && IsNull(json, "BSSID") ==> DecodeConfig(json).value.BSSID == None
  {
  }

  /**
   * Each flag is set exactly when its block is present and the flag's key
   * in it is present and not NULL; the key's value itself is never looked at.
   */
  lemma DecodeFlagsFollowKeyPresence(json: map<string, Json>)
    requires DecodeConfig(json).Ok?
    ensures forall a: AuthAlgorithm :: a in DecodeConfig(json).value.allowedAuthAlgorithms <==>
      !IsNull(json, "allowedAuthAlgorithms") && !IsNull(json["allowedAuthAlgorithms"].fields, a.Key())
    ensures forall g: GroupCipher :: g in DecodeConfig(json).value.allowedGroupCiphers <==>
      !IsNull(json, "allowedGroupCiphers") && !IsNull(json["allowedGroupCiphers"].fields, g.Key())
    ensures forall k: KeyMgmt :: k in DecodeConfig(json).value.allowedKeyManagement <==>
      !IsNull(json, "allowedKeyManagement") && !IsNull(json["allowedKeyManagement"].fields, k.Key())
    ensures forall p: PairwiseCipher :: p in DecodeConfig(json).value.allowedPairwiseCiphers <==>
      !IsNull(json, "allowedPairwiseCiphers") && !IsNull(json["allowedPairwiseCiphers"].fields, p.Key())
    ensures forall p: Protocol :: p in DecodeConfig(json).value.allowedProtocols <==>
      !IsNull(json, "allowedProtocols") && !IsNull(json["allowedProtocols"].fields, p.Key())
  {
    NamesAndFlagsOnFresh(json);
    var c := DecodeConfig(json).value;
    assert c.allowedAuthAlgorithms == AuthFlags(json).value;
    assert c.allowedGroupCiphers == GroupFlags(json).value;
    assert c.allowedKeyManagement == KeyMgmtFlags(json).value;
    assert c.allowedPairwiseCiphers == PairwiseFlags(json).value;
    assert c.allowedProtocols == ProtocolFlags(json).value;
  }

  /** On the fresh record, which has no flags, the decoded flag sets are exactly the flags read. */
  lemma NamesAndFlagsOnFresh(json: map<string, Json>)
    requires !NamesOrFlagsFail(json)
    ensures var c := WithNamesAndFlags(json, Fresh);
      c == Fresh.(BSSID := c.BSSID,
                  allowedAuthAlgorithms := AuthFlags(json).value,
                  allowedGroupCiphers := GroupFlags(json).value,
                  allowedKeyManagement := KeyMgmtFlags(json).value,
                  allowedPairwiseCiphers := PairwiseFlags(json).value,
                  allowedProtocols := ProtocolFlags(json).value)
  {
    assert Fresh.allowedAuthAlgorithms + AuthFlags(json).value == AuthFlags(json).value;
    assert Fresh.allowedGroupCiphers + GroupFlags(json).value == GroupFlags(json).value;
    assert Fresh.allowedKeyManagement + KeyMgmtFlags(json).value == KeyMgmtFlags(json).value;
    assert Fresh.allowedPairwiseCiphers + PairwiseFlags(json).value == PairwiseFlags(json).value;
    assert Fresh.allowedProtocols + ProtocolFlags(json).value == ProtocolFlags(json).value;
  }

  /** A flag written as `false` is set all the same. */
  lemma DecodeSetsFlagWrittenFalse()
    ensures DecodeConfig(map["allowedKeyManagement" := JObject(map["NONE" := JBool(false)])])
      == Ok(Fresh.(allowedKeyManagement := {KeyMgmt.NONE}))
  {
    var json := map["allowedKeyManagement" := JObject(map["NONE" := JBool(false)])];
    var sub := map["NONE" := JBool(false)];
    assert KeyMgmtFlags(json) == Ok({KeyMgmt.NONE}) by {
      assert (set k | k in AllKeyMgmts && !IsNull(sub, k.Key())) == {KeyMgmt.NONE};
    }
    assert IsNull(json, "BSSID") && IsNull(json, "SSID") && IsNull(json, "allowedAuthAlgorithms")
      && IsNull(json, "allowedGroupCiphers") && IsNull(json, "allowedPairwiseCiphers") && IsNull(json, "allowedProtocols");
    assert IsNull(json, "hiddenSSID") && IsNull(json, "networkId") && IsNull(json, "preSharedKey")
      && IsNull(json, "status") && IsNull(json, "wepKeys") && IsNull(json, "wepTxKeyIndex");
    assert !NamesOrFlagsFail(json) && !ScalarsFail(json, Fresh.wepKeys);
    NamesAndFlagsOnFresh(json);
  }

  /** A key that is missing or NULL leaves its field as the fresh record has it. */
  lemma DecodeNullKeysKeepDefaults(json: map<string, Json>)
    requires DecodeConfig(json).Ok?
    ensures var c := DecodeConfig(json).value;
      && (IsNull(json, "BSSID") && IsNull(json, "SSID") ==> c.BSSID == Fresh.BSSID)
      && (IsNull(json, "hiddenSSID") ==> c.hiddenSSID == Fresh.hiddenSSID)
      && (IsNull(json, "networkId") ==> c.networkId == Fresh.networkId)
      && (IsNull(json, "preSharedKey") ==> c.preSharedKey == Fresh.preSharedKey)
      && (IsNull(json, "status") ==> c.status == Fresh.status)
      && (IsNull(json, "wepKeys") ==> c.wepKeys == Fresh.wepKeys)
      && (IsNull(json, "wepTxKeyIndex") ==> c.wepTxKeyIndex == Fresh.wepTxKeyIndex)
      && (IsNull(json, "allowedAuthAlgorithms") ==> c.allowedAuthAlgorithms == Fresh.allowedAuthAlgorithms)
      && (IsNull(json, "allowedGroupCiphers") ==> c.allowedGroupCiphers == Fresh.allowedGroupCiphers)
      && (IsNull(json, "allowedKeyManagement") ==> c.allowedKeyManagement == Fresh.allowedKeyManagement)
      && (IsNull(json, "allowedPairwiseCiphers") ==> c.allowedPairwiseCiphers == Fresh.allowedPairwiseCiphers)
      && (IsNull(json, "allowedProtocols") ==> c.allowedProtocols == Fresh.allowedProtocols)
  {
  }

  /** An empty object decodes to the fresh record. */
  lemma DecodeEmptyIsFresh()
    ensures DecodeConfig(map[]) == Ok(Fresh)
  {
    NamesAndFlagsOnFresh(map[]);
  }

  /**
   * The decoded WEP keys: exactly the record's four slots; a slot holds the
   * array's entry at that index when the entry is present and not NULL, and
   * stays null otherwise.
   */
  lemma DecodeWepKeys(json: map<string, Json>)
    requires DecodeConfig(json).Ok? && !IsNull(json, "wepKeys")
    ensures json["wepKeys"].JArray?
    ensures |DecodeConfig(json).value.wepKeys| == WEP_KEY_COUNT
    ensures forall i :: 0 <= i < WEP_KEY_COUNT && ArrayIsNull(json["wepKeys"].items, i) ==>
      DecodeConfig(json).value.wepKeys[i] == None
    ensures forall i :: 0 <= i < WEP_KEY_COUNT && !ArrayIsNull(json["wepKeys"].items, i) ==>
      AsString(json["wepKeys"].items[i]).Ok? &&
      DecodeConfig(json).value.wepKeys[i] == Some(AsString(json["wepKeys"].items[i]).value)
  {
    var a := json["wepKeys"].items;
    assert !SomeWepKeyFails(a, WEP_KEY_COUNT);
    forall i | 0 <= i < WEP_KEY_COUNT && !ArrayIsNull(a, i)
      ensures AsString(a[i]).Ok?
    {
      assert !WepKeyFails(a, i);
    }
  }

  /** Array entries past the record's slots are never read, not even for a type error. */
  lemma {:induction false} WepKeysIgnoreTail(json: map<string, Json>, a: seq<Json>, tail: seq<Json>, base: seq<Option<string>>)
    requires |base| <= |a|
    ensures WepKeysOf(json["wepKeys" := JArray(a + tail)], base) == WepKeysOf(json["wepKeys" := JArray(a)], base)
  {
    var long, short := a + tail, a;
    assert forall i :: 0 <= i < |base| ==> long[i] == short[i];
    assert SomeWepKeyFails(long, |base|) <==> SomeWepKeyFails(short, |base|) by {
      forall i | 0 <= i < |base| ensures WepKeyFails(long, i) <==> WepKeyFails(short, i) {
      }
    }
    if !SomeWepKeyFails(short, |base|) {
      assert seq(|base|, i requires 0 <= i < |base| => WepKeyAt(long, base, i))
          == seq(|base|, i requires 0 <= i < |base| => WepKeyAt(short, base, i));
    }
  }

  /** An object holding the names and the flag blocks the encoder writes for `c`. */
  predicate HasEncodedNamesAndFlags(json: map<string, Json>, c: WifiConfiguration) {
    && ("BSSID" in json <==> c.BSSID.Some?) && (c.BSSID.Some? ==> json["BSSID"] == JString(c.BSSID.value))
    && ("SSID" in json <==> c.SSID.Some?) && (c.SSID.Some? ==> json["SSID"] == JString(c.SSID.value))
    && "allowedAuthAlgorithms" in json && json["allowedAuthAlgorithms"] == AuthAlgorithmsJson(c.allowedAuthAlgorithms)
    && "allowedGroupCiphers" in json && json["allowedGroupCiphers"] == GroupCiphersJson(c.allowedGroupCiphers)
    && "allowedKeyManagement" in json && json["allowedKeyManagement"] == KeyManagementJson(c.allowedKeyManagement)
    && "allowedPairwiseCiphers" in json && json["allowedPairwiseCiphers"] == PairwiseCiphersJson(c.allowedPairwiseCiphers)
    && "allowedProtocols" in json && json["allowedProtocols"] == ProtocolsJson(c.allowedProtocols)
  }

  /** An object holding the scalar fields and key slots the encoder writes for `c`. */
  predicate HasEncodedScalars(json: map<string, Json>, c: WifiConfiguration) {
    && "hiddenSSID" in json && json["hiddenSSID"] == JBool(c.hiddenSSID)
    && "networkId" in json && json["networkId"] == JInt(c.networkId)
    && "preSharedKey" in json && json["preSharedKey"] == StringOrNull(c.preSharedKey)
    && ("status" in json <==> c.status in Codes.Statuses)
    && (c.status in Codes.Statuses ==> json["status"] == JString(Codes.ToStringWifiConfigurationStatus(c.status).value))
    && "wepKeys" in json && json["wepKeys"].JArray? && |json["wepKeys"].items| == |c.wepKeys|
    && (forall i :: 0 <= i < |c.wepKeys| ==> json["wepKeys"].items[i] == StringOrNull(c.wepKeys[i]))
    && "wepTxKeyIndex" in json && json["wepTxKeyIndex"] == JInt(c.wepTxKeyIndex)
  }

  /**
   * The encoder writes BSSID and SSID exactly when they are set, and every
   * flag block with one boolean per flag.
   */
  lemma EncodeWritesNamesAndFlags(c: WifiConfiguration)
    ensures EncodeConfig(c).JObject?
    ensures HasEncodedNamesAndFlags(EncodeConfig(c).fields, c)
  {
    var names := EncodeNamesAndFlags(c);
    assert HasEncodedNamesAndFlags(names, c);
    NamesAndFlagsSurviveScalars(names, c, WepKeysJson(c.wepKeys));
  }

  /** Writing the scalar fields leaves the names and flag blocks as they were. */
  lemma NamesAndFlagsSurviveScalars(json: map<string, Json>, c: WifiConfiguration, wepKeys: Json)
    requires HasEncodedNamesAndFlags(json, c)
    ensures HasEncodedNamesAndFlags(EncodeScalars(json, c, wepKeys), c)
  {
    assert "BSSID" !in ScalarKeys && "SSID" !in ScalarKeys;
    assert "allowedAuthAlgorithms" !in ScalarKeys && "allowedGroupCiphers" !in ScalarKeys
      && "allowedKeyManagement" !in ScalarKeys && "allowedPairwiseCiphers" !in ScalarKeys
      && "allowedProtocols" !in ScalarKeys;
  }

  /**
   * The encoder writes the scalar fields, the status only when it has a
   * name, and one array entry per WEP key slot, NULL for an empty slot.
   */
  lemma EncodeWritesScalars(c: WifiConfiguration)
    ensures EncodeConfig(c).JObject?
    ensures HasEncodedScalars(EncodeConfig(c).fields, c)
  {
  }

  lemma EncodedAuthFlagsAllSet(json: map<string, Json>, s: set<AuthAlgorithm>)
    requires "allowedAuthAlgorithms" in json && json["allowedAuthAlgorithms"] == AuthAlgorithmsJson(s)
    ensures AuthFlags(json) == Ok(AllAuthAlgorithms)
  {
    var sub := json["allowedAuthAlgorithms"].fields;
    assert (set a | a in AllAuthAlgorithms && !IsNull(sub, a.Key())) == AllAuthAlgorithms;
  }

  lemma EncodedGroupFlagsAllSet(json: map<string, Json>, s: set<GroupCipher>)
    requires "allowedGroupCiphers" in json && json["allowedGroupCiphers"] == GroupCiphersJson(s)
    ensures GroupFlags(json) == Ok(AllGroupCiphers)
  {
    var sub := json["allowedGroupCiphers"].fields;
    assert (set g | g in AllGroupCiphers && !IsNull(sub, g.Key())) == AllGroupCiphers;
  }

  lemma EncodedKeyMgmtFlagsAllSet(json: map<string, Json>, s: set<KeyMgmt>)
    requires "allowedKeyManagement" in json && json["allowedKeyManagement"] == KeyManagementJson(s)
    ensures KeyMgmtFlags(json) == Ok(AllKeyMgmts)
  {
    var sub := json["allowedKeyManagement"].fields;
    assert (set k | k in AllKeyMgmts && !IsNull(sub, k.Key())) == AllKeyMgmts;
  }

  lemma EncodedPairwiseFlagsAllSet(json: map<string, Json>, s: set<PairwiseCipher>)
    requires "allowedPairwiseCiphers" in json && json["allowedPairwiseCiphers"] == PairwiseCiphersJson(s)
    ensures PairwiseFlags(json) == Ok(AllPairwiseCiphers)
  {
    var sub := json["allowedPairwiseCiphers"].fields;
    assert (set p | p in AllPairwiseCiphers && !IsNull(sub, p.Key())) == AllPairwiseCiphers;
  }

  lemma EncodedProtocolFlagsAllSet(json: map<string, Json>, s: set<Protocol>)
    requires "allowedProtocols" in json && json["allowedProtocols"] == ProtocolsJson(s)
    ensures ProtocolFlags(json) == Ok(AllProtocols)
  {
    var sub := json["allowedProtocols"].fields;
    assert (set p | p in AllProtocols && !IsNull(sub, p.Key())) == AllProtocols;
  }

  /** An array written from four slots reads back as those four slots. */
  lemma EncodedWepKeysReadBack(json: map<string, Json>, keys: seq<Option<string>>)
    requires |keys| == WEP_KEY_COUNT
    requires "wepKeys" in json && json["wepKeys"].JArray? && |json["wepKeys"].items| == |keys|
    requires forall i :: 0 <= i < |keys| ==> json["wepKeys"].items[i] == StringOrNull(keys[i])
    ensures WepKeysOf(json, Fresh.wepKeys) == Ok(keys)
  {
    var a := json["wepKeys"].items;
    assert !SomeWepKeyFails(a, WEP_KEY_COUNT);
    assert seq(WEP_KEY_COUNT, i requires 0 <= i < WEP_KEY_COUNT => WepKeyAt(a, Fresh.wepKeys, i)) == keys;
  }

  /** The names and flag blocks written for a record read back without error. */
  lemma EncodedNamesAndFlagsRead(json: map<string, Json>, c: WifiConfiguration)
    requires HasEncodedNamesAndFlags(json, c)
    ensures !NamesOrFlagsFail(json)
    ensures WithNamesAndFlags(json, Fresh)
      == Fresh.(BSSID := if c.SSID.Some? then c.SSID else c.BSSID,
                allowedAuthAlgorithms := AllAuthAlgorithms,
                allowedGroupCiphers := AllGroupCiphers,
                allowedKeyManagement := AllKeyMgmts,
                allowedPairwiseCiphers := AllPairwiseCiphers,
                allowedProtocols := AllProtocols)
  {
    EncodedAuthFlagsAllSet(json, c.allowedAuthAlgorithms);
    EncodedGroupFlagsAllSet(json, c.allowedGroupCiphers);
    EncodedKeyMgmtFlagsAllSet(json, c.allowedKeyManagement);
    EncodedPairwiseFlagsAllSet(json, c.allowedPairwiseCiphers);
    EncodedProtocolFlagsAllSet(json, c.allowedProtocols);
    assert OptString(json, "BSSID") == Ok(c.BSSID);
    assert OptString(json, "SSID") == Ok(c.SSID);
    NamesAndFlagsOnFresh(json);
  }

  /** The scalar fields and key slots written for a well-formed record read back as written. */
  lemma EncodedScalarsRead(json: map<string, Json>, c: WifiConfiguration, base: WifiConfiguration)
    requires HasEncodedScalars(json, c)
    requires WellFormed(c) && base.wepKeys == Fresh.wepKeys && base.preSharedKey == Fresh.preSharedKey
    ensures !ScalarsFail(json, base.wepKeys)
    ensures WithScalars(json, base)
      == base.(hiddenSSID := c.hiddenSSID,
               networkId := c.networkId,
               preSharedKey := c.preSharedKey,
               status := if c.status in Codes.Statuses then c.status else base.status,
               wepKeys := c.wepKeys,
               wepTxKeyIndex := c.wepTxKeyIndex)
  {
    EncodedWepKeysReadBack(json, c.wepKeys);
    if c.status in Codes.Statuses {
      Codes.StatusRoundTrip(c.status);
    }
    assert OptBool(json, "hiddenSSID") == Ok(Some(c.hiddenSSID));
    assert OptInt(json, "networkId") == Ok(Some(c.networkId));
    if c.preSharedKey.Some? {
      assert json["preSharedKey"] == JString(c.preSharedKey.value);
    } else {
      assert IsNull(json, "preSharedKey");
    }
    assert OptString(json, "preSharedKey") == Ok(c.preSharedKey);
    assert OptInt(json, "wepTxKeyIndex") == Ok(Some(c.wepTxKeyIndex));
    assert OptString(json, "status") == Ok(Codes.ToStringWifiConfigurationStatus(c.status));
  }

  /**
   * Encoding a well-formed record and decoding the object again gives the
   * record back, except for what the two directions do differently: the
   * SSID comes back in BSSID (the BSSID is kept only when there is no SSID),
   * every flag is set because the encoder writes every flag's key, and a
   * status with no name is written as nothing and so reads back as CURRENT.
   */
  lemma {:induction false} DecodeEncode(c: WifiConfiguration)
    requires WellFormed(c)
    ensures EncodeConfig(c).JObject?
    ensures var r := DecodeConfig(EncodeConfig(c).fields);
      && r.Ok?
      && r.value.BSSID == (if c.SSID.Some? then c.SSID else c.BSSID)
      && r.value.SSID == None
      && r.value.allowedAuthAlgorithms == AllAuthAlgorithms
      && r.value.allowedGroupCiphers == AllGroupCiphers
      && r.value.allowedKeyManagement == AllKeyMgmts
      && r.value.allowedPairwiseCiphers == AllPairwiseCiphers
      && r.value.allowedProtocols == AllProtocols
      && r.value.hiddenSSID == c.hiddenSSID
      && r.value.networkId == c.networkId
      && r.value.preSharedKey == c.preSharedKey
      && r.value.status == (if c.status in Codes.Statuses then c.status else Fresh.status)
      && r.value.wepKeys == c.wepKeys
      && r.value.wepTxKeyIndex == c.wepTxKeyIndex
  {
    EncodeWritesNamesAndFlags(c);
    EncodeWritesScalars(c);
    DecodeEncodedObject(EncodeConfig(c).fields, c);
  }

  /** Decoding any object that holds what the encoder writes for a well-formed record. */
  lemma DecodeEncodedObject(json: map<string, Json>, c: WifiConfiguration)
    requires WellFormed(c) && HasEncodedNamesAndFlags(json, c) && HasEncodedScalars(json, c)
    ensures DecodeConfig(json) == Ok(Fresh.(
      BSSID := if c.SSID.Some? then c.SSID else c.BSSID,
      allowedAuthAlgorithms := AllAuthAlgorithms,
      allowedGroupCiphers := AllGroupCiphers,
      allowedKeyManagement := AllKeyMgmts,
      allowedPairwiseCiphers := AllPairwiseCiphers,
      allowedProtocols := AllProtocols,
      hiddenSSID := c.hiddenSSID,
      networkId := c.networkId,
      preSharedKey := c.preSharedKey,
      status := if c.status in Codes.Statuses then c.status else Fresh.status,
      wepKeys := c.wepKeys,
      wepTxKeyIndex := c.wepTxKeyIndex))
  {
    EncodedNamesAndFlagsRead(json, c);
    EncodedScalarsRead(json, c, WithNamesAndFlags(json, Fresh));
  }
}
