# Android Wi-Fi manager plugin: a Dafny model

This project models the core of a Cordova plugin that exposes Android's
`WifiManager` to JavaScript (`WifiManagerPlugin.java`). It covers four parts:

- **Command dispatch.** `execute` maps an action name to one of eleven
  commands and returns false for any other name. A command that answers
  at once sends its callback one result whose message is `{"data": value}`.
  Two commands do not: `onChange` sends nothing when it registers, and its
  callback later receives `{event, data}` objects from the broadcast
  receiver; `getScanResults` without permission is answered later, from
  `onRequestPermissionResult`.
- **The scan-results waiter queue.** `getScanResults` without location
  permission puts the caller in a queue. The first caller to join an empty
  queue triggers the one permission request. `onRequestPermissionResult`
  answers every waiting caller with the same result, in queue order, and
  empties the queue.
- **The broadcast receiver.** It turns each Wi-Fi broadcast into an
  `{event, data}` object and sends it to the single `onChange` listener. The
  listener's callback is kept open.
- **The saved-network codec.** This is the JSON decoder and encoder of
  `WifiConfiguration`, plus the name mappings for the Android codes.

Modules:

| file | module | contents |
|---|---|---|
| `wrappers.dfy` | `Wrappers` | `Option` (a Java null) and `Result` (a thrown exception) |
| `json.dfy` | `Json` | org.json values and the accessors the plugin uses |
| `codes.dfy` | `Codes` | Android constants and their name mappings |
| `plugin_result.dfy` | `PluginResults` | results, deliveries, the `{"data": …}` envelope |
| `wifi_config.dfy` | `WifiConfig` | the `WifiConfiguration` record, encoder, decoder |
| `broadcast.dfy` | `Broadcast` | intents and the receiver's events |
| `plugin.dfy` | `Plugin` | dispatch, plugin state and step functions, the class `WifiManagerPlugin` |

Each plugin operation is specified by a step function on `PluginState`.
`PluginState` holds:

- the waiting callbacks
- the listener
- the permission requests made so far
- whether the last scan-results request still awaits its answer
- every result sent so far

The class `WifiManagerPlugin` keeps the same five things in fields; the
outstanding-request flag is a ghost field, because the host holds that fact,
not the plugin. Each of
its methods is proved to perform exactly its step, so the lemmas about the
steps hold for the class.

Java `synchronized` blocks are modelled as atomic: a method runs to
completion before the next one starts.

The WifiManager and the permission checks are inputs. For a command, they
come in a `Platform` record. For the permission answer and the broadcasts,
they are parameters.

Some behaviour of the receiver is easy to miss when reading the code:

- **A broadcast with an unrecognised action is still delivered.** The
  listener gets OK `{"data": {}}`: putting the null event name removes the
  `event` key.
- **Some event keys are left out, not null.** This happens when the value is
  a Java null: a missing network info, a missing supplicant state, or a wifi
  state code without a name.
- **A serialisation failure gives two deliveries.** The listener first gets a
  JSON_EXCEPTION result, then an OK result with an empty object.
- **A missing wifi state reads as 0.** That is the code of DISABLING, so the
  event reports `"DISABLING"`.

## Model

| member | source | states |
|---|---|---|
| Codes.ToStringWifiState | src/dk/kapetanovic/wifimanager/WifiManagerPlugin.java:471-480 | a name exactly for the five adapter states, null for every other code |
| Codes.ToStringWifiConfigurationStatus | src/dk/kapetanovic/wifimanager/WifiManagerPlugin.java:482-489 | a name exactly for CURRENT, DISABLED and ENABLED, null otherwise |
| Codes.ToStringNetworkType | src/dk/kapetanovic/wifimanager/WifiManagerPlugin.java:491-500 | a name exactly for the five network types, null otherwise |
| Codes.ToStringChannelWidth | src/dk/kapetanovic/wifimanager/WifiManagerPlugin.java:502-511 | a name exactly for the five channel widths, null otherwise |
| Codes.FromStringWifiConfigurationStatus | src/dk/kapetanovic/wifimanager/WifiManagerPlugin.java:513-518 | -1 exactly for strings that are not a status name, otherwise a valid status |
| Codes.StatusRoundTrip | src/dk/kapetanovic/wifimanager/WifiManagerPlugin.java:482-518 | naming a valid status and parsing the name gives the status back |
| Codes.StatusNameRoundTrip | src/dk/kapetanovic/wifimanager/WifiManagerPlugin.java:482-518 | parsing a known status name and naming the result gives the name back |
| Codes.WifiStateNamesInjective | src/dk/kapetanovic/wifimanager/WifiManagerPlugin.java:471-480 | two adapter states with the same name are the same state |
| PluginResults.CreatePluginResult | src/dk/kapetanovic/wifimanager/WifiManagerPlugin.java:520-533 | the message is an object whose only key is `data`; it holds the value, or NULL for a Java null; the status is as given; the callback is not kept |
| Json.AsString | src/dk/kapetanovic/wifimanager/WifiManagerPlugin.java:376-377 | getString fails exactly on a nested object or array; a string comes back unchanged |
| Json.AsObject | src/dk/kapetanovic/wifimanager/WifiManagerPlugin.java:394 | getJSONObject succeeds exactly on an object and gives its fields unchanged |
| Json.AsArray | src/dk/kapetanovic/wifimanager/WifiManagerPlugin.java:459 | getJSONArray succeeds exactly on an array and gives its items unchanged |
| Json.NatToString | src/dk/kapetanovic/wifimanager/WifiManagerPlugin.java:376 | the decimal text of a number: non-empty, digits only, one digit exactly below ten, and its digits read back as the number |
| Json.AsBool | src/dk/kapetanovic/wifimanager/WifiManagerPlugin.java:452 | getBoolean gives a boolean back unchanged; a string gives true or false exactly when it equals "true" or "false" ignoring case, and any other string or value fails |
| Json.AsInt | src/dk/kapetanovic/wifimanager/WifiManagerPlugin.java:453 | getInt succeeds exactly on a number; the result is a 32-bit int, equal to the number when it fits, congruent to it modulo 2^32 within the 64-bit range, and saturated at INT_MAX or INT_MIN beyond it |
| Json.ToInt32 | src/dk/kapetanovic/wifimanager/WifiManagerPlugin.java:453 | narrowing a Long to a Java int: the result is in range, congruent modulo 2^32, unchanged when in range |
| Json.Put | src/dk/kapetanovic/wifimanager/WifiManagerPlugin.java:227-228 | JSONObject.put stores a non-null value under the key; a null value leaves the key absent; other keys are untouched |
| WifiConfig.OptString | src/dk/kapetanovic/wifimanager/WifiManagerPlugin.java:376 | a missing or NULL key reads as nothing; otherwise the read fails exactly when getString fails |
| WifiConfig.OptBool | src/dk/kapetanovic/wifimanager/WifiManagerPlugin.java:452 | a missing or NULL key reads as nothing; otherwise the read fails exactly when getBoolean fails |
| WifiConfig.OptInt | src/dk/kapetanovic/wifimanager/WifiManagerPlugin.java:453 | a missing or NULL key reads as nothing; otherwise the read fails exactly when getInt fails and gives getInt's value |
| WifiConfig.AuthFlags | src/dk/kapetanovic/wifimanager/WifiManagerPlugin.java:379-391 | a missing or NULL block gives no flags; the read fails exactly when the block is present, non-NULL and not an object; otherwise a flag is set iff its key is present and non-NULL |
| WifiConfig.GroupFlags | src/dk/kapetanovic/wifimanager/WifiManagerPlugin.java:393-408 | the same for the group-cipher block |
| WifiConfig.KeyMgmtFlags | src/dk/kapetanovic/wifimanager/WifiManagerPlugin.java:410-425 | the same for the key-management block |
| WifiConfig.PairwiseFlags | src/dk/kapetanovic/wifimanager/WifiManagerPlugin.java:427-439 | the same for the pairwise-cipher block |
| WifiConfig.ProtocolFlags | src/dk/kapetanovic/wifimanager/WifiManagerPlugin.java:441-450 | the same for the protocol block |
| WifiConfig.DecodeConfig | src/dk/kapetanovic/wifimanager/WifiManagerPlugin.java:373-469 | decoding fails exactly when a name, flag block, scalar or WEP key read fails; a decoded record is well formed and its SSID is null |
| WifiConfig.NamesAndFlagsOnFresh | src/dk/kapetanovic/wifimanager/WifiManagerPlugin.java:374-450 | on a fresh record the name and flag reads change only BSSID and set each flag group to exactly the flags read |
| WifiConfig.WepKeysOf | src/dk/kapetanovic/wifimanager/WifiManagerPlugin.java:458-465 | the decoded key slots have exactly the record's length |
| WifiConfig.ReadAuthAlgorithms | src/dk/kapetanovic/wifimanager/WifiManagerPlugin.java:379-391 | the flags read are exactly the declarative auth-algorithm flags |
| WifiConfig.ReadGroupCiphers | src/dk/kapetanovic/wifimanager/WifiManagerPlugin.java:393-408 | the flags read are exactly the declarative group-cipher flags |
| WifiConfig.ReadKeyManagement | src/dk/kapetanovic/wifimanager/WifiManagerPlugin.java:410-425 | the flags read are exactly the declarative key-management flags |
| WifiConfig.ReadPairwiseCiphers | src/dk/kapetanovic/wifimanager/WifiManagerPlugin.java:427-439 | the flags read are exactly the declarative pairwise-cipher flags |
| WifiConfig.ReadProtocols | src/dk/kapetanovic/wifimanager/WifiManagerPlugin.java:441-450 | the flags read are exactly the declarative protocol flags |
| WifiConfig.ReadWepKeys | src/dk/kapetanovic/wifimanager/WifiManagerPlugin.java:458-465 | the WEP key loop gives exactly the slot-by-slot definition; it throws when any slot below the record's length holds a nested object or array |
| WifiConfig.ReadNamesAndFlags | src/dk/kapetanovic/wifimanager/WifiManagerPlugin.java:373-450 | the name and flag reads throw exactly when one of them fails, and otherwise produce the declarative record, each flag group the union of the record's flags and the flags read |
| WifiConfig.ReadScalars | src/dk/kapetanovic/wifimanager/WifiManagerPlugin.java:452-467 | the scalar and WEP key reads throw exactly when one of them fails, and otherwise produce the declarative record |
| WifiConfig.FromJsonWifiConfiguration | src/dk/kapetanovic/wifimanager/WifiManagerPlugin.java:373-469 | the decoder equals the declarative decoding `DecodeConfig`, error cases included |
| WifiConfig.DecodeStoresSsidInBssid | src/dk/kapetanovic/wifimanager/WifiManagerPlugin.java:376-377 | the decoded SSID is always null; BSSID holds the SSID when one is given, else the BSSID, else null |
| WifiConfig.DecodeFlagsFollowKeyPresence | src/dk/kapetanovic/wifimanager/WifiManagerPlugin.java:379-450 | for all five groups, a flag is set iff its block and its key are present and non-NULL; the key's value is never read |
| WifiConfig.DecodeSetsFlagWrittenFalse | src/dk/kapetanovic/wifimanager/WifiManagerPlugin.java:410-417 | `{"allowedKeyManagement": {"NONE": false}}` decodes with the NONE flag set |
| WifiConfig.DecodeNullKeysKeepDefaults | src/dk/kapetanovic/wifimanager/WifiManagerPlugin.java:374-467 | every missing or NULL key, the five flag blocks included, leaves its field at the fresh record's default (BSSID only when SSID is null too) |
| WifiConfig.DecodeEmptyIsFresh | src/dk/kapetanovic/wifimanager/WifiManagerPlugin.java:373-469 | an empty object decodes to a fresh record |
| WifiConfig.DecodeWepKeys | src/dk/kapetanovic/wifimanager/WifiManagerPlugin.java:458-465 | the decoded record has four key slots; each holds the array's string at that index, or null where the entry is absent or NULL |
| WifiConfig.WepKeysIgnoreTail | src/dk/kapetanovic/wifimanager/WifiManagerPlugin.java:461-463 | array entries past the record's slots are never read, even when they are not strings |
| WifiConfig.EncodeConfig | src/dk/kapetanovic/wifimanager/WifiManagerPlugin.java:223-290 | the encoder gives an object whose keys are among the names, the five flag blocks and the scalar keys |
| WifiConfig.EncodeWritesNamesAndFlags | src/dk/kapetanovic/wifimanager/WifiManagerPlugin.java:223-273 | the encoder writes BSSID and SSID exactly when they are set, and all five flag blocks, one boolean per flag, each true iff the flag is set |
| WifiConfig.EncodeWritesScalars | src/dk/kapetanovic/wifimanager/WifiManagerPlugin.java:275-287 | the encoder writes the scalar fields, preSharedKey as NULL when unset, status only when it has a name, and one array entry per key slot (NULL for an empty slot) |
| WifiConfig.WepKeysJson | src/dk/kapetanovic/wifimanager/WifiManagerPlugin.java:281-286 | one array entry per key slot: NULL exactly for an empty slot, the key's string otherwise |
| WifiConfig.EncodeWepKeys | src/dk/kapetanovic/wifimanager/WifiManagerPlugin.java:281-284 | the encoder's loop builds exactly that array |
| WifiConfig.ToJsonWifiConfiguration | src/dk/kapetanovic/wifimanager/WifiManagerPlugin.java:223-290 | the encoder, with its loop over the key slots, builds exactly the object `EncodeConfig` describes |
| WifiConfig.EncodeScalars | src/dk/kapetanovic/wifimanager/WifiManagerPlugin.java:275-287 | writing the scalar fields leaves every other key of the object as it was |
| WifiConfig.NamesAndFlagsSurviveScalars | src/dk/kapetanovic/wifimanager/WifiManagerPlugin.java:226-287 | the names and flag blocks written first are still in the object after the scalar fields are written |
| WifiConfig.EncodedAuthFlagsAllSet | src/dk/kapetanovic/wifimanager/WifiManagerPlugin.java:230-237 | an encoded auth block decodes to every flag, whatever the booleans say |
| WifiConfig.EncodedGroupFlagsAllSet | src/dk/kapetanovic/wifimanager/WifiManagerPlugin.java:239-248 | an encoded group-cipher block decodes to every flag |
| WifiConfig.EncodedKeyMgmtFlagsAllSet | src/dk/kapetanovic/wifimanager/WifiManagerPlugin.java:250-259 | an encoded key-management block decodes to every flag |
| WifiConfig.EncodedPairwiseFlagsAllSet | src/dk/kapetanovic/wifimanager/WifiManagerPlugin.java:261-268 | an encoded pairwise-cipher block decodes to every flag |
| WifiConfig.EncodedProtocolFlagsAllSet | src/dk/kapetanovic/wifimanager/WifiManagerPlugin.java:270-273 | an encoded protocol block decodes to every flag |
| WifiConfig.EncodedWepKeysReadBack | src/dk/kapetanovic/wifimanager/WifiManagerPlugin.java:281-286 | an array written from four key slots reads back as the same four slots |
| WifiConfig.EncodedNamesAndFlagsRead | src/dk/kapetanovic/wifimanager/WifiManagerPlugin.java:223-273 | any object holding the names and flag blocks written for a record decodes them without error: SSID (or else BSSID) lands in BSSID and every flag is set |
| WifiConfig.EncodedScalarsRead | src/dk/kapetanovic/wifimanager/WifiManagerPlugin.java:275-287 | any object holding the scalar fields and key slots written for a well-formed record decodes them back unchanged; an unnamed status keeps the default |
| WifiConfig.DecodeEncode | src/dk/kapetanovic/wifimanager/WifiManagerPlugin.java:223-469 | decoding an encoded well-formed record succeeds and returns it field by field, except three fields: BSSID (from SSID), SSID (null) and the flags (all set); an unnamed status becomes CURRENT |
| WifiConfig.DecodeEncodedObject | src/dk/kapetanovic/wifimanager/WifiManagerPlugin.java:373-469 | any object holding everything the encoder writes for a well-formed record decodes to the record the round trip describes |
| Broadcast.EventName | src/dk/kapetanovic/wifimanager/WifiManagerPlugin.java:551-597 | each recognised action has a name from the seven event names; any other action has none |
| Broadcast.SupplicantErrorName | src/dk/kapetanovic/wifimanager/WifiManagerPlugin.java:581-588 | NULL iff the extra is absent, "ERROR_AUTHENTICATING" iff it equals ERROR_AUTHENTICATING, "ERROR_UNKNOWN" for any other code |
| Broadcast.EventData | src/dk/kapetanovic/wifimanager/WifiManagerPlugin.java:549-600 | only a network state change can fail, and only through a serialiser |
| Broadcast.EventObject | src/dk/kapetanovic/wifimanager/WifiManagerPlugin.java:599-600 | a serialiser failure leaves the object empty; otherwise it holds `data` with the event data, and `event` with the event name exactly for a recognised action, and no other key |
| Broadcast.Deliveries | src/dk/kapetanovic/wifimanager/WifiManagerPlugin.java:542-610 | no listener means nothing is sent; otherwise one or two results go to the listener, all keeping the callback; the last is OK with the event object; after a serialiser failure the first is JSON_EXCEPTION with its message |
| Broadcast.WifiStateEventNamesBothStates | src/dk/kapetanovic/wifimanager/WifiManagerPlugin.java:589-596 | both wifi state extras are mapped through the state names; an unnamed code leaves its key out; a missing extra reports DISABLING |
| Broadcast.WifiEnabledEvent | src/dk/kapetanovic/wifimanager/WifiManagerPlugin.java:589-596 | ENABLED with previous state DISABLED yields exactly `{wifiState: "ENABLED", previousWifiState: "DISABLED"}` |
| Broadcast.NetworkStateEventFields | src/dk/kapetanovic/wifimanager/WifiManagerPlugin.java:553-562 | a missing network info leaves its key out; a missing BSSID or wifi info is written as NULL |
| Broadcast.SimpleEventFields | src/dk/kapetanovic/wifimanager/WifiManagerPlugin.java:551-588 | the other events carry their fixed keys, with 0 or false for a missing extra; the supplicant state change carries the new state's name when present and the error name, and no other key |
| Broadcast.RecognisedEventDelivered | src/dk/kapetanovic/wifimanager/WifiManagerPlugin.java:599-609 | a recognised event reaches the listener as one OK result `{event, data}` that keeps the callback |
| Broadcast.UnknownActionStillDelivered | src/dk/kapetanovic/wifimanager/WifiManagerPlugin.java:599-609 | an unrecognised action reaches the listener as OK `{"data": {}}` |
| Broadcast.SerialiserFailureDeliveredTwice | src/dk/kapetanovic/wifimanager/WifiManagerPlugin.java:560-609 | a throwing serialiser gives JSON_EXCEPTION with its message, then OK with an empty object |
| Broadcast.WifiInfoFailureDeliveredTwice | src/dk/kapetanovic/wifimanager/WifiManagerPlugin.java:553-609 | when only the WifiInfo serialiser throws, the listener gets JSON_EXCEPTION with its message and then OK with an empty object, both keeping the callback |
| Plugin.Dispatch | src/dk/kapetanovic/wifimanager/WifiManagerPlugin.java:119-134 | no command exactly for names outside the eleven action names; a selected command carries the given name |
| Plugin.DispatchActionName | src/dk/kapetanovic/wifimanager/WifiManagerPlugin.java:119-134 | every command is selected by its own action name |
| Plugin.ConfiguredNetworksJson | src/dk/kapetanovic/wifimanager/WifiManagerPlugin.java:143-152 | one encoded record per configured network, in order |
| Plugin.CommandReply | src/dk/kapetanovic/wifimanager/WifiManagerPlugin.java:136-217 | only addNetwork and setWifiEnabled throw a JSONException; getConfiguredNetworks throws a NullPointerException exactly when the list is null; every answer is OK and does not keep the callback |
| Plugin.AddNetworkReply | src/dk/kapetanovic/wifimanager/WifiManagerPlugin.java:136-141 | addNetwork succeeds iff the first argument is an object that decodes, and answers with the id the WifiManager gives the decoded record |
| Plugin.ConfiguredNetworksReply | src/dk/kapetanovic/wifimanager/WifiManagerPlugin.java:143-152 | getConfiguredNetworks answers with one encoded record per network, in order, and throws a NullPointerException on a null list |
| Plugin.GetWifiStateReply | src/dk/kapetanovic/wifimanager/WifiManagerPlugin.java:193-196 | getWifiState answers with the state's name, or NULL for an unnamed code |
| Plugin.Join | src/dk/kapetanovic/wifimanager/WifiManagerPlugin.java:107 | joining nothing gives the empty string; joining one string gives that string |
| Plugin.JoinAppend | src/dk/kapetanovic/wifimanager/WifiManagerPlugin.java:107 | joining one more string appends the separator and the string |
| Plugin.PermissionReply | src/dk/kapetanovic/wifimanager/WifiManagerPlugin.java:100-111 | all granted gives OK with the scan results; otherwise ERROR `{"data": "Permission denied " + the permissions joined with ", "}`, not kept |
| Plugin.Fanout | src/dk/kapetanovic/wifimanager/WifiManagerPlugin.java:100-111 | one delivery per callback, in order, all with the same result |
| Plugin.GetScanResultsStep | src/dk/kapetanovic/wifimanager/WifiManagerPlugin.java:166-191 | with permission at either check, the caller is answered at once and nothing else changes; otherwise it joins the queue, a request is made iff the queue was empty, and only that makes a request outstanding |
| Plugin.PermissionResultStep | src/dk/kapetanovic/wifimanager/WifiManagerPlugin.java:91-116 | for the scan-results request code, every waiter gets exactly one result, in queue order, all the same, the queue empties and no request is outstanding; any other code changes nothing |
| Plugin.OnChangeStep | src/dk/kapetanovic/wifimanager/WifiManagerPlugin.java:219-221 | the listener is replaced; the queue, requests, outstanding request and sent results are unchanged |
| Plugin.ReceiveStep | src/dk/kapetanovic/wifimanager/WifiManagerPlugin.java:542-610 | without a listener nothing changes; otherwise the results appended are exactly what the receiver delivers for the broadcast (`Broadcast.Deliveries`), and nothing else changes |
| Plugin.ExecuteStep | src/dk/kapetanovic/wifimanager/WifiManagerPlugin.java:119-221 | false exactly for unknown names; false or a throw changes nothing; a NullPointerException exactly for getConfiguredNetworks on a null list; every new result goes to the command's callback; only onChange sets the listener, and it sends nothing; getScanResults never throws and does exactly `GetScanResultsStep`; any command but getScanResults leaves the queue, the requests and the outstanding request alone, and one other than onChange either throws the error `CommandReply` gives or sends exactly its reply |
| Plugin.EnqueuePromptsOnce | src/dk/kapetanovic/wifimanager/WifiManagerPlugin.java:166-185 | any run of callers without permission queues in arrival order and makes one request, only if the queue was empty before, which leaves a request outstanding |
| Plugin.WaveAnsweredInOrder | src/dk/kapetanovic/wifimanager/WifiManagerPlugin.java:91-116 | a run of waiting callers and then the answer: one request, each caller gets the same result once, in arrival order, and nothing is left waiting or outstanding |
| Plugin.NextWavePromptsAgain | src/dk/kapetanovic/wifimanager/WifiManagerPlugin.java:166-182 | after the queue is answered, the next caller without permission triggers a new request |
| Plugin.DeniedReplyNamesPermissions | src/dk/kapetanovic/wifimanager/WifiManagerPlugin.java:106-110 | any denied grant result gives ERROR with "Permission denied " followed by the permissions joined with ", " |
| Plugin.EmptyGrantResultsGrant | src/dk/kapetanovic/wifimanager/WifiManagerPlugin.java:93-97 | an empty grant-result array counts as granted |
| Plugin.OnlyNewestListenerHears | src/dk/kapetanovic/wifimanager/WifiManagerPlugin.java:219-221 | after two registrations, a broadcast reaches only the second listener, which receives the OK event object last, with the callback kept |
| Plugin.StepsPreserveValidState | src/dk/kapetanovic/wifimanager/WifiManagerPlugin.java:91-221 | every operation keeps callers waiting exactly while a scan-results request the plugin made is unanswered |
| Plugin.GetScanResultsPreservesValidState | src/dk/kapetanovic/wifimanager/WifiManagerPlugin.java:166-185 | a caller queues only behind a request it makes or one already outstanding |
| Plugin.PermissionResultPreservesValidState | src/dk/kapetanovic/wifimanager/WifiManagerPlugin.java:91-116 | answering the request leaves no caller waiting and no request outstanding |
| Plugin.ListenerStepsPreserveValidState | src/dk/kapetanovic/wifimanager/WifiManagerPlugin.java:219-221 | registering a listener and delivering a broadcast keep the queue in step with the outstanding request |
| Plugin.ExecutePreservesValidState | src/dk/kapetanovic/wifimanager/WifiManagerPlugin.java:119-134 | every command keeps callers waiting exactly while a request is outstanding: only getScanResults touches the queue |
| Plugin.InitialValid | src/dk/kapetanovic/wifimanager/WifiManagerPlugin.java:55-65 | the initial state has no waiters, no listener and no results, and is valid |
| Plugin.HasPermission | src/dk/kapetanovic/wifimanager/WifiManagerPlugin.java:93-97 | the `&&` fold over the grant results is true iff every result is PERMISSION_GRANTED |
| Plugin.EncodeConfiguredNetworks | src/dk/kapetanovic/wifimanager/WifiManagerPlugin.java:143-152 | the loop builds exactly one encoded record per configured network |
| Plugin.WifiManagerPlugin.constructor | src/dk/kapetanovic/wifimanager/WifiManagerPlugin.java:55-65 | starts with the initial state |
| Plugin.WifiManagerPlugin.GetScanResults | src/dk/kapetanovic/wifimanager/WifiManagerPlugin.java:166-185 | performs exactly `GetScanResultsStep` |
| Plugin.WifiManagerPlugin.OnRequestPermissionResult | src/dk/kapetanovic/wifimanager/WifiManagerPlugin.java:91-116 | the drain loop performs exactly `PermissionResultStep` |
| Plugin.WifiManagerPlugin.OnChange | src/dk/kapetanovic/wifimanager/WifiManagerPlugin.java:219-221 | performs exactly `OnChangeStep` |
| Plugin.WifiManagerPlugin.OnReceive | src/dk/kapetanovic/wifimanager/WifiManagerPlugin.java:542-610 | performs exactly `ReceiveStep` |
| Plugin.WifiManagerPlugin.Execute | src/dk/kapetanovic/wifimanager/WifiManagerPlugin.java:119-217 | dispatches and answers exactly as `ExecuteStep`, using the decoder method for addNetwork and the encoding loop for getConfiguredNetworks |

## Left out

- The WifiManager itself: scan results, connection and DHCP info, configured networks, adapter state, addNetwork, setWifiEnabled and startScan. Their answers are inputs.
- The serialisers for WifiInfo, DhcpInfo, ScanResult, NetworkInfo and the scan-result list (lines 292-371). Their output is an input. A serialiser that throws is an input carrying the exception's message.
- The null guard of `toJSON(WifiConfiguration)`. A null entry inside the configured-network list is not modelled; every entry is a record. A null list is modelled.
- Cordova plumbing. `hasLocationPermission` is two boolean inputs, one per check. `requestPermission` is appended to a request log. `sendPluginResult` is appended to a delivery log.
- The handling of an exception thrown out of `execute`. The host turns a JSONException into a JSON_EXCEPTION result and fails the call on a NullPointerException; the model stops at the `Threw` outcome, which names the exception.
- Locking. Each synchronized block is one atomic step; interleavings inside a step are not modelled.
- `initialize` obtaining the WifiManager, and `onResume`/`onPause` registering and unregistering the receiver.
- Json.AsString: a nested object or array read with getString is treated as an error, while org.json returns its JSON text. Objects here are maps without key order, so that text cannot be written down. The object addNetwork decodes comes from the JavaScript caller, so such a value can reach the decoder, where the model throws and the source reads the text. An integral number beyond the 64-bit range, which org.json holds as a Double, reads here as its decimal digits, while getString gives the Double's text (such as `9.223372036854776E18`). The model has no floating-point numbers, so that text is not produced.
- Json.AsInt: getInt of a numeric string is treated as an error, while org.json parses it as a double and truncates it. JSON numbers are integers here: a number with a fraction or an exponent, which org.json holds as a Double and getInt truncates toward zero, cannot be written.
- Json.AsBool: the case-insensitive comparison folds ASCII letters only.
- Exception messages of JSONException are not modelled; every decoding error is the same `JsonException`.
- The exact Android intent action strings and extra names. Actions are a datatype, and extras are named fields of the intent.
- WifiConfig.EncodeConfig: its own postcondition only bounds the keys written. What it writes is stated by `EncodeWritesNamesAndFlags`, `EncodeWritesScalars` and the round trip `DecodeEncode`.
