/** What the plugin hands to a Cordova callback: a status, a JSON message and the keep-callback flag. */
module PluginResults {
  import opened Wrappers
  import opened Json

  /** PluginResult.Status values the plugin uses. */
  datatype Status = OkStatus | ErrorStatus | JsonExceptionStatus

  datatype PluginResult = PluginResult(status: Status, message: Json, keepCallback: bool)

  /** Identity of a CallbackContext handed in by the JavaScript side. */
  type CallbackId = nat

  /** One sendPluginResult call: which callback received which result. */
  datatype Delivery = Delivery(callback: CallbackId, result: PluginResult)

  /**
   * The envelope every command answer travels in: an object whose only key
   * is "data", holding the value or NULL when the value is a Java null.
   */
  function CreatePluginResult(obj: Option<Json>, status: Status): (r: PluginResult)
    ensures r.status == status && !r.keepCallback
    ensures r.message.JObject? && r.message.fields.Keys == {"data"}
    ensures obj.Some? ==> r.message.fields["data"] == obj.value
    ensures obj.None? ==> r.message.fields["data"] == JNull
  {
    PluginResult(status, JObject(map["data" := if obj.Some? then obj.value else JNull]), false)
  }

  function OK(obj: Option<Json>): PluginResult {
    CreatePluginResult(obj, OkStatus)
  }

  function ERROR(obj: Option<Json>): PluginResult {
    CreatePluginResult(obj, ErrorStatus)
  }
}
