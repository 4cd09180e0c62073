/**
 * The audit trail (backend/audit/signals.py): every save and delete of a
 * property or of a property image appends one row to the audit log, with
 * the request that caused it when one is stored for the current thread.
 * The thread-local lookup is the parameter `lookup`: the request it finds,
 * `None`, or the exception it raised.
 */
module AuditSignals {
  import opened Wrappers
  import opened Accounts
  import opened Text

  const MessageLimit := 255

  /** The request as the log reads it; `remoteAddr` is `META.get("REMOTE_ADDR")`. */
  datatype Request = Request(user: Option<User>, remoteAddr: Option<string>, verb: string, path: string)

  /** The saved or deleted instance: `_meta.app_label`, `_meta.model_name` (the lower-cased class name) and `pk`. */
  datatype Instance = Instance(appLabel: string, modelName: string, pk: int)

  /** One `AuditLog` row; the creation time is left to the database. */
  datatype Row = Row(
    action: string, model: string, objectId: string, user: Option<User>,
    ip: Option<string>, verb: string, path: string, message: string)

  /** `_get_request()`: a failed lookup counts as no request. */
  function GetRequest(lookup: Result<Option<Request>, string>): (r: Option<Request>)
    ensures lookup.Err? ==> r.None?
    ensures lookup.Ok? ==> r == lookup.value
  {
    if lookup.Err? then None else lookup.value
  }

  /** `message[:255]`. */
  function Truncated(message: string): (r: string)
    ensures |r| <= MessageLimit && StartsWith(message, r)
    ensures |message| <= MessageLimit ==> r == message
    ensures |message| > MessageLimit ==> |r| == MessageLimit
  {
    if |message| <= MessageLimit then message else message[..MessageLimit]
  }

  /** The row `_write_log` creates. */
  function Record(action: string, instance: Instance, message: string, req: Option<Request>): Row {
    Row(
      action,
      instance.appLabel + "." + instance.modelName,
      IntToString(instance.pk),
      if req.Some? && req.value.user.Some? && req.value.user.value.isAuthenticated then req.value.user else None,
      if req.Some? then req.value.remoteAddr else None,
      if req.Some? then req.value.verb else "",
      if req.Some? then req.value.path else "",
      Truncated(message))
  }

  /**
   * What a row records: the action, the label `app_label.model_name`, the
   * key in decimal (read back to the key), a user only when an
   * authenticated one made the request, and a message of at most 255
   * characters that starts the given one.
   */
  lemma RecordSpec(action: string, instance: Instance, message: string, req: Option<Request>)
    requires instance.pk >= 0
    ensures var r := Record(action, instance, message, req);
      && r.action == action
      && r.model == instance.appLabel + "." + instance.modelName
      && AllDigits(r.objectId) && DecimalValue(r.objectId) == instance.pk
      && (r.user.Some? <==> req.Some? && req.value.user.Some? && req.value.user.value.isAuthenticated)
      && (r.user.Some? ==> r.user == req.value.user)
      && (req.Some? ==> r.ip == req.value.remoteAddr && r.verb == req.value.verb && r.path == req.value.path)
      && |r.message| <= MessageLimit && StartsWith(message, r.message)
      && (|message| <= MessageLimit ==> r.message == message)
  {
    NatToStringRoundTrip(instance.pk);
  }

  /** Without a request — none stored, or the lookup failed — the row has no user, no address and empty method (`verb`) and path. */
  lemma NoRequestRow(action: string, instance: Instance, message: string, lookup: Result<Option<Request>, string>)
    requires lookup.Err? || lookup == Ok(None)
    ensures var r := Record(action, instance, message, GetRequest(lookup));
      r.user.None? && r.ip.None? && r.verb == "" && r.path == ""
  {
  }

  /** An anonymous visitor is never recorded as the user. */
  lemma AnonymousNotRecorded(action: string, instance: Instance, message: string, req: Request)
    requires req.user == Some(Anonymous)
    ensures Record(action, instance, message, Some(req)).user.None?
  {
  }

  /** Which model sent the signal. */
  datatype Sender = PropertySender | ImageSender

  /** `post_save` (with its `created` flag) or `post_delete`. */
  datatype Signal = Saved(created: bool) | Deleted

  /** The action the four receivers log. */
  function Action(sender: Sender, signal: Signal): (a: string)
    ensures a == "updated" <==> signal == Saved(false)
    ensures sender == PropertySender && signal != Saved(false) ==> a in {"created", "deleted"}
    ensures sender == ImageSender && signal != Saved(false) ==> a in {"image_uploaded", "image_deleted"}
  {
    match (sender, signal)
    case (PropertySender, Saved(created)) => if created then "created" else "updated"
    case (PropertySender, Deleted) => "deleted"
    case (ImageSender, Saved(created)) => if created then "image_uploaded" else "updated"
    case (ImageSender, Deleted) => "image_deleted"
  }

  /**
   * Every creation and deletion has its own action, so the action and the
   * model label together tell what happened; only an update reads the same
   * for both models.
   */
  lemma ActionsDistinct(s1: Sender, g1: Signal, s2: Sender, g2: Signal)
    requires Action(s1, g1) == Action(s2, g2)
    ensures Action(s1, g1) != "updated" ==> s1 == s2 && g1 == g2
    ensures Action(s1, g1) == "updated" ==> g1 == Saved(false) && g2 == Saved(false)
  {
  }

  /** The audit log table. */
  class AuditLog {
    var rows: seq<Row>

    constructor ()
      ensures rows == []
    {
      rows := [];
    }

    /** `_write_log`: exactly one row is appended, and earlier rows stay as they were. */
    method WriteLog(action: string, instance: Instance, message: string, lookup: Result<Option<Request>, string>)
      modifies this`rows
      ensures rows == old(rows) + [Record(action, instance, message, GetRequest(lookup))]
    {
      var req := GetRequest(lookup);
      rows := rows + [Record(action, instance, message, req)];
    }

    /** The receivers: one row per signal, with the action `Action` names and an empty message. */
    method Receive(sender: Sender, signal: Signal, instance: Instance, lookup: Result<Option<Request>, string>)
      modifies this`rows
      ensures rows == old(rows) + [Record(Action(sender, signal), instance, "", GetRequest(lookup))]
    {
      match (sender, signal)
      case (PropertySender, Saved(created)) => WriteLog(if created then "created" else "updated", instance, "", lookup);
      case (PropertySender, Deleted) => WriteLog("deleted", instance, "", lookup);
      case (ImageSender, Saved(created)) => WriteLog(if created then "image_uploaded" else "updated", instance, "", lookup);
      case (ImageSender, Deleted) => WriteLog("image_deleted", instance, "", lookup);
    }
  }
}
