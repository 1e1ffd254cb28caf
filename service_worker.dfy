/**
 * The service worker's event listeners. `push` turns a JSON payload into one
 * notification with a fixed icon, tag and interaction policy and a click
 * target at the app's origin, and reports delivery once the notification is
 * shown; `notificationclick` closes the notification and opens its `data.url`
 * when that is truthy. Platform calls are returned as effects.
 */
module ServiceWorker {
  import opened Wrappers
  import opened JsValue

  const DefaultTitle: string := "Bijak Uangmu"
  const NotificationIcon: string := "/icon-192x192.webp"
  const NotificationTag: string := "bijak-uangmu"

  /** The payload fields the listener reads but never forwards. */
  const IgnoredPayloadKeys: set<string> := {"icon", "image", "badge", "url"}

  /** `event.data` of a push event, as its JSON parse (`None`: the text is not JSON). */
  datatype PushData = PushData(json: Option<Value>)

  datatype Effect =
    | ShowNotification(title: Value, options: map<string, Value>)
    | DeliveryReport
    | CloseNotification
    | OpenWindow(url: Value)

  /** The effects of one listener call, and whether it threw. */
  datatype Handled = Handled(effects: seq<Effect>, threw: bool)

  /** The notification options: only `body` comes from the payload. */
  function NotificationOptions(body: Value, origin: string): (o: map<string, Value>)
    ensures o.Keys == {"body", "icon", "data", "tag", "requireInteraction", "silent"}
    ensures o.Keys !! IgnoredPayloadKeys - {"icon"}
    ensures o["body"] == body && o["icon"] == Str(NotificationIcon)
    ensures o["data"] == Obj(map["url" := Str(origin)])
    ensures o["tag"] == Str(NotificationTag) && o["requireInteraction"] == Bool(false) && o["silent"] == Bool(false)
  {
    map["body" := body,
        "icon" := Str(NotificationIcon),
        "data" := Obj(map["url" := Str(origin)]),
        "tag" := Str(NotificationTag),
        "requireInteraction" := Bool(false),
        "silent" := Bool(false)]
  }

  /** The payload carries a title that is neither null nor undefined. */
  predicate HasTitle(payload: Value)
  {
    payload.Obj? && "title" in payload.fields
    && !payload.fields["title"].Undefined? && !payload.fields["title"].Null?
  }

  /** `title ?? 'Bijak Uangmu'`: the payload title unless it is null or undefined. */
  function NotificationTitle(payload: Value): (t: Value)
    requires !payload.Undefined? && !payload.Null?
    ensures HasTitle(payload) ==> t == payload.fields["title"]
    ensures !HasTitle(payload) ==> t == Str(DefaultTitle)
  {
    Coalesce(Prop(payload, "title"), Str(DefaultTitle))
  }

  /**
   * The `push` listener, with the app's origin given. No data: nothing
   * happens. Data that is not JSON, or JSON `null`, makes the listener throw
   * before anything is shown. Otherwise one notification is shown, followed by
   * the delivery report exactly when showing it succeeds (`displayed`).
   */
  function OnPush(data: Option<PushData>, origin: string, displayed: bool): (r: Handled)
    ensures data.None? ==> r == Handled([], false)
    ensures r.threw <==> data.Some? && (data.value.json.None? || data.value.json.value.Undefined?
                                        || data.value.json.value.Null?)
    ensures r.effects != [] <==> data.Some? && data.value.json.Some?
                                 && !data.value.json.value.Undefined? && !data.value.json.value.Null?
    ensures r.effects != [] ==> !r.threw && r.effects[0].ShowNotification?
                                && r.effects[1..] == (if displayed then [DeliveryReport] else [])
    ensures r.effects != [] ==>
      var payload := data.value.json.value;
      r.effects[0] == ShowNotification(NotificationTitle(payload), NotificationOptions(Prop(payload, "body"), origin))
  {
    match data
    case None => Handled([], false)
    case Some(d) =>
      match d.json
      case None => Handled([], true)
      case Some(payload) =>
        if payload.Undefined? || payload.Null? then Handled([], true)
        else
          var title := Coalesce(Prop(payload, "title"), Str(DefaultTitle));
          var options := NotificationOptions(Prop(payload, "body"), origin);
          Handled([ShowNotification(title, options)] + (if displayed then [DeliveryReport] else []), false)
  }

  /**
   * For an object payload: the title is the payload's unless null or undefined
   * (an empty string is kept), the body is the payload's, and the rest of the
   * options are fixed whatever the payload holds.
   */
  lemma PushOfObjectPayload(m: map<string, Value>, origin: string, displayed: bool)
    ensures var r := OnPush(Some(PushData(Some(Obj(m)))), origin, displayed);
      && r.effects[0].title
         == (if "title" in m && !m["title"].Undefined? && !m["title"].Null? then m["title"] else Str(DefaultTitle))
      && ("title" in m && m["title"] == Str("") ==> r.effects[0].title == Str(""))
      && r.effects[0].options["body"] == (if "body" in m then m["body"] else Undefined)
      && OptionalProp(r.effects[0].options["data"], "url") == Str(origin)
  {
    var r := OnPush(Some(PushData(Some(Obj(m)))), origin, displayed);
    assert r.effects[0].options == NotificationOptions(Prop(Obj(m), "body"), origin);
  }

  /** The payload's icon, image, badge and url never change what the listener does. */
  lemma PayloadExtrasIgnored(m: map<string, Value>, k: string, v: Value, origin: string, displayed: bool)
    requires k in IgnoredPayloadKeys
    ensures OnPush(Some(PushData(Some(Obj(m[k := v])))), origin, displayed)
         == OnPush(Some(PushData(Some(Obj(m)))), origin, displayed)
  {
    assert Prop(Obj(m[k := v]), "body") == Prop(Obj(m), "body");
    assert Prop(Obj(m[k := v]), "title") == Prop(Obj(m), "title");
  }

  /**
   * The `notificationclick` listener: close the notification, then open
   * `data.url` in a window exactly when it is truthy.
   */
  function OnNotificationClick(data: Value): (r: seq<Effect>)
    ensures |r| >= 1 && r[0] == CloseNotification
    ensures |r| == (if Truthy(OptionalProp(data, "url")) then 2 else 1)
    ensures forall i :: 1 <= i < |r| ==> r[i] == OpenWindow(OptionalProp(data, "url"))
  {
    var url := OptionalProp(data, "url");
    [CloseNotification] + (if Truthy(url) then [OpenWindow(url)] else [])
  }

  /**
   * Clicking a notification the push listener showed closes it and opens the
   * origin once, unless the origin is empty.
   */
  lemma ClickOpensOrigin(payload: Value, origin: string, displayed: bool)
    requires !payload.Undefined? && !payload.Null?
    ensures var shown := OnPush(Some(PushData(Some(payload))), origin, displayed).effects[0];
      OnNotificationClick(shown.options["data"])
      == [CloseNotification] + (if origin != "" then [OpenWindow(Str(origin))] else [])
  {
    var shown := OnPush(Some(PushData(Some(payload))), origin, displayed).effects[0];
    assert shown.options["data"] == Obj(map["url" := Str(origin)]);
  }

  /**
   * The listener as written reads `window.location.origin` while building the
   * options. A service worker's global scope has no `window` (`None` here), so
   * that read throws a ReferenceError after the payload is parsed and before
   * anything is shown.
   */
  function OnPushAsWritten(data: Option<PushData>, window: Option<string>, displayed: bool): (r: Handled)
    ensures window.Some? ==> r == OnPush(data, window.value, displayed)
  {
    match data
    case None => Handled([], false)
    case Some(d) =>
      match d.json
      case None => Handled([], true)
      case Some(payload) =>
        if payload.Undefined? || payload.Null? then Handled([], true)
        else
          match window
          case None => Handled([], true)
          case Some(origin) => OnPush(data, origin, displayed)
  }

  /** Without `window`, every push event with data throws and no notification is ever shown. */
  lemma NoWindowNoNotification(data: Option<PushData>, displayed: bool)
    ensures OnPushAsWritten(data, None, displayed).effects == []
    ensures data.Some? ==> OnPushAsWritten(data, None, displayed).threw
  {
  }
}
