/**
 * `sendWebPush` of the client push controller: the notification body is built
 * by object spread, `{title, body, ...defaults, ...options, renotify, silent,
 * actions}`, which on string keys is right-biased map union: a later source
 * overrides an earlier one key by key, and nothing is merged below the top
 * level. The body is sent as JSON, which drops members whose value is
 * `undefined`.
 */
module PushBody {
  import opened JsValue
  import PushController

  const SendRoute: string := "/api/push/send"

  /** The keys the `options` parameter's type admits: the notification options without title and message. */
  const OptionKeys: set<string> := {"icon", "badge", "image", "url", "actions", "data", "tag", "requireInteraction"}

  /** The keys the body always sets last. */
  const ForcedKeys: set<string> := {"renotify", "silent", "actions"}

  /** The default notification options; the click target is the page's origin. */
  function DefaultOptions(origin: string): (d: map<string, Value>)
    ensures d.Keys == {"icon", "badge", "tag", "requireInteraction", "image", "data"}
  {
    map["icon" := Str("/icon-192x192.webp"),
        "badge" := Str("/icon-96x96.webp"),
        "tag" := Str("bijak-uangmu"),
        "requireInteraction" := Bool(false),
        "image" := Str("/bijakuangmu.png"),
        "data" := Obj(map["url" := Str(origin)])]
  }

  /** `renotify: true, silent: false, actions: []`. */
  function ForcedFields(): (f: map<string, Value>)
    ensures f.Keys == ForcedKeys
    ensures forall k :: k in f ==> Defined(f[k])
  {
    map["renotify" := Bool(true), "silent" := Bool(false), "actions" := Arr([])]
  }

  /**
   * The merged body. Forced fields win over everything, caller options over
   * the defaults, and defaults survive where the caller is silent.
   */
  function PushBody(title: string, message: string, options: map<string, Value>, origin: string)
    : (r: map<string, Value>)
    ensures r.Keys == {"title", "body"} + DefaultOptions(origin).Keys + options.Keys + ForcedKeys
    ensures forall k :: k in ForcedKeys ==> r[k] == ForcedFields()[k]
    ensures forall k :: k in options && k !in ForcedKeys ==> r[k] == options[k]
    ensures forall k :: k in DefaultOptions(origin) && k !in options && k !in ForcedKeys ==>
      r[k] == DefaultOptions(origin)[k]
  {
    map["title" := Str(title), "body" := Str(message)] + DefaultOptions(origin) + options + ForcedFields()
  }

  /**
   * The title and message arguments survive unless `options` names the same
   * keys; options of the declared type cannot, so for them they always do.
   */
  lemma TitleAndBodyAreArguments(title: string, message: string, options: map<string, Value>, origin: string)
    ensures var r := PushBody(title, message, options, origin);
      ("title" !in options ==> r["title"] == Str(title)) && ("body" !in options ==> r["body"] == Str(message))
    ensures options.Keys <= OptionKeys ==>
      PushBody(title, message, options, origin)["title"] == Str(title)
      && PushBody(title, message, options, origin)["body"] == Str(message)
  {
    assert "title" !in ForcedKeys && "body" !in ForcedKeys;
    assert "title" !in DefaultOptions(origin).Keys && "body" !in DefaultOptions(origin).Keys;
    assert "title" !in OptionKeys && "body" !in OptionKeys;
  }

  /**
   * The `data` override is shallow: a caller `data` object replaces the
   * default one wholesale, so its `url` is lost unless the caller supplies
   * one; a top-level `url` option does not reach `data.url`.
   */
  lemma DataOverrideIsShallow(title: string, message: string, options: map<string, Value>, origin: string)
    ensures var r := PushBody(title, message, options, origin);
      ("data" !in options ==> OptionalProp(r["data"], "url") == Str(origin))
      && ("data" in options ==> r["data"] == options["data"])
      && ("data" in options && options["data"].Obj? && "url" !in options["data"].fields ==>
            OptionalProp(r["data"], "url") == Undefined)
  {
    var r := PushBody(title, message, options, origin);
    if "data" !in options {
      assert r["data"] == Obj(map["url" := Str(origin)]);
    }
  }

  /**
   * An option the caller sets to `undefined` overrides the default and is then
   * dropped by JSON serialisation: the sent body has no such member at all.
   */
  lemma UndefinedOptionIsDropped(title: string, message: string, options: map<string, Value>, origin: string, k: string)
    requires k in options && options[k] == Undefined && k !in ForcedKeys
    ensures k !in Serialized(PushBody(title, message, options, origin))
  {
  }

  /**
   * A caller `data` object whose `url` is `undefined` is sent without a `url`:
   * serialisation drops `undefined` members inside nested objects too.
   */
  lemma NestedUndefinedIsDropped(title: string, message: string, options: map<string, Value>, origin: string)
    requires "data" in options && options["data"].Obj?
    requires "url" in options["data"].fields && options["data"].fields["url"] == Undefined
    ensures var sent := Serialized(PushBody(title, message, options, origin));
      "data" in sent && sent["data"].Obj? && "url" !in sent["data"].fields
  {
    var merged := PushBody(title, message, options, origin);
    assert "data" !in ForcedKeys;
    assert merged["data"] == options["data"];
    assert Serialized(merged)["data"] == Json(options["data"]);
  }

  /** What `sendWebPush` sends, and whether it throws to its caller. */
  datatype SendResult = SendResult(route: string, body: map<string, Value>, failed: bool)

  /** POST the serialised body; a failed fetch, a non-ok status or a non-JSON reply throws. */
  function SendWebPush(title: string, message: string, options: map<string, Value>, origin: string,
                       response: PushController.FetchOutcome): (r: SendResult)
    ensures r.route == SendRoute
    ensures r.failed <==> !PushController.Accepted(response)
    ensures r.body == Serialized(PushBody(title, message, options, origin))
    ensures forall k :: k in ForcedKeys ==> k in r.body && r.body[k] == ForcedFields()[k]
    ensures forall k :: k in r.body ==> Defined(r.body[k])
  {
    var merged := PushBody(title, message, options, origin);
    var body := Serialized(merged);
    forall k | k in ForcedKeys ensures Json(merged[k]) == ForcedFields()[k] {
      JsonKeepsDefined(ForcedFields()[k]);
    }
    match response
    case NetworkError => SendResult(SendRoute, body, true)
    case Received(ok, bodyIsJson) =>
      if !ok then SendResult(SendRoute, body, true)
      else if !bodyIsJson then SendResult(SendRoute, body, true)
      else SendResult(SendRoute, body, false)
  }
}
