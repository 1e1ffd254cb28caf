/**
 * The client push controller's decisions: the capability check, the dispatch
 * on the notification permission, registration, the "reuse the existing
 * subscription or create one" rule, submission to the server and the
 * `onSubscribe` callback. Platform calls are oracle inputs (a `Platform`
 * value says how each would settle) and every run yields the sequence of
 * effects it performs, the callback invocations among them, and whether an
 * exception (or an unhandled rejection) leaves the controller.
 */
module PushController {
  import opened Wrappers
  import opened Base64
  import KeyDecoder

  const ServiceWorkerFilePath: string := "/sw.js"
  const SubscriptionRoute: string := "/api/push/subscription"

  /** The three platform features the controller needs. */
  datatype Capabilities = Capabilities(hasServiceWorker: bool, hasPushManager: bool, canShowNotification: bool)

  predicate Supported(caps: Capabilities)
  {
    caps.hasServiceWorker && caps.hasPushManager && caps.canShowNotification
  }

  /** `notificationUnsupported`: a flag set when any of the three checks fails. */
  method NotificationUnsupported(caps: Capabilities) returns (unsupported: bool)
    ensures unsupported <==> !caps.hasServiceWorker || !caps.hasPushManager || !caps.canShowNotification
    ensures unsupported == !Supported(caps)
  {
    unsupported := false;
    if !caps.hasServiceWorker || !caps.hasPushManager || !caps.canShowNotification {
      unsupported := true;
    }
  }

  datatype Permission = Default | Granted | Denied

  /** A push subscription; its keys are opaque to the controller. */
  datatype Subscription = Subscription(endpoint: string, keys: map<string, string>)

  /** How a `fetch` ends: a network failure, or a response with its status and body kind. */
  datatype FetchOutcome = NetworkError | Received(ok: bool, bodyIsJson: bool)

  /** A response the controller treats as success: ok, and its body parses as JSON. */
  predicate Accepted(response: FetchOutcome)
  {
    response.Received? && response.ok && response.bodyIsJson
  }

  /** How each platform call of one run would settle. */
  datatype Platform = Platform(
    caps: Capabilities,
    permission: Permission,                   // Notification.permission
    prompt: Settled<Permission>,              // Notification.requestPermission()
    registers: bool,                          // navigator.serviceWorker.register resolves
    existing: Settled<Option<Subscription>>,  // pushManager.getSubscription()
    vapidKey: Option<string>,                 // the configured VAPID public key
    created: Settled<Subscription>,           // pushManager.subscribe(...)
    submitResponse: FetchOutcome)             // the POST of the subscription

  /** Whether the caller's `onSubscribe` throws, for a subscription and for null. */
  datatype Callback = Callback(throwsOnSubscription: bool, throwsOnNull: bool)

  predicate WellBehaved(cb: Callback)
  {
    !cb.throwsOnSubscription && !cb.throwsOnNull
  }

  datatype Effect =
    | RequestPermission
    | RegisterServiceWorker(path: string)
    | GetSubscription
    | CreateSubscription(userVisibleOnly: bool, applicationServerKey: seq<byte>)
    | PostSubscription(route: string, subscription: Subscription)
    | OnSubscribe(result: Option<Subscription>)

  /** The effects of a run, and whether an exception escaped it. */
  datatype Run = Run(effects: seq<Effect>, escaped: bool)

  /** The arguments `onSubscribe` received, in order. */
  function Callbacks(effects: seq<Effect>): (r: seq<Option<Subscription>>)
    ensures |r| <= |effects|
  {
    if effects == [] then []
    else (if effects[0].OnSubscribe? then [effects[0].result] else []) + Callbacks(effects[1..])
  }

  lemma {:induction false} CallbacksAppend(a: seq<Effect>, b: seq<Effect>)
    ensures Callbacks(a + b) == Callbacks(a) + Callbacks(b)
    decreases |a|
  {
    if a == [] {
      assert a + b == b;
    } else {
      var ab := a + b;
      assert ab[0] == a[0] && ab[1..] == a[1..] + b;
      CallbacksAppend(a[1..], b);
    }
  }

  lemma {:induction false} NoCallbacksNoOnSubscribe(effects: seq<Effect>)
    requires Callbacks(effects) == []
    ensures forall j :: 0 <= j < |effects| ==> !effects[j].OnSubscribe?
  {
    if effects != [] {
      NoCallbacksNoOnSubscribe(effects[1..]);
      assert forall j :: 1 <= j < |effects| ==> effects[j] == effects[1..][j - 1];
    }
  }

  predicate EndsInCallback(effects: seq<Effect>)
  {
    |effects| > 0 && effects[|effects| - 1].OnSubscribe?
  }

  /** Every subscription handed to `onSubscribe` was posted to the server before. */
  predicate SubmittedBeforeSuccess(effects: seq<Effect>)
  {
    forall j :: 0 <= j < |effects| && effects[j].OnSubscribe? && effects[j].result.Some? ==>
      PostSubscription(SubscriptionRoute, effects[j].result.value) in effects[..j]
  }

  /** Every subscription created asks for user-visible pushes only. */
  predicate CreatesUserVisibleOnly(effects: seq<Effect>)
  {
    forall e :: e in effects && e.CreateSubscription? ==> e.userVisibleOnly
  }

  function Throws(cb: Callback, arg: Option<Subscription>): bool
  {
    if arg.None? then cb.throwsOnNull else cb.throwsOnSubscription
  }

  /** `onSubscribe(arg)`. */
  function Notify(cb: Callback, arg: Option<Subscription>): (r: Run)
    ensures Callbacks(r.effects) == [arg] && EndsInCallback(r.effects)
    ensures r.escaped == Throws(cb, arg)
  {
    Run([OnSubscribe(arg)], Throws(cb, arg))
  }

  /** `try { body } catch { handler }`. */
  function Catch(body: Run, handler: Run): (r: Run)
    ensures r.effects == if body.escaped then body.effects + handler.effects else body.effects
    ensures r.escaped == (body.escaped && handler.escaped)
  {
    if body.escaped then Run(body.effects + handler.effects, handler.escaped) else body
  }

  /** A key the source treats as missing: unset, or the empty string (falsy). */
  predicate KeyMissing(key: Option<string>)
  {
    key.None? || key.value == ""
  }

  /** `submitSubscription`: it throws for a subscription without endpoint, a failed fetch, a non-ok status or a body that is not JSON. */
  function SubmitSubscription(sub: Subscription, response: FetchOutcome): (r: Run)
    ensures r.escaped <==> sub.endpoint == "" || !Accepted(response)
    ensures r.effects == if sub.endpoint == "" then [] else [PostSubscription(SubscriptionRoute, sub)]
  {
    if sub.endpoint == "" then Run([], true)
    else
      var post := [PostSubscription(SubscriptionRoute, sub)];
      match response
      case NetworkError => Run(post, true)
      case Received(ok, bodyIsJson) =>
        if !ok then Run(post, true)
        else if !bodyIsJson then Run(post, true)
        else Run(post, false)
  }

  /** The platform calls of `subscribe` up to the subscription it will submit (`None`: a step threw). */
  datatype Acquired = Acquired(effects: seq<Effect>, subscription: Option<Subscription>)

  function Acquire(p: Platform): (a: Acquired)
    ensures |a.effects| > 0 && a.effects[0] == GetSubscription
    ensures Callbacks(a.effects) == [] && CreatesUserVisibleOnly(a.effects)
    ensures forall e :: e in a.effects ==> e.GetSubscription? || e.CreateSubscription?
    ensures forall s: Subscription :: p.existing == Fulfilled(Some(s)) ==> a == Acquired([GetSubscription], Some(s))
    ensures forall e :: e in a.effects && e.CreateSubscription? ==>
      p.existing == Fulfilled(None) && !KeyMissing(p.vapidKey)
      && KeyDecoder.KeyBytes(p.vapidKey.value) == Some(e.applicationServerKey)
    ensures p.existing == Fulfilled(None) && !KeyMissing(p.vapidKey) && KeyDecoder.KeyBytes(p.vapidKey.value).Some? ==>
      a.effects == [GetSubscription, CreateSubscription(true, KeyDecoder.KeyBytes(p.vapidKey.value).value)]
      && a.subscription == (if p.created.Fulfilled? then Some(p.created.value) else None)
    ensures p.existing.Rejected? || (p.existing == Fulfilled(None) && KeyMissing(p.vapidKey)) ==> a.subscription.None?
    ensures p.existing == Fulfilled(None) && !KeyMissing(p.vapidKey) && KeyDecoder.KeyBytes(p.vapidKey.value).None? ==>
      a.subscription.None?
  {
    match p.existing
    case Rejected => Acquired([GetSubscription], None)
    case Fulfilled(Some(s)) => Acquired([GetSubscription], Some(s))
    case Fulfilled(None) =>
      if KeyMissing(p.vapidKey) then Acquired([GetSubscription], None)
      else
        match KeyDecoder.KeyBytes(p.vapidKey.value)
        case None => Acquired([GetSubscription], None)
        case Some(key) =>
          var create := [GetSubscription, CreateSubscription(true, key)];
          match p.created
          case Rejected => Acquired(create, None)
          case Fulfilled(s) => Acquired(create, Some(s))
  }

  /**
   * Reference: what `subscribe` delivers first to `onSubscribe`. The existing
   * subscription, or else (when the key is present and decodes) the one the
   * platform creates, provided it has an endpoint and the server accepted it.
   */
  function Delivered(p: Platform): Option<Subscription>
  {
    var candidate :=
      if p.existing.Fulfilled? && p.existing.value.Some? then p.existing.value
      else if p.existing == Fulfilled(None) && !KeyMissing(p.vapidKey)
              && KeyDecoder.KeyBytes(p.vapidKey.value).Some? && p.created.Fulfilled?
      then Some(p.created.value)
      else None;
    if candidate.Some? && candidate.value.endpoint != "" && Accepted(p.submitResponse) then candidate else None
  }

  /** Effects of the subscribe step alone: no prompt and no registration. */
  predicate NoPromptOrRegistration(effects: seq<Effect>)
  {
    forall e :: e in effects ==> !e.RegisterServiceWorker? && !e.RequestPermission?
  }

  /** Neither a prompt, a registration nor a non-visible subscription comes from joining two runs without them. */
  lemma QuietAppend(x: seq<Effect>, y: seq<Effect>)
    requires CreatesUserVisibleOnly(x) && NoPromptOrRegistration(x)
    requires CreatesUserVisibleOnly(y) && NoPromptOrRegistration(y)
    ensures CreatesUserVisibleOnly(x + y) && NoPromptOrRegistration(x + y)
  {
  }

  /** With no callback at all, nothing needs to have been submitted. */
  lemma NoCallbacksSubmitted(effects: seq<Effect>)
    requires Callbacks(effects) == []
    ensures SubmittedBeforeSuccess(effects)
  {
    NoCallbacksNoOnSubscribe(effects);
  }

  /** A success callback right after the post of the same subscription keeps submissions first. */
  lemma SubmittedBeforeSuccessAfterPost(prefix: seq<Effect>, s: Subscription)
    requires Callbacks(prefix) == [] && PostSubscription(SubscriptionRoute, s) in prefix
    ensures SubmittedBeforeSuccess(prefix + [OnSubscribe(Some(s))])
  {
    var all := prefix + [OnSubscribe(Some(s))];
    NoCallbacksNoOnSubscribe(prefix);
    assert all[..|prefix|] == prefix;
  }

  /** The `try` block of `subscribe`: submit what was acquired, then call back with it. */
  function SubscribeAttempt(p: Platform, cb: Callback): (r: Run)
    ensures |r.effects| > 0 && r.effects[0] == GetSubscription
    ensures !r.escaped ==> EndsInCallback(r.effects)
    ensures SubmittedBeforeSuccess(r.effects) && CreatesUserVisibleOnly(r.effects)
    ensures NoPromptOrRegistration(r.effects)
  {
    var a := Acquire(p);
    NoCallbacksSubmitted(a.effects);
    if a.subscription.None? then Run(a.effects, true)
    else
      var submit := SubmitSubscription(a.subscription.value, p.submitResponse);
      CallbacksAppend(a.effects, submit.effects);
      NoCallbacksSubmitted(a.effects + submit.effects);
      QuietAppend(a.effects, submit.effects);
      if submit.escaped then Run(a.effects + submit.effects, true)
      else
        var done := Notify(cb, a.subscription);
        QuietAppend(a.effects + submit.effects, done.effects);
        SubmittedBeforeSuccessAfterPost(a.effects + submit.effects, a.subscription.value);
        Run(a.effects + submit.effects + done.effects, done.escaped)
  }

  /** The `try` block calls back only with `Delivered`, and throws when there is none or the callback throws. */
  lemma AttemptReports(p: Platform, cb: Callback)
    ensures Callbacks(SubscribeAttempt(p, cb).effects) == if Delivered(p).Some? then [Delivered(p)] else []
    ensures SubscribeAttempt(p, cb).escaped == (Delivered(p).None? || cb.throwsOnSubscription)
  {
    var a := Acquire(p);
    AcquireThenSubmit(p);
    if a.subscription.Some? {
      var submit := SubmitSubscription(a.subscription.value, p.submitResponse);
      CallbacksAppend(a.effects, submit.effects);
      if !submit.escaped {
        CallbacksAppend(a.effects + submit.effects, Notify(cb, a.subscription).effects);
      }
    }
  }

  /** `subscribe`: acquire, submit, call back; any throw ends in `onSubscribe(null)`. */
  function Subscribe(p: Platform, cb: Callback): (r: Run)
    ensures EndsInCallback(r.effects) && r.effects[0] == GetSubscription
    ensures SubmittedBeforeSuccess(r.effects) && CreatesUserVisibleOnly(r.effects)
    ensures NoPromptOrRegistration(r.effects)
  {
    var attempt := SubscribeAttempt(p, cb);
    SubmittedBeforeSuccessAppendNull(attempt.effects);
    Catch(attempt, Notify(cb, None))
  }

  /**
   * `onSubscribe` first receives what `Delivered` says; only when the callback
   * throws on a subscription does the catch call it a second time, with null;
   * an exception leaves `subscribe` only when that null call throws.
   */
  lemma SubscribeReportsDelivered(p: Platform, cb: Callback)
    ensures Callbacks(Subscribe(p, cb).effects) ==
      if Delivered(p).Some? && cb.throwsOnSubscription then [Delivered(p), None] else [Delivered(p)]
    ensures Subscribe(p, cb).escaped == (cb.throwsOnNull && (Delivered(p).None? || cb.throwsOnSubscription))
  {
    var attempt := SubscribeAttempt(p, cb);
    var handler := Notify(cb, None);
    assert Subscribe(p, cb) == Catch(attempt, handler);
    AttemptReports(p, cb);
    if attempt.escaped {
      CallbacksAppend(attempt.effects, handler.effects);
    }
  }

  /** `Delivered` is the acquired subscription, kept when submitting it does not throw. */
  lemma AcquireThenSubmit(p: Platform)
    ensures var a := Acquire(p);
      Delivered(p) == if a.subscription.Some? && !SubmitSubscription(a.subscription.value, p.submitResponse).escaped
                      then a.subscription else None
  {
  }

  /** `subscribe` creates a subscription only when none exists, with the key the decoder yields. */
  lemma CreationNeedsNoSubscription(p: Platform, cb: Callback)
    ensures forall e :: e in Subscribe(p, cb).effects && e.CreateSubscription? ==>
      p.existing == Fulfilled(None) && !KeyMissing(p.vapidKey)
      && KeyDecoder.KeyBytes(p.vapidKey.value) == Some(e.applicationServerKey)
    ensures p.existing == Fulfilled(None) && !KeyMissing(p.vapidKey) && KeyDecoder.KeyBytes(p.vapidKey.value).Some? ==>
      CreateSubscription(true, KeyDecoder.KeyBytes(p.vapidKey.value).value) in Subscribe(p, cb).effects
  {
    var attempt := SubscribeAttempt(p, cb);
    assert Subscribe(p, cb) == Catch(attempt, Notify(cb, None));
    AttemptCreatesOnlyWhenAcquiring(p, cb);
    if p.existing == Fulfilled(None) && !KeyMissing(p.vapidKey) && KeyDecoder.KeyBytes(p.vapidKey.value).Some? {
      AttemptStartsWithAcquire(p, cb);
      assert attempt.effects[1] == CreateSubscription(true, KeyDecoder.KeyBytes(p.vapidKey.value).value);
      assert Subscribe(p, cb).effects[1] == attempt.effects[1];
    }
  }

  /** The try block of `subscribe` begins with the calls that acquire the subscription. */
  lemma AttemptStartsWithAcquire(p: Platform, cb: Callback)
    ensures |Acquire(p).effects| <= |SubscribeAttempt(p, cb).effects|
    ensures SubscribeAttempt(p, cb).effects[..|Acquire(p).effects|] == Acquire(p).effects
  {
    var a := Acquire(p);
    if a.subscription.Some? {
      var submit := SubmitSubscription(a.subscription.value, p.submitResponse);
      if submit.escaped {
        assert SubscribeAttempt(p, cb).effects == a.effects + submit.effects;
      } else {
        var done := Notify(cb, a.subscription);
        assert SubscribeAttempt(p, cb).effects == a.effects + (submit.effects + done.effects);
      }
    }
  }

  /** The try block of `subscribe` creates subscriptions only while acquiring one. */
  lemma AttemptCreatesOnlyWhenAcquiring(p: Platform, cb: Callback)
    ensures forall e :: e in SubscribeAttempt(p, cb).effects && e.CreateSubscription? ==> e in Acquire(p).effects
  {
    var a := Acquire(p);
    if a.subscription.Some? {
      var submit := SubmitSubscription(a.subscription.value, p.submitResponse);
      assert forall e :: e in submit.effects ==> !e.CreateSubscription?;
      if submit.escaped {
        assert SubscribeAttempt(p, cb).effects == a.effects + submit.effects;
      } else {
        var done := Notify(cb, a.subscription);
        assert forall e :: e in done.effects ==> !e.CreateSubscription?;
        assert SubscribeAttempt(p, cb).effects == (a.effects + submit.effects) + done.effects;
      }
    }
  }

  /**
   * With a subscription already present, `subscribe` creates none: it submits
   * the existing one (when it has an endpoint) and delivers it when the server
   * accepts it.
   */
  lemma ReusesExistingSubscription(p: Platform, cb: Callback, s: Subscription)
    requires p.existing == Fulfilled(Some(s))
    ensures forall e :: e in Subscribe(p, cb).effects ==> !e.CreateSubscription?
    ensures s.endpoint != "" ==> PostSubscription(SubscriptionRoute, s) in Subscribe(p, cb).effects
    ensures Delivered(p) == if s.endpoint != "" && Accepted(p.submitResponse) then Some(s) else None
  {
    var a := Acquire(p);
    assert a == Acquired([GetSubscription], Some(s));
    CreationNeedsNoSubscription(p, cb);
    var attempt := SubscribeAttempt(p, cb);
    if s.endpoint != "" {
      assert attempt.effects[1] == PostSubscription(SubscriptionRoute, s);
      assert Subscribe(p, cb).effects[1] == attempt.effects[1];
    }
  }

  /**
   * The VAPID key is read only on the creation path: unless `getSubscription`
   * reports no subscription, `subscribe` behaves the same whatever the key;
   * on the creation path a missing key ends in null with nothing created.
   */
  lemma KeyOnlyNeededToCreate(p: Platform, cb: Callback, otherKey: Option<string>)
    ensures p.existing != Fulfilled(None) ==> Subscribe(p.(vapidKey := otherKey), cb) == Subscribe(p, cb)
    ensures p.existing == Fulfilled(None) && KeyMissing(p.vapidKey) ==>
      Delivered(p) == None && forall e :: e in Subscribe(p, cb).effects ==> !e.CreateSubscription?
  {
    if p.existing != Fulfilled(None) {
      assert Acquire(p.(vapidKey := otherKey)) == Acquire(p);
    }
  }

  lemma SubmittedBeforeSuccessPrepend(e: Effect, effects: seq<Effect>)
    requires !e.OnSubscribe? && SubmittedBeforeSuccess(effects)
    ensures SubmittedBeforeSuccess([e] + effects)
  {
    var all := [e] + effects;
    forall j | 0 <= j < |all| && all[j].OnSubscribe? && all[j].result.Some?
      ensures PostSubscription(SubscriptionRoute, all[j].result.value) in all[..j]
    {
      assert all[j] == effects[j - 1];
      assert all[..j] == [e] + effects[..j - 1];
    }
  }

  lemma SubmittedBeforeSuccessAppendNull(effects: seq<Effect>)
    requires SubmittedBeforeSuccess(effects)
    ensures SubmittedBeforeSuccess(effects + [OnSubscribe(None)])
  {
    var all := effects + [OnSubscribe(None)];
    forall j | 0 <= j < |effects| ensures all[..j] == effects[..j] {
    }
  }

  /** `registerAndSubscribe`: register the worker at its fixed path, then subscribe; a failed registration ends in null. */
  function RegisterAndSubscribe(p: Platform, cb: Callback): (r: Run)
    ensures EndsInCallback(r.effects) && r.effects[0] == RegisterServiceWorker(ServiceWorkerFilePath)
    ensures SubmittedBeforeSuccess(r.effects) && CreatesUserVisibleOnly(r.effects)
    ensures forall e :: e in r.effects ==> !e.RequestPermission?
    ensures !p.registers ==> r.effects == [RegisterServiceWorker(ServiceWorkerFilePath), OnSubscribe(None)]
  {
    var register := RegisterServiceWorker(ServiceWorkerFilePath);
    var attempt :=
      if p.registers then
        var s := Subscribe(p, cb);
        SubmittedBeforeSuccessPrepend(register, s.effects);
        Run([register] + s.effects, s.escaped)
      else Run([register], true);
    SubmittedBeforeSuccessAppendNull(attempt.effects);
    Catch(attempt, Notify(cb, None))
  }

  /** The first value `registerAndSubscribe` passes to `onSubscribe`; with a callback that never throws it is the only one. */
  lemma RegisterAndSubscribeReports(p: Platform, cb: Callback)
    ensures var r := RegisterAndSubscribe(p, cb);
      |Callbacks(r.effects)| > 0 && Callbacks(r.effects)[0] == (if p.registers then Delivered(p) else None)
      && (WellBehaved(cb) ==> Callbacks(r.effects) == [Callbacks(r.effects)[0]] && !r.escaped)
  {
    var register := RegisterServiceWorker(ServiceWorkerFilePath);
    var handler := Notify(cb, None);
    if p.registers {
      var s := Subscribe(p, cb);
      SubscribeReportsDelivered(p, cb);
      CallbacksAppend([register], s.effects);
      CallbacksAppend([register] + s.effects, handler.effects);
    } else {
      CallbacksAppend([register], handler.effects);
    }
  }

  /** `requestNotificationPermission`: prompt; register only on "granted"; any other answer or a failed prompt ends in null. */
  function RequestNotificationPermission(p: Platform, cb: Callback): (r: Run)
    ensures EndsInCallback(r.effects) && r.effects[0] == RequestPermission
    ensures RegisterServiceWorker(ServiceWorkerFilePath) in r.effects <==> p.prompt == Fulfilled(Granted)
    ensures SubmittedBeforeSuccess(r.effects) && CreatesUserVisibleOnly(r.effects)
    ensures p.prompt != Fulfilled(Granted) && WellBehaved(cb) ==> r.effects == [RequestPermission, OnSubscribe(None)]
  {
    var attempt := (
      if p.prompt.Rejected? then Run([RequestPermission], true)
      else
        var next := if p.prompt.value == Granted then RegisterAndSubscribe(p, cb) else Notify(cb, None);
        SubmittedBeforeSuccessPrepend(RequestPermission, next.effects);
        Run([RequestPermission] + next.effects, next.escaped));
    SubmittedBeforeSuccessAppendNull(attempt.effects);
    Catch(attempt, Notify(cb, None))
  }

  /** Whether the dispatch goes on to registration: granted already, or granted at the prompt. */
  predicate ReachesRegistration(p: Platform)
  {
    p.permission == Granted || (p.permission == Default && p.prompt == Fulfilled(Granted))
  }

  /** Reference: the value the whole controller first passes to `onSubscribe`. */
  function Outcome(p: Platform): Option<Subscription>
  {
    if ReachesRegistration(p) && p.registers then Delivered(p) else None
  }

  lemma RequestNotificationPermissionReports(p: Platform, cb: Callback)
    requires p.permission == Default
    ensures var r := RequestNotificationPermission(p, cb);
      |Callbacks(r.effects)| > 0 && Callbacks(r.effects)[0] == Outcome(p)
      && (WellBehaved(cb) ==> Callbacks(r.effects) == [Outcome(p)] && !r.escaped)
  {
    var handler := Notify(cb, None);
    if p.prompt.Rejected? {
      CallbacksAppend([RequestPermission], handler.effects);
    } else {
      var next := if p.prompt.value == Granted then RegisterAndSubscribe(p, cb) else handler;
      var attempt := Run([RequestPermission] + next.effects, next.escaped);
      assert RequestNotificationPermission(p, cb) == Catch(attempt, handler);
      PromptAnswerReports(p, cb, next, attempt, handler);
    }
  }

  /** After an answered prompt: what the handler of the answer reports comes first. */
  lemma PromptAnswerReports(p: Platform, cb: Callback, next: Run, attempt: Run, handler: Run)
    requires p.permission == Default && p.prompt.Fulfilled?
    requires handler == Notify(cb, None)
    requires next == if p.prompt.value == Granted then RegisterAndSubscribe(p, cb) else handler
    requires attempt == Run([RequestPermission] + next.effects, next.escaped)
    ensures var r := Catch(attempt, handler);
      |Callbacks(r.effects)| > 0 && Callbacks(r.effects)[0] == Outcome(p)
      && (WellBehaved(cb) ==> Callbacks(r.effects) == [Outcome(p)] && !r.escaped)
  {
    if p.prompt.value == Granted {
      RegisterAndSubscribeReports(p, cb);
    }
    CallbacksAppend([RequestPermission], next.effects);
    if attempt.escaped {
      CallbacksAppend(attempt.effects, handler.effects);
    }
  }

  /**
   * `checkPermissionStateAndAct`: nothing at all on an unsupported platform;
   * otherwise "denied" calls back with null, "granted" registers without a
   * prompt and "default" prompts first.
   */
  function CheckPermissionStateAndAct(p: Platform, cb: Callback): (r: Run)
    ensures !Supported(p.caps) ==> r == Run([], false)
    ensures Supported(p.caps) ==> EndsInCallback(r.effects)
    ensures Supported(p.caps) && p.permission == Denied ==> r.effects == [OnSubscribe(None)]
    ensures Supported(p.caps) ==> (RequestPermission in r.effects <==> p.permission == Default)
    ensures Supported(p.caps) ==> (RegisterServiceWorker(ServiceWorkerFilePath) in r.effects <==> ReachesRegistration(p))
    ensures SubmittedBeforeSuccess(r.effects) && CreatesUserVisibleOnly(r.effects)
  {
    if !Supported(p.caps) then Run([], false)
    else
      match p.permission
      case Denied => Notify(cb, None)
      case Granted => RegisterAndSubscribe(p, cb)
      case Default => RequestNotificationPermission(p, cb)
  }

  /**
   * Every supported run reports to `onSubscribe`, first with `Outcome(p)`; with
   * a callback that never throws that is the only call and no exception
   * escapes. An unsupported platform never calls back.
   */
  lemma ControllerReportsOutcome(p: Platform, cb: Callback)
    ensures var r := CheckPermissionStateAndAct(p, cb);
      (!Supported(p.caps) ==> Callbacks(r.effects) == [])
      && (Supported(p.caps) ==> |Callbacks(r.effects)| > 0 && Callbacks(r.effects)[0] == Outcome(p))
      && (Supported(p.caps) && WellBehaved(cb) ==> Callbacks(r.effects) == [Outcome(p)] && !r.escaped)
  {
    if Supported(p.caps) {
      match p.permission
      case Denied =>
      case Granted => RegisterAndSubscribeReports(p, cb);
      case Default => RequestNotificationPermissionReports(p, cb);
    }
  }

  /**
   * A failed registration, a missing key on the creation path, a subscription
   * without endpoint and a rejected submission all end in exactly one
   * `onSubscribe(null)`, with no exception escaping, when the callback itself
   * does not throw.
   */
  lemma ErrorsEndInNull(p: Platform, cb: Callback)
    requires Supported(p.caps) && ReachesRegistration(p) && WellBehaved(cb)
    requires || !p.registers
             || (p.existing == Fulfilled(None) && KeyMissing(p.vapidKey))
             || (p.existing.Fulfilled? && p.existing.value.Some? && p.existing.value.value.endpoint == "")
             || (p.existing == Fulfilled(None) && p.created.Fulfilled? && p.created.value.endpoint == "")
             || !Accepted(p.submitResponse)
    ensures Callbacks(CheckPermissionStateAndAct(p, cb).effects) == [None]
    ensures !CheckPermissionStateAndAct(p, cb).escaped
  {
    ControllerReportsOutcome(p, cb);
  }

  /**
   * Inside `registerAndSubscribe`, a callback that throws on the subscription
   * it is handed is called again with null by the catch of `subscribe`; if that
   * throws too, the catch of `registerAndSubscribe` calls it a third time, and
   * that call's outcome is what leaves.
   */
  lemma ThrowingCallbackInRegistration(p: Platform, cb: Callback)
    requires p.registers && Delivered(p).Some? && cb.throwsOnSubscription
    ensures Callbacks(RegisterAndSubscribe(p, cb).effects)
         == [Delivered(p), None] + (if cb.throwsOnNull then [None] else [])
    ensures RegisterAndSubscribe(p, cb).escaped == cb.throwsOnNull
  {
    var s := Subscribe(p, cb);
    assert RegisterAndSubscribe(p, cb)
        == Catch(Run([RegisterServiceWorker(ServiceWorkerFilePath)] + s.effects, s.escaped), Notify(cb, None));
    SubscribeReportsDelivered(p, cb);
    CatchAfterStep(RegisterServiceWorker(ServiceWorkerFilePath), s, cb);
  }

  /**
   * A step that does not call back, then `next`, inside a `try` whose catch
   * calls `onSubscribe(null)`: one extra null call exactly when `next` throws.
   */
  lemma CatchAfterStep(first: Effect, next: Run, cb: Callback)
    requires !first.OnSubscribe?
    ensures var r := Catch(Run([first] + next.effects, next.escaped), Notify(cb, None));
      Callbacks(r.effects) == Callbacks(next.effects) + (if next.escaped then [None] else [])
      && r.escaped == (next.escaped && cb.throwsOnNull)
  {
    var attempt := Run([first] + next.effects, next.escaped);
    CallbacksAppend([first], next.effects);
    if attempt.escaped {
      CallbacksAppend(attempt.effects, Notify(cb, None).effects);
    }
  }

  /**
   * In the granted state, a callback that throws on the subscription is called
   * again with null, and a third time when that throws too; the rejection then
   * escapes the controller.
   */
  lemma ThrowingCallbackIsCalledAgain(p: Platform, cb: Callback)
    requires Supported(p.caps) && p.permission == Granted && p.registers && Delivered(p).Some?
    requires cb.throwsOnSubscription
    ensures Callbacks(CheckPermissionStateAndAct(p, cb).effects)
         == [Delivered(p), None] + (if cb.throwsOnNull then [None] else [])
    ensures CheckPermissionStateAndAct(p, cb).escaped == cb.throwsOnNull
  {
    assert CheckPermissionStateAndAct(p, cb) == RegisterAndSubscribe(p, cb);
    ThrowingCallbackInRegistration(p, cb);
  }

  /**
   * In the default state with the prompt answered granted, the catch of
   * `requestNotificationPermission` adds one more call: a callback that throws
   * on everything is called four times, with the subscription and then three
   * times with null, before the rejection escapes.
   */
  lemma ThrowingCallbackAfterPrompt(p: Platform, cb: Callback)
    requires Supported(p.caps) && p.permission == Default && p.prompt == Fulfilled(Granted)
    requires p.registers && Delivered(p).Some? && cb.throwsOnSubscription
    ensures Callbacks(CheckPermissionStateAndAct(p, cb).effects)
         == [Delivered(p), None] + (if cb.throwsOnNull then [None, None] else [])
    ensures CheckPermissionStateAndAct(p, cb).escaped == cb.throwsOnNull
  {
    assert CheckPermissionStateAndAct(p, cb) == RequestNotificationPermission(p, cb);
    ThrowingCallbackThroughPrompt(p, cb);
  }

  /** `requestNotificationPermission` after a granted prompt, with a callback that throws on the subscription. */
  lemma ThrowingCallbackThroughPrompt(p: Platform, cb: Callback)
    requires p.prompt == Fulfilled(Granted) && p.registers && Delivered(p).Some? && cb.throwsOnSubscription
    ensures Callbacks(RequestNotificationPermission(p, cb).effects)
         == [Delivered(p), None] + (if cb.throwsOnNull then [None, None] else [])
    ensures RequestNotificationPermission(p, cb).escaped == cb.throwsOnNull
  {
    ThrowingCallbackInRegistration(p, cb);
    GrantedPromptThenRegistration(p, cb);
    NullsAppended(Delivered(p), cb.throwsOnNull);
  }

  /** One null call from each of two catches, when the callback throws on null. */
  lemma NullsAppended(d: Option<Subscription>, throws: bool)
    ensures ([d, None] + (if throws then [None] else [])) + (if throws then [None] else [])
         == [d, None] + (if throws then [None, None] else [])
  {
  }

  /** After a granted prompt, the catch of `requestNotificationPermission` adds one null call exactly when registration throws. */
  lemma GrantedPromptThenRegistration(p: Platform, cb: Callback)
    requires p.prompt == Fulfilled(Granted)
    ensures var next, r := RegisterAndSubscribe(p, cb), RequestNotificationPermission(p, cb);
      Callbacks(r.effects) == Callbacks(next.effects) + (if next.escaped then [None] else [])
      && r.escaped == (next.escaped && cb.throwsOnNull)
  {
    var next := RegisterAndSubscribe(p, cb);
    assert RequestNotificationPermission(p, cb)
        == Catch(Run([RequestPermission] + next.effects, next.escaped), Notify(cb, None));
    CatchAfterStep(RequestPermission, next, cb);
  }

}
