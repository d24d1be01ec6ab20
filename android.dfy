/**
 * The Android side of the plugin: the method dispatcher, the WeChat precondition
 * chain (which first needs an attached activity), the plugin's lifecycle fields,
 * the WeChat installation probe and the WeChat callback correlator.
 *
 * What the platform answers is an input: the release string, whether the class
 * WXAPIFactory can be loaded, and the outcome of the package lookup.
 */
module AndroidPlugin {
  import opened Channel

  class Context {}

  class Activity {}

  /** The outcome of asking the package manager for the package "com.tencent.mm". */
  datatype PackageLookup = PackageFound | LookupThrew(exception: string)

  /** What the platform reports to the plugin. */
  datatype Environment = Environment(
    release: string,                // Build.VERSION.RELEASE
    hasWXAPIFactoryClass: bool,     // the WeChat SDK entry class loads
    wechatLookup: PackageLookup)

  /** Checks made against the activity the plugin is attached to. */
  class WechatLoginHandler {
    const activity: Activity

    constructor (activity: Activity)
      ensures this.activity == activity
    {
      this.activity := activity;
    }

    /** `isWechatInstalled`: any failure of the package lookup means "not installed". */
    function IsWechatInstalled(lookup: PackageLookup): (installed: bool)
      ensures installed <==> lookup == PackageFound
      ensures lookup.LookupThrew? ==> !installed
    {
      match lookup
      case PackageFound => true
      case LookupThrew(_) => false
    }
  }

  // ---------------------------------------------------------------------------
  // Dispatch
  // ---------------------------------------------------------------------------

  /**
   * `handleWechatLogin`: NO_ACTIVITY before anything else, then the SDK check,
   * then the installation check, then the stub answer. Exactly one error, never success.
   */
  function WechatLoginResponse(handler: WechatLoginHandler?, env: Environment): (r: Response)
    ensures r.Error? && r.details.None?
    ensures r.code == NoActivity <==> handler == null
    ensures r.code == SdkNotFound <==> handler != null && !env.hasWXAPIFactoryClass
    ensures r.code == AppNotInstalled <==>
      handler != null && env.hasWXAPIFactoryClass && env.wechatLookup != PackageFound
    ensures r.code == NotImplementedCode <==>
      handler != null && env.hasWXAPIFactoryClass && env.wechatLookup == PackageFound
  {
    if handler == null then
      Error(NoActivity, "Activity is not attached", None)
    else if !env.hasWXAPIFactoryClass then
      Error(SdkNotFound, "Wechat SDK not found. Please integrate Wechat SDK first.", None)
    else if !handler.IsWechatInstalled(env.wechatLookup) then
      Error(AppNotInstalled, "WeChat app is not installed", None)
    else
      Error(NotImplementedCode, "WeChat login requires manual SDK integration. Please see documentation.", None)
  }

  /** `onMethodCall`: the answer to a call named `call`, given the attached handler. */
  function MethodCallResponse(call: string, handler: WechatLoginHandler?, env: Environment): (r: Response)
    ensures r.NotImplemented? <==> call !in KnownMethods
    ensures r.Success? <==> call == GetPlatformVersion
    ensures r.Success? ==> r.value.Str? && "Android " <= r.value.s && r.value.s[8..] == env.release
    ensures call == AppleLogin ==> r.Error? && r.code == UnsupportedPlatform && r.details.None?
    ensures call == WechatLogin ==> r == WechatLoginResponse(handler, env)
  {
    if call == GetPlatformVersion then
      Success(Str("Android " + env.release))
    else if call == WechatLogin then
      WechatLoginResponse(handler, env)
    else if call == AppleLogin then
      Error(UnsupportedPlatform, "Apple Sign In is not available on Android", None)
    else
      NotImplemented
  }

  // ---------------------------------------------------------------------------
  // Lifecycle
  // ---------------------------------------------------------------------------

  /** The callbacks through which the engine and the activity attach and detach the plugin. */
  datatype LifecycleEvent =
    | AttachedToEngine(applicationContext: Context)
    | DetachedFromEngine
    | AttachedToActivity(activity: Activity)
    | DetachedFromActivity
    | ReattachedToActivityForConfigChanges(activity: Activity)
    | DetachedFromActivityForConfigChanges

  /** The plugin's fields; the handler is represented by the activity it wraps. */
  datatype PluginFields = PluginFields(context: Context?, activity: Activity?, handlerActivity: Activity?)

  /** How each lifecycle callback updates the fields. */
  function AfterEvent(f: PluginFields, e: LifecycleEvent): PluginFields {
    match e
    case AttachedToEngine(c) => f.(context := c)
    case DetachedFromEngine => f.(context := null)
    case AttachedToActivity(a) => f.(activity := a, handlerActivity := a)
    case DetachedFromActivity => f.(activity := null, handlerActivity := null)
    case ReattachedToActivityForConfigChanges(a) => f.(activity := a)
    case DetachedFromActivityForConfigChanges => f.(activity := null)
  }

  /** The fields after the callbacks `events`, in order, starting from `start`. */
  function Replay(start: PluginFields, events: seq<LifecycleEvent>): PluginFields
    decreases |events|
  {
    if events == [] then start
    else AfterEvent(Replay(start, events[..|events| - 1]), events[|events| - 1])
  }

  /**
   * A handler is attached after `events` when some full attach is followed by no
   * full detach, or when one was attached at the start and no full detach came.
   */
  predicate HandlerBound(startBound: bool, events: seq<LifecycleEvent>) {
    || (exists i :: 0 <= i < |events| && events[i].AttachedToActivity? &&
          forall j :: i < j < |events| ==> !events[j].DetachedFromActivity?)
    || (startBound && forall j :: 0 <= j < |events| ==> !events[j].DetachedFromActivity?)
  }

  /** The handler survives exactly the histories that leave it bound; configuration changes never clear it. */
  lemma {:induction false} HandlerAfterReplay(start: PluginFields, events: seq<LifecycleEvent>)
    ensures Replay(start, events).handlerActivity != null <==> HandlerBound(start.handlerActivity != null, events)
    decreases |events|
  {
    if events != [] {
      var n := |events| - 1;
      var prefix, e := events[..n], events[n];
      assert events == prefix + [e];
      HandlerAfterReplay(start, prefix);
      var b := start.handlerActivity != null;
      match e
      case AttachedToActivity(_) =>
        assert events[n].AttachedToActivity?;
      case DetachedFromActivity =>
        assert events[n].DetachedFromActivity?;
      case _ =>
        assert !e.AttachedToActivity? && !e.DetachedFromActivity?;
        if HandlerBound(b, prefix) {
          if exists i :: 0 <= i < |prefix| && prefix[i].AttachedToActivity? &&
               forall j :: i < j < |prefix| ==> !prefix[j].DetachedFromActivity? {
            var i :| 0 <= i < |prefix| && prefix[i].AttachedToActivity? &&
                     forall j :: i < j < |prefix| ==> !prefix[j].DetachedFromActivity?;
            assert events[i].AttachedToActivity?;
          }
        }
        if HandlerBound(b, events) {
          if exists i :: 0 <= i < |events| && events[i].AttachedToActivity? &&
               forall j :: i < j < |events| ==> !events[j].DetachedFromActivity? {
            var i :| 0 <= i < |events| && events[i].AttachedToActivity? &&
                     forall j :: i < j < |events| ==> !events[j].DetachedFromActivity?;
            assert i < n;
            assert prefix[i].AttachedToActivity?;
          }
        }
    }
  }

  /**
   * wechatLogin answers NO_ACTIVITY after a history of lifecycle callbacks exactly
   * when that history leaves no handler bound.
   */
  lemma NoActivityAfterHistory(start: PluginFields, events: seq<LifecycleEvent>,
                               handler: WechatLoginHandler?, env: Environment)
    requires (handler == null) == (Replay(start, events).handlerActivity == null)
    ensures MethodCallResponse(WechatLogin, handler, env).code == NoActivity <==>
      !HandlerBound(start.handlerActivity != null, events)
  {
    HandlerAfterReplay(start, events);
  }

  /** Engine callbacks and configuration changes leave the handler exactly as it was. */
  lemma {:induction false} ConfigChangesKeepHandler(start: PluginFields, events: seq<LifecycleEvent>)
    requires forall j :: 0 <= j < |events| ==>
      !events[j].AttachedToActivity? && !events[j].DetachedFromActivity?
    ensures Replay(start, events).handlerActivity == start.handlerActivity
    decreases |events|
  {
    if events != [] {
      ConfigChangesKeepHandler(start, events[..|events| - 1]);
    }
  }

  // ---------------------------------------------------------------------------
  // Objects
  // ---------------------------------------------------------------------------

  /** The plugin instance: registered with the engine, attached to at most one activity. */
  class EasyAuthPlugin {
    var context: Context?
    var activity: Activity?
    var wechatLoginHandler: WechatLoginHandler?

    function Fields(): PluginFields
      reads this
    {
      PluginFields(context, activity, if wechatLoginHandler == null then null else wechatLoginHandler.activity)
    }

    constructor ()
      ensures context == null && activity == null && wechatLoginHandler == null
    {
      context := null;
      activity := null;
      wechatLoginHandler := null;
    }

    /** `onMethodCall`: answers every call at once and changes no field. */
    method OnMethodCall(call: string, result: ResultHandle, env: Environment)
      requires result.log == []
      modifies result
      ensures result.log == [MethodCallResponse(call, wechatLoginHandler, env)]
    {
      if call == WechatLogin {
        HandleWechatLogin(result, env);
      } else {
        result.Reply(MethodCallResponse(call, wechatLoginHandler, env));
      }
    }

    /** `handleWechatLogin`: answers with the gate chain for the handler attached now. */
    method HandleWechatLogin(result: ResultHandle, env: Environment)
      requires result.log == []
      modifies result
      ensures result.log == [WechatLoginResponse(wechatLoginHandler, env)]
    {
      result.Reply(WechatLoginResponse(wechatLoginHandler, env));
    }

    method OnAttachedToEngine(applicationContext: Context)
      modifies this
      ensures context == applicationContext
      ensures activity == old(activity) && wechatLoginHandler == old(wechatLoginHandler)
      ensures Fields() == AfterEvent(old(Fields()), AttachedToEngine(applicationContext))
    {
      context := applicationContext;
    }

    method OnDetachedFromEngine()
      modifies this
      ensures context == null
      ensures activity == old(activity) && wechatLoginHandler == old(wechatLoginHandler)
      ensures Fields() == AfterEvent(old(Fields()), DetachedFromEngine)
    {
      context := null;
    }

    method OnAttachedToActivity(boundActivity: Activity)
      modifies this
      ensures activity == boundActivity
      ensures wechatLoginHandler != null && fresh(wechatLoginHandler)
      ensures wechatLoginHandler.activity == boundActivity
      ensures context == old(context)
      ensures Fields() == AfterEvent(old(Fields()), AttachedToActivity(boundActivity))
    {
      activity := boundActivity;
      wechatLoginHandler := new WechatLoginHandler(boundActivity);
    }

    method OnDetachedFromActivity()
      modifies this
      ensures activity == null && wechatLoginHandler == null
      ensures context == old(context)
      ensures Fields() == AfterEvent(old(Fields()), DetachedFromActivity)
    {
      activity := null;
      wechatLoginHandler := null;
    }

    method OnReattachedToActivityForConfigChanges(boundActivity: Activity)
      modifies this
      ensures activity == boundActivity
      ensures wechatLoginHandler == old(wechatLoginHandler) && context == old(context)
      ensures Fields() == AfterEvent(old(Fields()), ReattachedToActivityForConfigChanges(boundActivity))
    {
      activity := boundActivity;
    }

    method OnDetachedFromActivityForConfigChanges()
      modifies this
      ensures activity == null
      ensures wechatLoginHandler == old(wechatLoginHandler) && context == old(context)
      ensures Fields() == AfterEvent(old(Fields()), DetachedFromActivityForConfigChanges)
    {
      activity := null;
    }
  }

  /** The process-wide WeChat login manager (an `object` in the source). */
  class WechatLoginManager {
    var pendingResult: ResultHandle?

    constructor ()
      ensures pendingResult == null
    {
      pendingResult := null;
    }

    /**
     * Answers the pending call, once, and empties the slot; with nothing
     * pending the callback is dropped and nothing changes.
     */
    method HandleWechatCallback(code: Option<string>, error: Option<string>)
      requires pendingResult != null ==> pendingResult.log == []
      modifies this, pendingResult
      ensures pendingResult == null
      ensures old(pendingResult) == null ==> unchanged(this)
      ensures old(pendingResult) != null ==>
        old(pendingResult).log == [WechatCallbackResponse(code, error)]
    {
      var result := pendingResult;
      if result == null {
        return;
      }
      result.Reply(WechatCallbackResponse(code, error));
      pendingResult := null;
    }
  }

  /**
   * How `handleWechatCallback` answers a pending call: an error wins over a
   * code, a code is the success value, and neither is UNKNOWN_ERROR.
   */
  function WechatCallbackResponse(code: Option<string>, error: Option<string>): (r: Response)
    ensures r.Success? <==> error.None? && code.Some?
    ensures r.Success? ==> r.value == Str(code.value)
    ensures !r.NotImplemented?
    ensures r.Error? ==> r.details.None?
    ensures r.Error? && r.code == WechatAuthError <==> error.Some?
    ensures r.Error? && r.code == UnknownError <==> error.None? && code.None?
  {
    if error.Some? then
      Error(WechatAuthError, "WeChat auth failed: " + error.value, None)
    else if code.Some? then
      Success(Str(code.value))
    else
      Error(UnknownError, "Unknown error in WeChat callback", None)
  }

  /**
   * A configuration change does not detach the WeChat handler: wechatLogin
   * right after it does not answer NO_ACTIVITY.
   */
  method WechatLoginAfterConfigChange(plugin: EasyAuthPlugin, result: ResultHandle, env: Environment)
    requires plugin.wechatLoginHandler != null && result.log == []
    modifies plugin, result
    ensures |result.log| == 1 && result.log[0].Error? && result.log[0].code != NoActivity
  {
    plugin.OnDetachedFromActivityForConfigChanges();
    plugin.OnMethodCall(WechatLogin, result, env);
  }
}
