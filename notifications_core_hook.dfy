/**
 * The generic push-notification hook: it decides whether to run at all,
 * then installs the presentation handler, registers for a token, and hands
 * a token to the caller's `onToken` callback.
 */
module NotificationsCoreHook {
  import opened JsValues
  import opened NotificationAdapter

  /**
   * The hook's options; `hasOnToken` says whether an `onToken` callback was
   * given, whose invocations the effect returns.
   */
  datatype HookOptions = HookOptions(enabled: Option<bool>, projectId: Option<string>, hasOnToken: bool)

  /** `enabled ?? Boolean(userId)` */
  function ShouldRun(enabled: Option<bool>, userId: Option<string>): (run: bool)
    ensures enabled.Some? ==> (run <==> enabled.value)
    ensures enabled.None? ==> (run <==> userId.Some? && |userId.value| > 0)
  {
    if enabled.Some? then enabled.value else TruthyString(userId)
  }

  /** The SDK calls of one run of the effect, given the setup flag before it. */
  function EffectTrace(wasSetup: bool, h: Host, userId: Option<string>, opts: HookOptions): seq<SdkCall>
  {
    if ShouldRun(opts.enabled, userId) then SetupTrace(wasSetup) + RegisterTrace(h, opts.projectId) else []
  }

  /** The tokens `onToken` is called with during one run of the effect. */
  function OnTokenCalls(h: Host, userId: Option<string>, opts: HookOptions): seq<string>
  {
    var token := RegisterResult(h, opts.projectId);
    if ShouldRun(opts.enabled, userId) && TruthyString(token) && opts.hasOnToken then [token.value] else []
  }

  /** When the hook does not run, neither setup nor registration touches the SDK, and `onToken` is not called. */
  lemma NotRunningDoesNothing(wasSetup: bool, h: Host, userId: Option<string>, opts: HookOptions)
    requires !ShouldRun(opts.enabled, userId)
    ensures EffectTrace(wasSetup, h, userId, opts) == []
    ensures OnTokenCalls(h, userId, opts) == []
  {
  }

  lemma {:induction false} RegisterNeverInstallsHandler(h: Host, projectId: Option<string>)
    ensures forall i :: 0 <= i < |RegisterTrace(h, projectId)| ==> !IsHandlerInstall(RegisterTrace(h, projectId)[i])
  {
  }

  /**
   * When the hook runs, every handler install comes before every
   * registration call, and a token fetch uses the hook's `projectId` when
   * one was given.
   */
  lemma {:induction false} SetupBeforeRegister(wasSetup: bool, h: Host, userId: Option<string>, opts: HookOptions)
    requires ShouldRun(opts.enabled, userId)
    ensures var t := EffectTrace(wasSetup, h, userId, opts);
      forall i, j :: 0 <= i < |t| && 0 <= j < |t| && IsHandlerInstall(t[i]) && !IsHandlerInstall(t[j]) ==> i < j
    ensures var t := EffectTrace(wasSetup, h, userId, opts);
      forall i :: 0 <= i < |t| && IsTokenFetch(t[i]) ==>
        t[i] == GetExpoPushToken(if opts.projectId.Some? then opts.projectId else h.configProjectId)
    ensures !wasSetup ==> EffectTrace(wasSetup, h, userId, opts)[0] == SetNotificationHandler(ForegroundBehavior)
  {
    var s := SetupTrace(wasSetup);
    var r := RegisterTrace(h, opts.projectId);
    var t := EffectTrace(wasSetup, h, userId, opts);
    assert t == s + r;
    RegisterNeverInstallsHandler(h, opts.projectId);
    assert forall k :: |s| <= k < |t| ==> t[k] == r[k - |s|];
    assert forall k :: 0 <= k < |s| ==> IsHandlerInstall(t[k]);
  }

  /** `onToken` runs exactly once, with the token, iff the token is truthy and a callback was given. */
  lemma OnTokenOnce(h: Host, userId: Option<string>, opts: HookOptions)
    requires ShouldRun(opts.enabled, userId)
    ensures |OnTokenCalls(h, userId, opts)| == 1 <==>
      h.isDevice && FinalStatus(h) == Granted && h.tokenData != "" && opts.hasOnToken
    ensures |OnTokenCalls(h, userId, opts)| <= 1
    ensures OnTokenCalls(h, userId, opts) != [] ==> OnTokenCalls(h, userId, opts) == [h.tokenData]
  {
  }

  /** One run of the hook's effect for the given user and options. */
  method RunEffect(adapter: Adapter, userId: Option<string>, opts: HookOptions) returns (onTokenCalls: seq<string>)
    modifies adapter
    ensures adapter.isSetup == (old(adapter.isSetup) || ShouldRun(opts.enabled, userId))
    ensures adapter.calls == old(adapter.calls) + EffectTrace(old(adapter.isSetup), adapter.host, userId, opts)
    ensures onTokenCalls == OnTokenCalls(adapter.host, userId, opts)
  {
    onTokenCalls := [];
    var shouldRun := ShouldRun(opts.enabled, userId);
    if !shouldRun {
      return;
    }
    adapter.Setup();
    var token := adapter.RegisterForPushNotifications(opts.projectId);
    if TruthyString(token) && opts.hasOnToken {
      onTokenCalls := [token.value];
    }
  }
}
