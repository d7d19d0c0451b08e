/**
 * The notification adapter: a one-shot installer of the foreground
 * presentation handler, and the registration procedure that creates the
 * Android channel, asks for permission and fetches an Expo push token.
 *
 * The Expo SDK is an abstract collaborator: every call into it is recorded
 * in `Adapter.calls`, and what it answers (platform, device kind,
 * permission statuses, token, configured project id) is the `Host` the
 * adapter is built with.
 */
module NotificationAdapter {
  import opened JsValues

  /** The answer of the presentation handler for every foreground notification. */
  datatype NotificationBehavior = NotificationBehavior(
    shouldShowAlert: bool,
    shouldPlaySound: bool,
    shouldSetBadge: bool,
    shouldShowBanner: bool,
    shouldShowList: bool)

  const ForegroundBehavior := NotificationBehavior(
    shouldShowAlert := true,
    shouldPlaySound := true,
    shouldSetBadge := false,
    shouldShowBanner := true,
    shouldShowList := true)

  datatype AndroidImportance = Max

  /** The settings of an Android notification channel. */
  datatype ChannelConfig = ChannelConfig(
    name: string,
    importance: AndroidImportance,
    vibrationPattern: seq<nat>,
    lightColor: string)

  const DefaultChannelId := "default"
  const DefaultChannel := ChannelConfig("default", Max, [0, 250, 250, 250], "#FF231F7C")

  const Granted := "granted"
  const Android := "android"

  /** One call into the notification SDK. */
  datatype SdkCall =
    | SetNotificationHandler(behavior: NotificationBehavior)
    | SetNotificationChannel(channelId: string, config: ChannelConfig)
    | GetPermissions
    | RequestPermissions
    | GetExpoPushToken(projectId: Option<string>)

  /**
   * What the host answers: `Platform.OS`, `Device.isDevice`, the status
   * `getPermissionsAsync` reports, the status `requestPermissionsAsync`
   * reports, the `data` of the token `getExpoPushTokenAsync` returns, and
   * the project id of the build configuration (if any).
   */
  datatype Host = Host(
    os: string,
    isDevice: bool,
    existingStatus: string,
    requestedStatus: string,
    tokenData: string,
    configProjectId: Option<string>)

  predicate IsHandlerInstall(c: SdkCall) { c.SetNotificationHandler? }
  predicate IsChannelSetup(c: SdkCall) { c.SetNotificationChannel? }
  predicate IsPermissionRead(c: SdkCall) { c.GetPermissions? }
  predicate IsPermissionRequest(c: SdkCall) { c.RequestPermissions? }
  predicate IsTokenFetch(c: SdkCall) { c.GetExpoPushToken? }

  /** How many calls of a trace satisfy `p`. */
  function CountWhere(trace: seq<SdkCall>, p: SdkCall -> bool): nat
  {
    if trace == [] then 0 else (if p(trace[0]) then 1 else 0) + CountWhere(trace[1..], p)
  }

  lemma {:induction false} CountWhereConcat(a: seq<SdkCall>, b: seq<SdkCall>, p: SdkCall -> bool)
    ensures CountWhere(a + b, p) == CountWhere(a, p) + CountWhere(b, p)
  {
    if a == [] {
      assert a + b == b;
    } else {
      assert (a + b)[1..] == a[1..] + b;
      CountWhereConcat(a[1..], b, p);
    }
  }

  lemma {:induction false} CountWhereZero(trace: seq<SdkCall>, p: SdkCall -> bool)
    ensures CountWhere(trace, p) == 0 <==> forall i :: 0 <= i < |trace| ==> !p(trace[i])
  {
    if trace != [] {
      CountWhereZero(trace[1..], p);
      assert forall i :: 1 <= i < |trace| ==> trace[i] == trace[1..][i - 1];
    }
  }

  // ---------------------------------------------------------------------
  // setup

  /** The SDK calls one `setup()` makes, given the flag before the call. */
  function SetupTrace(wasSetup: bool): seq<SdkCall>
  {
    if wasSetup then [] else [SetNotificationHandler(ForegroundBehavior)]
  }

  /** The SDK calls of `n` successive `setup()` calls. */
  function RepeatedSetupTrace(wasSetup: bool, n: nat): seq<SdkCall>
    decreases n
  {
    if n == 0 then [] else SetupTrace(wasSetup) + RepeatedSetupTrace(true, n - 1)
  }

  lemma {:induction false} SetupAfterSetupIsSilent(n: nat)
    ensures RepeatedSetupTrace(true, n) == []
  {
    if n > 0 {
      SetupAfterSetupIsSilent(n - 1);
    }
  }

  /** However often `setup()` runs from process start, the handler is installed exactly once. */
  lemma {:induction false} SetupInstallsOnce(n: nat)
    requires n >= 1
    ensures RepeatedSetupTrace(false, n) == [SetNotificationHandler(ForegroundBehavior)]
    ensures CountWhere(RepeatedSetupTrace(false, n), IsHandlerInstall) == 1
  {
    SetupAfterSetupIsSilent(n - 1);
    assert RepeatedSetupTrace(false, n) == [SetNotificationHandler(ForegroundBehavior)] + [];
  }

  /** One more `setup()` call after `i` of them adds the trace of a call made with the flag as `i` calls left it. */
  lemma {:induction false} RepeatedSetupTraceSnoc(wasSetup: bool, i: nat)
    ensures RepeatedSetupTrace(wasSetup, i + 1) == RepeatedSetupTrace(wasSetup, i) + SetupTrace(wasSetup || i > 0)
    decreases i
  {
    if i == 0 {
      assert RepeatedSetupTrace(wasSetup, 1) == SetupTrace(wasSetup) + [];
    } else {
      RepeatedSetupTraceSnoc(true, i - 1);
      assert SetupTrace(wasSetup) + (RepeatedSetupTrace(true, i - 1) + SetupTrace(true))
          == (SetupTrace(wasSetup) + RepeatedSetupTrace(true, i - 1)) + SetupTrace(true);
    }
  }

  // ---------------------------------------------------------------------
  // registerForPushNotificationsAsync

  /** `options.projectId ?? Constants.expoConfig?.extra?.eas?.projectId` */
  function ResolveProjectId(option: Option<string>, configured: Option<string>): Option<string>
  {
    if option.Some? then option else configured
  }

  /** `finalStatus` once the permission step is done. */
  function FinalStatus(h: Host): string
  {
    if h.existingStatus != Granted then h.requestedStatus else h.existingStatus
  }

  function ChannelCalls(h: Host): seq<SdkCall>
  {
    if h.os == Android then [SetNotificationChannel(DefaultChannelId, DefaultChannel)] else []
  }

  function PermissionCalls(h: Host): seq<SdkCall>
  {
    [GetPermissions] + if h.existingStatus != Granted then [RequestPermissions] else []
  }

  /** The SDK calls one registration makes. */
  function RegisterTrace(h: Host, projectId: Option<string>): seq<SdkCall>
  {
    var fetch := if FinalStatus(h) == Granted
      then [GetExpoPushToken(ResolveProjectId(projectId, h.configProjectId))]
      else [];
    ChannelCalls(h) + if h.isDevice then PermissionCalls(h) + fetch else []
  }

  /** What one registration returns (`None` is the source's `null`). */
  function RegisterResult(h: Host, projectId: Option<string>): Option<string>
  {
    if h.isDevice && FinalStatus(h) == Granted then Some(h.tokenData) else None
  }

  /** On Android the default channel is created first, even when the result is null. */
  lemma ChannelCreatedFirst(h: Host, projectId: Option<string>)
    ensures h.os == Android ==>
      RegisterTrace(h, projectId)[0] == SetNotificationChannel(DefaultChannelId, DefaultChannel)
    ensures h.os == Android && !h.isDevice ==>
      RegisterTrace(h, projectId) == [SetNotificationChannel(DefaultChannelId, DefaultChannel)]
    ensures h.os != Android ==> CountWhere(RegisterTrace(h, projectId), IsChannelSetup) == 0
  {
    var t := RegisterTrace(h, projectId);
    if h.os != Android {
      forall i | 0 <= i < |t| ensures !IsChannelSetup(t[i]) { }
      CountWhereZero(t, IsChannelSetup);
    }
  }

  /** Off a physical device the result is null and neither permission nor token API is called. */
  lemma {:induction false} NonDeviceSkipsPermissions(h: Host, projectId: Option<string>)
    requires !h.isDevice
    ensures RegisterResult(h, projectId) == None
    ensures CountWhere(RegisterTrace(h, projectId), IsPermissionRead) == 0
    ensures CountWhere(RegisterTrace(h, projectId), IsPermissionRequest) == 0
    ensures CountWhere(RegisterTrace(h, projectId), IsTokenFetch) == 0
  {
    var t := RegisterTrace(h, projectId);
    assert t == ChannelCalls(h);
    CountWhereZero(t, IsPermissionRead);
    CountWhereZero(t, IsPermissionRequest);
    CountWhereZero(t, IsTokenFetch);
  }

  /**
   * On a device the status is read once, permission is requested iff the
   * existing status is not granted, and a granted existing status is final.
   */
  lemma {:induction false} RequestOnlyWhenNotGranted(h: Host, projectId: Option<string>)
    requires h.isDevice
    ensures CountWhere(RegisterTrace(h, projectId), IsPermissionRead) == 1
    ensures CountWhere(RegisterTrace(h, projectId), IsPermissionRequest)
         == if h.existingStatus != Granted then 1 else 0
    ensures h.existingStatus == Granted ==> FinalStatus(h) == h.existingStatus
  {
    var fetch := if FinalStatus(h) != Granted then []
                 else [GetExpoPushToken(ResolveProjectId(projectId, h.configProjectId))];
    var req := if h.existingStatus != Granted then [RequestPermissions] else [];
    assert RegisterTrace(h, projectId) == ChannelCalls(h) + ([GetPermissions] + (req + fetch));
    CountWhereConcat(ChannelCalls(h), [GetPermissions] + (req + fetch), IsPermissionRead);
    CountWhereConcat(ChannelCalls(h), [GetPermissions] + (req + fetch), IsPermissionRequest);
    CountWhereConcat([GetPermissions], req + fetch, IsPermissionRead);
    CountWhereConcat([GetPermissions], req + fetch, IsPermissionRequest);
    CountWhereConcat(req, fetch, IsPermissionRead);
    CountWhereConcat(req, fetch, IsPermissionRequest);
  }

  /**
   * A token is fetched exactly once on the device-and-granted path and never
   * otherwise; the result is non-null exactly then, and is the fetched
   * token's data, fetched under the resolved project id.
   */
  lemma {:induction false} TokenOnlyWhenGranted(h: Host, projectId: Option<string>)
    ensures CountWhere(RegisterTrace(h, projectId), IsTokenFetch)
         == if h.isDevice && FinalStatus(h) == Granted then 1 else 0
    ensures RegisterResult(h, projectId).Some? <==> h.isDevice && FinalStatus(h) == Granted
    ensures RegisterResult(h, projectId).Some? ==>
      && RegisterResult(h, projectId).value == h.tokenData
      && RegisterTrace(h, projectId)[|RegisterTrace(h, projectId)| - 1]
         == GetExpoPushToken(if projectId.Some? then projectId else h.configProjectId)
  {
    var t := RegisterTrace(h, projectId);
    var fetch := if FinalStatus(h) != Granted then []
                 else [GetExpoPushToken(ResolveProjectId(projectId, h.configProjectId))];
    CountWhereConcat(ChannelCalls(h), t[|ChannelCalls(h)|..], IsTokenFetch);
    assert ChannelCalls(h) + t[|ChannelCalls(h)|..] == t;
    assert CountWhere(ChannelCalls(h), IsTokenFetch) == 0 by {
      CountWhereZero(ChannelCalls(h), IsTokenFetch);
    }
    if h.isDevice {
      assert t[|ChannelCalls(h)|..] == PermissionCalls(h) + fetch;
      CountWhereConcat(PermissionCalls(h), fetch, IsTokenFetch);
      assert CountWhere(PermissionCalls(h), IsTokenFetch) == 0 by {
        CountWhereZero(PermissionCalls(h), IsTokenFetch);
      }
    } else {
      assert t[|ChannelCalls(h)|..] == [];
    }
  }

  /** A denied final status gives a null result and no token fetch. */
  lemma DeniedReturnsNull(h: Host, projectId: Option<string>)
    requires FinalStatus(h) != Granted
    ensures RegisterResult(h, projectId) == None
    ensures CountWhere(RegisterTrace(h, projectId), IsTokenFetch) == 0
  {
    TokenOnlyWhenGranted(h, projectId);
  }

  // ---------------------------------------------------------------------
  // The adapter's state and the SDK it drives

  class Adapter {
    /** The module-level `isSetup` flag. */
    var isSetup: bool
    /** Every call made into the notification SDK, oldest first. */
    var calls: seq<SdkCall>
    /** What the SDK and the platform answer. */
    const host: Host

    constructor (host: Host)
      ensures !isSetup && calls == [] && this.host == host
    {
      this.host := host;
      isSetup := false;
      calls := [];
    }

    method SetNotificationHandlerCall(behavior: NotificationBehavior)
      modifies this`calls
      ensures calls == old(calls) + [SetNotificationHandler(behavior)]
    {
      calls := calls + [SetNotificationHandler(behavior)];
    }

    method SetNotificationChannelAsync(channelId: string, config: ChannelConfig)
      modifies this`calls
      ensures calls == old(calls) + [SetNotificationChannel(channelId, config)]
    {
      calls := calls + [SetNotificationChannel(channelId, config)];
    }

    method GetPermissionsAsync() returns (status: string)
      modifies this`calls
      ensures calls == old(calls) + [GetPermissions]
      ensures status == host.existingStatus
    {
      calls := calls + [GetPermissions];
      status := host.existingStatus;
    }

    method RequestPermissionsAsync() returns (status: string)
      modifies this`calls
      ensures calls == old(calls) + [RequestPermissions]
      ensures status == host.requestedStatus
    {
      calls := calls + [RequestPermissions];
      status := host.requestedStatus;
    }

    method GetExpoPushTokenAsync(projectId: Option<string>) returns (data: string)
      modifies this`calls
      ensures calls == old(calls) + [GetExpoPushToken(projectId)]
      ensures data == host.tokenData
    {
      calls := calls + [GetExpoPushToken(projectId)];
      data := host.tokenData;
    }

    /** `NotificationAdapter.setup()`: installs the handler only while the flag is down. */
    method Setup()
      modifies this
      ensures isSetup
      ensures calls == old(calls) + SetupTrace(old(isSetup))
    {
      if isSetup {
        return;
      }
      SetNotificationHandlerCall(ForegroundBehavior);
      isSetup := true;
    }

    /** `NotificationAdapter.registerForPushNotificationsAsync({projectId})`. */
    method RegisterForPushNotifications(projectId: Option<string>) returns (token: Option<string>)
      modifies this`calls
      ensures calls == old(calls) + RegisterTrace(host, projectId)
      ensures token == RegisterResult(host, projectId)
    {
      token := None;
      if host.os == Android {
        SetNotificationChannelAsync(DefaultChannelId, DefaultChannel);
      }
      if !host.isDevice {
        return None;
      }
      var existingStatus := GetPermissionsAsync();
      var finalStatus := existingStatus;
      if existingStatus != Granted {
        var status := RequestPermissionsAsync();
        finalStatus := status;
      }
      if finalStatus != Granted {
        return None;
      }
      var resolvedProjectId := ResolveProjectId(projectId, host.configProjectId);
      var data := GetExpoPushTokenAsync(resolvedProjectId);
      token := Some(data);
    }
  }

  /**
   * `setup()` called `n` times on a freshly loaded adapter: the SDK sees
   * the calls of `RepeatedSetupTrace`, so at least one call installs the
   * handler exactly once.
   */
  method SetupRepeatedly(host: Host, n: nat) returns (calls: seq<SdkCall>)
    ensures calls == RepeatedSetupTrace(false, n)
    ensures n >= 1 ==> calls == [SetNotificationHandler(ForegroundBehavior)]
  {
    var adapter := new Adapter(host);
    var i := 0;
    while i < n
      invariant 0 <= i <= n
      invariant adapter.isSetup == (i > 0)
      invariant adapter.calls == RepeatedSetupTrace(false, i)
    {
      RepeatedSetupTraceSnoc(false, i);
      adapter.Setup();
      i := i + 1;
    }
    calls := adapter.calls;
    if n >= 1 {
      SetupInstallsOnce(n);
    }
  }
}
