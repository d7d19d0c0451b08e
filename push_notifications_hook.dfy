/**
 * The application's push-notification hook: it registers the device and
 * stores its token, shows an in-app alert for a foreground notification,
 * deep-links on a notification tap, and once per hook instance checks
 * whether the app was cold-started from a notification.
 *
 * The router, `Alert.alert`, `setTimeout` and the remote store are
 * collaborators that record what they are asked to do: `scheduled` holds
 * every `router.push` scheduled through `setTimeout`, `alerts` every alert
 * shown, `upserts` every upsert sent to the `devices` table.
 */
module PushNotificationsHook {
  import opened JsValues
  import NotificationAdapter

  /** A notification's `data`: a mapping of string keys to arbitrary values. */
  type Payload = map<string, JsValue>

  const NavigationDelayMs: nat := 500

  /** `setTimeout(() => router.push(path), delayMs)`. */
  datatype DelayedPush = DelayedPush(delayMs: nat, path: string)

  /** `data?.url` */
  function UrlOf(data: Option<Payload>): JsValue
  {
    if data.Some? && "url" in data.value then data.value["url"] else Undefined
  }

  /** The pushes `handleNotificationNavigation(data, router)` schedules. */
  function Navigation(data: Option<Payload>): (r: seq<DelayedPush>)
    ensures |r| <= 1
    ensures r != [] <==> UrlOf(data).Str? && UrlOf(data).s != ""
    ensures r != [] ==> r[0] == DelayedPush(500, UrlOf(data).s)
  {
    var url := UrlOf(data);
    if Truthy(url) && url.Str? then [DelayedPush(NavigationDelayMs, url.s)] else []
  }

  // ---------------------------------------------------------------------
  // Foreground alert

  /** The `title`, `body` and `data` of a notification's request content. */
  datatype NotificationContent = NotificationContent(
    title: Option<string>,
    body: Option<string>,
    data: Option<Payload>)

  /** What a button does when pressed: nothing, or `handleNotificationNavigation(data)`. */
  datatype PressAction = Dismiss | NavigateTo(data: Option<Payload>)

  datatype AlertButton = AlertButton(text: string, style: Option<string>, onPress: PressAction)

  /** One `Alert.alert(title, message, buttons)` call. */
  datatype AlertCall = AlertCall(title: string, message: string, buttons: seq<AlertButton>)

  const CloseButton := AlertButton("Cerrar", Some("cancel"), Dismiss)

  function ViewButton(data: Option<Payload>): AlertButton
  {
    AlertButton("Ver", None, NavigateTo(data))
  }

  /** The alert the foreground listener shows for a notification. */
  function ForegroundAlert(c: NotificationContent): (a: AlertCall)
    ensures c.title.None? ==> a.title == "Notificación"
    ensures c.title.Some? ==> a.title == c.title.value
    ensures c.body.None? ==> a.message == ""
    ensures c.body.Some? ==> a.message == c.body.value
    ensures 1 <= |a.buttons| <= 2 && a.buttons[0] == CloseButton
    ensures |a.buttons| == 2 <==> Truthy(UrlOf(c.data))
    ensures |a.buttons| == 2 ==> a.buttons[1] == ViewButton(c.data)
  {
    var title := if c.title.Some? then c.title.value else "Notificación";
    var message := if c.body.Some? then c.body.value else "";
    AlertCall(title, message, [CloseButton] + if Truthy(UrlOf(c.data)) then [ViewButton(c.data)] else [])
  }

  /** The pushes pressing a button schedules. */
  function Press(b: AlertButton): seq<DelayedPush>
  {
    match b.onPress
    case Dismiss => []
    case NavigateTo(data) => Navigation(data)
  }

  /**
   * "Cerrar" never navigates; "Ver" navigates exactly when the url is a
   * non-empty string, so a truthy url of another type shows "Ver" and then
   * does nothing.
   */
  lemma {:induction false} ForegroundButtonsNavigate(c: NotificationContent, i: nat)
    requires i < |ForegroundAlert(c).buttons|
    ensures i == 0 ==> Press(ForegroundAlert(c).buttons[i]) == []
    ensures i == 1 ==> Press(ForegroundAlert(c).buttons[i]) == Navigation(c.data)
    ensures Truthy(UrlOf(c.data)) && !UrlOf(c.data).Str? ==>
      |ForegroundAlert(c).buttons| == 2 && Press(ForegroundAlert(c).buttons[1]) == []
  {
    var a := ForegroundAlert(c);
    if Truthy(UrlOf(c.data)) {
      assert a.buttons[1] == ViewButton(c.data);
      assert Press(a.buttons[1]) == Navigation(c.data);
    }
  }

  // ---------------------------------------------------------------------
  // Token persistence

  /** A row of the `devices` table. */
  datatype DeviceRow = DeviceRow(userId: string, token: string, platform: string, lastUsedAt: string)

  /** `supabase.from(table).upsert(row, { onConflict })`. */
  datatype Upsert = Upsert(table: string, row: DeviceRow, onConflict: string)

  /**
   * The upserts one run of the registration effect sends, given the user
   * id, what registration returned, `Platform.OS` and the current time.
   */
  function RegistrationUpserts(userId: Option<string>, token: Option<string>, os: string, now: string): (r: seq<Upsert>)
    ensures |r| <= 1
    ensures r != [] <==> TruthyString(userId) && TruthyString(token)
    ensures r != [] ==>
      && r[0].table == "devices"
      && r[0].onConflict == "token"
      && r[0].row == DeviceRow(userId.value, token.value, os, now)
  {
    if TruthyString(userId) && TruthyString(token)
    then [Upsert("devices", DeviceRow(userId.value, token.value, os, now), "token")]
    else []
  }

  /** The cold-start query's answer: `null`, or the response that opened the app. */
  datatype NotificationResponse = NotificationResponse(data: Option<Payload>)

  // ---------------------------------------------------------------------
  // The hook instance

  class Hook {
    /** The `hasCheckedInitial` ref. */
    var hasCheckedInitial: bool
    /** How often `getLastNotificationResponseAsync` has been queried. */
    var initialQueries: nat
    var scheduled: seq<DelayedPush>
    var alerts: seq<AlertCall>
    var upserts: seq<Upsert>
    /** Whether the foreground listener is subscribed. */
    var receivedListener: bool
    /** Whether the tap listener is subscribed. */
    var responseListener: bool

    /** The latch is up exactly when the cold-start query has been made, once. */
    ghost predicate Valid()
      reads this
    {
      initialQueries == if hasCheckedInitial then 1 else 0
    }

    constructor ()
      ensures Valid() && !hasCheckedInitial
      ensures scheduled == [] && alerts == [] && upserts == []
      ensures !receivedListener && !responseListener
    {
      hasCheckedInitial := false;
      initialQueries := 0;
      scheduled := [];
      alerts := [];
      upserts := [];
      receivedListener := false;
      responseListener := false;
    }

    /** `saveTokenToDatabase(token, userId)`: an upsert error is logged, never thrown. */
    method SaveTokenToDatabase(token: string, userId: string, os: string, now: string, error: Option<string>)
      requires Valid()
      modifies this`upserts
      ensures Valid()
      ensures upserts == old(upserts) + [Upsert("devices", DeviceRow(userId, token, os, now), "token")]
    {
      upserts := upserts + [Upsert("devices", DeviceRow(userId, token, os, now), "token")];
      if error.Some? {
        // `console.error`; the error goes no further.
      }
    }

    /** The registration effect, run for the current `userId`. */
    method RegisterEffect(userId: Option<string>, adapter: NotificationAdapter.Adapter, now: string, error: Option<string>)
      requires Valid()
      modifies this`upserts, adapter`calls
      ensures Valid()
      ensures adapter.calls == old(adapter.calls) +
        if TruthyString(userId) then NotificationAdapter.RegisterTrace(adapter.host, None) else []
      ensures upserts == old(upserts) + RegistrationUpserts(userId,
        if TruthyString(userId) then NotificationAdapter.RegisterResult(adapter.host, None) else None,
        adapter.host.os, now)
    {
      if !TruthyString(userId) {
        return;
      }
      var token := adapter.RegisterForPushNotifications(None);
      if TruthyString(token) {
        SaveTokenToDatabase(token.value, userId.value, adapter.host.os, now, error);
      }
    }

    /** Mounting the foreground effect subscribes its listener. */
    method SubscribeReceived()
      requires Valid()
      modifies this`receivedListener
      ensures Valid()
      ensures receivedListener
    {
      receivedListener := true;
    }

    /** The foreground effect's cleanup: `subscription.remove()`. */
    method RemoveReceived()
      requires Valid()
      modifies this`receivedListener
      ensures Valid()
      ensures !receivedListener
    {
      receivedListener := false;
    }

    /** Mounting the tap effect subscribes its listener. */
    method SubscribeResponse()
      requires Valid()
      modifies this`responseListener
      ensures Valid()
      ensures responseListener
    {
      responseListener := true;
    }

    /** The tap effect's cleanup: `subscription.remove()`. */
    method RemoveResponse()
      requires Valid()
      modifies this`responseListener
      ensures Valid()
      ensures !responseListener
    {
      responseListener := false;
    }

    /** A notification arrives while the app is in the foreground. */
    method OnNotificationReceived(c: NotificationContent)
      requires Valid()
      modifies this`alerts
      ensures Valid()
      ensures alerts == old(alerts) + if receivedListener then [ForegroundAlert(c)] else []
    {
      if receivedListener {
        alerts := alerts + [ForegroundAlert(c)];
      }
    }

    /** The user presses button `i` of an alert that was shown. */
    method PressAlertButton(a: AlertCall, i: nat)
      requires Valid()
      requires a in alerts && i < |a.buttons|
      modifies this`scheduled
      ensures Valid()
      ensures scheduled == old(scheduled) + Press(a.buttons[i])
    {
      match a.buttons[i].onPress
      case Dismiss =>
      case NavigateTo(data) =>
        scheduled := scheduled + Navigation(data);
    }

    /** The user taps a notification while the app is in the background or killed. */
    method OnNotificationResponse(data: Option<Payload>)
      requires Valid()
      modifies this`scheduled
      ensures Valid()
      ensures scheduled == old(scheduled) + if responseListener then Navigation(data) else []
    {
      if responseListener {
        scheduled := scheduled + Navigation(data);
      }
    }

    /**
     * The cold-start effect; `last` is what `getLastNotificationResponseAsync`
     * resolves to, consulted only when the query is made.
     */
    method CheckInitialResponse(last: Option<NotificationResponse>)
      requires Valid()
      modifies this`hasCheckedInitial, this`initialQueries, this`scheduled
      ensures Valid() && hasCheckedInitial && initialQueries == 1
      ensures scheduled == old(scheduled) +
        if old(hasCheckedInitial) || last.None? then [] else Navigation(last.value.data)
    {
      if hasCheckedInitial {
        return;
      }
      hasCheckedInitial := true;
      initialQueries := initialQueries + 1;
      if last.None? {
        return;
      }
      scheduled := scheduled + Navigation(last.value.data);
    }
  }

  /** Loading the hook's module calls `NotificationAdapter.setup()` once. */
  method LoadModule(adapter: NotificationAdapter.Adapter)
    modifies adapter
    ensures adapter.isSetup
    ensures adapter.calls == old(adapter.calls) + NotificationAdapter.SetupTrace(old(adapter.isSetup))
  {
    adapter.Setup();
  }

  /**
   * Remounting the cold-start effect on the same hook instance: however
   * the two queries would answer, at most one push is scheduled.
   */
  method ColdStartTwice(first: Option<NotificationResponse>, second: Option<NotificationResponse>)
    returns (pushes: seq<DelayedPush>)
    ensures |pushes| <= 1
    ensures pushes == if first.None? then [] else Navigation(first.value.data)
  {
    var hook := new Hook();
    hook.CheckInitialResponse(first);
    hook.CheckInitialResponse(second);
    pushes := hook.scheduled;
  }
}
