/**
 * The FCM message that `sendPushNotification` builds from a `push_notifications`
 * record (functions/index.js), and the `getDefaultBody` table it falls back on.
 */
module PushPayload {
  import opened Wrappers
  import opened JsValues

  /** The fields destructured from a new `push_notifications` record. */
  datatype PushRequest = PushRequest(
    userId: Value,
    title: Value,
    body: Value,
    kind: Value,
    postId: Value,
    chatId: Value,
    imageUrl: Value)

  datatype Notification = Notification(title: string, body: string, imageUrl: Option<string>)

  datatype MessageData = MessageData(kind: string, postId: string, chatId: string, clickAction: string)

  datatype AndroidNotification = AndroidNotification(
    icon: string,
    color: string,
    channelId: string,
    priority: string,
    defaultSound: bool,
    defaultVibrateTimings: bool,
    imageUrl: Option<string>)

  datatype AndroidConfig = AndroidConfig(notification: AndroidNotification, priority: string)

  /** The `apns.payload.aps` part: alert title and body, badge and sound. */
  datatype Aps = Aps(alertTitle: string, alertBody: string, badge: int, sound: string)

  datatype Message = Message(
    notification: Notification,
    data: MessageData,
    android: AndroidConfig,
    apns: Aps)

  const FallbackBody: string := "You have a new notification"
  const ClickAction: string := "FLUTTER_NOTIFICATION_CLICK"

  /** The notification types that have a body of their own. */
  const KnownTypes: set<string> := {"like", "comment", "newFollower", "newMessage", "newPost", "newReel"}

  predicate IsKnownType(kind: Value) {
    kind.Str? && kind.s in KnownTypes
  }

  /**
   * `getDefaultBody(type)`: a `switch` with strict equality, so only the six
   * listed strings select a text of their own; every other value, including an
   * absent type, selects the generic text.
   */
  function DefaultBody(kind: Value): (r: string)
    ensures r != ""
    ensures r == FallbackBody <==> !IsKnownType(kind)
  {
    match kind
    case Str("like") => "liked your content"
    case Str("comment") => "commented on your content"
    case Str("newFollower") => "started following you"
    case Str("newMessage") => "sent you a message"
    case Str("newPost") => "posted new content"
    case Str("newReel") => "posted a new reel"
    case _ => FallbackBody
  }

  /** The type a default text was chosen for; `None` for the generic text or any other string. */
  function TypeOfDefaultBody(text: string): (kind: Option<string>)
    ensures kind.Some? ==> kind.value in KnownTypes
  {
    if text == "liked your content" then Some("like")
    else if text == "commented on your content" then Some("comment")
    else if text == "started following you" then Some("newFollower")
    else if text == "sent you a message" then Some("newMessage")
    else if text == "posted new content" then Some("newPost")
    else if text == "posted a new reel" then Some("newReel")
    else None
  }

  /** Every known type's text leads back to that type, and the generic text to none. */
  lemma DefaultBodyRoundTrip(kind: Value)
    ensures IsKnownType(kind) ==> TypeOfDefaultBody(DefaultBody(kind)) == Some(kind.s)
    ensures !IsKnownType(kind) ==> TypeOfDefaultBody(DefaultBody(kind)) == None
  {
  }

  /** Distinct known types get distinct texts, so the text identifies the type. */
  lemma DefaultBodyDistinguishesTypes(k1: Value, k2: Value)
    requires IsKnownType(k1) && IsKnownType(k2)
    ensures DefaultBody(k1) == DefaultBody(k2) <==> k1 == k2
  {
    DefaultBodyRoundTrip(k1);
    DefaultBodyRoundTrip(k2);
  }

  /**
   * The message built once validation has passed (the caller has checked that
   * `title` is truthy).
   */
  function BuildMessage(req: PushRequest): (m: Message)
    requires Truthy(req.title)
    // the same title and the same body reach both the FCM notification and the APNS alert
    ensures m.notification.title == req.title.s && m.apns.alertTitle == req.title.s
    ensures m.notification.body == m.apns.alertBody
    ensures m.notification.body != ""
    ensures Truthy(req.body) ==> m.notification.body == req.body.s
    ensures !Truthy(req.body) ==> m.notification.body == DefaultBody(req.kind)
    ensures m.data.kind == (if Truthy(req.kind) then req.kind.s else "general")
    ensures m.data.postId == (if Truthy(req.postId) then req.postId.s else "")
    ensures m.data.chatId == (if Truthy(req.chatId) then req.chatId.s else "")
    // the image is attached to both notifications exactly when it is provided
    ensures m.notification.imageUrl.Some? <==> Truthy(req.imageUrl)
    ensures m.android.notification.imageUrl == m.notification.imageUrl
    ensures m.notification.imageUrl.Some? ==> m.notification.imageUrl.value == req.imageUrl.s
  {
    var body := OrElse(req.body, DefaultBody(req.kind));
    var image := if Truthy(req.imageUrl) then Some(req.imageUrl.s) else None;
    Message(
      Notification(req.title.s, body, image),
      MessageData(OrElse(req.kind, "general"), OrElse(req.postId, ""), OrElse(req.chatId, ""), ClickAction),
      AndroidConfig(
        AndroidNotification("ic_launcher", "#6366F1", "faith_connect_notifications", "high", true, true, image),
        "high"),
      Aps(req.title.s, body, 1, "default"))
  }
}
