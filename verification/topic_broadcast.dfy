/**
 * `sendTopicNotification` (functions/index.js): the callable that broadcasts an
 * announcement to a topic. The single FCM send is an input.
 */
module TopicBroadcast {
  import opened Wrappers
  import opened JsValues
  import PushDispatch
  import PushPayload

  /** The fields destructured from the callable's `data`. */
  datatype TopicRequest = TopicRequest(topic: Value, title: Value, body: Value, kind: Value)

  datatype TopicMessage = TopicMessage(
    title: string,
    body: string,
    kind: string,
    clickAction: string,
    topic: string,
    androidIcon: string,
    androidColor: string,
    androidChannelId: string)

  /** What the callable resolves with, or the `HttpsError` it throws. */
  datatype CallResult = Ok(messageId: string) | HttpsError(code: string, message: string)

  datatype TopicCall = TopicCall(sent: Option<TopicMessage>, result: CallResult)

  const DefaultAnnouncement: string := "You have a new announcement"

  function SendTopicNotification(authenticated: bool, req: TopicRequest, outcome: PushDispatch.SendOutcome)
    : (c: TopicCall)
    // the authentication check comes first and sends nothing
    ensures !authenticated ==>
              c == TopicCall(None, HttpsError("unauthenticated", "User must be authenticated"))
    ensures authenticated && (!Truthy(req.topic) || !Truthy(req.title)) ==>
              c == TopicCall(None, HttpsError("invalid-argument", "Topic and title are required"))
    // a message goes out exactly when both checks pass
    ensures c.sent.Some? <==> authenticated && Truthy(req.topic) && Truthy(req.title)
    ensures c.sent.Some? ==>
              && c.sent.value.topic == req.topic.s
              && c.sent.value.title == req.title.s
              && c.sent.value.body == (if Truthy(req.body) then req.body.s else DefaultAnnouncement)
              && c.sent.value.kind == (if Truthy(req.kind) then req.kind.s else "announcement")
    // a failed send surfaces as an `internal` error carrying FCM's message
    ensures c.sent.Some? ==>
              (c.result.Ok? <==> outcome.Accepted?)
              && (outcome.Accepted? ==> c.result.messageId == outcome.messageId)
              && (outcome.Rejected? ==> c.result == HttpsError("internal", outcome.message))
    ensures c.result.HttpsError? ==> c.result.code in {"unauthenticated", "invalid-argument", "internal"}
  {
    if !authenticated then
      TopicCall(None, HttpsError("unauthenticated", "User must be authenticated"))
    else if !Truthy(req.topic) || !Truthy(req.title) then
      TopicCall(None, HttpsError("invalid-argument", "Topic and title are required"))
    else
      var message := TopicMessage(
        req.title.s,
        OrElse(req.body, DefaultAnnouncement),
        OrElse(req.kind, "announcement"),
        PushPayload.ClickAction,
        req.topic.s,
        "ic_launcher",
        "#6366F1",
        "faith_connect_notifications");
      match outcome
      case Accepted(id) => TopicCall(Some(message), Ok(id))
      case Rejected(_, msg) => TopicCall(Some(message), HttpsError("internal", msg))
  }

  /**
   * A broadcast and a per-user push that both go out open the app the same way
   * and land in the same Android channel with the same icon and colour, while
   * their fallback texts differ.
   */
  lemma BroadcastMatchesPushStyling(authenticated: bool, t: TopicRequest, outcome: PushDispatch.SendOutcome,
                                    p: PushPayload.PushRequest)
    requires Truthy(p.title)
    ensures var c := SendTopicNotification(authenticated, t, outcome);
            var m := PushPayload.BuildMessage(p);
            c.sent.Some? ==>
              && c.sent.value.clickAction == m.data.clickAction
              && c.sent.value.androidIcon == m.android.notification.icon
              && c.sent.value.androidColor == m.android.notification.color
              && c.sent.value.androidChannelId == m.android.notification.channelId
    ensures DefaultAnnouncement != PushPayload.FallbackBody
  {
  }
}
