/**
 * The decisions `sendPushNotification` (functions/index.js) takes for one new
 * `push_notifications` record: validation, the user lookup, one FCM send per
 * registered token, the invalid-token cleanup and the status written back.
 *
 * Firestore and FCM are inputs: the user lookup is a `UserLookup`, and
 * `respond(n)` is FCM's answer to the n-th send of this invocation.
 */
module PushDispatch {
  import opened Wrappers
  import opened JsValues
  import opened PushPayload

  type Token = string

  /** What `messaging.send` does with one message: resolve with a message id, or throw. */
  datatype SendOutcome = Accepted(messageId: string) | Rejected(code: string, message: string)

  /** One entry of `sendResults`: `response` on success, `error.message` on failure. */
  datatype SendResult = SendResult(token: Token, success: bool, detail: string)

  /** The `users/{userId}` read: no document, a document with its `fcmTokens` field, or a thrown error. */
  datatype UserLookup = NoSuchUser | UserFound(fcmTokens: Option<seq<Token>>) | LookupFailed(message: string)

  /** The update written to the notification record. */
  datatype StatusUpdate =
    | NotSent(error: string)                      // {sent: false, error}
    | Crashed(error: string)                      // {sent: false, error, errorAt}, from the catch-all
    | Delivered(successCount: nat, totalTokens: nat, invalidTokensRemoved: nat)  // {sent: true, sentAt, ...}

  /** The value the handler returns. */
  datatype Reply = NullReply | SuccessReply(sentCount: nat) | FailureReply(error: string)

  datatype Dispatch = Dispatch(
    lookedUp: bool,                 // whether the user document was read
    message: Option<Message>,       // the message built, when the handler got that far
    sends: seq<Token>,              // the tokens handed to `messaging.send`, in order
    results: seq<SendResult>,
    invalidTokens: seq<Token>,
    removed: Option<seq<Token>>,    // the `arrayRemove` issued on the user's tokens, if any
    status: StatusUpdate,
    reply: Reply)

  const InvalidRegistrationToken: string := "messaging/invalid-registration-token"
  const TokenNotRegistered: string := "messaging/registration-token-not-registered"

  /** The two FCM error codes after which a token is dropped from the profile. */
  predicate MarksInvalid(o: SendOutcome) {
    o.Rejected? && (o.code == InvalidRegistrationToken || o.code == TokenNotRegistered)
  }

  function ResultOf(token: Token, o: SendOutcome): SendResult {
    match o
    case Accepted(id) => SendResult(token, true, id)
    case Rejected(_, msg) => SendResult(token, false, msg)
  }

  /** `sendResults` after one send per token, in list order. */
  function Results(tokens: seq<Token>, respond: nat -> SendOutcome): (rs: seq<SendResult>)
    ensures |rs| == |tokens|
    decreases |tokens|
  {
    if tokens == [] then []
    else
      var n := |tokens| - 1;
      Results(tokens[..n], respond) + [ResultOf(tokens[n], respond(n))]
  }

  /** `invalidTokens`: the tokens whose send failed with one of the two invalid-token codes, in order. */
  function InvalidTokens(tokens: seq<Token>, respond: nat -> SendOutcome): (inv: seq<Token>)
    ensures |inv| <= |tokens|
    decreases |tokens|
  {
    if tokens == [] then []
    else
      var n := |tokens| - 1;
      InvalidTokens(tokens[..n], respond) + (if MarksInvalid(respond(n)) then [tokens[n]] else [])
  }

  /** `sendResults.filter((r) => r.success).length`. */
  function CountSuccesses(rs: seq<SendResult>): (c: nat)
    ensures c <= |rs|
    ensures c == 0 <==> forall i :: 0 <= i < |rs| ==> !rs[i].success
    decreases |rs|
  {
    if rs == [] then 0
    else CountSuccesses(rs[..|rs| - 1]) + (if rs[|rs| - 1].success then 1 else 0)
  }

  /**
   * The `for (const token of fcmTokens)` loop: one awaited send per token, in
   * list order, recording each result and collecting the invalid tokens.
   */
  method SendToEach(tokens: seq<Token>, respond: nat -> SendOutcome)
    returns (sends: seq<Token>, results: seq<SendResult>, invalid: seq<Token>)
    ensures sends == tokens
    ensures results == Results(tokens, respond)
    ensures invalid == InvalidTokens(tokens, respond)
  {
    sends, results, invalid := [], [], [];
    var i := 0;
    while i < |tokens|
      invariant 0 <= i <= |tokens|
      invariant sends == tokens[..i]
      invariant results == Results(tokens[..i], respond)
      invariant invalid == InvalidTokens(tokens[..i], respond)
    {
      PrefixStep(tokens, respond, i);
      sends := sends + [tokens[i]];
      var outcome := respond(i);
      match outcome {
        case Accepted(id) =>
          results := results + [SendResult(tokens[i], true, id)];
        case Rejected(code, msg) =>
          results := results + [SendResult(tokens[i], false, msg)];
          // only the two invalid-token codes mark a token for removal
          if code == InvalidRegistrationToken || code == TokenNotRegistered {
            invalid := invalid + [tokens[i]];
          }
      }
      i := i + 1;
    }
    assert tokens[..|tokens|] == tokens;
  }

  /** Extending the prefix by one token appends that token's result and, if invalid, the token. */
  lemma PrefixStep(tokens: seq<Token>, respond: nat -> SendOutcome, i: nat)
    requires i < |tokens|
    ensures Results(tokens[..i + 1], respond) == Results(tokens[..i], respond) + [ResultOf(tokens[i], respond(i))]
    ensures InvalidTokens(tokens[..i + 1], respond) ==
            InvalidTokens(tokens[..i], respond) + (if MarksInvalid(respond(i)) then [tokens[i]] else [])
  {
    var next := tokens[..i + 1];
    assert next[..i] == tokens[..i] && next[i] == tokens[i];
  }

  /** Entry `i` of `sendResults` belongs to the i-th token and succeeded exactly when FCM accepted the i-th send. */
  lemma {:induction false} ResultsPositions(tokens: seq<Token>, respond: nat -> SendOutcome, i: nat)
    requires i < |tokens|
    ensures Results(tokens, respond)[i].token == tokens[i]
    ensures Results(tokens, respond)[i].success <==> respond(i).Accepted?
    ensures !Results(tokens, respond)[i].success ==> Results(tokens, respond)[i].detail == respond(i).message
    decreases |tokens|
  {
    var n := |tokens| - 1;
    if i < n {
      ResultsPositions(tokens[..n], respond, i);
      assert tokens[..n][i] == tokens[i];
    }
  }

  /** `invalidTokens` only ever holds tokens from the list, each at most as often as it occurs there. */
  lemma {:induction false} InvalidTokensFromList(tokens: seq<Token>, respond: nat -> SendOutcome)
    ensures multiset(InvalidTokens(tokens, respond)) <= multiset(tokens)
    decreases |tokens|
  {
    if tokens != [] {
      var n := |tokens| - 1;
      InvalidTokensFromList(tokens[..n], respond);
      assert tokens == tokens[..n] + [tokens[n]];
    }
  }

  /**
   * The handler body. Early exits write `{sent: false, error}` and return null;
   * a thrown lookup or cleanup error lands in the catch-all.
   */
  method SendPushNotification(
    req: PushRequest,
    lookup: UserLookup,
    respond: nat -> SendOutcome,
    removalError: Option<string>)
    returns (d: Dispatch)
    // missing userId or title: no lookup, no send
    ensures !Truthy(req.userId) || !Truthy(req.title) ==>
              d == Dispatch(false, None, [], [], [], None, NotSent("Missing required fields"), NullReply)
    // the remaining early exits send nothing
    ensures Truthy(req.userId) && Truthy(req.title) && lookup.NoSuchUser? ==>
              d == Dispatch(true, None, [], [], [], None, NotSent("User not found"), NullReply)
    ensures Truthy(req.userId) && Truthy(req.title) && lookup.UserFound? && TokensOf(lookup) == [] ==>
              d == Dispatch(true, None, [], [], [], None, NotSent("No FCM tokens"), NullReply)
    ensures Truthy(req.userId) && Truthy(req.title) && lookup.LookupFailed? ==>
              d == Dispatch(true, None, [], [], [], None, Crashed(lookup.message), FailureReply(lookup.message))
    // otherwise one send per token, in list order
    ensures Truthy(req.userId) && Truthy(req.title) && lookup.UserFound? && TokensOf(lookup) != [] ==>
              var tokens := TokensOf(lookup);
              && d.lookedUp
              && d.message == Some(BuildMessage(req))
              && d.sends == tokens
              && d.results == Results(tokens, respond)
              && d.invalidTokens == InvalidTokens(tokens, respond)
              && (d.removed.Some? <==> d.invalidTokens != [])
              && (d.removed.Some? ==> d.removed.value == d.invalidTokens)
              && (d.invalidTokens != [] && removalError.Some? ==>
                    d.status == Crashed(removalError.value) && d.reply == FailureReply(removalError.value))
              && (d.invalidTokens == [] || removalError.None? ==>
                    && d.status == Delivered(CountSuccesses(d.results), |tokens|, |d.invalidTokens|)
                    && d.reply == SuccessReply(CountSuccesses(d.results)))
    // a failed send leaves `sent` false only through the catch-all, never through an early exit
    ensures d.sends != [] ==> d.status.Delivered? || d.status.Crashed?
    // every send is counted at most once in the final record
    ensures d.status.Delivered? ==>
              d.status.invalidTokensRemoved + d.status.successCount <= d.status.totalTokens
  {
    if !Truthy(req.userId) || !Truthy(req.title) {
      return Dispatch(false, None, [], [], [], None, NotSent("Missing required fields"), NullReply);
    }
    match lookup
    case LookupFailed(msg) =>
      return Dispatch(true, None, [], [], [], None, Crashed(msg), FailureReply(msg));
    case NoSuchUser =>
      return Dispatch(true, None, [], [], [], None, NotSent("User not found"), NullReply);
    case UserFound(field) =>
      var tokens := if field.Some? then field.value else [];
      if |tokens| == 0 {
        return Dispatch(true, None, [], [], [], None, NotSent("No FCM tokens"), NullReply);
      }
      var message := BuildMessage(req);
      var sends, results, invalid := SendToEach(tokens, respond);
      var removed := if |invalid| > 0 then Some(invalid) else None;
      if |invalid| > 0 && removalError.Some? {
        return Dispatch(true, Some(message), sends, results, invalid, removed,
                        Crashed(removalError.value), FailureReply(removalError.value));
      }
      var successCount := CountSuccesses(results);
      CountsWithinTotal(tokens, respond);
      return Dispatch(true, Some(message), sends, results, invalid, removed,
                      Delivered(successCount, |tokens|, |invalid|), SuccessReply(successCount));
  }

  /** `userData.fcmTokens || []`. */
  function TokensOf(lookup: UserLookup): (tokens: seq<Token>)
    requires lookup.UserFound?
    // a present list is used as is; a missing field reads as no tokens
    ensures lookup.fcmTokens.Some? ==> tokens == lookup.fcmTokens.value
    ensures tokens == [] <==> lookup.fcmTokens.None? || lookup.fcmTokens.value == []
  {
    if lookup.fcmTokens.Some? then lookup.fcmTokens.value else []
  }

  /** A token is in `invalidTokens` exactly when one of its sends failed with an invalid-token code. */
  lemma {:induction false} InvalidTokensExactly(tokens: seq<Token>, respond: nat -> SendOutcome, t: Token)
    ensures t in InvalidTokens(tokens, respond) <==>
              exists i :: 0 <= i < |tokens| && tokens[i] == t && MarksInvalid(respond(i))
    decreases |tokens|
  {
    if tokens != [] {
      var n := |tokens| - 1;
      var prefix := tokens[..n];
      var tail := if MarksInvalid(respond(n)) then [tokens[n]] else [];
      assert InvalidTokens(tokens, respond) == InvalidTokens(prefix, respond) + tail;
      InvalidTokensExactly(prefix, respond, t);
      if t in InvalidTokens(tokens, respond) {
        if t in InvalidTokens(prefix, respond) {
          var i :| 0 <= i < |prefix| && prefix[i] == t && MarksInvalid(respond(i));
          assert tokens[i] == t;
        } else {
          assert t in tail;
          assert tokens[n] == t && MarksInvalid(respond(n));
        }
      }
      if exists i :: 0 <= i < |tokens| && tokens[i] == t && MarksInvalid(respond(i)) {
        var i :| 0 <= i < |tokens| && tokens[i] == t && MarksInvalid(respond(i));
        if i < n {
          assert prefix[i] == t;
        } else {
          assert t in tail;
        }
      }
    }
  }

  /** With distinct tokens, a token whose send succeeded is never scheduled for removal. */
  lemma DeliveredTokenKept(tokens: seq<Token>, respond: nat -> SendOutcome, i: nat)
    requires i < |tokens|
    requires forall j, k :: 0 <= j < k < |tokens| ==> tokens[j] != tokens[k]
    requires respond(i).Accepted?
    ensures tokens[i] !in InvalidTokens(tokens, respond)
  {
    InvalidTokensExactly(tokens, respond, tokens[i]);
    forall j | 0 <= j < |tokens| && tokens[j] == tokens[i]
      ensures !MarksInvalid(respond(j))
    {
      assert j == i;
    }
  }

  /**
   * Each send is counted at most once, either as a success or as an invalid
   * token, so `invalidTokensRemoved + successCount <= totalTokens`.
   */
  lemma {:induction false} CountsWithinTotal(tokens: seq<Token>, respond: nat -> SendOutcome)
    ensures CountSuccesses(Results(tokens, respond)) + |InvalidTokens(tokens, respond)| <= |tokens|
    decreases |tokens|
  {
    if tokens != [] {
      var n := |tokens| - 1;
      CountsWithinTotal(tokens[..n], respond);
      ResultsStep(tokens, respond);
    }
  }

  /** The positions among the first `n` sends that FCM accepted. */
  function AcceptedSends(respond: nat -> SendOutcome, n: nat): set<nat> {
    set i: nat | i < n && respond(i).Accepted?
  }

  /** `successCount` is the number of sends FCM accepted. */
  lemma {:induction false} SuccessCountIsAcceptedSends(tokens: seq<Token>, respond: nat -> SendOutcome)
    ensures CountSuccesses(Results(tokens, respond)) == |AcceptedSends(respond, |tokens|)|
    decreases |tokens|
  {
    if tokens != [] {
      var n := |tokens| - 1;
      SuccessCountIsAcceptedSends(tokens[..n], respond);
      ResultsStep(tokens, respond);
      AcceptedSendsStep(respond, n);
    }
  }

  /** Dropping the last token drops the last entry of `sendResults`, and that entry is the last send's. */
  lemma ResultsStep(tokens: seq<Token>, respond: nat -> SendOutcome)
    requires tokens != []
    ensures var rs := Results(tokens, respond);
            && rs[..|rs| - 1] == Results(tokens[..|tokens| - 1], respond)
            && rs[|rs| - 1] == ResultOf(tokens[|tokens| - 1], respond(|tokens| - 1))
  {
  }

  /** One more send adds one accepted position exactly when FCM accepted it. */
  lemma AcceptedSendsStep(respond: nat -> SendOutcome, n: nat)
    ensures |AcceptedSends(respond, n + 1)| == |AcceptedSends(respond, n)| + (if respond(n).Accepted? then 1 else 0)
  {
    var before := AcceptedSends(respond, n);
    if respond(n).Accepted? {
      assert AcceptedSends(respond, n + 1) == before + {n};
    } else {
      assert AcceptedSends(respond, n + 1) == before;
    }
  }
}
