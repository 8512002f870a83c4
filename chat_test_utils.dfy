/** The inbound payload classifier `validateNotificationFormat` and the three
    payload builders of the chat test utilities. The classifier works by JS
    truthiness, and its flags are whatever `&&` and `||` return (a falsy
    operand or the final boolean), not necessarily booleans. */
module ChatTestUtils {
  import opened Js
  import opened Protocol

  datatype Kind = UserEvent | Text | Unknown

  datatype Details = Details(isUserEvent: Value, isTextMessage: Value, hasRequiredFields: Value)

  /** The object `validateNotificationFormat` returns. */
  datatype Validation = Validation(isValid: Value, kind: Kind, details: Details)

  const KnownEvents: seq<Value> := [Str("CONNECTED"), Str("DISCONNECTED")]

  /** `n.user && n.event && ['CONNECTED', 'DISCONNECTED'].includes(n.event)`:
      truthy exactly for a truthy `user` with one of the two events. */
  function IsUserEvent(n: JsObject): (r: Value)
    ensures Truthy(r) <==>
      Truthy(Get(n, "user")) && (Get(n, "event") == Str("CONNECTED") || Get(n, "event") == Str("DISCONNECTED"))
    ensures Truthy(r) ==> r == Bool(true)
  {
    And(And(Get(n, "user"), Get(n, "event")), Bool(Get(n, "event") in KnownEvents))
  }

  /** `n.sender && n.message && n.moment && typeof n.sender === 'number'`:
      truthy exactly for a nonzero numeric `sender` with a truthy `message`
      and `moment`. */
  function IsTextMessage(n: JsObject): (r: Value)
    ensures Truthy(r) <==>
      Get(n, "sender").Num? && Get(n, "sender").n != 0 && Truthy(Get(n, "message")) && Truthy(Get(n, "moment"))
    ensures Truthy(r) ==> r == Bool(true)
  {
    And(And(And(Get(n, "sender"), Get(n, "message")), Get(n, "moment")), Bool(Get(n, "sender").Num?))
  }

  /** `validateNotificationFormat(n)`. A user event takes precedence over a
      text message; the payload is `Unknown` exactly when it is not valid;
      `isValid` and `hasRequiredFields` are the same value, and when truthy
      they are `true`. */
  function ValidateNotificationFormat(n: JsObject): (v: Validation)
    ensures v.isValid == v.details.hasRequiredFields
    ensures v.details.isUserEvent == IsUserEvent(n) && v.details.isTextMessage == IsTextMessage(n)
    ensures Truthy(v.isValid) <==> Truthy(v.details.isUserEvent) || Truthy(v.details.isTextMessage)
    ensures v.kind == UserEvent <==> Truthy(v.details.isUserEvent)
    ensures v.kind == Text <==> !Truthy(v.details.isUserEvent) && Truthy(v.details.isTextMessage)
    ensures v.kind == Unknown <==> !Truthy(v.isValid)
    ensures Truthy(v.isValid) ==> v.isValid == Bool(true)
  {
    var isUserEvent := IsUserEvent(n);
    var isTextMessage := IsTextMessage(n);
    Validation(
      Or(isUserEvent, isTextMessage),
      if Truthy(isUserEvent) then UserEvent else if Truthy(isTextMessage) then Text else Unknown,
      Details(isUserEvent, isTextMessage, Or(isUserEvent, isTextMessage)))
  }

  /** `simulateUserConnected(userId)`, with the id given. */
  function SimulateUserConnected(userId: Value): (o: JsObject)
    ensures o.Keys == {"user", "event"} && o["user"] == userId && o["event"] == Str("CONNECTED")
    ensures ValidateUserNotification(Obj(o)) <==> userId.Num?
    ensures ValidateNotificationFormat(o).kind == UserEvent <==> Truthy(userId)
  {
    map["user" := userId, "event" := Str("CONNECTED")]
  }

  /** `simulateUserDisconnected(userId)`, with the id given: the connected
      notification for the same id with only its event changed. */
  function SimulateUserDisconnected(userId: Value): (o: JsObject)
    ensures o.Keys == {"user", "event"} && o["user"] == userId && o["event"] == Str("DISCONNECTED")
    ensures o == SimulateUserConnected(userId)["event" := Str("DISCONNECTED")]
    ensures ValidateUserNotification(Obj(o)) <==> userId.Num?
    ensures ValidateNotificationFormat(o).kind == UserEvent <==> Truthy(userId)
  {
    map["user" := userId, "event" := Str("DISCONNECTED")]
  }

  /** `simulateTextMessage(message, senderId)` stamped with `moment`. It
      classifies as text exactly for a truthy message, a nonzero numeric
      sender and a nonempty moment, and it never passes `validateMessage`,
      which still asks for the older envelope fields. */
  function SimulateTextMessage(message: Value, senderId: Value, moment: string): (o: JsObject)
    ensures o.Keys == {"sender", "message", "moment"}
    ensures o["sender"] == senderId && o["message"] == message && o["moment"] == Str(moment)
    ensures ValidateNotificationFormat(o).kind == Text <==>
      senderId.Num? && senderId.n != 0 && Truthy(message) && moment != ""
    ensures !ValidateMessage(Obj(o))
  {
    map["sender" := senderId, "message" := message, "moment" := Str(moment)]
  }

  /** Both user-notification builders with a nonzero numeric id produce a
      valid user event, accepted by both validators; the call of
      `validateUserNotification` returns rather than throws. */
  lemma UserBuildersClassify(id: int)
    requires id != 0
    ensures ValidateNotificationFormat(SimulateUserConnected(Num(id))) ==
      Validation(Bool(true), UserEvent, Details(Bool(true), Undefined, Bool(true)))
    ensures ValidateNotificationFormat(SimulateUserDisconnected(Num(id))) ==
      Validation(Bool(true), UserEvent, Details(Bool(true), Undefined, Bool(true)))
    ensures ValidateUserNotification(Obj(SimulateUserConnected(Num(id))))
    ensures ValidateUserNotification(Obj(SimulateUserDisconnected(Num(id))))
    ensures CallValidateUserNotification(Obj(SimulateUserConnected(Num(id)))) == Returned(true)
    ensures CallValidateUserNotification(Obj(SimulateUserDisconnected(Num(id)))) == Returned(true)
  {
    var c := SimulateUserConnected(Num(id));
    var d := SimulateUserDisconnected(Num(id));
    assert "sender" !in c && "sender" !in d;
  }

  /** A text builder with a nonempty string, a nonzero numeric sender and a
      nonempty moment produces a valid text message. */
  lemma TextBuilderClassifies(text: string, id: int, moment: string)
    requires text != "" && id != 0 && moment != ""
    ensures ValidateNotificationFormat(SimulateTextMessage(Str(text), Num(id), moment)) ==
      Validation(Bool(true), Text, Details(Undefined, Bool(true), Bool(true)))
  {
    var o := SimulateTextMessage(Str(text), Num(id), moment);
    assert "user" !in o;
  }

  /** User id `0` is a valid user notification for `validateUserNotification`
      (a number) but not a user event for the classifier (falsy); the
      classifier then reports `isValid` as the falsy `0` itself. */
  lemma ZeroUserDisagreement()
    ensures ValidateUserNotification(Obj(SimulateUserConnected(Num(0))))
    ensures ValidateNotificationFormat(SimulateUserConnected(Num(0))) ==
      Validation(Undefined, Unknown, Details(Num(0), Undefined, Undefined))
  {
    var o := SimulateUserConnected(Num(0));
    assert "sender" !in o;
  }

  /** A payload with both shapes is classified as a user event. */
  lemma UserEventTakesPrecedence(n: JsObject)
    requires Truthy(IsUserEvent(n)) && Truthy(IsTextMessage(n))
    ensures ValidateNotificationFormat(n).kind == UserEvent
  {
  }

  /** The envelope `sendMessage` produces passes `validateMessage` but the
      classifier does not recognise it: it has `timestamp` where the
      classifier asks for `moment`. */
  lemma OutboundEnvelopeIsUnknown(text: string, userId: Value, roomAddress: Value, now: string)
    ensures ValidateMessage(Obj(Envelope(text, userId, roomAddress, now)))
    ensures ValidateNotificationFormat(Envelope(text, userId, roomAddress, now)).kind == Unknown
  {
    var e := Envelope(text, userId, roomAddress, now);
    EnvelopeHasNoUser(e);
    EnvelopeHasNoMoment(e);
    NeitherShapeIsUnknown(e);
  }

  lemma EnvelopeHasNoUser(e: JsObject)
    requires e.Keys == {"message", "sender", "timestamp", "room_address", "type"}
    ensures "user" !in e
  {
  }

  lemma EnvelopeHasNoMoment(e: JsObject)
    requires e.Keys == {"message", "sender", "timestamp", "room_address", "type"}
    ensures "moment" !in e
  {
  }

  /** A payload with neither a `user` nor a `moment` field is unknown. */
  lemma NeitherShapeIsUnknown(n: JsObject)
    requires "user" !in n && "moment" !in n
    ensures ValidateNotificationFormat(n).kind == Unknown
  {
  }

  /** The payloads of the format demonstration script: a text message from
      sender 12345 and both notifications for user 67890. */
  lemma DemonstrationPayloads(moment: string)
    requires moment != ""
    ensures ValidateNotificationFormat(SimulateTextMessage(Str("Ol\U{E1} pessoal! Como est\U{E3}o?"), Num(12345), moment)).kind == Text
    ensures ValidateNotificationFormat(SimulateUserConnected(Num(67890))).kind == UserEvent
    ensures ValidateNotificationFormat(SimulateUserDisconnected(Num(67890))).kind == UserEvent
  {
  }
}
