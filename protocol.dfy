/** The pure parts of the chat socket utility: the two inbound shape
    validators, the outbound text envelope built by `sendMessage`, and the
    exponential backoff delay used by `scheduleReconnect`. */
module Protocol {
  import opened Js

  /** The fields `validateMessage` requires, in the order it checks them. */
  const MessageFields: seq<string> := ["message", "sender", "timestamp", "room_address", "type"]

  /** The fields `validateUserNotification` requires. */
  const NotificationFields: seq<string> := ["user", "event"]

  /** The events a user notification may carry. */
  const ValidEvents: seq<Value> := [Str("CONNECTED"), Str("DISCONNECTED")]

  /** `validateMessage`: false for a falsy value or a non-object, otherwise
      true exactly when all five envelope fields are own properties (their
      values are not looked at). */
  function ValidateMessage(message: Value): (ok: bool)
    ensures ok <==> message.Obj? && {"message", "sender", "timestamp", "room_address", "type"} <= message.fields.Keys
  {
    if !Truthy(message) || !IsObjectType(message) then false
    else HasAllOwn(message.fields, MessageFields)
  }

  /** `validateUserNotification`: an object with own `user` and `event`,
      whose `event` is one of the two known events and whose `user` is a
      number. */
  function ValidateUserNotification(notification: Value): (ok: bool)
    ensures ok <==>
      && notification.Obj?
      && "user" in notification.fields && "event" in notification.fields
      && (notification.fields["event"] == Str("CONNECTED") || notification.fields["event"] == Str("DISCONNECTED"))
      && notification.fields["user"].Num?
  {
    if !Truthy(notification) || !IsObjectType(notification) then false
    else
      var o := notification.fields;
      HasAllOwn(o, NotificationFields) && Get(o, "event") in ValidEvents && Get(o, "user").Num?
  }

  /** What a call to one of the validators does: return a verdict, or throw. */
  datatype Outcome = Returned(ok: bool) | Threw

  /** A call of `validateMessage` as the code runs it. The field test is
      `message.hasOwnProperty(field)`, so an object with an own property named
      `hasOwnProperty` (never a function among these values) shadows the
      inherited method and the first test throws a `TypeError`; every other
      value gets the verdict of `ValidateMessage`. */
  function CallValidateMessage(message: Value): (r: Outcome)
    ensures r.Threw? <==> message.Obj? && "hasOwnProperty" in message.fields
    ensures r.Returned? ==> r.ok == ValidateMessage(message)
  {
    if !Truthy(message) || !IsObjectType(message) then Returned(false)
    else if "hasOwnProperty" in message.fields then Threw
    else Returned(HasAllOwn(message.fields, MessageFields))
  }

  /** A call of `validateUserNotification` as the code runs it: the same
      shadowing makes it throw before `event` or `user` is looked at. */
  function CallValidateUserNotification(notification: Value): (r: Outcome)
    ensures r.Threw? <==> notification.Obj? && "hasOwnProperty" in notification.fields
    ensures r.Returned? ==> r.ok == ValidateUserNotification(notification)
  {
    if !Truthy(notification) || !IsObjectType(notification) then Returned(false)
    else if "hasOwnProperty" in notification.fields then Threw
    else
      var o := notification.fields;
      Returned(HasAllOwn(o, NotificationFields) && Get(o, "event") in ValidEvents && Get(o, "user").Num?)
  }

  /** The object `sendMessage` serialises: the trimmed text, the sender and
      room the socket was created with, the send time and the fixed type. */
  function Envelope(text: string, userId: Value, roomAddress: Value, now: string): (e: JsObject)
    ensures e.Keys == {"message", "sender", "timestamp", "room_address", "type"}
    ensures ValidateMessage(Obj(e)) && CallValidateMessage(Obj(e)) == Returned(true)
    ensures e["message"] == Str(Trim(text)) && e["type"] == Str("TEXT")
    ensures e["sender"] == userId && e["room_address"] == roomAddress && e["timestamp"] == Str(now)
  {
    map["message" := Str(Trim(text)), "sender" := userId, "timestamp" := Str(now),
        "room_address" := roomAddress, "type" := Str("TEXT")]
  }

  /** Retries allowed before the backoff gives up. */
  const MaxReconnectAttempts: nat := 5

  /** Base reconnect delay in milliseconds. */
  const ReconnectDelay: nat := 1000

  /** `Math.pow(2, n)` for a natural exponent. */
  function Pow2(n: nat): (p: nat)
    ensures p >= 1
    ensures n >= 1 ==> p % 2 == 0
  {
    if n == 0 then 1 else 2 * Pow2(n - 1)
  }

  /** The delay scheduled for reconnect attempt `attempt` (counted from 1). */
  function Backoff(attempt: nat): (delay: nat)
    requires attempt >= 1
    ensures delay >= ReconnectDelay
  {
    ReconnectDelay * Pow2(attempt - 1)
  }

  /** Each attempt waits twice as long as the one before. */
  lemma BackoffDoubles(attempt: nat)
    requires attempt >= 1
    ensures Backoff(attempt + 1) == 2 * Backoff(attempt)
  {
  }

  /** Later attempts never wait less. */
  lemma {:induction false} BackoffMonotone(i: nat, j: nat)
    requires 1 <= i <= j
    ensures Backoff(i) <= Backoff(j)
  {
    if i < j {
      BackoffMonotone(i, j - 1);
      BackoffDoubles(j - 1);
    }
  }

  /** The five delays of a full retry budget. */
  lemma BackoffSchedule()
    ensures [Backoff(1), Backoff(2), Backoff(3), Backoff(4), Backoff(5)] == [1000, 2000, 4000, 8000, 16000]
  {
  }

  /** Every delay within the budget lies between one and sixteen seconds. */
  lemma BackoffBounded(attempt: nat)
    requires 1 <= attempt <= MaxReconnectAttempts
    ensures 1000 <= Backoff(attempt) <= 16000
  {
    BackoffMonotone(attempt, MaxReconnectAttempts);
    BackoffSchedule();
  }
}
