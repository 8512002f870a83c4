/** The `ChatWebSocket` class: the connection object with its mutable fields,
    its public methods, and one method per transport event (the handlers that
    `connect` installs on each socket it creates). Each event handler,
    `Connect`, `FireTimer`, `SendMessage`, `Disconnect` and the setters are
    proved to change the object exactly as `ConnectionSpec.Step` says, and
    `ScheduleReconnect` as `ConnectionSpec.ScheduleStep` says; all of them
    keep `ConnectionSpec.Inv`. */
module ChatSocket {
  import opened Js
  import opened Protocol
  import opened ConnectionSpec

  class ChatWebSocket {
    const roomAddress: Value
    const userId: Value
    /** The current socket, `null` in the source. */
    var websocket: Option<SocketId>
    var isConnected: bool
    var reconnectAttempts: nat
    const maxReconnectAttempts: nat := MaxReconnectAttempts
    const reconnectDelay: nat := ReconnectDelay

    var onOpen: Option<CallbackId>
    var onMessage: Option<CallbackId>
    var onClose: Option<CallbackId>
    var onError: Option<CallbackId>
    var onConnectionChange: Option<CallbackId>

    // What the object has done to its environment: sockets it created,
    // `setTimeout`s still pending (by delay), frames handed to `send`, calls
    // to `close` and callback invocations.
    var socketsCreated: nat
    var pendingTimers: seq<nat>
    var sentFrames: seq<Frame>
    var closeRequests: seq<CloseRequest>
    var calls: seq<Call>

    /** The object's state as a value. */
    ghost function Model(): Conn
      reads this
    {
      Conn(roomAddress, userId, websocket, isConnected, reconnectAttempts, socketsCreated,
           pendingTimers, sentFrames, closeRequests,
           Callbacks(onOpen, onMessage, onClose, onError, onConnectionChange), calls)
    }

    ghost predicate Valid()
      reads this
    {
      Inv(Model())
    }

    constructor (roomAddress: Value, userId: Value)
      ensures Valid() && Model() == Init(roomAddress, userId)
      ensures maxReconnectAttempts == 5 && reconnectDelay == 1000
    {
      this.roomAddress := roomAddress;
      this.userId := userId;
      websocket := None;
      isConnected := false;
      reconnectAttempts := 0;
      onOpen, onMessage, onClose, onError, onConnectionChange := None, None, None, None, None;
      socketsCreated := 0;
      pendingTimers, sentFrames, closeRequests, calls := [], [], [], [];
    }

    /** `if (this.onX) this.onX(notice)`. */
    method Fire(slot: Option<CallbackId>, notice: Notice)
      modifies this`calls
      ensures calls == old(calls) + Invoke(slot, notice)
    {
      if slot.Some? {
        calls := calls + [Call(slot.value, notice)];
      }
    }

    /** `connect()`; `ctorThrows` says whether `new WebSocket(url)` throws. */
    method Connect(ctorThrows: bool)
      requires Valid()
      modifies this
      ensures Valid() && Model() == Step(old(Model()), Event.Connect(ctorThrows))
    {
      if ctorThrows {
        isConnected := false;
        Fire(onConnectionChange, ConnectionChanged(false));
      } else {
        websocket := Some(socketsCreated);
        socketsCreated := socketsCreated + 1;
      }
      StepPreservesInv(old(Model()), Event.Connect(ctorThrows));
    }

    /** The `onopen` handler of socket `from`. */
    method OnOpen(from: SocketId)
      requires Valid() && from < socketsCreated
      modifies this
      ensures Valid() && Model() == Step(old(Model()), Open(from))
      ensures isConnected && reconnectAttempts == 0
    {
      isConnected := true;
      reconnectAttempts := 0;
      Fire(onOpen, Opened);
      Fire(onConnectionChange, ConnectionChanged(true));
      StepPreservesInv(old(Model()), Open(from));
    }

    /** The `onmessage` handler of socket `from`; `parsed` is the result of
        `JSON.parse`, `None` when it throws. */
    method OnMessage(from: SocketId, parsed: Option<Value>)
      requires Valid() && from < socketsCreated
      modifies this
      ensures Valid() && Model() == Step(old(Model()), Message(from, parsed))
    {
      if parsed.Some? {
        Fire(onMessage, Received(parsed.value));
      }
      StepPreservesInv(old(Model()), Message(from, parsed));
    }

    /** The `onclose` handler of socket `from`. */
    method OnClose(from: SocketId, wasClean: bool)
      requires Valid() && from < socketsCreated
      modifies this
      ensures Valid() && Model() == Step(old(Model()), Close(from, wasClean))
      ensures !isConnected
    {
      ghost var s0 := Model();
      isConnected := false;
      Fire(onClose, Closed(wasClean));
      Fire(onConnectionChange, ConnectionChanged(false));
      ghost var s2 := Model();
      assert s2 == Notify(Notify(s0.(connected := false), s0.callbacks.onClose, Closed(wasClean)),
                          s0.callbacks.onConnectionChange, ConnectionChanged(false));
      if !wasClean && reconnectAttempts < maxReconnectAttempts {
        ScheduleReconnect();
      }
      StepPreservesInv(s0, Close(from, wasClean));
    }

    /** The `onerror` handler of socket `from`. */
    method OnError(from: SocketId)
      requires Valid() && from < socketsCreated
      modifies this
      ensures Valid() && Model() == Step(old(Model()), Error(from))
      ensures !isConnected
    {
      isConnected := false;
      Fire(onError, Errored);
      Fire(onConnectionChange, ConnectionChanged(false));
      StepPreservesInv(old(Model()), Error(from));
    }

    /** `scheduleReconnect()`: counts the attempt and starts a timer with the
        backoff delay for it. Its only caller checks the budget first. */
    method ScheduleReconnect()
      requires Valid() && reconnectAttempts < maxReconnectAttempts
      modifies this`reconnectAttempts, this`pendingTimers
      ensures Valid() && Model() == ScheduleStep(old(Model()))
      ensures reconnectAttempts == old(reconnectAttempts) + 1
      ensures pendingTimers == old(pendingTimers) + [Backoff(reconnectAttempts)]
    {
      reconnectAttempts := reconnectAttempts + 1;
      var delay := reconnectDelay * Pow2(reconnectAttempts - 1);
      pendingTimers := pendingTimers + [delay];
      ScheduleKeepsInv(old(Model()));
    }

    /** The pending timer at `index` expires: `if (!this.isConnected)
        this.connect()`. */
    method FireTimer(index: nat, ctorThrows: bool)
      requires Valid() && index < |pendingTimers|
      modifies this
      ensures Valid() && Model() == Step(old(Model()), TimerFires(index, ctorThrows))
    {
      pendingTimers := pendingTimers[..index] + pendingTimers[index + 1..];
      if !isConnected {
        StepPreservesInv(old(Model()).(timers := pendingTimers), Event.Connect(ctorThrows));
        Connect(ctorThrows);
      }
      StepPreservesInv(old(Model()), TimerFires(index, ctorThrows));
    }

    /** `sendMessage(message)` at time `now`; `sendThrows` says whether
        `JSON.stringify` or `send` throws. */
    method SendMessage(message: string, now: string, sendThrows: bool) returns (ok: bool)
      requires Valid()
      modifies this`sentFrames
      ensures Valid() && Model() == Step(old(Model()), SendText(message, now, sendThrows))
      ensures ok == SendSucceeds(old(Model()), sendThrows)
    {
      if !isConnected || websocket.None? {
        return false;
      }
      var messageData := Envelope(message, userId, roomAddress, now);
      if sendThrows {
        return false;
      }
      sentFrames := sentFrames + [Frame(websocket.value, messageData)];
      ok := true;
      StepPreservesInv(old(Model()), SendText(message, now, sendThrows));
    }

    /** `disconnect()`. */
    method Disconnect()
      requires Valid()
      modifies this`websocket, this`isConnected, this`closeRequests
      ensures Valid() && Model() == Step(old(Model()), Event.Disconnect)
      ensures websocket.None? && !isConnected
    {
      if websocket.Some? {
        closeRequests := closeRequests + [CloseRequest(websocket.value, NormalClosure, DisconnectReason)];
        websocket := None;
      }
      isConnected := false;
      StepPreservesInv(old(Model()), Event.Disconnect);
    }

    /** `getConnectionStatus()`. */
    method GetConnectionStatus() returns (connected: bool)
      ensures connected == isConnected
    {
      connected := isConnected;
    }

    method SetOnOpen(callback: Option<CallbackId>)
      requires Valid()
      modifies this`onOpen
      ensures Valid() && Model() == Step(old(Model()), Register(OpenSlot, callback))
    {
      onOpen := callback;
    }

    method SetOnMessage(callback: Option<CallbackId>)
      requires Valid()
      modifies this`onMessage
      ensures Valid() && Model() == Step(old(Model()), Register(MessageSlot, callback))
    {
      onMessage := callback;
    }

    method SetOnClose(callback: Option<CallbackId>)
      requires Valid()
      modifies this`onClose
      ensures Valid() && Model() == Step(old(Model()), Register(CloseSlot, callback))
    {
      onClose := callback;
    }

    method SetOnError(callback: Option<CallbackId>)
      requires Valid()
      modifies this`onError
      ensures Valid() && Model() == Step(old(Model()), Register(ErrorSlot, callback))
    {
      onError := callback;
    }

    method SetOnConnectionChange(callback: Option<CallbackId>)
      requires Valid()
      modifies this`onConnectionChange
      ensures Valid() && Model() == Step(old(Model()), Register(ConnectionChangeSlot, callback))
    {
      onConnectionChange := callback;
    }
  }
}
