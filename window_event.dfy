/** Window-event classification and dispatch (src/win2/window_event.rs).
    The process-wide `EVENTS_CHANNELS` table is a `Registry` object; each
    crossbeam channel is a `Channel` object whose queue is a FIFO sequence,
    shared by reference between the registry and the listener that made it
    (the `Arc` in the source). Threads and locks are left out: every
    operation runs to completion, one after another. A handler is an opaque
    id, and running the handlers of an event means reporting their ids in
    the order they are called. */
module WindowEvents {
  import opened Prelude
  import opened Windows

  datatype WinEventType =
    | Destroy | Create | Show | Hide | FocusChange
    | MoveResizeStart | MoveResizeEnd | LocationChange
    | Unknown | All

  // The WinUser.h event codes the classifier recognises.
  const EVENT_SYSTEM_FOREGROUND: u32 := 0x0003
  const EVENT_SYSTEM_MOVESIZESTART: u32 := 0x000A
  const EVENT_SYSTEM_MOVESIZEEND: u32 := 0x000B
  const EVENT_SYSTEM_MINIMIZESTART: u32 := 0x0016
  const EVENT_SYSTEM_MINIMIZEEND: u32 := 0x0017
  const EVENT_OBJECT_CREATE: u32 := 0x8000
  const EVENT_OBJECT_DESTROY: u32 := 0x8001
  const EVENT_OBJECT_SHOW: u32 := 0x8002
  const EVENT_OBJECT_HIDE: u32 := 0x8003
  const EVENT_OBJECT_FOCUS: u32 := 0x8005
  const EVENT_OBJECT_LOCATIONCHANGE: u32 := 0x800B
  const EVENT_OBJECT_CLOAKED: u32 := 0x8017
  const EVENT_OBJECT_UNCLOAKED: u32 := 0x8018

  /** `From<u32> for WinEventType`. */
  function Classify(event: u32): (k: WinEventType)
    ensures k != All
    ensures k == Destroy <==> event == EVENT_OBJECT_DESTROY
    ensures k == Create <==> event == EVENT_OBJECT_CREATE
    ensures k == MoveResizeStart <==> event == EVENT_SYSTEM_MOVESIZESTART
  {
    if event == EVENT_OBJECT_DESTROY then Destroy
    else if event == EVENT_OBJECT_CREATE then Create
    else if event == EVENT_OBJECT_CLOAKED || event == EVENT_OBJECT_HIDE || event == EVENT_SYSTEM_MINIMIZESTART then Hide
    else if event == EVENT_OBJECT_SHOW || event == EVENT_OBJECT_UNCLOAKED || event == EVENT_SYSTEM_MINIMIZEEND then Show
    else if event == EVENT_OBJECT_FOCUS || event == EVENT_SYSTEM_FOREGROUND then FocusChange
    else if event == EVENT_SYSTEM_MOVESIZESTART then MoveResizeStart
    else if event == EVENT_SYSTEM_MOVESIZEEND then MoveResizeEnd
    else if event == EVENT_OBJECT_LOCATIONCHANGE then LocationChange
    else Unknown
  }

  /** The classification as a table of (code, kind) rows, one per code. */
  const CLASSIFICATION: seq<(u32, WinEventType)> := [
    (EVENT_OBJECT_DESTROY, Destroy),
    (EVENT_OBJECT_CREATE, Create),
    (EVENT_OBJECT_CLOAKED, Hide), (EVENT_OBJECT_HIDE, Hide), (EVENT_SYSTEM_MINIMIZESTART, Hide),
    (EVENT_OBJECT_SHOW, Show), (EVENT_OBJECT_UNCLOAKED, Show), (EVENT_SYSTEM_MINIMIZEEND, Show),
    (EVENT_OBJECT_FOCUS, FocusChange), (EVENT_SYSTEM_FOREGROUND, FocusChange),
    (EVENT_SYSTEM_MOVESIZESTART, MoveResizeStart),
    (EVENT_SYSTEM_MOVESIZEEND, MoveResizeEnd),
    (EVENT_OBJECT_LOCATIONCHANGE, LocationChange)
  ]

  /** The classifier is total and follows the table: a code in the table gets
      its row's kind, every other code is `Unknown`, and no code is `All`. */
  lemma ClassifyFollowsTable(event: u32)
    ensures forall i :: 0 <= i < |CLASSIFICATION| && CLASSIFICATION[i].0 == event ==> Classify(event) == CLASSIFICATION[i].1
    ensures Classify(event) == Unknown <==> forall i :: 0 <= i < |CLASSIFICATION| ==> CLASSIFICATION[i].0 != event
    ensures Classify(event) != All
  {
    if Classify(event) != Unknown {
      var i :=
        if event == EVENT_OBJECT_DESTROY then 0
        else if event == EVENT_OBJECT_CREATE then 1
        else if event == EVENT_OBJECT_CLOAKED then 2
        else if event == EVENT_OBJECT_HIDE then 3
        else if event == EVENT_SYSTEM_MINIMIZESTART then 4
        else if event == EVENT_OBJECT_SHOW then 5
        else if event == EVENT_OBJECT_UNCLOAKED then 6
        else if event == EVENT_SYSTEM_MINIMIZEEND then 7
        else if event == EVENT_OBJECT_FOCUS then 8
        else if event == EVENT_SYSTEM_FOREGROUND then 9
        else if event == EVENT_SYSTEM_MOVESIZESTART then 10
        else if event == EVENT_SYSTEM_MOVESIZEEND then 11
        else 12;
      assert CLASSIFICATION[i].0 == event;
    }
  }

  /** The kinds that gather several codes, read backwards. */
  lemma ClassifyPreimages(event: u32)
    ensures Classify(event) == Hide <==> event in {EVENT_OBJECT_CLOAKED, EVENT_OBJECT_HIDE, EVENT_SYSTEM_MINIMIZESTART}
    ensures Classify(event) == Show <==> event in {EVENT_OBJECT_SHOW, EVENT_OBJECT_UNCLOAKED, EVENT_SYSTEM_MINIMIZEEND}
    ensures Classify(event) == FocusChange <==> event in {EVENT_OBJECT_FOCUS, EVENT_SYSTEM_FOREGROUND}
    ensures Classify(event) == LocationChange <==> event == EVENT_OBJECT_LOCATIONCHANGE
    ensures Classify(event) == MoveResizeEnd <==> event == EVENT_SYSTEM_MOVESIZEEND
  {
  }

  datatype WinEvent = WinEvent(
    etype: WinEventType,
    window: Window,
    hookHandle: int,
    rawEvent: u32,
    rawIdChild: i32,
    rawIdObject: i32,
    rawIdThread: u32)

  /** `WinEvent::new`: the kind is the classification of the raw code, the
      window is read from the handle, the raw ids start at zero. */
  function NewEvent(os: Desktop, hookHandle: int, event: u32, hwnd: Hwnd): (e: WinEvent)
    ensures e.etype == Classify(event) && e.rawEvent == event && e.hookHandle == hookHandle
    ensures e.window == FromHandle(os, hwnd)
    ensures e.rawIdChild == 0 && e.rawIdObject == 0 && e.rawIdThread == 0
  {
    WinEvent(Classify(event), FromHandle(os, hwnd), hookHandle, event, 0, 0, 0)
  }

  /** An event that may sit in a queue: its kind is the classification of its
      own raw code, and that classification is not `Unknown`. */
  predicate Queueable(e: WinEvent) {
    e.etype == Classify(e.rawEvent) && e.etype != Unknown
  }

  predicate AllQueueable(q: seq<WinEvent>) {
    forall i :: 0 <= i < |q| ==> Queueable(q[i])
  }

  /** An unbounded crossbeam channel: a FIFO of events. */
  class Channel {
    var queue: seq<WinEvent>

    ghost predicate Valid()
      reads this
    {
      AllQueueable(queue)
    }

    constructor ()
      ensures queue == [] && Valid()
    {
      queue := [];
    }

    /** `Sender::send`: appends at the tail. */
    method Send(e: WinEvent)
      modifies this
      ensures queue == old(queue) + [e]
    {
      queue := queue + [e];
    }

    /** `Receiver::try_recv`: takes the head, or nothing from an empty queue. */
    method TryRecv() returns (r: Option<WinEvent>)
      modifies this
      ensures old(queue) == [] ==> r == None && queue == []
      ensures old(queue) != [] ==> r == Some(old(queue)[0]) && queue == old(queue)[1..]
    {
      if queue == [] {
        r := None;
      } else {
        r := Some(queue[0]);
        queue := queue[1..];
      }
    }
  }

  /** `EVENTS_CHANNELS`: hook handle to the channel of the listener that
      installed the hook. */
  class Registry {
    var channels: map<int, Channel>

    ghost predicate Valid()
      reads this, channels.Values
    {
      forall h :: h in channels ==> channels[h].Valid()
    }

    constructor ()
      ensures channels == map[] && Valid()
    {
      channels := map[];
    }
  }

  /** The event `thunk` builds from its arguments: `WinEvent::new` with the
      object, child and thread ids of the callback filled in. */
  function CallbackEvent(os: Desktop, hookHandle: int, event: u32, hwnd: Hwnd, idObject: i32, idChild: i32, idEventThread: u32): (e: WinEvent)
    ensures e.etype == Classify(event) && e.rawEvent == event && e.hookHandle == hookHandle
    ensures e.window == FromHandle(os, hwnd)
    ensures e.rawIdObject == idObject && e.rawIdChild == idChild && e.rawIdThread == idEventThread
  {
    NewEvent(os, hookHandle, event, hwnd).(rawIdChild := idChild, rawIdObject := idObject, rawIdThread := idEventThread)
  }

  /** `thunk`, the WinEvent hook callback. An `Unknown` event is dropped before
      the registry is consulted; an event whose hook handle is not registered
      is dropped; otherwise the event goes to the tail of that hook's channel.
      No other channel and no registry entry changes (the frame). The event
      time argument is not used by the source and is not a parameter. */
  method Thunk(registry: Registry, os: Desktop, hookHandle: int, event: u32, hwnd: Hwnd,
               idObject: i32, idChild: i32, idEventThread: u32)
    requires registry.Valid()
    modifies if hookHandle in registry.channels then {registry.channels[hookHandle]} else {}
    ensures registry.Valid()
    ensures hookHandle in registry.channels ==>
              var e := CallbackEvent(os, hookHandle, event, hwnd, idObject, idChild, idEventThread);
              registry.channels[hookHandle].queue ==
                old(registry.channels[hookHandle].queue) + (if e.etype == Unknown then [] else [e])
  {
    var evt := NewEvent(os, hookHandle, event, hwnd);
    evt := evt.(rawIdChild := idChild);
    evt := evt.(rawIdObject := idObject);
    evt := evt.(rawIdThread := idEventThread);
    if evt.etype == Unknown {
      return;
    }
    if hookHandle in registry.channels {
      var ch := registry.channels[hookHandle];
      ch.Send(evt);
    }
  }

  type HandlerId = nat

  type HandlerTable = map<WinEventType, seq<HandlerId>>

  /** The handlers registered for a kind, in registration order. */
  function HandlersOf(handlers: HandlerTable, kind: WinEventType): seq<HandlerId> {
    if kind in handlers then handlers[kind] else []
  }

  /** The table after `on(kind, h)`. */
  function Register(handlers: HandlerTable, kind: WinEventType, h: HandlerId): (r: HandlerTable)
    ensures r.Keys == handlers.Keys + {kind}
    ensures r[kind] == HandlersOf(handlers, kind) + [h]
    ensures forall k :: k in handlers && k != kind ==> r[k] == handlers[k]
  {
    handlers[kind := HandlersOf(handlers, kind) + [h]]
  }

  /** `on` appends to its kind's list and leaves every other list alone. */
  lemma RegisterAppends(handlers: HandlerTable, kind: WinEventType, h: HandlerId, other: WinEventType)
    ensures HandlersOf(Register(handlers, kind, h), kind) == HandlersOf(handlers, kind) + [h]
    ensures other != kind ==> HandlersOf(Register(handlers, kind, h), other) == HandlersOf(handlers, other)
  {
  }

  /** The hard-coded window filter of `process`: when the target is a valid
      window, an event for another window is discarded. */
  predicate Delivered(target: Window, targetValid: bool, e: WinEvent) {
    !(targetValid && !e.window.Eq(target))
  }

  /** The handlers one `process` step calls for an event it took from the
      queue, in call order. */
  function Dispatch(handlers: HandlerTable, target: Window, targetValid: bool, e: WinEvent): (r: seq<HandlerId>)
    ensures !Delivered(target, targetValid, e) ==> r == []
    ensures Delivered(target, targetValid, e) ==>
              |r| == |HandlersOf(handlers, e.etype)| + |HandlersOf(handlers, All)|
  {
    if Delivered(target, targetValid, e) then HandlersOf(handlers, e.etype) + HandlersOf(handlers, All) else []
  }

  /** A delivered event runs its kind's handlers first and the `All`
      handlers after them, each group in registration order. */
  lemma DispatchOrder(handlers: HandlerTable, target: Window, targetValid: bool, e: WinEvent)
    requires Delivered(target, targetValid, e)
    ensures var r := Dispatch(handlers, target, targetValid, e);
            var n := |HandlersOf(handlers, e.etype)|;
            r[..n] == HandlersOf(handlers, e.etype) && r[n..] == HandlersOf(handlers, All)
  {
  }

  /** Registering a handler adds exactly one call for every delivered queued
      event it applies to: after the kind's earlier handlers and before the
      `All` handlers when registered for the event's kind, after everything
      when registered under `All`, and nothing for any other kind. */
  lemma RegisterExtendsDispatch(handlers: HandlerTable, kind: WinEventType, h: HandlerId,
                                target: Window, targetValid: bool, e: WinEvent)
    requires Queueable(e) && Delivered(target, targetValid, e)
    ensures kind == e.etype ==>
      Dispatch(Register(handlers, kind, h), target, targetValid, e) ==
        HandlersOf(handlers, kind) + [h] + HandlersOf(handlers, All)
    ensures kind == All ==>
      Dispatch(Register(handlers, kind, h), target, targetValid, e) ==
        Dispatch(handlers, target, targetValid, e) + [h]
    ensures kind != e.etype && kind != All ==>
      Dispatch(Register(handlers, kind, h), target, targetValid, e) == Dispatch(handlers, target, targetValid, e)
  {
    assert e.etype != All;
    var hs' := Register(handlers, kind, h);
    if kind == e.etype {
      assert HandlersOf(hs', All) == HandlersOf(handlers, All);
    } else if kind == All {
      assert HandlersOf(hs', e.etype) == HandlersOf(handlers, e.etype);
      assert HandlersOf(handlers, e.etype) + (HandlersOf(handlers, All) + [h])
          == HandlersOf(handlers, e.etype) + HandlersOf(handlers, All) + [h];
    }
  }

  /** The handlers a run of `process` steps calls, one event after another. */
  function Trace(handlers: HandlerTable, target: Window, targetValid: bool, q: seq<WinEvent>): seq<HandlerId>
    decreases |q|
  {
    if q == [] then [] else Dispatch(handlers, target, targetValid, q[0]) + Trace(handlers, target, targetValid, q[1..])
  }

  /** The events of a queue that are for the given window, in queue order. */
  function ForWindow(q: seq<WinEvent>, target: Window): (r: seq<WinEvent>)
    ensures forall i :: 0 <= i < |r| ==> r[i].window.Eq(target)
    ensures |r| <= |q|
    decreases |q|
  {
    if q == [] then []
    else if q[0].window.Eq(target) then [q[0]] + ForWindow(q[1..], target)
    else ForWindow(q[1..], target)
  }

  /** With a valid target, draining a queue calls the same handlers as
      draining, without any filter, only the events for the target, in their
      original relative order. */
  lemma {:induction false} TraceFiltersByTarget(handlers: HandlerTable, target: Window, q: seq<WinEvent>)
    ensures Trace(handlers, target, true, q) == Trace(handlers, target, false, ForWindow(q, target))
  {
    if q != [] {
      TraceFiltersByTarget(handlers, target, q[1..]);
      if q[0].window.Eq(target) {
        var r := ForWindow(q[1..], target);
        assert ([q[0]] + r)[0] == q[0] && ([q[0]] + r)[1..] == r;
      }
    }
  }

  /** Drained in two parts, a queue calls the handlers of the first part and
      then those of the second. */
  lemma {:induction false} TraceAppend(handlers: HandlerTable, target: Window, targetValid: bool, p: seq<WinEvent>, q: seq<WinEvent>)
    ensures Trace(handlers, target, targetValid, p + q) ==
            Trace(handlers, target, targetValid, p) + Trace(handlers, target, targetValid, q)
  {
    if p == [] {
      assert p + q == q;
    } else {
      assert (p + q)[0] == p[0] && (p + q)[1..] == p[1..] + q;
      TraceAppend(handlers, target, targetValid, p[1..], q);
    }
  }

  /** Draining one more event of a queue calls that event's handlers last. */
  lemma TraceExtend(handlers: HandlerTable, target: Window, targetValid: bool, q: seq<WinEvent>, n: nat)
    requires n < |q|
    ensures Trace(handlers, target, targetValid, q[..n + 1]) ==
            Trace(handlers, target, targetValid, q[..n]) + Dispatch(handlers, target, targetValid, q[n])
  {
    assert q[..n + 1] == q[..n] + [q[n]];
    TraceAppend(handlers, target, targetValid, q[..n], [q[n]]);
    assert [q[n]][1..] == [];
  }

  /** Once the target is no longer a valid window (or for the default
      window, handle 0, which is never one), the filter lets every event
      through, whatever window it is for. */
  lemma InvalidTargetDeliversEverything(handlers: HandlerTable, target: Window, e: WinEvent)
    ensures Dispatch(handlers, target, false, e) == HandlersOf(handlers, e.etype) + HandlersOf(handlers, All)
  {
  }

  /** `WinEventListener`. `w` is the target window; `hook` the atomic hook
      handle (0 until `start`); `ch` the listener's channel; `handlers` the
      kind to handler-list table; `threadSpawned` whether `start` spawned a
      loop thread. */
  class WinEventListener {
    const w: Window
    var hook: int
    var exited: bool
    const ch: Channel
    var handlers: HandlerTable
    var threadSpawned: bool

    ghost predicate Valid()
      reads this, ch
    {
      ch.Valid()
    }

    /** `WinEventListener::new` */
    constructor (w: Window)
      ensures this.w == w && hook == 0 && !exited && !threadSpawned
      ensures fresh(ch) && ch.queue == [] && handlers == map[]
      ensures Valid()
    {
      this.w := w;
      hook := 0;
      exited := false;
      ch := new Channel();
      handlers := map[];
      threadSpawned := false;
    }

    /** `on`: appends `cb` to the end of the list for `typ`. */
    method On(typ: WinEventType, cb: HandlerId)
      modifies this`handlers
      ensures handlers == Register(old(handlers), typ, cb)
    {
      var list := if typ in handlers then handlers[typ] else [];
      list := list + [cb];
      handlers := handlers[typ := list];
    }

    /** `start`: stores the handle that `SetWinEventHook` over the whole event range
        returned (an input here) and registers this listener's channel under
        it, overwriting any earlier entry for that handle. The message loop
        that then runs (on this thread when `block`, on a spawned thread
        otherwise) is driven by `Process` and `RunLoop`. */
    method Start(registry: Registry, hookHandle: int, block: bool)
      requires Valid() && registry.Valid()
      modifies this`hook, this`threadSpawned, registry`channels
      ensures hook == hookHandle && threadSpawned == !block
      ensures registry.channels == old(registry.channels)[hookHandle := ch]
      ensures registry.Valid() && Valid()
    {
      hook := hookHandle;
      registry.channels := registry.channels[hookHandle := ch];
      threadSpawned := !block;
    }

    /** The `process` closure: takes at most the head of the queue; an event
        for another window than a valid target is discarded; otherwise the
        handlers for its kind run in registration order, then the `All`
        handlers in registration order. Returns the handlers called. */
    method Process(targetValid: bool) returns (invoked: seq<HandlerId>)
      requires Valid()
      modifies ch
      ensures Valid()
      ensures old(ch.queue) == [] ==> invoked == [] && ch.queue == []
      ensures old(ch.queue) != [] ==>
                ch.queue == old(ch.queue)[1..] &&
                invoked == Dispatch(handlers, w, targetValid, old(ch.queue)[0])
    {
      invoked := [];
      var evt := ch.TryRecv();
      if evt.Some? {
        var e := evt.value;
        if targetValid && !e.window.Eq(w) {
          return;
        }
        var forKind := HandlersOf(handlers, e.etype);
        for i := 0 to |forKind|
          invariant invoked == forKind[..i]
        {
          invoked := invoked + [forKind[i]];
        }
        var forAll := HandlersOf(handlers, All);
        for i := 0 to |forAll|
          invariant invoked == forKind + forAll[..i]
        {
          invoked := invoked + [forAll[i]];
        }
        assert forKind[..|forKind|] == forKind && forAll[..|forAll|] == forAll;
      }
    }

    /** `MessageLoop::start` with a callback that runs `process` and always
        returns true, cut off after `iterations` turns (the source loops
        forever): the events leave the queue in FIFO order, and the handlers
        called are those of draining that prefix of the queue. */
    method RunLoop(targetValid: bool, iterations: nat) returns (invoked: seq<HandlerId>)
      requires Valid()
      modifies ch
      ensures Valid()
      ensures var n := if iterations < |old(ch.queue)| then iterations else |old(ch.queue)|;
              ch.queue == old(ch.queue)[n..] &&
              invoked == Trace(handlers, w, targetValid, old(ch.queue)[..n])
    {
      ghost var q0 := ch.queue;
      ghost var n := 0;
      invoked := [];
      var k := 0;
      while k < iterations
        invariant Valid()
        invariant 0 <= k <= iterations && 0 <= n <= |q0|
        invariant n == (if k < |q0| then k else |q0|)
        invariant ch.queue == q0[n..]
        invariant invoked == Trace(handlers, w, targetValid, q0[..n])
      {
        var step := Process(targetValid);
        if n < |q0| {
          TraceExtend(handlers, w, targetValid, q0, n);
          assert q0[n..][1..] == q0[n + 1..];
          n := n + 1;
        }
        invoked := invoked + step;
        k := k + 1;
      }
    }

    /** `Drop`: unhooks the stored handle (0 when `start` never ran) and sets
        the exit flag. The registry entry is left in place. */
    method Drop() returns (unhooked: int)
      modifies this`exited
      ensures unhooked == hook && exited
    {
      unhooked := hook;
      exited := true;
    }
  }

  // ---------------------------------------------------------------------
  // Scenarios
  // ---------------------------------------------------------------------

  /** Handlers h1, h2 under `Show` and h3 under `All`: one `Show` event for the
      target calls h1, h2, h3 in that order, once each. */
  method HandlerOrderScenario(os: Desktop, hwnd: Hwnd, hookHandle: int, h1: HandlerId, h2: HandlerId, h3: HandlerId)
    returns (invoked: seq<HandlerId>)
    ensures invoked == [h1, h2, h3]
  {
    var registry := new Registry();
    var l := new WinEventListener(FromHandle(os, hwnd));
    l.On(Show, h1);
    l.On(Show, h2);
    l.On(All, h3);
    l.Start(registry, hookHandle, false);
    Thunk(registry, os, hookHandle, EVENT_OBJECT_SHOW, hwnd, 0, 0, 0);
    invoked := l.Process(true);
  }

  /** The handler trace of the queue `FilterScenario` builds. */
  lemma FilterTrace(handlers: HandlerTable, w: Window, q: seq<WinEvent>)
    requires handlers == Register(Register(map[], Show, 1), Hide, 2)
    requires |q| == 3 && q[0].etype == Show && q[1].etype == Show && q[2].etype == Hide
    requires q[0].window.Eq(w) && !q[1].window.Eq(w) && q[2].window.Eq(w)
    ensures Trace(handlers, w, true, q) == [1, 2]
  {
    assert HandlersOf(handlers, All) == [];
    assert Dispatch(handlers, w, true, q[0]) == [1];
    assert Dispatch(handlers, w, true, q[1]) == [];
    assert Dispatch(handlers, w, true, q[2]) == [2];
    assert Trace(handlers, w, true, q[2..]) == [2] by {
      assert q[2..][1..] == [];
    }
    assert Trace(handlers, w, true, q[1..]) == [2] by {
      assert q[1..][1..] == q[2..];
    }
  }

  /** Events for the target window and for another window, interleaved in
      one queue, reach the target's handlers only for the target's events,
      in their original order; an `Unknown` code (0x8004, object reorder)
      enqueues nothing. */
  method FilterScenario(os: Desktop, target: Hwnd, other: Hwnd, hookHandle: int)
    returns (invoked: seq<HandlerId>, left: seq<WinEvent>)
    requires target != other
    ensures invoked == [1, 2]
    ensures left == []
  {
    var registry := new Registry();
    var l := new WinEventListener(FromHandle(os, target));
    l.On(Show, 1);
    l.On(Hide, 2);
    l.Start(registry, hookHandle, true);
    Thunk(registry, os, hookHandle, EVENT_OBJECT_SHOW, target, 0, 0, 0);
    Thunk(registry, os, hookHandle, EVENT_OBJECT_SHOW, other, 0, 0, 0);
    Thunk(registry, os, hookHandle, 0x8004, target, 0, 0, 0);
    Thunk(registry, os, hookHandle, EVENT_OBJECT_HIDE, target, 0, 0, 0);
    ghost var q := l.ch.queue;
    assert |q| == 3 && q[0].etype == Show && q[1].etype == Show && q[2].etype == Hide;
    assert q[0].window.Eq(l.w) && !q[1].window.Eq(l.w) && q[2].window.Eq(l.w);
    invoked := l.RunLoop(true, 10);
    assert q[..3] == q;
    FilterTrace(l.handlers, l.w, q);
    left := l.ch.queue;
  }

  /** Dropping a listener that never started unhooks handle 0; dropping a
      started one unhooks its handle and leaves its registry entry, so a late
      callback for that handle still reaches the dropped listener's channel. */
  method TeardownScenario(hookHandle: int, os: Desktop, hwnd: Hwnd)
    returns (idle: int, started: int, stillRegistered: bool, queued: nat)
    ensures idle == 0 && started == hookHandle
    ensures stillRegistered && queued == 1
  {
    var registry := new Registry();
    var a := new WinEventListener(FromHandle(os, hwnd));
    idle := a.Drop();
    var b := new WinEventListener(FromHandle(os, hwnd));
    b.Start(registry, hookHandle, false);
    started := b.Drop();
    stillRegistered := hookHandle in registry.channels && registry.channels[hookHandle] == b.ch;
    Thunk(registry, os, hookHandle, EVENT_OBJECT_CREATE, hwnd, 0, 0, 0);
    queued := |b.ch.queue|;
  }
}
