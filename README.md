# winapp-rs window attachment and event dispatch, modelled in Dafny

This project models the core of `winapp-rs`, a small Rust library over the
Win32 API, in four parts:

- **Win32 result conversions** (`error.dfy`, module `Win32Result`). A zero
  integer return is an error carrying the last OS error. A non-zero return is
  a success carrying the value. The conversion to a Rust `Result` keeps the
  variant and the payload, and `end()` converts only the error.
- **Window values and lookups** (`window.dfy`, module `Windows`). A window is
  a handle plus its process and thread ids, and equality compares handles
  only. The OS queries (`IsWindow`, the thread/process ids, the class name,
  the window text) are the fields of a `Desktop` value. The enumeration order
  of `EnumWindows` is a sequence of handles given as input. The module holds
  `from_hwnd`, `title`, the first-match and all-matches lookups (including the
  panic of `class().unwrap()`), the rectangle `set_pos`/`set_size`/`set_rect`
  write, the cursor centre, and the cloaking test.
- **Window events** (`window_event.dfy`, module `WindowEvents`). It covers the
  classifier from raw event codes to `WinEventType`, the `WinEvent` record,
  and `thunk`, which drops `Unknown` events and appends the rest to the queue
  registered for the hook. It also covers `EVENTS_CHANNELS`, the registry from
  hook handles to channels, which holds references to the listeners' channel
  objects. Last comes the listener, with its handler table, `on`, `start`,
  the `process` step, the message-loop driver and `Drop`. Handlers are opaque
  ids, and a dispatch step returns the ids it invoked, in order.
- **Attachment** (`window_attach.dfy`, module `Attach`). This is the
  `AttachDirection` geometry (`match_size` with its clamp, and the eight
  `apply` formulas), the `update_rect` closure, the handlers `start` wires to
  the target's listener, and the `WindowAttach` builder.

`rect.dfy` (module `Rects`) holds the `Rect` value. `src/win2/rect.rs` is not
part of this model. Its corner accessors are assumed to be `left_top = (x, y)`,
`right_top = (x + width, y)`, `left_bottom = (x, y + height)` and
`right_bottom = (x + width, y + height)`, and its equality is assumed to be
field-wise.

The central results are:

- `update_rect` places the dependent window so that one of its corners sits
  exactly on the shifted anchor corner of the target. That placement is unique
  (`Attach.Recompute`), and running the closure a second time writes nothing
  (`Attach.UpdateTwice`).
- Each `process` step pops exactly the head of the queue and invokes the
  kind-specific handlers, then the `All` handlers, in registration order
  (`WindowEvents.WinEventListener.Process`). A run of the loop invokes the
  handler trace of the events it consumed (`WindowEvents.WinEventListener.RunLoop`).
- The lookups return the first match, or all matches in enumeration order
  (`Windows.FromFirstName`, `Windows.FromAllName`).

Three behaviours of the code that a user might not expect:

- Teardown of a listener (`Drop`) unhooks the stored hook id, which is 0 when
  `start` never ran. It does not remove the registry entry, so later
  callbacks for that hook still reach the dropped listener's channel
  (`WindowEvents.TeardownScenario`).
- The target filter in `process` discards an event only when the target is
  still a valid window and the event's window differs. A destroyed target
  therefore receives every event, not only a wildcard target does
  (`WindowEvents.InvalidTargetDeliversEverything`).
- `update_rect` unwraps both rectangle reads. A failed read panics; it is not
  skipped until the next event. The model takes both rectangles as inputs.

## Model

| member | source | states |
|---|---|---|
| Win32Result.FromInteger | src/win2/error.rs:17-24 | the result is an error exactly when the return value is 0, and that error is the last OS error; otherwise it is a success carrying the value |
| Win32Result.IntoResult | src/win2/error.rs:31-37 | the converted result has the same variant and the same payload |
| Win32Result.IntoResultIsBijective | src/win2/error.rs:31-37 | converting to `Result` and back gives the original in both directions, so nothing is lost |
| Win32Result.ZeroIsError | src/win2/error.rs:18-21 | a zero return passed through both conversions is `Err` of the last OS error |
| Win32Result.BoolOk | src/win2/window.rs:316-318 | a Win32 `BOOL` becomes success exactly when it is true; a failure carries the last OS error |
| Win32Result.End | src/win2/error.rs:65-71 | `end()` keeps the variant, keeps a success value and converts an error with `into` |
| Win32Result.EndWithIdentity | src/win2/error.rs:65-71 | with the identity conversion, `end()` returns its argument unchanged |
| Windows.Window.Eq | src/win2/window.rs:58-62 | two windows are equal exactly when they coincide once the process and thread ids are ignored |
| Windows.DefaultWindow | src/win2/window.rs:86-92 | the default window has the null handle and zero ids, and it equals exactly the windows whose handle is null |
| Windows.EqIsEquivalence | src/win2/window.rs:58-62 | window equality is reflexive, symmetric and transitive, and holds exactly when the handles are equal |
| Windows.EqIgnoresIds | src/win2/window.rs:58-62 | equality ignores the process and thread ids; a window equals the default window (handle 0) exactly when its handle is 0 |
| Windows.FromHandle | src/win2/window.rs:94-104 | the window carries the handle and the process and thread ids the OS reports for it |
| Windows.FromHwnd | src/win2/window.rs:129-135 | `Some` exactly when the OS says the handle is a window, and then the window built from that handle, which is valid |
| Windows.IsValid | src/win2/window.rs:363-365 | a window is valid exactly when `from_hwnd` of its handle succeeds, and then `from_hwnd` gives back an equal window |
| Windows.Title | src/win2/window.rs:388-398 | `None` exactly when the window text is empty; otherwise the text |
| Windows.TitleOrDefaultIsText | src/win2/window.rs:158 | the title with the empty-string default is the window text itself |
| Windows.FromFirstName | src/win2/window.rs:152-173 | the loop over the enumerated handles returns the first-match lookup, or a panic where `class().unwrap()` fails |
| Windows.FirstNameIsFirstStop | src/win2/window.rs:152-173 | the lookup stops at the first handle that fails the class query or passes the filter; it panics on the first and returns `from_hwnd` of the second, which is `None` for an invalid window |
| Windows.FirstNameWithoutStop | src/win2/window.rs:152-173 | when no handle passes the filter and no class query fails, the result is `None` |
| Windows.FromAllName | src/win2/window.rs:176-195 | the loop pushing every valid match returns the all-matches lookup, or a panic where `class().unwrap()` fails |
| Windows.AllNamePanics | src/win2/window.rs:179-181 | the all-matches lookup panics exactly when a class is given and the class query fails for some enumerated handle, whatever its title |
| Windows.AllNameMembers | src/win2/window.rs:176-195 | a window is in the result exactly when its handle was enumerated, passes the filter and is valid, and it is built from that handle |
| Windows.AllNameConcat | src/win2/window.rs:176-195 | the results keep enumeration order: for an enumeration split in two, they are the results of the first part followed by those of the second, and a single handle contributes the window it keeps |
| Windows.FirstNameHeadsAllName | src/win2/window.rs:152-195 | when the first-match lookup finds a window, the all-matches lookup starts with that window |
| Windows.NoClassMatchesEverything | src/win2/window.rs:156-158 | with no class, the first-match lookup returns `from_hwnd` of the first enumerated handle, and the all-matches lookup returns every valid enumerated window, whatever the name |
| Windows.FirstNameIgnoresNameExample | src/win2/window.rs:156-158 | with no class, looking up "Window" returns a valid window whose title is "Other" |
| Windows.IntendedFirstName | src/win2/window.rs:152-173 | the corrected lookup returns only an enumerated, valid window whose title is the name and whose class, when one is given, is that class |
| Windows.IntendedFirstNameExample | src/win2/window.rs:152-173 | on the same desktop, the corrected lookup of "Window" returns `None` |
| Windows.SetPos | src/win2/window.rs:459-465 | the `MoveWindow` call moves the top-left corner to the point, keeps width and height, and repaints |
| Windows.SetSize | src/win2/window.rs:467-473 | the `MoveWindow` call sets width and height to the size, keeps the top-left corner, and repaints |
| Windows.SetRect | src/win2/window.rs:454-457 | the `SetWindowPos` call inserts after `HWND_TOPMOST` exactly when `top`, otherwise after `HWND_NOTOPMOST`, with the given rectangle and `SWP_NOACTIVATE` |
| Windows.Half | src/win2/window.rs:334 | Rust's `/ 2`, which truncates toward zero: the remainder has the sign of the dividend and is at most 1 |
| Windows.CenterOf | src/win2/window.rs:333-335 | the cursor target is within half a unit of the exact centre in each axis, rounded toward the origin corner for a non-negative size and away from it for a negative one (truncation toward zero) |
| Windows.CenterIsInside | src/win2/window.rs:333-335 | for a rectangle of non-negative size, the cursor target lies inside it; truncation is symmetric for negative sizes |
| Windows.SetCursorPosResult | src/win2/window.rs:316-318 | the result is success exactly when `SetCursorPos` succeeded, and a failure carries the converted last OS error |
| Windows.IsWindowCloaked | src/win2/window.rs:250-258 | a failed attribute query is passed on as it is; otherwise the answer is true exactly when the value is `DWM_CLOAKED_APP`, `DWM_CLOAKED_SHELL` or `DWM_CLOAKED_INHERITED` |
| Windows.CloakedIsOneReason | src/win2/window.rs:250-258 | a value combining several cloaking reasons, or 0, is reported as not cloaked |
| WindowEvents.Classify | src/win2/window_event.rs:284-311 | the classifier never yields `All`, and `Destroy`, `Create` and `MoveResizeStart` come exactly from their own codes |
| WindowEvents.ClassifyFollowsTable | src/win2/window_event.rs:284-311 | the classifier agrees with every row of the thirteen-row code table, yields `Unknown` exactly for the codes not in it, and never yields `All` |
| WindowEvents.ClassifyPreimages | src/win2/window_event.rs:284-311 | `Hide`, `Show`, `FocusChange`, `LocationChange` and `MoveResizeEnd` come exactly from their listed codes |
| WindowEvents.NewEvent | src/win2/window_event.rs:329-340 | the event's kind is the classification of the code, it keeps the code and the hook handle, its window is built from the handle, and its raw ids are zero |
| WindowEvents.CallbackEvent | src/win2/window_event.rs:241-244 | the event `thunk` builds is `WinEvent::new` with the object, child and thread ids taken from the callback arguments |
| WindowEvents.Channel.constructor | src/win2/window_event.rs:96 | a new channel is empty |
| WindowEvents.Channel.Send | src/win2/window_event.rs:261-263 | sending appends the event at the tail |
| WindowEvents.Channel.TryRecv | src/win2/window_event.rs:150 | receiving from an empty channel yields nothing and changes nothing; otherwise it yields the head and removes it |
| WindowEvents.Registry.constructor | src/win2/window_event.rs:27-28 | the registry starts empty |
| WindowEvents.Thunk | src/win2/window_event.rs:231-266 | an `Unknown` event changes nothing; otherwise the event is appended to the queue registered for the hook handle; a hook with no entry drops it; nothing else may change |
| WindowEvents.Register | src/win2/window_event.rs:106-116 | the table after `on` has the kind as a key, with the handler appended to the kind's list, and every other list kept as it was |
| WindowEvents.RegisterAppends | src/win2/window_event.rs:106-116 | `on` appends the handler to the end of its kind's list, creating the list if absent, and leaves every other kind's list unchanged |
| WindowEvents.Dispatch | src/win2/window_event.rs:160-183 | a filtered-out event runs no handler; a delivered one runs as many as are registered for its kind and for `All` together |
| WindowEvents.DispatchOrder | src/win2/window_event.rs:166-183 | a delivered event runs its kind's handlers first, then the `All` handlers, each group in registration order |
| WindowEvents.RegisterExtendsDispatch | src/win2/window_event.rs:160-183 | for a delivered event, a handler registered later for the event's kind runs after the kind's earlier handlers and before the `All` handlers; one registered for `All` runs last; one registered for another kind does not run |
| WindowEvents.ForWindow | src/win2/window_event.rs:160-163 | the events kept for a target are all events of that target window |
| WindowEvents.TraceFiltersByTarget | src/win2/window_event.rs:160-163 | with a valid target, processing a queue invokes the same handlers as processing only the target's own events with no filter |
| WindowEvents.TraceAppend | src/win2/window_event.rs:189-205 | processing two queues one after the other invokes the concatenation of their handler traces |
| WindowEvents.TraceExtend | src/win2/window_event.rs:189-205 | processing one more event extends the trace by that event's dispatch |
| WindowEvents.InvalidTargetDeliversEverything | src/win2/window_event.rs:160-183 | when the target is not a valid window, every event runs its kind's handlers and then the `All` handlers, whatever its window |
| WindowEvents.WinEventListener.constructor | src/win2/window_event.rs:89-103 | a new listener has hook 0, is not exited, has no thread, an empty fresh channel and no handlers |
| WindowEvents.WinEventListener.On | src/win2/window_event.rs:106-116 | the handler table becomes the old one with the handler appended to its kind |
| WindowEvents.WinEventListener.Start | src/win2/window_event.rs:118-147 | the hook id is stored; the registry maps it to this listener's channel, overwriting any previous entry and keeping all others; a thread is spawned exactly when not blocking |
| WindowEvents.WinEventListener.Process | src/win2/window_event.rs:149-187 | an empty queue invokes nothing; otherwise exactly the head is removed, and the handlers invoked are its kind's handlers then the `All` handlers in registration order, or none when a valid target differs from the event's window |
| WindowEvents.WinEventListener.RunLoop | src/win2/window_event.rs:189-205 | after a number of loop iterations, that many events (at most the whole queue) are consumed from the head, and the handlers invoked are the trace of the consumed events |
| WindowEvents.WinEventListener.Drop | src/win2/window_event.rs:211-222 | teardown unhooks the stored hook id and sets the exit flag; nothing else changes, in particular not the registry |
| WindowEvents.HandlerOrderScenario | src/win2/window_event.rs:166-183 | two `Show` handlers and one `All` handler run in the order kind-specific first, then `All`, each in registration order |
| WindowEvents.FilterTrace | src/win2/window_event.rs:160-183 | with `Show` and `Hide` handlers on a valid target, a queue of the target's `Show`, another window's `Show` and the target's `Hide` runs exactly the `Show` handler and then the `Hide` handler |
| WindowEvents.FilterScenario | src/win2/window_event.rs:160-163 | for a valid target with `Show` and `Hide` handlers, events of another window and unclassified codes invoke nothing, and the target's `Show` and `Hide` run their handlers |
| WindowEvents.TeardownScenario | src/win2/window_event.rs:211-222 | dropping a listener that never started unhooks 0; dropping a started one unhooks its id, its registry entry remains, and a later callback still queues on its channel |
| Attach.Clamp | src/window_attach.rs:43-52 | bounds that are not positive are ignored; a positive maximum is never exceeded; a positive minimum is reached unless it exceeds a positive maximum, and then the result is the maximum; a value within the bounds is unchanged; the result is the value or one of the bounds |
| Attach.U32AsI32 | src/window_attach.rs:200-205 | the `as` cast keeps limits up to `i32::MAX` and wraps larger ones to negative values |
| Attach.HugeLimitIsNoBound | src/window_attach.rs:200-205 | a limit above `i32::MAX` acts as no limit at all |
| Attach.AttachDirection.MatchSize | src/window_attach.rs:42-62 | above or below the target, the width becomes the clamped target width and the height is kept; beside it, the height becomes the clamped target height and the width is kept |
| Attach.AttachDirection.Apply | src/window_attach.rs:64-103 | moved to the returned position, the dependent has the corner its direction names exactly on the target's anchor corner plus the fixed offset |
| Attach.ApplyIgnoresPosition | src/window_attach.rs:64-103 | the position depends on the dependent's width and height, never on its current position |
| Attach.ApplyIsUnique | src/window_attach.rs:64-103 | the returned position is the only one that puts that corner on the shifted anchor |
| Attach.DirectionExamples | src/window_attach.rs:64-103 | for a 50 x 20 target at (100, 100) and a 30 x 10 dependent: right-top gives (150, 100), left-bottom (70, 110), top-right (120, 90); with limits 40 and 200 a width of 20 becomes 40 and 500 becomes 200 |
| Attach.Recompute | src/window_attach.rs:195-212 | the rectangle computed by resizing first and then positioning from the new size is placed, and it is the only placed rectangle |
| Attach.PlacedIsStable | src/window_attach.rs:191-217 | a placed rectangle is still placed when it is taken as the starting point |
| Attach.UpdateCall | src/window_attach.rs:191-219 | no write exactly when the dependent is already placed; otherwise one non-topmost `SetWindowPos` of the placed rectangle |
| Attach.UpdateRect | src/window_attach.rs:191-219 | the closure, mutating a local rectangle size first and position second, issues exactly that write |
| Attach.UpdateTwice | src/window_attach.rs:191-222 | a second run against the same target rectangle, reading back what the first left, writes nothing |
| Attach.AttachDispatch | src/window_attach.rs:225-237 | the attachment's listener runs the location handler for a delivered `LocationChange`, the resize-end handler for a delivered `MoveResizeEnd`, and nothing for any other event |
| Attach.RunHandler | src/window_attach.rs:227-236 | the location handler recomputes only when the event's object id is 0; the resize-end handler always recomputes |
| Attach.WindowAttach.constructor | src/window_attach.rs:133-142 | a new attachment is right-top, without size matching, with limits 0 and 0 and offset (0, 0) |
| Attach.WindowAttach.Dir | src/window_attach.rs:144-147 | sets the direction |
| Attach.WindowAttach.MatchSize | src/window_attach.rs:149-152 | sets whether the size is matched |
| Attach.WindowAttach.MatchSizeLimit | src/window_attach.rs:154-158 | sets the maximum from the first argument and the minimum from the second |
| Attach.WindowAttach.MatchSizeMax | src/window_attach.rs:160-163 | sets the maximum |
| Attach.WindowAttach.MatchSizeMin | src/window_attach.rs:165-168 | sets the minimum |
| Attach.WindowAttach.FixPos | src/window_attach.rs:170-174 | sets the fixed offset |
| Attach.WindowAttach.Start | src/window_attach.rs:177-240 | makes the target the owner of the dependent, issues the first update with the configured values, and starts a blocking listener on the target with exactly the location-change and resize-end handlers, registered under the listener's hook |
| Attach.BuilderScenario | src/window_attach.rs:256-268 | left-bottom with size matching between 200 and 800 keeps the dependent's width and clamps its height into that range |

## Left out

- Every Win32 call is an input or a returned call record, not an effect. This covers the event hook, `UnhookWinEvent`, `GetWindowRect`, `SetWindowPos`, `MoveWindow`, the owner change, `IsWindow`, the DWM query, `GetWindowTextW`, `RealGetWindowClassW` and the cursor calls.
- Threads, mutexes, atomics and the `lazy_static` globals are sequential state. The registry is a `Registry` object passed explicitly. A spawned loop thread is only a flag.
- The message-loop pump (`src/win2/message_loop.rs`) is not part of this model. Its steps are driven explicitly by `WinEventListener.Process` and `WinEventListener.RunLoop`.
- The exit flag is set by `Drop` but never read by the loop, so cancellation has nothing to model.
- `WINDOWS_EVENT_CHANNEL`, the unused global channel, is left out.
- A failing send on a listener's channel is left out. The receiver lives in the same shared pair as the sender, so a send cannot fail.
- The event-time argument of the hook callback is left out; the source ignores it.
- `Display for Window`, `exe_path`, `class` and the UTF-16 buffers behind `title` and `class` are left out. The class query is an `Option` input, with `None` for a failed query. The window text is given, so the 512-unit truncation of `title` is not modelled.
- `from_name`, `foreground`, `window_from_point`, `window_at_cursor_pos`, `get_cursor_pos`, the show, hide and focus wrappers, and `set_parent` are each a single OS call with no logic of their own.
- `src/win2/window_enum.rs` is not part of this model. The order in which `EnumWindows` reports handles is a sequence given as input.
- `src/webview2_setup.rs`, `src/splash.rs` and `bindings/build.rs` are not part of this model.
- The `println!` diagnostics are left out.
- Attach.AttachDirection.Apply: coordinates are unbounded integers, so i32 overflow in the corner formulas is not modelled.
- Windows.CenterOf: coordinates are unbounded integers, so i32 overflow in `x + width / 2` is not modelled.
- Attach.UpdateRect: both rectangles are inputs, so the panic of the unwrapped `rect()` reads is not modelled.
- Windows.SetPos and Windows.SetSize: the current rectangle is an input, so the panic of the unwrapped `rect()` read is not modelled.
- Attach.WindowAttach.Start: it returns after starting the listener, while the source blocks in the message loop. The owner change is returned as the pair (dependent, owner) instead of being performed, and the loop's later steps are `WinEventListener.Process` on the returned listener.
- WindowEvents.WinEventListener.RunLoop: the target's validity is one input for the whole run, while the source re-reads `is_valide()` on every step; no callback arrives during the run. `WinEventListener.Process` covers a single step with its own validity.
- WindowEvents.WinEventListener.Start: with `block` set, the source never returns. The model returns, and the loop is driven by `Process` and `RunLoop`.

## Findings

| source | as written | input that shows it | evidently intended | confidence | as-written member | corrected member |
|---|---|---|---|---|---|---|
| src/win2/window.rs:156-158 | a window passes the lookup filter when no class is given, OR its class equals the given class, OR its title equals the name | no class, name "Window", and one valid enumerated window titled "Other": `from_first_name` returns that window | the title must equal the name, and the class must also match when one is given | not executed | Windows.FirstNameIgnoresNameExample | Windows.IntendedFirstName |
