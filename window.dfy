/** The logic layer of src/win2/window.rs: the `Window` value, lookup by
    enumeration and filter, and the arguments the geometry helpers pass to
    Win32. Every OS query is a field of `Desktop`, a snapshot of what the OS
    answers; the enumeration order of EnumWindows is an input sequence. */
module Windows {
  import opened Prelude
  import opened Rects
  import Win32Result

  /** `HWND`, a pointer-sized handle. */
  type Hwnd = int

  /** What the OS answers about handles.
      - isWindow: `IsWindow`
      - pidTid: `GetWindowThreadProcessId` (process id, thread id)
      - className: `RealGetWindowClassW`; None when it writes no character,
        which makes `Window::class` return an error
      - text: the characters `GetWindowTextW` copies out */
  datatype Desktop = Desktop(
    isWindow: Hwnd -> bool,
    pidTid: Hwnd -> (u32, u32),
    className: Hwnd -> Option<string>,
    text: Hwnd -> string)

  /** A window handle together with the process and thread ids read when the
      value was made. Equality (`PartialEq`) compares the handle only. */
  datatype Window = Window(hwnd: Hwnd, pid: u32, tid: u32) {
    /** Two windows are equal when they agree once the cached ids are
        replaced by this window's own. */
    predicate Eq(other: Window): (b: bool)
      ensures b <==> other.(pid := pid, tid := tid) == this
    {
      hwnd == other.hwnd
    }
  }

  /** `Default for Window`: the null handle with zero ids, equal exactly to
      the windows whose handle is null. */
  function DefaultWindow(): (w: Window)
    ensures w.hwnd == 0 && w.pid == 0 && w.tid == 0
    ensures forall other: Window :: w.Eq(other) <==> other.hwnd == 0
  {
    Window(0, 0, 0)
  }

  /** `Window::eq` is an equivalence that ignores the process and thread ids. */
  lemma EqIsEquivalence(a: Window, b: Window, c: Window)
    ensures a.Eq(a)
    ensures a.Eq(b) <==> b.Eq(a)
    ensures a.Eq(b) && b.Eq(c) ==> a.Eq(c)
    ensures a.Eq(b) <==> a.hwnd == b.hwnd
  {
  }

  /** Two windows that differ only in the cached ids are equal, and one of
      them is the default window exactly when its handle is 0. */
  lemma EqIgnoresIds(h: Hwnd, p1: u32, t1: u32, p2: u32, t2: u32)
    ensures Window(h, p1, t1).Eq(Window(h, p2, t2))
    ensures Window(h, p1, t1).Eq(DefaultWindow()) <==> h == 0
  {
  }

  /** `From<HWND> for Window`: reads the ids of the handle. */
  function FromHandle(os: Desktop, h: Hwnd): (w: Window)
    ensures w.hwnd == h
    ensures (w.pid, w.tid) == os.pidTid(h)
  {
    Window(h, os.pidTid(h).0, os.pidTid(h).1)
  }

  /** `Window::is_valide`: a window is valid exactly when `from_hwnd` of its
      handle succeeds, and then it gives back an equal window. */
  predicate IsValid(os: Desktop, w: Window): (b: bool)
    ensures b <==> FromHwnd(os, w.hwnd).Some?
    ensures b ==> FromHwnd(os, w.hwnd).value.Eq(w)
  {
    os.isWindow(w.hwnd)
  }

  /** `Window::from_hwnd`: a window for every handle the OS calls a window,
      and nothing for any other handle. */
  function FromHwnd(os: Desktop, h: Hwnd): (r: Option<Window>)
    ensures r.Some? <==> os.isWindow(h)
    ensures r.Some? ==> r.value == FromHandle(os, h)
  {
    if !os.isWindow(h) then None else Some(FromHandle(os, h))
  }

  /** `Window::title`: the window text, or None when the text is empty. */
  function Title(os: Desktop, h: Hwnd): (t: Option<string>)
    ensures t.None? <==> os.text(h) == []
    ensures t.Some? ==> t.value == os.text(h) && t.value != []
  {
    var text := os.text(h);
    if text == [] then None else Some(text)
  }

  /** `title().unwrap_or_default()`, as the lookup filters read it, gives back
      the text itself: an empty name matches every window without a title. */
  lemma TitleOrDefaultIsText(os: Desktop, h: Hwnd)
    ensures Title(os, h).UnwrapOr("") == os.text(h)
  {
  }

  // ---------------------------------------------------------------------
  // Lookup by enumeration: from_first_name and from_all_name
  // ---------------------------------------------------------------------

  /** The outcome of a lookup: a value, or a panic (an `unwrap` on an error). */
  datatype Lookup<T> = Returned(value: T) | Panicked

  /** When a class is given, the filter calls `w.class().unwrap()` before
      anything else; a class query that fails panics. */
  predicate ClassUnwrapPanics(os: Desktop, cls: Option<string>, h: Hwnd) {
    cls.Some? && os.className(h).None?
  }

  /** The filter both lookups apply to each enumerated window, evaluated left
      to right with short circuit: no class given, OR the class equals, OR the
      title equals the name. */
  predicate NameFilter(os: Desktop, cls: Option<string>, name: string, h: Hwnd)
    requires !ClassUnwrapPanics(os, cls, h)
  {
    || cls.None?
    || cls.value == os.className(h).value
    || name == Title(os, h).UnwrapOr("")
  }

  /** The enumeration stops at a window: it panics there or the filter passes. */
  predicate Stops(os: Desktop, cls: Option<string>, name: string, h: Hwnd) {
    ClassUnwrapPanics(os, cls, h) || NameFilter(os, cls, name, h)
  }

  /** What `from_first_name` returns for the windows in enumeration order. */
  function FirstName(os: Desktop, cls: Option<string>, name: string, ws: seq<Hwnd>): Lookup<Option<Window>>
    decreases |ws|
  {
    if ws == [] then Returned(None)
    else if ClassUnwrapPanics(os, cls, ws[0]) then Panicked
    else if NameFilter(os, cls, name, ws[0]) then Returned(FromHwnd(os, ws[0]))
    else FirstName(os, cls, name, ws[1..])
  }

  /** `Window::from_first_name`: the enumeration callback assigns the captured
      result and stops at the first window that passes the filter. */
  method FromFirstName(os: Desktop, cls: Option<string>, name: string, enumerated: seq<Hwnd>)
    returns (r: Lookup<Option<Window>>)
    ensures r == FirstName(os, cls, name, enumerated)
  {
    var my: Option<Window> := None;
    var i := 0;
    while i < |enumerated|
      invariant 0 <= i <= |enumerated|
      invariant FirstName(os, cls, name, enumerated) == FirstName(os, cls, name, enumerated[i..])
    {
      var w := enumerated[i];
      if ClassUnwrapPanics(os, cls, w) {
        return Panicked;
      }
      if NameFilter(os, cls, name, w) {
        my := FromHwnd(os, w);
        return Returned(my);
      }
      assert enumerated[i..][1..] == enumerated[i + 1..];
      i := i + 1;
    }
    r := Returned(my);
  }

  /** The lookup ends at the first window where the enumeration stops: a panic
      there, or that window when the OS calls it valid, or nothing when it does
      not (the lookup does not go on to later windows). */
  lemma {:induction false} FirstNameIsFirstStop(os: Desktop, cls: Option<string>, name: string, ws: seq<Hwnd>, i: nat)
    requires i < |ws| && Stops(os, cls, name, ws[i])
    requires forall j :: 0 <= j < i ==> !Stops(os, cls, name, ws[j])
    ensures ClassUnwrapPanics(os, cls, ws[i]) ==> FirstName(os, cls, name, ws) == Panicked
    ensures !ClassUnwrapPanics(os, cls, ws[i]) ==> FirstName(os, cls, name, ws) == Returned(FromHwnd(os, ws[i]))
  {
    if i > 0 {
      assert !Stops(os, cls, name, ws[0]);
      FirstNameIsFirstStop(os, cls, name, ws[1..], i - 1);
    }
  }

  /** When the enumeration never stops, the lookup returns nothing. */
  lemma {:induction false} FirstNameWithoutStop(os: Desktop, cls: Option<string>, name: string, ws: seq<Hwnd>)
    requires forall j :: 0 <= j < |ws| ==> !Stops(os, cls, name, ws[j])
    ensures FirstName(os, cls, name, ws) == Returned(None)
  {
    if ws != [] {
      assert !Stops(os, cls, name, ws[0]);
      FirstNameWithoutStop(os, cls, name, ws[1..]);
    }
  }

  /** Prefixes the windows already collected to the outcome of the rest. */
  function Prepend(found: seq<Window>, rest: Lookup<seq<Window>>): Lookup<seq<Window>> {
    match rest
    case Panicked => Panicked
    case Returned(more) => Returned(found + more)
  }

  lemma PrependNothing(rest: Lookup<seq<Window>>)
    ensures Prepend([], rest) == rest
  {
    if rest.Returned? {
      assert [] + rest.value == rest.value;
    }
  }

  lemma PrependTwice(found: seq<Window>, more: seq<Window>, rest: Lookup<seq<Window>>)
    ensures Prepend(found, Prepend(more, rest)) == Prepend(found + more, rest)
  {
    if rest.Returned? {
      assert found + (more + rest.value) == (found + more) + rest.value;
    }
  }

  /** The windows `from_all_name` keeps from one enumerated handle. */
  function Kept(os: Desktop, cls: Option<string>, name: string, h: Hwnd): seq<Window>
    requires !ClassUnwrapPanics(os, cls, h)
  {
    if NameFilter(os, cls, name, h) && os.isWindow(h) then [FromHandle(os, h)] else []
  }

  /** What `from_all_name` returns for the windows in enumeration order. */
  function AllName(os: Desktop, cls: Option<string>, name: string, ws: seq<Hwnd>): Lookup<seq<Window>>
    decreases |ws|
  {
    if ws == [] then Returned([])
    else if ClassUnwrapPanics(os, cls, ws[0]) then Panicked
    else Prepend(Kept(os, cls, name, ws[0]), AllName(os, cls, name, ws[1..]))
  }

  /** `Window::from_all_name`: pushes every window that passes the filter and
      is valid, and never stops the enumeration early. */
  method FromAllName(os: Desktop, cls: Option<string>, name: string, enumerated: seq<Hwnd>)
    returns (r: Lookup<seq<Window>>)
    ensures r == AllName(os, cls, name, enumerated)
  {
    var ws: seq<Window> := [];
    var i := 0;
    assert enumerated[0..] == enumerated;
    PrependNothing(AllName(os, cls, name, enumerated));
    while i < |enumerated|
      invariant 0 <= i <= |enumerated|
      invariant AllName(os, cls, name, enumerated) == Prepend(ws, AllName(os, cls, name, enumerated[i..]))
    {
      var w := enumerated[i];
      if ClassUnwrapPanics(os, cls, w) {
        return Panicked;
      }
      assert enumerated[i..][1..] == enumerated[i + 1..];
      PrependTwice(ws, Kept(os, cls, name, w), AllName(os, cls, name, enumerated[i + 1..]));
      if NameFilter(os, cls, name, w) {
        var my := FromHwnd(os, w);
        if my.Some? {
          ws := ws + [my.value];
        }
      }
      assert ws + [] == ws;
      i := i + 1;
    }
    assert ws + [] == ws;
    r := Returned(ws);
  }

  /** `from_all_name` panics exactly when a class is given and the class query
      fails for some enumerated window. */
  lemma {:induction false} AllNamePanics(os: Desktop, cls: Option<string>, name: string, ws: seq<Hwnd>)
    ensures AllName(os, cls, name, ws).Panicked? <==>
            exists i :: 0 <= i < |ws| && ClassUnwrapPanics(os, cls, ws[i])
  {
    if ws != [] {
      AllNamePanics(os, cls, name, ws[1..]);
      if exists i :: 0 <= i < |ws| - 1 && ClassUnwrapPanics(os, cls, ws[1..][i]) {
        var i :| 0 <= i < |ws| - 1 && ClassUnwrapPanics(os, cls, ws[1..][i]);
        assert ClassUnwrapPanics(os, cls, ws[i + 1]);
      }
      if exists i :: 0 <= i < |ws| && ClassUnwrapPanics(os, cls, ws[i]) {
        var i :| 0 <= i < |ws| && ClassUnwrapPanics(os, cls, ws[i]);
        if i > 0 {
          assert ClassUnwrapPanics(os, cls, ws[1..][i - 1]);
        }
      }
    }
  }

  /** When it returns, `from_all_name` holds exactly the valid enumerated
      windows that pass the filter. Their order is `AllNameConcat`. */
  lemma {:induction false} AllNameMembers(os: Desktop, cls: Option<string>, name: string, ws: seq<Hwnd>, w: Window)
    requires AllName(os, cls, name, ws).Returned?
    ensures w in AllName(os, cls, name, ws).value <==>
            exists i :: 0 <= i < |ws| && !ClassUnwrapPanics(os, cls, ws[i]) && w in Kept(os, cls, name, ws[i])
  {
    if ws != [] {
      AllNameMembers(os, cls, name, ws[1..], w);
      var rest := AllName(os, cls, name, ws[1..]).value;
      assert AllName(os, cls, name, ws).value == Kept(os, cls, name, ws[0]) + rest;
      if w in rest {
        var i :| 0 <= i < |ws| - 1 && !ClassUnwrapPanics(os, cls, ws[1..][i]) && w in Kept(os, cls, name, ws[1..][i]);
        assert ws[1..][i] == ws[i + 1];
      }
      if exists i :: 0 <= i < |ws| && !ClassUnwrapPanics(os, cls, ws[i]) && w in Kept(os, cls, name, ws[i]) {
        var i :| 0 <= i < |ws| && !ClassUnwrapPanics(os, cls, ws[i]) && w in Kept(os, cls, name, ws[i]);
        if i > 0 {
          assert ws[1..][i - 1] == ws[i];
        }
      }
    }
  }

  /** `from_all_name` keeps enumeration order: the windows found in an
      enumeration split in two are those found in the first part followed by
      those found in the second, and one handle contributes what it keeps. */
  lemma {:induction false} AllNameConcat(os: Desktop, cls: Option<string>, name: string, p: seq<Hwnd>, q: seq<Hwnd>)
    requires AllName(os, cls, name, p).Returned?
    ensures AllName(os, cls, name, p + q) == Prepend(AllName(os, cls, name, p).value, AllName(os, cls, name, q))
    ensures |p| == 1 ==> AllName(os, cls, name, p).value == Kept(os, cls, name, p[0])
    decreases |p|
  {
    if p == [] {
      assert p + q == q;
      PrependNothing(AllName(os, cls, name, q));
    } else {
      assert (p + q)[1..] == p[1..] + q;
      assert (p + q)[0] == p[0];
      AllNameConcat(os, cls, name, p[1..], q);
      PrependTwice(Kept(os, cls, name, p[0]), AllName(os, cls, name, p[1..]).value, AllName(os, cls, name, q));
      if |p| == 1 {
        assert p[1..] == [];
        assert Kept(os, cls, name, p[0]) + [] == Kept(os, cls, name, p[0]);
      }
    }
  }

  /** When both lookups return and the first one found a window, the second
      one starts with that same window. */
  lemma {:induction false} FirstNameHeadsAllName(os: Desktop, cls: Option<string>, name: string, ws: seq<Hwnd>)
    requires FirstName(os, cls, name, ws).Returned? && FirstName(os, cls, name, ws).value.Some?
    requires AllName(os, cls, name, ws).Returned?
    ensures AllName(os, cls, name, ws).value != []
    ensures AllName(os, cls, name, ws).value[0] == FirstName(os, cls, name, ws).value.value
  {
    assert ws != [];
    if !NameFilter(os, cls, name, ws[0]) {
      FirstNameHeadsAllName(os, cls, name, ws[1..]);
    }
  }

  /** Without a cls, the filter passes every window whatever the name:
      `from_first_name` returns the first enumerated window (or nothing if it
      is invalid) and `from_all_name` every valid enumerated window. */
  lemma {:induction false} NoClassMatchesEverything(os: Desktop, name: string, ws: seq<Hwnd>)
    ensures ws != [] ==> FirstName(os, None, name, ws) == Returned(FromHwnd(os, ws[0]))
    ensures AllName(os, None, name, ws).Returned?
    ensures forall w :: w in AllName(os, None, name, ws).value <==>
              exists i :: 0 <= i < |ws| && os.isWindow(ws[i]) && w == FromHandle(os, ws[i])
  {
    AllNamePanics(os, None, name, ws);
    forall w
      ensures w in AllName(os, None, name, ws).value <==>
              exists i :: 0 <= i < |ws| && os.isWindow(ws[i]) && w == FromHandle(os, ws[i])
    {
      AllNameMembers(os, None, name, ws, w);
    }
  }

  /** A concrete enumeration that shows the lookups ignore the name when no
      class is given: a window titled "Other" is returned for the name
      "Window". */
  lemma FirstNameIgnoresNameExample()
    ensures var os := Desktop(h => h == 7, h => (0, 0), h => Some("Notepad"), h => "Other");
            && FirstName(os, None, "Window", [7]) == Returned(Some(Window(7, 0, 0)))
            && Title(os, 7) != Some("Window")
  {
  }

  /** The filter the lookups evidently intend: the title equals the name and,
      when a class is given, the class equals it too. A failed class query is
      a mismatch rather than a panic. */
  predicate IntendedFilter(os: Desktop, cls: Option<string>, name: string, h: Hwnd) {
    && (cls.None? || os.className(h) == cls)
    && os.text(h) == name
  }

  /** `from_first_name` with the intended filter: every window it returns was
      enumerated, carries the requested title and, when a class was given,
      the requested cls. */
  function IntendedFirstName(os: Desktop, cls: Option<string>, name: string, ws: seq<Hwnd>): (r: Option<Window>)
    ensures r.Some? ==> r.value.hwnd in ws && IntendedFilter(os, cls, name, r.value.hwnd)
    ensures r.Some? ==> Title(os, r.value.hwnd).UnwrapOr("") == name && IsValid(os, r.value)
    decreases |ws|
  {
    if ws == [] then None
    else if IntendedFilter(os, cls, name, ws[0]) then FromHwnd(os, ws[0])
    else IntendedFirstName(os, cls, name, ws[1..])
  }

  /** The corrected lookup on the same example returns nothing: no enumerated
      window is titled "Window". */
  lemma IntendedFirstNameExample()
    ensures var os := Desktop(h => h == 7, h => (0, 0), h => Some("Notepad"), h => "Other");
            IntendedFirstName(os, None, "Window", [7]) == None
  {
  }

  // ---------------------------------------------------------------------
  // Geometry helpers: the arguments passed to MoveWindow, SetWindowPos and
  // SetCursorPos
  // ---------------------------------------------------------------------

  const HWND_TOPMOST: Hwnd := -1
  const HWND_NOTOPMOST: Hwnd := -2
  const SWP_NOACTIVATE: u32 := 0x0010

  /** The arguments of one `MoveWindow` call. */
  datatype MoveWindowCall = MoveWindowCall(hwnd: Hwnd, rect: Rect, repaint: bool)

  /** The arguments of one `SetWindowPos` call. */
  datatype SetWindowPosCall = SetWindowPosCall(hwnd: Hwnd, insertAfter: Hwnd, rect: Rect, flags: u32)

  /** `Window::set_pos`: reads the current rectangle, replaces its position and
      moves the window there with repaint. */
  method SetPos(w: Window, current: Rect, point: Point) returns (call: MoveWindowCall)
    ensures call.hwnd == w.hwnd && call.repaint
    ensures LeftTopOf(call.rect) == point
    ensures call.rect.width == current.width && call.rect.height == current.height
  {
    var rect := current;
    rect := rect.(x := point.0);
    rect := rect.(y := point.1);
    call := MoveWindowCall(w.hwnd, rect, true);
  }

  /** `Window::set_size`: reads the current rectangle, replaces its size and
      moves the window with repaint. */
  method SetSize(w: Window, current: Rect, size: (int, int)) returns (call: MoveWindowCall)
    ensures call.hwnd == w.hwnd && call.repaint
    ensures (call.rect.width, call.rect.height) == size
    ensures LeftTopOf(call.rect) == LeftTopOf(current)
  {
    var rect := current;
    rect := rect.(width := size.0);
    rect := rect.(height := size.1);
    call := MoveWindowCall(w.hwnd, rect, true);
  }

  /** `Window::set_rect`: the whole rectangle, without activation, placed in
      the topmost band exactly when `top` is set. */
  function SetRect(w: Window, rect: Rect, top: bool): (call: SetWindowPosCall)
    ensures call.insertAfter == HWND_TOPMOST <==> top
    ensures call.insertAfter == HWND_NOTOPMOST <==> !top
    ensures call.hwnd == w.hwnd && call.rect == rect && call.flags == SWP_NOACTIVATE
  {
    var position := if top then HWND_TOPMOST else HWND_NOTOPMOST;
    SetWindowPosCall(w.hwnd, position, rect, SWP_NOACTIVATE)
  }

  /** Rust's `v / 2` on `i32`: the quotient rounded toward zero. */
  function Half(v: int): (q: int)
    ensures v >= 0 ==> 0 <= v - 2 * q <= 1
    ensures v < 0 ==> 0 <= 2 * q - v <= 1
  {
    if v >= 0 then v / 2 else -((-v) / 2)
  }

  /** The point `Window::center_cursor_in_rect` passes to `SetCursorPos`. */
  function CenterOf(rect: Rect): (p: Point)
    ensures 2 * (p.0 - rect.x) - rect.width in {0, -1, 1}
    ensures 2 * (p.1 - rect.y) - rect.height in {0, -1, 1}
    ensures rect.width >= 0 ==> 2 * (p.0 - rect.x) - rect.width in {0, -1}
    ensures rect.width < 0 ==> 2 * (p.0 - rect.x) - rect.width in {0, 1}
    ensures rect.height >= 0 ==> 2 * (p.1 - rect.y) - rect.height in {0, -1}
    ensures rect.height < 0 ==> 2 * (p.1 - rect.y) - rect.height in {0, 1}
  {
    (rect.x + Half(rect.width), rect.y + Half(rect.height))
  }

  /** For a rectangle of non-negative size the cursor lands inside it, and
      rounding toward zero keeps the point symmetric: mirroring the size
      mirrors the offset from the origin. */
  lemma CenterIsInside(rect: Rect)
    requires rect.width >= 0 && rect.height >= 0
    ensures rect.x <= CenterOf(rect).0 <= rect.x + rect.width
    ensures rect.y <= CenterOf(rect).1 <= rect.y + rect.height
    ensures CenterOf(rect.(width := -rect.width)).0 - rect.x == -(CenterOf(rect).0 - rect.x)
  {
  }

  /** `Window::set_cursor_pos`: the `BOOL` of `SetCursorPos` through `ok()` and
      `end()`. */
  function SetCursorPosResult<E, I>(succeeded: bool, lastOsError: E, into: E -> I): (r: Result<(), I>)
    ensures r.Ok? <==> succeeded
    ensures r.Err? ==> r.error == into(lastOsError)
  {
    Win32Result.End(Win32Result.BoolOk(succeeded, lastOsError), into)
  }

  const DWM_CLOAKED_APP: u32 := 0x1
  const DWM_CLOAKED_SHELL: u32 := 0x2
  const DWM_CLOAKED_INHERITED: u32 := 0x4

  /** `Window::is_window_cloaked`: an error of the DWM query propagates;
      otherwise the window is cloaked exactly when the value is one of the
      three cloaking reasons. */
  function IsWindowCloaked<E>(query: Result<u32, E>): (r: Result<bool, E>)
    ensures r.Err? <==> query.Err?
    ensures r.Err? ==> r.error == query.error
    ensures r.Ok? ==> (r.value <==> query.value in {DWM_CLOAKED_APP, DWM_CLOAKED_SHELL, DWM_CLOAKED_INHERITED})
  {
    match query
    case Err(e) => Err(e)
    case Ok(cloaked) =>
      Ok(cloaked == DWM_CLOAKED_APP || cloaked == DWM_CLOAKED_SHELL || cloaked == DWM_CLOAKED_INHERITED)
  }

  /** A cloaked answer is a single non-zero reason bit; an uncloaked window
      (value 0) and combined reasons read as not cloaked. */
  lemma CloakedIsOneReason<E>(v: u32)
    ensures IsWindowCloaked<E>(Ok(v)) == Ok(true) ==> v != 0 && v < 8 && v != 3 && v != 5 && v != 6 && v != 7
    ensures IsWindowCloaked<E>(Ok(0)) == Ok(false)
  {
  }
}
