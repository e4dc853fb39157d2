/** The attachment engine (src/window_attach.rs): keeps a dependent window
    glued to a target window in one of eight directions, optionally matching
    one dimension of the target's size. Window rectangles are read from the
    OS, so they are inputs; what the engine writes is the `SetWindowPos` call
    it issues, if any. */
module Attach {
  import opened Prelude
  import opened Rects
  import opened Windows
  import opened WindowEvents

  /** `min_max` inside `AttachDirection::match_size`: a bound that is not
      positive is no bound; the lower bound is applied before the upper one. */
  function Clamp(v: int, min: int, max: int): (m: int)
    ensures min <= 0 && max <= 0 ==> m == v
    ensures (min <= 0 || min <= v) && (max <= 0 || v <= max) ==> m == v
    ensures max > 0 ==> m <= max
    ensures min > 0 && (max <= 0 || min <= max) ==> min <= m
    ensures min > 0 && max > 0 && min > max ==> m == max
    ensures m == v || m == min || m == max
    ensures min > 0 && v < min && (max <= 0 || min <= max) ==> m == min
    ensures max > 0 && v > max ==> m == max
    ensures min <= 0 && max > 0 ==> m == (if v > max then max else v)
    ensures min > 0 && max <= 0 ==> m == (if v < min then min else v)
  {
    var raised := if min > 0 && min > v then min else v;
    if max > 0 && max < raised then max else raised
  }

  /** Rust's `u32 as i32`: values above `i32::MAX` wrap to negative ones. */
  function U32AsI32(v: u32): (r: i32)
    ensures v <= I32_MAX ==> r == v
    ensures v > I32_MAX ==> r < 0 && r == v - 0x1_0000_0000
  {
    if v <= I32_MAX then v else v - 0x1_0000_0000
  }

  /** A size limit above `i32::MAX`, passed through `as _`, turns negative and
      so means "no bound". */
  lemma HugeLimitIsNoBound(v: int, min: u32, max: u32)
    requires max > I32_MAX
    ensures Clamp(v, U32AsI32(min), U32AsI32(max)) == Clamp(v, U32AsI32(min), 0)
    ensures min > I32_MAX ==> Clamp(v, U32AsI32(min), U32AsI32(max)) == v
  {
  }

  /** The eight placements. The first word names the side of the target the
      dependent sits on, the second the edge it is aligned with. */
  datatype AttachDirection =
    | LeftTop | TopLeft
    | RightTop | TopRight
    | RightBottom | BottomRight
    | LeftBottom | BottomLeft
  {
    /** Above or below the target: the shared edge is horizontal, so the
        width is the dimension that can be matched. */
    predicate MatchesWidth() {
      TopLeft? || TopRight? || BottomRight? || BottomLeft?
    }

    /** `AttachDirection::match_size`: takes the clamped target width (above
        or below) or the clamped target height (left or right) and keeps the
        dependent's other dimension. */
    function MatchSize(current: (int, int), target: (int, int), min: int, max: int): (r: (int, int))
      ensures MatchesWidth() ==> r.0 == Clamp(target.0, min, max) && r.1 == current.1
      ensures !MatchesWidth() ==> r.0 == current.0 && r.1 == Clamp(target.1, min, max)
    {
      match this
      case TopLeft | TopRight | BottomRight | BottomLeft =>
        (Clamp(target.0, min, max), current.1)
      case LeftTop | LeftBottom | RightTop | RightBottom =>
        (current.0, Clamp(target.1, min, max))
    }

    /** The corner of the target that `apply` reads. */
    function Anchor(): Corner {
      match this
      case LeftTop | TopLeft => Corner.LeftTop
      case RightTop | TopRight => Corner.RightTop
      case RightBottom | BottomRight => Corner.RightBottom
      case LeftBottom | BottomLeft => Corner.LeftBottom
    }

    /** The corner of the dependent that ends up on the anchor (plus the
        fixed offset), as the diagram at the top of the source file draws it. */
    function Grip(): Corner {
      match this
      case LeftTop => Corner.RightTop
      case TopLeft => Corner.LeftBottom
      case RightTop => Corner.LeftTop
      case TopRight => Corner.RightBottom
      case RightBottom => Corner.LeftBottom
      case BottomRight => Corner.RightTop
      case LeftBottom => Corner.RightBottom
      case BottomLeft => Corner.LeftTop
    }

    /** `AttachDirection::apply`: the dependent's new top-left position. Moved
        there, with its size kept, the dependent has its grip corner exactly
        at the target's anchor corner shifted by the fixed offset. */
    function Apply(current: Rect, target: Rect, fixed: Point): (p: Point)
      ensures CornerOf(current.(x := p.0, y := p.1), Grip()) == Add(CornerOf(target, Anchor()), fixed)
    {
      match this
      case LeftTop =>
        var q := LeftTopOf(target);
        (q.0 + fixed.0 - current.width, q.1 + fixed.1)
      case TopLeft =>
        var q := LeftTopOf(target);
        (q.0 + fixed.0, q.1 + fixed.1 - current.height)
      case RightTop =>
        var q := RightTopOf(target);
        (q.0 + fixed.0, q.1 + fixed.1)
      case TopRight =>
        var q := RightTopOf(target);
        (q.0 + fixed.0 - current.width, q.1 + fixed.1 - current.height)
      case RightBottom =>
        var q := RightBottomOf(target);
        (q.0 + fixed.0, q.1 + fixed.1 - current.height)
      case BottomRight =>
        var q := RightBottomOf(target);
        (q.0 + fixed.0 - current.width, q.1 + fixed.1)
      case LeftBottom =>
        var q := LeftBottomOf(target);
        (q.0 + fixed.0 - current.width, q.1 + fixed.1 - current.height)
      case BottomLeft =>
        var q := LeftBottomOf(target);
        (q.0 + fixed.0, q.1 + fixed.1)
    }
  }

  /** `apply` reads only the dependent's size, never its position. */
  lemma ApplyIgnoresPosition(d: AttachDirection, current: Rect, target: Rect, fixed: Point, x: int, y: int)
    ensures d.Apply(current.(x := x, y := y), target, fixed) == d.Apply(current, target, fixed)
  {
  }

  /** The position `apply` returns is the only one that puts the grip corner
      on the shifted anchor. */
  lemma ApplyIsUnique(d: AttachDirection, current: Rect, target: Rect, fixed: Point, p: Point)
    requires CornerOf(current.(x := p.0, y := p.1), d.Grip()) == Add(CornerOf(target, d.Anchor()), fixed)
    ensures p == d.Apply(current, target, fixed)
  {
    var placed := current.(x := p.0, y := p.1);
    var q := d.Apply(current, target, fixed);
    CornerDeterminesPosition(placed, current.(x := q.0, y := q.1), d.Grip());
  }

  /** The worked examples: target at (100, 100) sized 50 x 20, dependent
      sized 30 x 10, no offset; and a width clamp between 40 and 200. */
  lemma DirectionExamples()
    ensures AttachDirection.RightTop.Apply(Rect(0, 0, 30, 10), Rect(100, 100, 50, 20), (0, 0)) == (150, 100)
    ensures AttachDirection.LeftBottom.Apply(Rect(0, 0, 30, 10), Rect(100, 100, 50, 20), (0, 0)) == (70, 110)
    ensures AttachDirection.TopRight.Apply(Rect(0, 0, 30, 10), Rect(100, 100, 50, 20), (0, 0)) == (120, 90)
    ensures AttachDirection.TopLeft.MatchSize((30, 10), (20, 5), 40, 200) == (40, 10)
    ensures AttachDirection.TopLeft.MatchSize((30, 10), (500, 5), 40, 200) == (200, 10)
  {
  }

  /** What the `update_rect` closure captures when `start` runs. */
  datatype AttachConfig = AttachConfig(
    window: Window,
    target: Window,
    dir: AttachDirection,
    matchSize: bool,
    max: u32,
    min: u32,
    fixPos: Point)

  /** The dependent's size after the resize step of `update_rect`. */
  function SizeAfter(cfg: AttachConfig, target: Rect, before: Rect): (int, int) {
    if cfg.matchSize then
      cfg.dir.MatchSize((before.width, before.height), (target.width, target.height), U32AsI32(cfg.min), U32AsI32(cfg.max))
    else
      (before.width, before.height)
  }

  /** Where the dependent belongs: sized by the resize step, with its grip
      corner on the target's anchor corner shifted by the fixed offset. */
  predicate Placed(cfg: AttachConfig, target: Rect, before: Rect, after: Rect) {
    && (after.width, after.height) == SizeAfter(cfg, target, before)
    && CornerOf(after, cfg.dir.Grip()) == Add(CornerOf(target, cfg.dir.Anchor()), cfg.fixPos)
  }

  /** The rectangle `update_rect` computes: size first, then the position
      from the just-updated size. It is the one and only placed rectangle. */
  function Recompute(cfg: AttachConfig, target: Rect, before: Rect): (r: Rect)
    ensures Placed(cfg, target, before, r)
    ensures forall after :: Placed(cfg, target, before, after) ==> after == r
  {
    var size := SizeAfter(cfg, target, before);
    var sized := before.(width := size.0, height := size.1);
    var p := cfg.dir.Apply(sized, target, cfg.fixPos);
    var r := sized.(x := p.0, y := p.1);
    assert forall after :: Placed(cfg, target, before, after) ==> after == r by {
      forall after | Placed(cfg, target, before, after)
        ensures after == r
      {
        CornerDeterminesPosition(after, r, cfg.dir.Grip());
      }
    }
    r
  }

  /** A placed rectangle is already where it belongs: recomputing from it
      with the same target changes nothing. */
  lemma {:induction false} PlacedIsStable(cfg: AttachConfig, target: Rect, before: Rect, after: Rect)
    requires Placed(cfg, target, before, after)
    ensures Placed(cfg, target, after, after)
  {
    if cfg.matchSize {
      var lo, hi := U32AsI32(cfg.min), U32AsI32(cfg.max);
      var s := cfg.dir.MatchSize((before.width, before.height), (target.width, target.height), lo, hi);
      var s' := cfg.dir.MatchSize((after.width, after.height), (target.width, target.height), lo, hi);
      assert s == (after.width, after.height);
      assert s' == s;
    }
  }

  /** The `SetWindowPos` call one run of `update_rect` issues: none when the
      dependent is already placed, otherwise the placed rectangle, never
      topmost. */
  function UpdateCall(cfg: AttachConfig, target: Rect, current: Rect): (call: Option<SetWindowPosCall>)
    ensures call.None? <==> Placed(cfg, target, current, current)
    ensures call.Some? ==> Placed(cfg, target, current, call.value.rect)
    ensures call.Some? ==> call.value == SetRect(cfg.window, call.value.rect, false)
  {
    var next := Recompute(cfg, target, current);
    if next == current then None else Some(SetRect(cfg.window, next, false))
  }

  /** The `update_rect` closure, given the rectangles it reads: resizes a
      local copy first, then moves it, and writes only when it changed. */
  method UpdateRect(cfg: AttachConfig, targetRect: Rect, windowRect: Rect) returns (call: Option<SetWindowPosCall>)
    ensures call == UpdateCall(cfg, targetRect, windowRect)
  {
    var currentRect := windowRect;
    var original := currentRect;
    if cfg.matchSize {
      var size := cfg.dir.MatchSize(
        (currentRect.width, currentRect.height),
        (targetRect.width, targetRect.height),
        U32AsI32(cfg.min),
        U32AsI32(cfg.max));
      currentRect := currentRect.(width := size.0);
      currentRect := currentRect.(height := size.1);
    }
    var p := cfg.dir.Apply(currentRect, targetRect, cfg.fixPos);
    currentRect := currentRect.(x := p.0);
    currentRect := currentRect.(y := p.1);
    assert Placed(cfg, targetRect, windowRect, currentRect);
    if original != currentRect {
      call := Some(SetRect(cfg.window, currentRect, false));
    } else {
      call := None;
    }
  }

  /** Idempotence: after a run that wrote a rectangle (or found nothing to
      write), a second run against the same target rectangle, reading back
      what the first left, writes nothing. */
  method UpdateTwice(cfg: AttachConfig, targetRect: Rect, windowRect: Rect)
    returns (first: Option<SetWindowPosCall>, second: Option<SetWindowPosCall>)
    ensures first.Some? ==> first.value.rect == Recompute(cfg, targetRect, windowRect)
    ensures second.None?
  {
    first := UpdateRect(cfg, targetRect, windowRect);
    var now := if first.Some? then first.value.rect else windowRect;
    PlacedIsStable(cfg, targetRect, windowRect, Recompute(cfg, targetRect, windowRect));
    second := UpdateRect(cfg, targetRect, now);
  }

  const ON_LOCATION_CHANGE: HandlerId := 0
  const ON_MOVE_RESIZE_END: HandlerId := 1

  /** The handler table `start` builds on the target's listener. */
  function AttachHandlers(): HandlerTable {
    Register(Register(map[], LocationChange, ON_LOCATION_CHANGE), MoveResizeEnd, ON_MOVE_RESIZE_END)
  }

  /** For the attachment's listener a delivered `LocationChange` runs the
      location handler, a delivered `MoveResizeEnd` the resize-end handler,
      and nothing else runs anything. */
  lemma AttachDispatch(target: Window, targetValid: bool, e: WinEvent)
    requires Queueable(e)
    ensures Dispatch(AttachHandlers(), target, targetValid, e) ==
              if !Delivered(target, targetValid, e) then []
              else if e.etype == LocationChange then [ON_LOCATION_CHANGE]
              else if e.etype == MoveResizeEnd then [ON_MOVE_RESIZE_END]
              else []
  {
    ClassifyFollowsTable(e.rawEvent);
  }

  /** The two handlers `start` registers: the location handler recomputes
      only for a change of the window itself (object id 0), the resize-end
      handler always. */
  method RunHandler(cfg: AttachConfig, handler: HandlerId, e: WinEvent, targetRect: Rect, windowRect: Rect)
    returns (call: Option<SetWindowPosCall>)
    requires handler == ON_LOCATION_CHANGE || handler == ON_MOVE_RESIZE_END
    ensures handler == ON_LOCATION_CHANGE && e.rawIdObject != 0 ==> call.None?
    ensures handler == ON_MOVE_RESIZE_END || e.rawIdObject == 0 ==> call == UpdateCall(cfg, targetRect, windowRect)
  {
    call := None;
    if handler == ON_LOCATION_CHANGE {
      if 0 == e.rawIdObject {
        call := UpdateRect(cfg, targetRect, windowRect);
      }
    } else {
      call := UpdateRect(cfg, targetRect, windowRect);
    }
  }

  /** `WindowAttach`: the builder holding the attachment's configuration. */
  class WindowAttach {
    const w: Window
    const target: Window
    var direction: AttachDirection
    var matchSizeEnabled: bool
    var matchSizeMax: u32
    var matchSizeMin: u32
    var fixedOffset: Point

    /** `WindowAttach::new` (and `Window::attach_to`): right-top, no size
        matching, no limits, no offset. */
    constructor (w: Window, target: Window)
      ensures this.w == w && this.target == target
      ensures direction == AttachDirection.RightTop && !matchSizeEnabled
      ensures matchSizeMax == 0 && matchSizeMin == 0 && fixedOffset == (0, 0)
    {
      this.w := w;
      this.target := target;
      direction := AttachDirection.RightTop;
      matchSizeEnabled := false;
      matchSizeMax := 0;
      matchSizeMin := 0;
      fixedOffset := (0, 0);
    }

    method Dir(d: AttachDirection)
      modifies this`direction
      ensures direction == d
    {
      direction := d;
    }

    method MatchSize(enable: bool)
      modifies this`matchSizeEnabled
      ensures matchSizeEnabled == enable
    {
      matchSizeEnabled := enable;
    }

    /** `match_size_limit(max, min)`: the maximum comes first. */
    method MatchSizeLimit(max: u32, min: u32)
      modifies this`matchSizeMax, this`matchSizeMin
      ensures matchSizeMax == max && matchSizeMin == min
    {
      matchSizeMax := max;
      matchSizeMin := min;
    }

    method MatchSizeMax(max: u32)
      modifies this`matchSizeMax
      ensures matchSizeMax == max
    {
      matchSizeMax := max;
    }

    method MatchSizeMin(min: u32)
      modifies this`matchSizeMin
      ensures matchSizeMin == min
    {
      matchSizeMin := min;
    }

    method FixPos(fixed: Point)
      modifies this`fixedOffset
      ensures fixedOffset == fixed
    {
      fixedOffset := fixed;
    }

    /** The values `start` copies into the `update_rect` closure. */
    function Config(): AttachConfig
      reads this
    {
      AttachConfig(w, target, direction, matchSizeEnabled, matchSizeMax, matchSizeMin, fixedOffset)
    }

    /** `WindowAttach::start`: makes the target the owner of the dependent
        (the returned pair is the `set_owner` call: dependent, owner), runs
        `update_rect` once, then builds a listener on the target with the
        location-change and resize-end handlers and starts it blocking. The
        blocking loop is driven by `WinEventListener.Process` afterwards. */
    method Start(registry: Registry, hookHandle: int, targetRect: Rect, windowRect: Rect)
      returns (owner: (Hwnd, Hwnd), first: Option<SetWindowPosCall>, listener: WinEventListener)
      requires registry.Valid()
      modifies registry`channels
      ensures owner == (w.hwnd, target.hwnd)
      ensures first == UpdateCall(Config(), targetRect, windowRect)
      ensures fresh(listener) && fresh(listener.ch) && listener.Valid()
      ensures listener.w == target && listener.handlers == AttachHandlers()
      ensures listener.hook == hookHandle && !listener.threadSpawned
      ensures registry.channels == old(registry.channels)[hookHandle := listener.ch]
      ensures registry.Valid()
    {
      owner := (w.hwnd, target.hwnd);
      var cfg := Config();
      first := UpdateRect(cfg, targetRect, windowRect);
      listener := new WinEventListener(target);
      listener.On(LocationChange, ON_LOCATION_CHANGE);
      listener.On(MoveResizeEnd, ON_MOVE_RESIZE_END);
      listener.Start(registry, hookHandle, true);
    }
  }

  /** The builder calls of the source's own example (left-bottom, matched
      size between 200 and 800, no offset) configure a session that clamps
      the matched height into [200, 800] and keeps the width. */
  method BuilderScenario(child: Window, target: Window, current: (int, int), targetSize: (int, int))
    returns (size: (int, int))
    ensures size.0 == current.0 && 200 <= size.1 <= 800
  {
    var wa := new WindowAttach(child, target);
    wa.MatchSize(true);
    wa.Dir(AttachDirection.LeftBottom);
    wa.MatchSizeMin(200);
    wa.MatchSizeMax(800);
    wa.FixPos((0, 0));
    var cfg := wa.Config();
    size := cfg.dir.MatchSize(current, targetSize, U32AsI32(cfg.min), U32AsI32(cfg.max));
  }
}
