/**
 * The pure parts of the window manager's geometry (window_manager.py):
 * choosing the display, the integer grid cells, the 50-pixel acceptance test
 * of the three positioning strategies, and the taskbar style-bit flips.
 */
module Geometry {
  import opened Wrappers
  import opened Os

  // ---------------------------------------------------------------- displays

  /** One monitor as `GetMonitorInfo` reports it: its work area and flags. */
  datatype Monitor = Monitor(work: Rect, flags: int)

  /**
   * A display description. `Numbered` is built from an enumerated monitor;
   * `Fallback` is the literal the source returns when no monitor can be used,
   * which carries only the four fields it names.
   */
  datatype Display =
    | Numbered(index: int, left: int, top: int, right: int, bottom: int,
               width: int, height: int, isPrimary: bool)
    | Fallback(left: int, top: int, width: int, height: int)

  const DEFAULT_DISPLAY: Display := Fallback(0, 0, 1920, 1080)

  /** The record the source builds for the monitor at 0-based position `i`. */
  function DisplayOf(i: nat, m: Monitor): (d: Display)
    ensures d.Numbered? && d.index == i + 1
    ensures d.width == m.work.right - m.work.left && d.height == m.work.bottom - m.work.top
    ensures d.left == m.work.left && d.top == m.work.top
    ensures d.isPrimary <==> m.flags % 2 == 1
  {
    Numbered(i + 1, m.work.left, m.work.top, m.work.right, m.work.bottom,
             m.work.right - m.work.left, m.work.bottom - m.work.top,
             m.flags % 2 == 1)
  }

  /**
   * `detect_displays`. `monitors` is None when enumerating the monitors raises;
   * `preferred` is the 1-based configured display.
   */
  method DetectDisplays(monitors: Option<seq<Monitor>>, preferred: int) returns (d: Display)
    ensures monitors.None? ==> d == DEFAULT_DISPLAY
    ensures (monitors.Some? && 1 <= preferred <= |monitors.value|) ==>
              d == DisplayOf(preferred - 1, monitors.value[preferred - 1])
    ensures (monitors.Some? && !(1 <= preferred <= |monitors.value|) && monitors.value != []) ==>
              d == DisplayOf(0, monitors.value[0])
    ensures monitors == Some([]) ==> d == DEFAULT_DISPLAY
  {
    if monitors.None? {
      return DEFAULT_DISPLAY;
    }
    var ms := monitors.value;
    var displays: seq<Display> := [];
    for i := 0 to |ms|
      invariant |displays| == i
      invariant forall j | 0 <= j < i :: displays[j] == DisplayOf(j, ms[j])
    {
      displays := displays + [DisplayOf(i, ms[i])];
    }
    if 1 <= preferred <= |displays| {
      d := displays[preferred - 1];
    } else if displays != [] {
      d := displays[0];
    } else {
      d := DEFAULT_DISPLAY;
    }
  }

  // ---------------------------------------------------------------- grid cells

  /** The padding `arrange_windows_grid` hard-codes, in pixels. */
  const PADDING: int := 10

  /** Cell extent along one axis: Python floor division of the room left after padding. */
  function CellSize(extent: int, n: int): int
    requires n > 0
  {
    (extent - (n + 1) * PADDING) / n
  }

  /** Top-left corner of the cell for sorted index `i` (row-major, `cols` per row). */
  function CellX(left: int, width: int, cols: int, i: nat): int
    requires cols > 0
  {
    left + PADDING + (i % cols) * (CellSize(width, cols) + PADDING)
  }

  function CellY(top: int, height: int, cols: int, rows: int, i: nat): int
    requires cols > 0 && rows > 0
  {
    top + PADDING + (i / cols) * (CellSize(height, rows) + PADDING)
  }

  /** The number of cells; windows at sorted index `Capacity` and beyond are not placed. */
  function Capacity(cols: int, rows: int): int {
    cols * rows
  }

  lemma MulMono(a: int, b: int, c: int)
    requires 0 <= a <= b && c >= 0
    ensures a * c <= b * c
  {}

  /** The cell floor-division bound: `n` cells and `n + 1` paddings fit in `extent`. */
  lemma CellSizeFits(extent: int, n: int)
    requires n > 0
    ensures n * CellSize(extent, n) + (n + 1) * PADDING <= extent
  {
    var q := extent - (n + 1) * PADDING;
    assert q / n * n <= q;
  }

  /**
   * Every grid position `0 <= k < n` lies inside the extent: the cell starts
   * at least one padding in and ends at least one padding before the far edge.
   */
  lemma {:induction false} AxisInside(origin: int, extent: int, n: int, k: int)
    requires n > 0 && 0 <= k < n && CellSize(extent, n) >= 0
    ensures origin + PADDING <= origin + PADDING + k * (CellSize(extent, n) + PADDING)
    ensures origin + PADDING + k * (CellSize(extent, n) + PADDING) + CellSize(extent, n)
              <= origin + extent - PADDING
  {
    var c := CellSize(extent, n);
    CellSizeFits(extent, n);
    MulMono(k, n - 1, c + PADDING);
    assert (n - 1) * (c + PADDING) + c + PADDING == n * c + n * PADDING;
  }

  /** Two different positions on one axis give non-overlapping intervals. */
  lemma {:induction false} AxisDisjoint(extent: int, n: int, a: int, b: int)
    requires n > 0 && 0 <= a < b && CellSize(extent, n) >= 0
    ensures a * (CellSize(extent, n) + PADDING) + CellSize(extent, n)
              < b * (CellSize(extent, n) + PADDING)
  {
    var c := CellSize(extent, n);
    MulMono(a + 1, b, c + PADDING);
    assert (a + 1) * (c + PADDING) == a * (c + PADDING) + c + PADDING;
  }

  /**
   * Grid cells lie inside the display's work area, with a padding margin on
   * every side, whenever the display is large enough for non-negative cells.
   */
  lemma CellInsideDisplay(left: int, top: int, width: int, height: int, cols: int, rows: int, i: nat)
    requires cols > 0 && rows > 0 && i < Capacity(cols, rows)
    requires CellSize(width, cols) >= 0 && CellSize(height, rows) >= 0
    ensures left + PADDING <= CellX(left, width, cols, i)
    ensures CellX(left, width, cols, i) + CellSize(width, cols) <= left + width - PADDING
    ensures top + PADDING <= CellY(top, height, cols, rows, i)
    ensures CellY(top, height, cols, rows, i) + CellSize(height, rows) <= top + height - PADDING
  {
    AxisInside(left, width, cols, i % cols);
    assert i / cols < rows by {
      if i / cols >= rows {
        MulMono(rows, i / cols, cols);
      }
    }
    AxisInside(top, height, rows, i / cols);
  }

  /** Distinct grid indices get non-overlapping cells. */
  lemma CellsDisjoint(left: int, top: int, width: int, height: int, cols: int, rows: int, i: nat, j: nat)
    requires cols > 0 && rows > 0 && i != j
    requires CellSize(width, cols) >= 0 && CellSize(height, rows) >= 0
    ensures var w, h := CellSize(width, cols), CellSize(height, rows);
            || CellX(left, width, cols, i) + w < CellX(left, width, cols, j)
            || CellX(left, width, cols, j) + w < CellX(left, width, cols, i)
            || CellY(top, height, cols, rows, i) + h < CellY(top, height, cols, rows, j)
            || CellY(top, height, cols, rows, j) + h < CellY(top, height, cols, rows, i)
  {
    if i % cols < j % cols {
      AxisDisjoint(width, cols, i % cols, j % cols);
    } else if j % cols < i % cols {
      AxisDisjoint(width, cols, j % cols, i % cols);
    } else {
      assert i == (i / cols) * cols + i % cols && j == (j / cols) * cols + j % cols;
      if i / cols < j / cols {
        AxisDisjoint(height, rows, i / cols, j / cols);
      } else {
        AxisDisjoint(height, rows, j / cols, i / cols);
      }
    }
  }

  /** The worked example: a 1930x1010 display in a 3x2 grid. */
  lemma GridExample()
    ensures CellSize(1930, 3) == 630 && CellSize(1010, 2) == 490
    ensures CellX(0, 1930, 3, 0) == 10 && CellY(0, 1010, 3, 2, 0) == 10
    ensures CellX(0, 1930, 3, 4) == 650 && CellY(0, 1010, 3, 2, 4) == 510
    ensures Capacity(3, 2) == 6
  {}

  // ---------------------------------------------------------------- strategies

  /** How far the read-back corner may be from the target, per axis. */
  const TOLERANCE: int := 50

  /**
   * The outcome of one positioning strategy: `Refused` when its first call
   * returns false or raises, so the window stays where it was; `Landed` when
   * every call succeeds and `GetWindowRect` then reads back `rect`; and
   * `MovedOnly` when a later call fails after an earlier one moved the window
   * to `rect` (the move-then-resize strategy whose resize returns false or
   * raises), so nothing is read back and the strategy is not accepted.
   */
  datatype Attempt = Refused | Landed(rect: Rect) | MovedOnly(rect: Rect)

  /** What the OS does with each of the three strategies, in the order they are tried. */
  datatype Attempts = Attempts(direct: Attempt, moveThenSize: Attempt, legacy: Attempt)

  function Abs(n: int): nat {
    if n < 0 then -n else n
  }

  predicate Accepted(a: Attempt, x: int, y: int) {
    a.Landed? && Abs(a.rect.left - x) <= TOLERANCE && Abs(a.rect.top - y) <= TOLERANCE
  }

  function AsList(att: Attempts): seq<Attempt> {
    [att.direct, att.moveThenSize, att.legacy]
  }

  /** The 1-based strategy accepted first, or 0 when all three are rejected. */
  function AcceptedStrategy(att: Attempts, x: int, y: int): (k: nat)
    ensures k <= 3
    ensures k > 0 ==> Accepted(AsList(att)[k - 1], x, y)
    ensures forall j | 0 <= j < (if k == 0 then 3 else k - 1) :: !Accepted(AsList(att)[j], x, y)
  {
    if Accepted(att.direct, x, y) then 1
    else if Accepted(att.moveThenSize, x, y) then 2
    else if Accepted(att.legacy, x, y) then 3
    else 0
  }

  /** The strategies actually tried: up to and including the first accepted one. */
  function Tried(att: Attempts, x: int, y: int): (t: seq<Attempt>)
    ensures |t| == (var k := AcceptedStrategy(att, x, y); if k == 0 then 3 else k)
    ensures t == AsList(att)[..|t|]
  {
    var k := AcceptedStrategy(att, x, y);
    AsList(att)[..if k == 0 then 3 else k]
  }

  /** Where the last strategy among `tried` that moved the window left it, or `r0` when none did. */
  function LastLanded(r0: Rect, tried: seq<Attempt>): (r: Rect)
    ensures r == r0 || exists i | 0 <= i < |tried| :: !tried[i].Refused? && tried[i].rect == r
  {
    if tried == [] then r0
    else if !tried[|tried| - 1].Refused? then tried[|tried| - 1].rect
    else LastLanded(r0, tried[..|tried| - 1])
  }

  /** A strategy accepted first fixes the result: later strategies are never tried. */
  lemma {:induction false} FirstAcceptedDecides(r0: Rect, att: Attempts, x: int, y: int)
    requires AcceptedStrategy(att, x, y) > 0
    ensures LastLanded(r0, Tried(att, x, y)) == AsList(att)[AcceptedStrategy(att, x, y) - 1].rect
    ensures Abs(LastLanded(r0, Tried(att, x, y)).left - x) <= TOLERANCE
    ensures Abs(LastLanded(r0, Tried(att, x, y)).top - y) <= TOLERANCE
  {
    var t := Tried(att, x, y);
    assert t[|t| - 1] == AsList(att)[AcceptedStrategy(att, x, y) - 1];
  }

  /** Where one strategy leaves a window that was at `r`. */
  function After(r: Rect, a: Attempt): Rect {
    if a.Refused? then r else a.rect
  }

  /** The read-back rectangle after the strategies, step by step in the order they stop. */
  lemma TriedInOrder(r0: Rect, att: Attempts, x: int, y: int)
    ensures var r1 := After(r0, att.direct);
            var r2 := After(r1, att.moveThenSize);
            LastLanded(r0, Tried(att, x, y))
            == if Accepted(att.direct, x, y) then r1
               else if Accepted(att.moveThenSize, x, y) then r2
               else After(r2, att.legacy)
  {
    var t := Tried(att, x, y);
    var l := AsList(att);
    if Accepted(att.direct, x, y) {
      assert t == l[..1] == [att.direct];
      assert t[..0] == [];
    } else if Accepted(att.moveThenSize, x, y) {
      assert t == l[..2] == [att.direct, att.moveThenSize];
      assert t[..1] == [att.direct] && t[..1][..0] == [];
    } else {
      assert t == l[..3] == [att.direct, att.moveThenSize, att.legacy];
      assert t[..2] == [att.direct, att.moveThenSize];
      assert t[..2][..1] == [att.direct] && t[..2][..1][..0] == [];
      assert LastLanded(r0, t[..2]) == After(After(r0, att.direct), att.moveThenSize);
    }
  }

  /**
   * A move that succeeds with a resize that fails is never accepted, yet the
   * window keeps the move: when the other two strategies are refused, the
   * window ends where the move left it.
   */
  lemma HalfMoveKept(r0: Rect, moved: Rect, x: int, y: int)
    ensures var att := Attempts(Refused, MovedOnly(moved), Refused);
            && AcceptedStrategy(att, x, y) == 0
            && LastLanded(r0, Tried(att, x, y)) == moved
  {
    var att := Attempts(Refused, MovedOnly(moved), Refused);
    TriedInOrder(r0, att, x, y);
  }

  // ---------------------------------------------------------------- taskbar bit

  /** `_hide_from_taskbar`: OR in the tool-window bit. */
  function HideStyle(style: bv32): (r: bv32)
    ensures r & WS_EX_TOOLWINDOW == WS_EX_TOOLWINDOW
    ensures r & !WS_EX_TOOLWINDOW == style & !WS_EX_TOOLWINDOW
  {
    style | WS_EX_TOOLWINDOW
  }

  /** `_show_in_taskbar`: AND out the tool-window bit. */
  function ShowStyle(style: bv32): (r: bv32)
    ensures r & WS_EX_TOOLWINDOW == 0
    ensures r & !WS_EX_TOOLWINDOW == style & !WS_EX_TOOLWINDOW
  {
    style & !WS_EX_TOOLWINDOW
  }

  /** Hiding twice is hiding once. */
  lemma HideIdempotent(style: bv32)
    ensures HideStyle(HideStyle(style)) == HideStyle(style)
  {}

  /** Showing undoes hiding exactly when the style lacked the bit before. */
  lemma ShowUndoesHide(style: bv32)
    ensures ShowStyle(HideStyle(style)) == style <==> style & WS_EX_TOOLWINDOW == 0
  {}
}
