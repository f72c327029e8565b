/**
 * `WindowManager` (window_manager.py): the registry of discovered application
 * windows (`ai_windows`, `window_info`) and the operations on it — refresh,
 * grid arrangement with the three-strategy placement, bring-to-front,
 * minimize/restore/close of every registered window, and the active-app list.
 */
module WindowManager {
  import opened Wrappers
  import opened Text
  import opened Sequences
  import opened Os
  import opened Geometry
  import opened Classify

  /** `window_info.get(hwnd, {}).get('priority', 999)`. */
  function PriorityOf(info: map<Handle, WindowRecord>, h: Handle): int {
    if h in info then info[h].priority else 999
  }

  /** The sort key `arrange_windows_grid` uses. */
  function PriorityKey(info: map<Handle, WindowRecord>): Handle -> int {
    h => PriorityOf(info, h)
  }

  /** One row of `get_active_apps`. */
  datatype ActiveApp = ActiveApp(name: string, hwnd: Handle, title: string, priority: int, isMinimized: bool)

  function ActivePriority(a: ActiveApp): int {
    a.priority
  }

  // ---------------------------------------------------------------- effects of whole loops

  /** The window after `_arrange_single_window_improved` placed it at (x, y). */
  function PlaceWindow(w: Window, att: Attempts, x: int, y: int): Window {
    w.(iconic := false, maximized := false, rect := LastLanded(w.rect, Tried(att, x, y)))
  }

  /** The windows after the first |placed| grid cells received `placed`, in order. */
  function PlaceAll(ws: map<Handle, Window>, placed: seq<Handle>, d: Display, cols: int, rows: int,
                    oracle: Handle -> Attempts): (r: map<Handle, Window>)
    requires cols > 0 && rows > 0
    ensures r.Keys == ws.Keys
  {
    if placed == [] then ws
    else
      var k := |placed| - 1;
      var h := placed[k];
      var prev := PlaceAll(ws, placed[..k], d, cols, rows, oracle);
      if h in prev
      then prev[h := PlaceInCell(prev[h], oracle(h), d, cols, rows, k)]
      else prev
  }

  /** How many of the placed windows were live and accepted by some strategy. */
  function CountArranged(ws: map<Handle, Window>, placed: seq<Handle>, d: Display, cols: int, rows: int,
                         oracle: Handle -> Attempts): (n: nat)
    requires cols > 0 && rows > 0
    ensures n <= |placed|
  {
    if placed == [] then 0
    else
      var k := |placed| - 1;
      var h := placed[k];
      CountArranged(ws, placed[..k], d, cols, rows, oracle)
      + (if h in ws && AcceptedStrategy(oracle(h), CellX(d.left, d.width, cols, k), CellY(d.top, d.height, cols, rows, k)) > 0
         then 1 else 0)
  }

  /** The registered handles that are still windows, in registry order. */
  function Live(ws: map<Handle, Window>, hs: seq<Handle>): (r: seq<Handle>)
    ensures |r| <= |hs|
  {
    if hs == [] then []
    else Live(ws, hs[..|hs| - 1]) + (if hs[|hs| - 1] in ws then [hs[|hs| - 1]] else [])
  }

  /** A handle is live exactly when it is registered and is still a window. */
  lemma {:induction false} LiveMembers(ws: map<Handle, Window>, hs: seq<Handle>)
    ensures forall h :: h in Live(ws, hs) <==> h in hs && h in ws
  {
    if hs != [] {
      var k := |hs| - 1;
      LiveMembers(ws, hs[..k]);
      assert hs == hs[..k] + [hs[k]];
    }
  }

  /** The live registered handles that satisfy `iconic == want`. */
  function LiveWithIconic(ws: map<Handle, Window>, hs: seq<Handle>, want: bool): (r: seq<Handle>)
    ensures |r| <= |hs|
  {
    if hs == [] then []
    else
      var h := hs[|hs| - 1];
      LiveWithIconic(ws, hs[..|hs| - 1], want) + (if h in ws && ws[h].iconic == want then [h] else [])
  }

  /** A handle is listed exactly when it is registered, still a window and minimized as `want` says. */
  lemma {:induction false} IconicMembers(ws: map<Handle, Window>, hs: seq<Handle>, want: bool)
    ensures forall h :: h in LiveWithIconic(ws, hs, want) <==> h in hs && h in ws && ws[h].iconic == want
  {
    if hs != [] {
      var k := |hs| - 1;
      IconicMembers(ws, hs[..k], want);
      assert hs == hs[..k] + [hs[k]];
    }
  }

  /** Every registered live window set to `iconic == to`. */
  function SetIconicAll(ws: map<Handle, Window>, hs: seq<Handle>, to: bool): map<Handle, Window> {
    map h | h in ws :: if h in hs then ws[h].(iconic := to) else ws[h]
  }

  /** Every registered live window shown in the taskbar again. */
  function ShowAll(ws: map<Handle, Window>, hs: seq<Handle>): map<Handle, Window> {
    map h | h in ws :: if h in hs then ws[h].(exStyle := ShowStyle(ws[h].exStyle)) else ws[h]
  }

  function CloseEvents(hs: seq<Handle>): (es: seq<Event>)
    ensures |es| == |hs|
  {
    if hs == [] then [] else CloseEvents(hs[..|hs| - 1]) + [CloseRequested(hs[|hs| - 1])]
  }

  /** The rows `get_active_apps` collects before sorting. */
  function ActiveOf(ws: map<Handle, Window>, hs: seq<Handle>, info: map<Handle, WindowRecord>): (r: seq<ActiveApp>)
    ensures |r| == |Live(ws, hs)|
    ensures forall i | 0 <= i < |r| :: r[i].hwnd in ws && r[i].hwnd in hs
  {
    if hs == [] then []
    else
      var h := hs[|hs| - 1];
      ActiveOf(ws, hs[..|hs| - 1], info)
      + if h in ws
        then [ActiveApp(if h in info then info[h].appName else "Unknown", h,
                        if h in info then info[h].title else "", PriorityOf(info, h), ws[h].iconic)]
        else []
  }

  /** The position of the first registered window recorded for `name`. */
  function FirstOfApp(hs: seq<Handle>, info: map<Handle, WindowRecord>, name: string): (r: Option<nat>)
    ensures r.Some? ==> r.value < |hs| && hs[r.value] in info && info[hs[r.value]].appName == name
    ensures forall j | 0 <= j < (if r.Some? then r.value else |hs|) ::
              !(hs[j] in info && info[hs[j]].appName == name)
  {
    if hs == [] then None
    else if hs[0] in info && info[hs[0]].appName == name then Some(0)
    else match FirstOfApp(hs[1..], info, name)
      case Some(i) => Some(i + 1)
      case None => None
  }

  /** The loop of `get_ai_windows_fast` that builds `app_keyword_map` from the enabled apps. */
  method BuildKeywordMap(apps: seq<AppConfig>) returns (m: KeywordMap)
    ensures m == KeywordMapOf(apps)
  {
    m := [];
    for i := 0 to |apps|
      invariant m == KeywordMapOf(apps[..i])
    {
      assert apps[..i + 1][..i] == apps[..i];
      if apps[i].enabled {
        m := Put(m, apps[i].name, LowerAll(apps[i].keywords));
      }
    }
    assert apps[..|apps|] == apps;
  }

  // ---------------------------------------------------------------- lemmas

  /** The window `PlaceAll` puts into grid cell `k`. */
  function PlaceInCell(w: Window, att: Attempts, d: Display, cols: int, rows: int, k: nat): Window
    requires cols > 0 && rows > 0
  {
    PlaceWindow(w, att, CellX(d.left, d.width, cols, k), CellY(d.top, d.height, cols, rows, k))
  }

  /** Arrangement leaves every window that was not given a cell as it was. */
  lemma {:induction false} PlaceAllOthers(ws: map<Handle, Window>, placed: seq<Handle>, d: Display, cols: int, rows: int,
                                          oracle: Handle -> Attempts, h: Handle)
    requires cols > 0 && rows > 0 && h in ws && h !in placed
    ensures PlaceAll(ws, placed, d, cols, rows, oracle)[h] == ws[h]
  {
    if placed != [] {
      var k := |placed| - 1;
      assert h != placed[k];
      PlaceAllOthers(ws, placed[..k], d, cols, rows, oracle, h);
    }
  }

  /** Each live window given cell `k` ends up as PlaceWindow made it for that cell. */
  lemma {:induction false} PlaceAllPlaced(ws: map<Handle, Window>, placed: seq<Handle>, d: Display, cols: int, rows: int,
                                          oracle: Handle -> Attempts, k: nat)
    requires cols > 0 && rows > 0 && Distinct(placed) && k < |placed| && placed[k] in ws
    ensures PlaceAll(ws, placed, d, cols, rows, oracle)[placed[k]]
            == PlaceInCell(ws[placed[k]], oracle(placed[k]), d, cols, rows, k)
  {
    var last := |placed| - 1;
    var pre := placed[..last];
    if k == last {
      assert placed[k] !in pre;
      PlaceAllOthers(ws, pre, d, cols, rows, oracle, placed[k]);
    } else {
      assert pre[k] == placed[k];
      assert placed[last] != placed[k];
      PlaceAllPlaced(ws, pre, d, cols, rows, oracle, k);
    }
  }

  /** One more registered window visited by `minimize_all_windows` or `restore_all_windows`. */
  lemma SetIconicStep(ws: map<Handle, Window>, pre: seq<Handle>, h: Handle, to: bool)
    requires h !in pre
    ensures SetIconicAll(ws, pre + [h], to)
            == if h in ws && ws[h].iconic != to then SetIconicAll(ws, pre, to)[h := ws[h].(iconic := to)]
               else SetIconicAll(ws, pre, to)
  {
    if h in ws && ws[h].iconic == to {
      assert ws[h].(iconic := to) == ws[h];
    }
  }

  /** One more registered window visited by `restore_taskbar_icons`. */
  lemma ShowAllStep(ws: map<Handle, Window>, pre: seq<Handle>, h: Handle)
    requires h !in pre
    ensures ShowAll(ws, pre + [h])
            == if h in ws then ShowAll(ws, pre)[h := ws[h].(exStyle := ShowStyle(ws[h].exStyle))]
               else ShowAll(ws, pre)
  {
    var before, after := ShowAll(ws, pre), ShowAll(ws, pre + [h]);
    forall k | k in after
      ensures after[k] == if h in ws && k == h then ws[h].(exStyle := ShowStyle(ws[h].exStyle)) else before[k]
    {
      assert k in pre + [h] <==> k in pre || k == h;
    }
  }

  /** Only which handles are windows matters to `Live`. */
  lemma {:induction false} LiveSameKeys(ws1: map<Handle, Window>, ws2: map<Handle, Window>, hs: seq<Handle>)
    requires ws1.Keys == ws2.Keys
    ensures Live(ws1, hs) == Live(ws2, hs)
  {
    if hs != [] {
      LiveSameKeys(ws1, ws2, hs[..|hs| - 1]);
    }
  }

  /** Hiding taskbar icons changes neither titles nor processes, so detection sees the same window. */
  lemma HiddenKeepsIdentity(ws: map<Handle, Window>, hs: seq<Handle>, h: Handle)
    ensures HideAll(ws, hs).Keys == ws.Keys
    ensures TitleOf(HideAll(ws, hs), h) == TitleOf(ws, h)
    ensures IsValidAiWindow(HideAll(ws, hs), h) == IsValidAiWindow(ws, h)
  {}

  /** One more window recorded by the enumeration callback. */
  lemma HideAllStep(ws: map<Handle, Window>, pre: seq<Handle>, h: Handle)
    requires h !in pre && h in ws
    ensures HideAll(ws, pre + [h]) == HideAll(ws, pre)[h := ws[h].(exStyle := HideStyle(ws[h].exStyle))]
  {}

  lemma InfoOfStep(ws: map<Handle, Window>, m: KeywordMap, pre: seq<Handle>, h: Handle)
    ensures InfoOf(ws, m, pre + [h]) == InfoOf(ws, m, pre)[h := RecordOf(ws, m, h)]
  {}

  /** Arranging never counts more windows than it placed, nor places more than the grid holds. */
  lemma ArrangeBounds(ws: map<Handle, Window>, aiWindows: seq<Handle>, info: map<Handle, WindowRecord>,
                      d: Display, cols: int, rows: int, oracle: Handle -> Attempts)
    requires cols > 0 && rows > 0
    ensures var n := if |aiWindows| < cols * rows then |aiWindows| else cols * rows;
            var placed := SortBy(aiWindows, PriorityKey(info))[..n];
            CountArranged(ws, placed, d, cols, rows, oracle) <= n <= cols * rows
  {}

  /** Seven windows in a 3x2 grid: exactly six are placed and the lowest-priority one is left. */
  lemma SevenInSixCells(aiWindows: seq<Handle>, info: map<Handle, WindowRecord>)
    requires |aiWindows| == 7
    ensures var placed := SortBy(aiWindows, PriorityKey(info))[..6];
            |placed| == 6 && SortBy(aiWindows, PriorityKey(info))[6] !in placed
              <== Distinct(aiWindows)
  {
    var s := SortBy(aiWindows, PriorityKey(info));
    if Distinct(aiWindows) {
      PermutationDistinct(aiWindows, s);
      assert forall j | 0 <= j < 6 :: s[..6][j] == s[j];
    }
  }

  /**
   * The loop of `arrange_windows_grid` over the sorted windows: window i goes
   * to cell i until the grid is full.
   */
  method PlaceInGrid(desk: Desktop, sorted: seq<Handle>, d: Display, cols: int, rows: int, oracle: Handle -> Attempts)
    returns (arranged: nat, placed: seq<Handle>)
    requires cols > 0 && rows > 0
    modifies desk
    ensures placed == sorted[..if |sorted| < cols * rows then |sorted| else cols * rows]
    ensures arranged == CountArranged(old(desk.windows), placed, d, cols, rows, oracle)
    ensures desk.windows == PlaceAll(old(desk.windows), placed, d, cols, rows, oracle)
    ensures desk.order == old(desk.order) && desk.foreground == old(desk.foreground)
    ensures desk.clipboard == old(desk.clipboard) && desk.events == old(desk.events)
  {
    var cap := cols * rows;
    var w := CellSize(d.width, cols);
    var hgt := CellSize(d.height, rows);
    ghost var ws0 := desk.windows;
    arranged, placed := 0, [];
    var i := 0;
    while i < |sorted|
      invariant 0 <= i <= |sorted| && i <= cap
      invariant placed == sorted[..i]
      invariant arranged == CountArranged(ws0, placed, d, cols, rows, oracle)
      invariant desk.windows == PlaceAll(ws0, placed, d, cols, rows, oracle)
      invariant desk.order == old(desk.order) && desk.foreground == old(desk.foreground)
      invariant desk.clipboard == old(desk.clipboard) && desk.events == old(desk.events)
    {
      if i >= cap {
        break;
      }
      var h := sorted[i];
      var x := CellX(d.left, d.width, cols, i);
      var y := CellY(d.top, d.height, cols, rows, i);
      PlaceStep(ws0, placed, h, d, cols, rows, oracle);
      var ok, _ := Manager.ArrangeSingle(desk, h, Rect(x, y, x + w, y + hgt), oracle(h));
      if ok {
        arranged := arranged + 1;
      }
      assert sorted[..i + 1] == placed + [h];
      placed := placed + [h];
      i := i + 1;
    }
  }

  /** One more window given the next grid cell. */
  lemma PlaceStep(ws: map<Handle, Window>, placed: seq<Handle>, h: Handle, d: Display, cols: int, rows: int,
                  oracle: Handle -> Attempts)
    requires cols > 0 && rows > 0
    ensures var prev := PlaceAll(ws, placed, d, cols, rows, oracle);
            var x, y := CellX(d.left, d.width, cols, |placed|), CellY(d.top, d.height, cols, rows, |placed|);
            && PlaceAll(ws, placed + [h], d, cols, rows, oracle)
               == (if h in ws then prev[h := PlaceWindow(prev[h], oracle(h), x, y)] else prev)
            && CountArranged(ws, placed + [h], d, cols, rows, oracle)
               == CountArranged(ws, placed, d, cols, rows, oracle) + (if h in ws && AcceptedStrategy(oracle(h), x, y) > 0 then 1 else 0)
  {
    assert (placed + [h])[..|placed|] == placed;
  }

  /** Closing one more handle: the live list grows by it when it is still a window, and one more request is posted. */
  lemma CloseStep(ws: map<Handle, Window>, pre: seq<Handle>, h: Handle)
    ensures Live(ws, pre + [h]) == Live(ws, pre) + (if h in ws then [h] else [])
    ensures CloseEvents(Live(ws, pre) + [h]) == CloseEvents(Live(ws, pre)) + [CloseRequested(h)]
  {
    assert (pre + [h])[..|pre|] == pre;
    var l := Live(ws, pre);
    assert (l + [h])[..|l|] == l;
    if h !in ws {
      assert l + [] == l;
    }
  }

  class Manager {
    /** `config['ai_apps']`. */
    const apps: seq<AppConfig>
    /** `config['window']['grid']`. */
    const gridCols: int
    const gridRows: int

    var aiWindows: seq<Handle>
    var windowInfo: map<Handle, WindowRecord>

    ghost predicate Valid()
      reads this
    {
      Distinct(aiWindows)
    }

    constructor (apps: seq<AppConfig>, gridCols: int, gridRows: int)
      ensures Valid() && aiWindows == [] && windowInfo == map[]
      ensures this.apps == apps && this.gridCols == gridCols && this.gridRows == gridRows
    {
      this.apps := apps;
      this.gridCols := gridCols;
      this.gridRows := gridRows;
      aiWindows := [];
      windowInfo := map[];
    }

    /** `_hide_from_taskbar`: set the tool-window bit of a live window. */
    method HideFromTaskbar(desk: Desktop, h: Handle)
      modifies desk
      ensures desk.State() == if h in old(desk.windows)
                              then SetStyleOp(old(desk.State()), h, HideStyle(old(desk.windows)[h].exStyle))
                              else old(desk.State())
      ensures desk.order == old(desk.order)
    {
      if desk.IsWindow(h) {
        desk.SetExStyle(h, HideStyle(desk.windows[h].exStyle));
      }
    }

    /** `_show_in_taskbar`: clear the tool-window bit of a live window. */
    method ShowInTaskbar(desk: Desktop, h: Handle)
      modifies desk
      ensures desk.State() == if h in old(desk.windows)
                              then SetStyleOp(old(desk.State()), h, ShowStyle(old(desk.windows)[h].exStyle))
                              else old(desk.State())
      ensures desk.order == old(desk.order)
    {
      if desk.IsWindow(h) {
        desk.SetExStyle(h, ShowStyle(desk.windows[h].exStyle));
      }
    }

    /**
     * `get_ai_windows_fast` (and `refresh_window_list`, which returns the new
     * count): rebuild both tables from one enumeration of all top-level windows.
     */
    method Refresh(desk: Desktop) returns (found: seq<Handle>)
      requires desk.Valid()
      modifies this, desk
      ensures Valid() && desk.Valid()
      ensures found == aiWindows == Detect(old(desk.windows), desk.order, KeywordMapOf(apps))
      ensures windowInfo == InfoOf(old(desk.windows), KeywordMapOf(apps), found)
      ensures desk.windows == HideAll(old(desk.windows), found)
      ensures desk.order == old(desk.order) && desk.foreground == old(desk.foreground)
      ensures desk.clipboard == old(desk.clipboard) && desk.events == old(desk.events)
    {
      var m := BuildKeywordMap(apps);
      var windows, info := Enumerate(desk, m);
      DetectFacts(old(desk.windows), desk.order, m);
      aiWindows := windows;
      windowInfo := info;
      found := windows;
    }

    /**
     * `EnumWindows` with the callback of `get_ai_windows_fast`: record each
     * titled window whose title matches an app and whose process is allowed,
     * and hide it from the taskbar.
     */
    method Enumerate(desk: Desktop, m: KeywordMap) returns (windows: seq<Handle>, info: map<Handle, WindowRecord>)
      requires desk.Valid()
      modifies desk
      ensures desk.Valid()
      ensures windows == Detect(old(desk.windows), desk.order, m)
      ensures info == InfoOf(old(desk.windows), m, windows)
      ensures desk.windows == HideAll(old(desk.windows), windows)
      ensures desk.order == old(desk.order) && desk.foreground == old(desk.foreground)
      ensures desk.clipboard == old(desk.clipboard) && desk.events == old(desk.events)
    {
      ghost var ws0 := desk.windows;
      var order := desk.order;
      windows := [];
      info := map[];
      for i := 0 to |order|
        invariant desk.order == order && desk.Valid()
        invariant windows == Detect(ws0, order[..i], m)
        invariant info == InfoOf(ws0, m, windows)
        invariant desk.windows == HideAll(ws0, windows)
        invariant desk.foreground == old(desk.foreground) && desk.clipboard == old(desk.clipboard)
        invariant desk.events == old(desk.events)
      {
        var h := order[i];
        assert order[..i + 1] == order[..i] + [h];
        DetectFacts(ws0, order[..i], m);
        assert h !in windows;
        HiddenKeepsIdentity(ws0, windows, h);
        var title := TitleOf(desk.windows, h);
        if title == [] {
          continue;
        }
        var app := MatchTitle(Lower(title), m);
        if app.Some? && IsValidAiWindow(desk.windows, h) {
          HideAllStep(ws0, windows, h);
          InfoOfStep(ws0, m, windows, h);
          assert RecordOf(ws0, m, h) == WindowRecord(title, app.value, h, AppPriority(app.value));
          windows := windows + [h];
          info := info[h := WindowRecord(title, app.value, h, AppPriority(app.value))];
          HideFromTaskbar(desk, h);
        }
      }
      assert order[..|order|] == order;
    }

    /**
     * `_arrange_single_window_improved`: normalise the window, then try the
     * three strategies in order until one reads back within tolerance.
     * `strategy` is the accepted strategy (1 to 3), 0 when none was.
     */
    static method ArrangeSingle(desk: Desktop, h: Handle, target: Rect, att: Attempts) returns (ok: bool, strategy: nat)
      modifies desk
      ensures ok <==> h in old(desk.windows) && AcceptedStrategy(att, target.left, target.top) > 0
      ensures strategy == if h in old(desk.windows) then AcceptedStrategy(att, target.left, target.top) else 0
      ensures desk.windows == if h in old(desk.windows)
                              then old(desk.windows)[h := PlaceWindow(old(desk.windows)[h], att, target.left, target.top)]
                              else old(desk.windows)
      ensures desk.order == old(desk.order) && desk.foreground == old(desk.foreground)
      ensures desk.clipboard == old(desk.clipboard) && desk.events == old(desk.events)
    {
      if !desk.IsWindow(h) {
        return false, 0;
      }
      ghost var w0 := desk.windows[h];
      Normalize(desk, h);
      // Step 3: the strategies, each checked by reading the rectangle back.
      var x, y := target.left, target.top;
      ok := TryStrategy(desk, h, att.direct, x, y);
      strategy := if ok then 1 else 0;
      if !ok {
        ok := TryStrategy(desk, h, att.moveThenSize, x, y);
        strategy := if ok then 2 else 0;
      }
      if !ok {
        ok := TryStrategy(desk, h, att.legacy, x, y);
        strategy := if ok then 3 else 0;
      }
      TriedInOrder(w0.rect, att, x, y);
    }

    /**
     * Steps 1 and 2 of `_arrange_single_window_improved`: restore a minimized
     * window, then a maximized one, then show it normally.
     */
    static method Normalize(desk: Desktop, h: Handle)
      requires h in desk.windows
      modifies desk
      ensures desk.windows == old(desk.windows)[h := old(desk.windows)[h].(iconic := false, maximized := false)]
      ensures desk.order == old(desk.order) && desk.foreground == old(desk.foreground)
      ensures desk.clipboard == old(desk.clipboard) && desk.events == old(desk.events)
    {
      if desk.IsIconic(h) {
        desk.Restore(h);
      }
      if desk.IsMaximized(h) {
        desk.Restore(h);
      }
      desk.ShowNormal(h);
    }

    /** One positioning strategy: the OS refuses it, or moves the window to `a.rect`. */
    static method TryStrategy(desk: Desktop, h: Handle, a: Attempt, x: int, y: int) returns (accepted: bool)
      requires h in desk.windows
      modifies desk
      ensures accepted == Accepted(a, x, y)
      ensures desk.windows == old(desk.windows)[h := old(desk.windows)[h].(rect := After(old(desk.windows)[h].rect, a))]
      ensures desk.order == old(desk.order) && desk.foreground == old(desk.foreground)
      ensures desk.clipboard == old(desk.clipboard) && desk.events == old(desk.events)
    {
      if !a.Refused? {
        desk.SetRect(h, a.rect);
      }
      accepted := Accepted(a, x, y);
    }

    /**
     * `arrange_windows_grid`: sort the registry by priority, then place the
     * windows into the grid cells in row-major order, stopping when the grid
     * is full. Returns the number of windows accepted (which the source logs)
     * and the windows that were given a cell.
     */
    method ArrangeGrid(desk: Desktop, d: Display, oracle: Handle -> Attempts) returns (arranged: nat, placed: seq<Handle>)
      requires Valid()
      requires aiWindows != [] ==> gridCols > 0 && gridRows > 0
      modifies desk
      ensures aiWindows == [] ==> placed == [] && arranged == 0 && desk.windows == old(desk.windows)
      ensures aiWindows != [] ==>
                var n := if |aiWindows| < gridCols * gridRows then |aiWindows| else gridCols * gridRows;
                && placed == SortBy(aiWindows, PriorityKey(windowInfo))[..n]
                && arranged == CountArranged(old(desk.windows), placed, d, gridCols, gridRows, oracle)
                && desk.windows == PlaceAll(old(desk.windows), placed, d, gridCols, gridRows, oracle)
                && Distinct(placed)
      ensures desk.order == old(desk.order) && desk.foreground == old(desk.foreground)
      ensures desk.clipboard == old(desk.clipboard) && desk.events == old(desk.events)
    {
      if aiWindows == [] {
        return 0, [];
      }
      var sorted := SortBy(aiWindows, PriorityKey(windowInfo));
      PermutationDistinct(aiWindows, sorted);
      arranged, placed := PlaceInGrid(desk, sorted, d, gridCols, gridRows, oracle);
      assert placed == sorted[..|placed|];
    }

    /** `bring_window_to_front`: act on the first registered window of `name`. */
    method BringToFront(desk: Desktop, name: string) returns (ok: bool)
      modifies desk
      ensures var i := FirstOfApp(aiWindows, windowInfo, name);
              ok <==> i.Some? && aiWindows[i.value] in old(desk.windows)
      ensures ok ==> var h := aiWindows[FirstOfApp(aiWindows, windowInfo, name).value];
                     && desk.foreground == h && h in desk.windows && !desk.windows[h].iconic
                     && desk.events == old(desk.events) + [Foregrounded(h)]
      ensures ok ==> var h := aiWindows[FirstOfApp(aiWindows, windowInfo, name).value];
                     var s0 := old(desk.State());
                     desk.State() == ForegroundOp(if IsIconic(s0, h) then RestoreOp(s0, h) else s0, h)
      ensures !ok ==> desk.State() == old(desk.State())
      ensures desk.windows.Keys == old(desk.windows.Keys) && desk.order == old(desk.order)
    {
      for i := 0 to |aiWindows|
        invariant forall j | 0 <= j < i :: !(aiWindows[j] in windowInfo && windowInfo[aiWindows[j]].appName == name)
        invariant desk.State() == old(desk.State()) && desk.order == old(desk.order)
      {
        var h := aiWindows[i];
        if h in windowInfo && windowInfo[h].appName == name {
          assert FirstOfApp(aiWindows, windowInfo, name) == Some(i);
          if !desk.IsWindow(h) {
            // SetForegroundWindow raises for a destroyed window; the error is caught.
            return false;
          }
          if desk.IsIconic(h) {
            desk.Restore(h);
          }
          desk.SetForeground(h);
          return true;
        }
      }
      return false;
    }

    /** `minimize_all_windows`: minimize every live, not yet minimized registered window. */
    method MinimizeAll(desk: Desktop) returns (count: nat)
      requires Valid()
      modifies desk
      ensures count == |LiveWithIconic(old(desk.windows), aiWindows, false)|
      ensures desk.windows == SetIconicAll(old(desk.windows), aiWindows, true)
      ensures desk.order == old(desk.order) && desk.foreground == old(desk.foreground)
      ensures desk.clipboard == old(desk.clipboard) && desk.events == old(desk.events)
    {
      ghost var ws0 := desk.windows;
      var hs := aiWindows;
      count := 0;
      for i := 0 to |hs|
        invariant count == |LiveWithIconic(ws0, hs[..i], false)|
        invariant desk.windows == SetIconicAll(ws0, hs[..i], true)
        invariant desk.order == old(desk.order) && desk.foreground == old(desk.foreground)
        invariant desk.clipboard == old(desk.clipboard) && desk.events == old(desk.events)
      {
        var h := hs[i];
        assert hs[..i + 1] == hs[..i] + [h];
        assert h !in hs[..i];
        SetIconicStep(ws0, hs[..i], h, true);
        if desk.IsWindow(h) && !desk.IsIconic(h) {
          desk.Minimize(h);
          count := count + 1;
        }
        assert desk.windows == SetIconicAll(ws0, hs[..i + 1], true);
      }
      assert hs[..|hs|] == hs;
    }

    /** `restore_all_windows`: restore every live, minimized registered window. */
    method RestoreAll(desk: Desktop) returns (count: nat)
      requires Valid()
      modifies desk
      ensures count == |LiveWithIconic(old(desk.windows), aiWindows, true)|
      ensures desk.windows == SetIconicAll(old(desk.windows), aiWindows, false)
      ensures desk.order == old(desk.order) && desk.foreground == old(desk.foreground)
      ensures desk.clipboard == old(desk.clipboard) && desk.events == old(desk.events)
    {
      ghost var ws0 := desk.windows;
      var hs := aiWindows;
      count := 0;
      for i := 0 to |hs|
        invariant count == |LiveWithIconic(ws0, hs[..i], true)|
        invariant desk.windows == SetIconicAll(ws0, hs[..i], false)
        invariant desk.order == old(desk.order) && desk.foreground == old(desk.foreground)
        invariant desk.clipboard == old(desk.clipboard) && desk.events == old(desk.events)
      {
        var h := hs[i];
        assert hs[..i + 1] == hs[..i] + [h];
        assert h !in hs[..i];
        SetIconicStep(ws0, hs[..i], h, false);
        if desk.IsWindow(h) && desk.IsIconic(h) {
          desk.Restore(h);
          count := count + 1;
        }
        assert desk.windows == SetIconicAll(ws0, hs[..i + 1], false);
      }
      assert hs[..|hs|] == hs;
    }

    /** `restore_taskbar_icons`: give every live registered window its taskbar icon back. */
    method RestoreTaskbarIcons(desk: Desktop) returns (count: nat)
      requires Valid()
      modifies desk
      ensures count == |Live(old(desk.windows), aiWindows)|
      ensures desk.windows == ShowAll(old(desk.windows), aiWindows)
      ensures desk.order == old(desk.order) && desk.foreground == old(desk.foreground)
      ensures desk.clipboard == old(desk.clipboard) && desk.events == old(desk.events)
    {
      ghost var ws0 := desk.windows;
      var hs := aiWindows;
      count := 0;
      for i := 0 to |hs|
        invariant count == |Live(ws0, hs[..i])|
        invariant desk.windows == ShowAll(ws0, hs[..i])
        invariant desk.order == old(desk.order) && desk.foreground == old(desk.foreground)
        invariant desk.clipboard == old(desk.clipboard) && desk.events == old(desk.events)
      {
        var h := hs[i];
        assert hs[..i + 1] == hs[..i] + [h];
        assert h !in hs[..i];
        ShowAllStep(ws0, hs[..i], h);
        if desk.IsWindow(h) {
          ShowInTaskbar(desk, h);
          count := count + 1;
        }
        assert desk.windows == ShowAll(ws0, hs[..i + 1]);
      }
      assert hs[..|hs|] == hs;
    }

    /**
     * `close_all_windows`: restore the taskbar icons, post a close request to
     * every live registered window, then empty both tables.
     */
    method CloseAll(desk: Desktop) returns (closed: nat)
      requires Valid()
      modifies this, desk
      ensures Valid()
      ensures closed == |Live(old(desk.windows), old(aiWindows))|
      ensures aiWindows == [] && windowInfo == map[]
      ensures desk.windows == ShowAll(old(desk.windows), old(aiWindows))
      ensures desk.events == old(desk.events) + CloseEvents(Live(old(desk.windows), old(aiWindows)))
      ensures desk.order == old(desk.order) && desk.foreground == old(desk.foreground)
      ensures desk.clipboard == old(desk.clipboard)
    {
      var _ := RestoreTaskbarIcons(desk);
      LiveSameKeys(old(desk.windows), desk.windows, aiWindows);
      closed := PostCloseAll(desk, aiWindows);
      aiWindows := [];
      windowInfo := map[];
    }

    /** The closing loop of `close_all_windows`: `WM_CLOSE` to each of `hs` that is still a window. */
    static method PostCloseAll(desk: Desktop, hs: seq<Handle>) returns (closed: nat)
      modifies desk
      ensures closed == |Live(old(desk.windows), hs)|
      ensures desk.events == old(desk.events) + CloseEvents(Live(old(desk.windows), hs))
      ensures desk.windows == old(desk.windows) && desk.order == old(desk.order)
      ensures desk.foreground == old(desk.foreground) && desk.clipboard == old(desk.clipboard)
    {
      ghost var ws0, e0 := desk.windows, desk.events;
      ghost var live: seq<Handle> := [];
      closed := 0;
      for i := 0 to |hs|
        invariant live == Live(ws0, hs[..i]) && closed == |live|
        invariant desk.events == e0 + CloseEvents(live)
        invariant desk.windows == ws0 && desk.order == old(desk.order)
        invariant desk.foreground == old(desk.foreground) && desk.clipboard == old(desk.clipboard)
      {
        var h := hs[i];
        assert hs[..i + 1] == hs[..i] + [h];
        CloseStep(ws0, hs[..i], h);
        var posted := CloseIfLive(desk, h);
        if posted {
          assert desk.events == e0 + (CloseEvents(live) + [CloseRequested(h)]);
          live := live + [h];
          closed := closed + 1;
        } else {
          assert live + [] == live;
        }
      }
      assert hs[..|hs|] == hs;
    }

    /** One iteration of the closing loop: `WM_CLOSE` to `h` when it is still a window. */
    static method CloseIfLive(desk: Desktop, h: Handle) returns (posted: bool)
      modifies desk
      ensures posted == (h in old(desk.windows))
      ensures desk.events == old(desk.events) + (if posted then [CloseRequested(h)] else [])
      ensures desk.windows == old(desk.windows) && desk.order == old(desk.order)
      ensures desk.foreground == old(desk.foreground) && desk.clipboard == old(desk.clipboard)
    {
      posted := desk.IsWindow(h);
      if posted {
        desk.PostClose(h);
      } else {
        assert old(desk.events) + [] == old(desk.events);
      }
    }

    /** `get_active_apps`: the live registered windows, stably sorted by priority. */
    method GetActiveApps(desk: Desktop) returns (active: seq<ActiveApp>)
      ensures active == SortBy(ActiveOf(desk.windows, aiWindows, windowInfo), ActivePriority)
      ensures SortedBy(active, ActivePriority)
      ensures |active| == |Live(desk.windows, aiWindows)|
      ensures forall i | 0 <= i < |active| :: active[i].hwnd in desk.windows && active[i].hwnd in aiWindows
    {
      var rows: seq<ActiveApp> := [];
      for i := 0 to |aiWindows|
        invariant rows == ActiveOf(desk.windows, aiWindows[..i], windowInfo)
      {
        var h := aiWindows[i];
        assert aiWindows[..i + 1][..i] == aiWindows[..i];
        if desk.IsWindow(h) {
          rows := rows + [ActiveApp(if h in windowInfo then windowInfo[h].appName else "Unknown", h,
                                    if h in windowInfo then windowInfo[h].title else "",
                                    PriorityOf(windowInfo, h), desk.IsIconic(h))];
        }
      }
      assert aiWindows[..|aiWindows|] == aiWindows;
      active := SortBy(rows, ActivePriority);
      SortBySorted(rows, ActivePriority);
      forall i | 0 <= i < |active| ensures active[i].hwnd in desk.windows && active[i].hwnd in aiWindows {
        assert active[i] in multiset(rows);
      }
    }
  }
}
