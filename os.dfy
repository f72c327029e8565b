/**
 * The desktop the core drives, as the Win32, psutil and COM calls it makes
 * see it.  Window handles index a map of window records; a handle that is not
 * a key is a destroyed window (`IsWindow` is false).  Each OS call the core
 * makes is a method of `Desktop` whose effect is a function on `Screen`, so
 * that callers can specify whole loops of calls by composing those functions.
 */
module Os {
  import opened Wrappers
  import opened Sequences

  /** An opaque window handle; 0 is the null handle and never names a window. */
  type Handle = int

  /** The extended style bit that keeps a window's icon off the taskbar. */
  const WS_EX_TOOLWINDOW: bv32 := 0x80

  datatype Rect = Rect(left: int, top: int, right: int, bottom: int)

  /** What the OS reports about one live top-level window. */
  datatype Window = Window(
    title: string,
    iconic: bool,
    maximized: bool,
    rect: Rect,
    exStyle: bv32,
    exe: Option<string>)  // the owning process's executable name; None when it cannot be inspected

  datatype Key = Paste | Enter

  /** Observable actions: focus changes, clipboard writes, synthetic keys, waits, close requests. */
  datatype Event =
    | Foregrounded(hwnd: Handle)
    | ClipboardSet(text: string)
    | KeyPressed(key: Key)
    | Slept(ms: nat)
    | CloseRequested(hwnd: Handle)

  datatype Screen = Screen(
    windows: map<Handle, Window>,
    foreground: Handle,
    clipboard: string,
    events: seq<Event>)

  predicate IsWindow(s: Screen, h: Handle) {
    h in s.windows
  }

  predicate IsIconic(s: Screen, h: Handle) {
    h in s.windows && s.windows[h].iconic
  }

  /** `GetWindowText`: the empty string for a handle that is no longer a window. */
  function TitleOf(ws: map<Handle, Window>, h: Handle): string {
    if h in ws then ws[h].title else ""
  }

  /** `ShowWindow(SW_RESTORE)`: un-minimizes a minimized window, else un-maximizes it. */
  function RestoreOp(s: Screen, h: Handle): Screen {
    if h !in s.windows then s
    else if s.windows[h].iconic then s.(windows := s.windows[h := s.windows[h].(iconic := false)])
    else s.(windows := s.windows[h := s.windows[h].(maximized := false)])
  }

  /** `ShowWindow(SW_SHOWNORMAL)`: neither minimized nor maximized afterwards. */
  function ShowNormalOp(s: Screen, h: Handle): Screen {
    if h !in s.windows then s
    else s.(windows := s.windows[h := s.windows[h].(iconic := false, maximized := false)])
  }

  /** `ShowWindow(SW_MINIMIZE)`. */
  function MinimizeOp(s: Screen, h: Handle): Screen {
    if h !in s.windows then s
    else s.(windows := s.windows[h := s.windows[h].(iconic := true)])
  }

  /** `SetWindowLong(GWL_EXSTYLE, style)`. */
  function SetStyleOp(s: Screen, h: Handle, style: bv32): Screen {
    if h !in s.windows then s
    else s.(windows := s.windows[h := s.windows[h].(exStyle := style)])
  }

  /** A positioning call whose read-back rectangle is `r`. */
  function SetRectOp(s: Screen, h: Handle, r: Rect): Screen {
    if h !in s.windows then s
    else s.(windows := s.windows[h := s.windows[h].(rect := r)])
  }

  function ForegroundOp(s: Screen, h: Handle): Screen {
    s.(foreground := h, events := s.events + [Foregrounded(h)])
  }

  /** `EmptyClipboard`: the clipboard holds no text afterwards. */
  function EmptyClipboardOp(s: Screen): Screen {
    s.(clipboard := [])
  }

  /** Clipboard write in the Unicode text format: the text is stored unchanged. */
  function ClipboardOp(s: Screen, text: string): Screen {
    s.(clipboard := text, events := s.events + [ClipboardSet(text)])
  }

  function KeyOp(s: Screen, k: Key): Screen {
    s.(events := s.events + [KeyPressed(k)])
  }

  function SleepOp(s: Screen, ms: nat): Screen {
    s.(events := s.events + [Slept(ms)])
  }

  /** `PostMessage(WM_CLOSE)`: a request; the window closes later, if at all. */
  function CloseOp(s: Screen, h: Handle): Screen {
    s.(events := s.events + [CloseRequested(h)])
  }

  class Desktop {
    var windows: map<Handle, Window>
    /** The order in which `EnumWindows` reports top-level windows. */
    var order: seq<Handle>
    var foreground: Handle
    var clipboard: string
    var events: seq<Event>

    ghost predicate Valid()
      reads this
    {
      0 !in windows && Distinct(order)
    }

    function State(): Screen
      reads this
    {
      Screen(windows, foreground, clipboard, events)
    }

    constructor (windows: map<Handle, Window>, order: seq<Handle>, foreground: Handle)
      ensures this.windows == windows && this.order == order
      ensures this.foreground == foreground && clipboard == [] && events == []
    {
      this.windows := windows;
      this.order := order;
      this.foreground := foreground;
      clipboard := [];
      events := [];
    }

    predicate IsWindow(h: Handle)
      reads this
    {
      h in windows
    }

    predicate IsIconic(h: Handle)
      reads this
    {
      h in windows && windows[h].iconic
    }

    predicate IsMaximized(h: Handle)
      reads this
    {
      h in windows && windows[h].maximized
    }

    method Restore(h: Handle)
      modifies this
      ensures State() == RestoreOp(old(State()), h) && order == old(order)
    {
      windows := RestoreOp(State(), h).windows;
    }

    method ShowNormal(h: Handle)
      modifies this
      ensures State() == ShowNormalOp(old(State()), h) && order == old(order)
    {
      windows := ShowNormalOp(State(), h).windows;
    }

    method Minimize(h: Handle)
      modifies this
      ensures State() == MinimizeOp(old(State()), h) && order == old(order)
    {
      windows := MinimizeOp(State(), h).windows;
    }

    method SetExStyle(h: Handle, style: bv32)
      modifies this
      ensures State() == SetStyleOp(old(State()), h, style) && order == old(order)
    {
      windows := SetStyleOp(State(), h, style).windows;
    }

    method SetRect(h: Handle, r: Rect)
      modifies this
      ensures State() == SetRectOp(old(State()), h, r) && order == old(order)
    {
      windows := SetRectOp(State(), h, r).windows;
    }

    method SetForeground(h: Handle)
      modifies this
      ensures State() == ForegroundOp(old(State()), h) && order == old(order)
    {
      foreground := h;
      events := events + [Foregrounded(h)];
    }

    method EmptyClipboard()
      modifies this
      ensures State() == EmptyClipboardOp(old(State())) && order == old(order)
    {
      clipboard := [];
    }

    method SetClipboardText(text: string)
      modifies this
      ensures State() == ClipboardOp(old(State()), text) && order == old(order)
    {
      clipboard := text;
      events := events + [ClipboardSet(text)];
    }

    method SendKey(k: Key)
      modifies this
      ensures State() == KeyOp(old(State()), k) && order == old(order)
    {
      events := events + [KeyPressed(k)];
    }

    method Sleep(ms: nat)
      modifies this
      ensures State() == SleepOp(old(State()), ms) && order == old(order)
    {
      events := events + [Slept(ms)];
    }

    method PostClose(h: Handle)
      modifies this
      ensures State() == CloseOp(old(State()), h) && order == old(order)
    {
      events := events + [CloseRequested(h)];
    }
  }
}
