/**
 * `ReliablePromptSender` (prompt_sender.py): delivers one prompt to a list of
 * windows by focusing each, putting the prompt on the clipboard and pasting
 * it with Ctrl+V followed by Enter, then gives focus back to the window that
 * had it before.
 *
 * Which OS call raises for a live window (a refused `SetForegroundWindow`, a
 * clipboard held by another process, a COM failure) cannot be computed, so it
 * comes in as a `Fault`: the step that raises, or none.  A destroyed window
 * always makes `SetForegroundWindow` raise.  Likewise whether the final
 * refocus of the captured window raises comes in as `restoreRefused`; the
 * exception is caught and focus stays where the deliveries left it.
 */
module PromptSender {
  import opened Wrappers
  import opened Text
  import opened Os

  /**
   * The steps of `_send_prompt_to_window` that can raise: `ClipboardStep` is
   * `OpenClipboard` or `EmptyClipboard`, `ClipboardTextStep` is
   * `SetClipboardText` (after the clipboard was emptied) and
   * `ClipboardCloseStep` is `CloseClipboard` (after the text was stored).
   */
  datatype Step = FocusStep | ClipboardStep | ClipboardTextStep | ClipboardCloseStep | PasteStep | EnterStep

  type Fault = Option<Step>

  /** The dictionary `send_prompt_to_all` returns. */
  datatype Outcome = Outcome(success: nat, failed: nat, total: nat)

  const NOTHING_SENT := Outcome(0, 0, 0)

  /** The configured `prompt_send_delay` when absent: 0.1 s. */
  const DEFAULT_DELAY_MS := 100
  /** The floor on the wait between sends: 0.5 s. */
  const MIN_DELAY_MS := 500

  /** `max(delay, 0.5)` in milliseconds, with the configured delay defaulting to 0.1 s. */
  function WaitMs(configured: Option<int>): (ms: nat)
    ensures ms >= MIN_DELAY_MS
    ensures configured.None? ==> ms == MIN_DELAY_MS
    ensures configured.Some? ==> ms == if configured.value > MIN_DELAY_MS then configured.value else MIN_DELAY_MS
  {
    var d := configured.GetOr(DEFAULT_DELAY_MS);
    if d > MIN_DELAY_MS then d else MIN_DELAY_MS
  }

  /** The observable actions of one delivery that completes, in order. */
  function Actions(h: Handle, prompt: string): seq<Event> {
    [Foregrounded(h), ClipboardSet(prompt), KeyPressed(Paste), KeyPressed(Enter)]
  }

  function FaultAt(faults: seq<Fault>, i: nat): Fault {
    if i < |faults| then faults[i] else None
  }

  /**
   * `_send_prompt_to_window` on a snapshot: the new screen and whether the
   * call returned true.  A step that raises ends the call; only a raising
   * `SetClipboardText` leaves an effect of its step behind, the clipboard
   * that `EmptyClipboard` has already cleared.
   */
  function SendOne(s: Screen, h: Handle, prompt: string, fault: Fault): (Screen, bool) {
    var s1 := if IsIconic(s, h) then RestoreOp(s, h) else s;
    if h !in s.windows || fault == Some(FocusStep) then (s1, false)
    else
      var s2 := ForegroundOp(s1, h);
      if fault == Some(ClipboardStep) then (s2, false)
      else
        var emptied := EmptyClipboardOp(s2);
        if fault == Some(ClipboardTextStep) then (emptied, false)
        else
          var s3 := ClipboardOp(emptied, prompt);
          if fault == Some(ClipboardCloseStep) || fault == Some(PasteStep) then (s3, false)
          else
            var s4 := KeyOp(s3, Paste);
            if fault == Some(EnterStep) then (s4, false)
            else (KeyOp(s4, Enter), true)
  }

  /**
   * The loop of `send_prompt_to_all` over `ws`: each window gets a delivery
   * followed by the wait.  Returns the screen and the number of successes.
   */
  function SendAll(s: Screen, ws: seq<Handle>, prompt: string, faults: seq<Fault>, waitMs: nat): (r: (Screen, nat))
    ensures r.1 <= |ws|
  {
    if ws == [] then (s, 0)
    else
      var k := |ws| - 1;
      var prev := SendAll(s, ws[..k], prompt, faults, waitMs);
      var one := SendOne(prev.0, ws[k], prompt, FaultAt(faults, k));
      (SleepOp(one.0, waitMs), prev.1 + if one.1 then 1 else 0)
  }

  /**
   * `_restore_original_focus`: refocus the saved window when it is non-null
   * and still a window; a refused `SetForegroundWindow` is caught and changes nothing.
   */
  function RestoreFocusOp(s: Screen, original: Option<Handle>, refused: bool): Screen {
    if original.Some? && original.value != 0 && original.value in s.windows && !refused
    then ForegroundOp(s, original.value)
    else s
  }

  /** The windows a delivery succeeds on: live, and no step raises. */
  function Deliverable(keys: set<Handle>, ws: seq<Handle>, faults: seq<Fault>): (n: nat)
    ensures n <= |ws|
  {
    if ws == [] then 0
    else
      var k := |ws| - 1;
      Deliverable(keys, ws[..k], faults) + if ws[k] in keys && FaultAt(faults, k).None? then 1 else 0
  }

  function Sleeps(es: seq<Event>): nat {
    if es == [] then 0
    else Sleeps(es[..|es| - 1]) + if es[|es| - 1].Slept? then 1 else 0
  }

  // ---------------------------------------------------------------- lemmas

  /**
   * One delivery: it succeeds exactly on a live window where no step raises;
   * the actions it takes are always a prefix of the fixed sequence (focus,
   * clipboard, Ctrl+V, Enter), all of it on success; nothing at all happens
   * to a destroyed window; no window appears or disappears.
   */
  lemma SendOneFacts(s: Screen, h: Handle, prompt: string, fault: Fault)
    ensures var r := SendOne(s, h, prompt, fault);
            && (r.1 <==> h in s.windows && fault.None?)
            && r.0.windows.Keys == s.windows.Keys
            && |s.events| <= |r.0.events| <= |s.events| + 4
            && r.0.events == s.events + Actions(h, prompt)[..|r.0.events| - |s.events|]
            && (r.1 ==> r.0.events == s.events + Actions(h, prompt) && r.0.foreground == h && r.0.clipboard == prompt)
            && (h !in s.windows ==> r.0 == s)
            && (h in s.windows && fault == Some(ClipboardTextStep) ==> r.0.clipboard == [])
  {
    var a := Actions(h, prompt);
    var r := SendOne(s, h, prompt, fault);
    if h !in s.windows || fault == Some(FocusStep) {
      assert r.0.events == s.events + a[..0];
    } else if fault == Some(ClipboardStep) || fault == Some(ClipboardTextStep) {
      assert r.0.events == s.events + a[..1];
    } else if fault == Some(ClipboardCloseStep) || fault == Some(PasteStep) {
      assert r.0.events == s.events + a[..2];
    } else if fault == Some(EnterStep) {
      assert r.0.events == s.events + a[..3];
    } else {
      assert fault.None? by {
        if fault.Some? {
          match fault.value
          case FocusStep =>
          case ClipboardStep =>
          case ClipboardTextStep =>
          case ClipboardCloseStep =>
          case PasteStep =>
          case EnterStep =>
        }
      }
      assert r.0.events == s.events + a[..4];
    }
  }

  /** A delivery never waits. */
  lemma {:induction false} NoSleepInActions(h: Handle, prompt: string, n: nat)
    requires n <= 4
    ensures Sleeps(Actions(h, prompt)[..n]) == 0
  {
    if n > 0 {
      assert Actions(h, prompt)[..n][..n - 1] == Actions(h, prompt)[..n - 1];
      NoSleepInActions(h, prompt, n - 1);
    }
  }

  /** Sending never adds or removes windows. */
  lemma {:induction false} SendAllKeys(s: Screen, ws: seq<Handle>, prompt: string, faults: seq<Fault>, waitMs: nat)
    ensures SendAll(s, ws, prompt, faults, waitMs).0.windows.Keys == s.windows.Keys
  {
    if ws != [] {
      var k := |ws| - 1;
      SendAllKeys(s, ws[..k], prompt, faults, waitMs);
      SendOneFacts(SendAll(s, ws[..k], prompt, faults, waitMs).0, ws[k], prompt, FaultAt(faults, k));
    }
  }

  /** The success count is the number of live windows whose delivery raises at no step. */
  lemma {:induction false} SendAllCounts(s: Screen, ws: seq<Handle>, prompt: string, faults: seq<Fault>, waitMs: nat)
    ensures SendAll(s, ws, prompt, faults, waitMs).1 == Deliverable(s.windows.Keys, ws, faults)
  {
    if ws != [] {
      var k := |ws| - 1;
      SendAllCounts(s, ws[..k], prompt, faults, waitMs);
      SendAllKeys(s, ws[..k], prompt, faults, waitMs);
      SendOneFacts(SendAll(s, ws[..k], prompt, faults, waitMs).0, ws[k], prompt, FaultAt(faults, k));
    }
  }

  lemma {:induction false} SleepsAppend(a: seq<Event>, b: seq<Event>)
    ensures Sleeps(a + b) == Sleeps(a) + Sleeps(b)
  {
    if b != [] {
      assert (a + b)[..|a + b| - 1] == a + b[..|b| - 1];
      assert (a + b)[|a + b| - 1] == b[|b| - 1];
      SleepsAppend(a, b[..|b| - 1]);
    } else {
      assert a + b == a;
    }
  }

  /** The wait follows every window, the last included, and deliveries themselves never wait. */
  lemma {:induction false} OneWaitPerWindow(s: Screen, ws: seq<Handle>, prompt: string, faults: seq<Fault>, waitMs: nat)
    ensures var e := SendAll(s, ws, prompt, faults, waitMs).0.events;
            |s.events| <= |e| && e[..|s.events|] == s.events && Sleeps(e[|s.events|..]) == |ws|
  {
    if ws != [] {
      var k := |ws| - 1;
      var prev := SendAll(s, ws[..k], prompt, faults, waitMs).0;
      OneWaitPerWindow(s, ws[..k], prompt, faults, waitMs);
      SendWaitStep(prev, ws[k], prompt, FaultAt(faults, k), waitMs, |s.events|);
    }
  }

  /** One delivery and its wait keep every earlier event and add exactly one sleep. */
  lemma SendWaitStep(prev: Screen, h: Handle, prompt: string, fault: Fault, waitMs: nat, n: nat)
    requires n <= |prev.events|
    ensures var e := SleepOp(SendOne(prev, h, prompt, fault).0, waitMs).events;
            n <= |e| && e[..n] == prev.events[..n] && Sleeps(e[n..]) == Sleeps(prev.events[n..]) + 1
  {
    var one := SendOne(prev, h, prompt, fault).0;
    SendOneFacts(prev, h, prompt, fault);
    var added := Actions(h, prompt)[..|one.events| - |prev.events|];
    NoSleepInActions(h, prompt, |one.events| - |prev.events|);
    var e := one.events + [Slept(waitMs)];
    assert e[n..] == prev.events[n..] + added + [Slept(waitMs)];
    assert e[..n] == prev.events[..n];
    SleepsAppend(prev.events[n..], added);
    SleepsAppend(prev.events[n..] + added, [Slept(waitMs)]);
  }

  /**
   * Focus goes back to the window that had it, provided it was a real window
   * and the refocus is not refused; a refused refocus leaves the screen as
   * the deliveries left it.
   */
  lemma FocusRestored(s: Screen, ws: seq<Handle>, prompt: string, faults: seq<Fault>, waitMs: nat, refused: bool)
    requires s.foreground != 0 && s.foreground in s.windows
    ensures var sent := SendAll(s, ws, prompt, faults, waitMs).0;
            && (!refused ==> RestoreFocusOp(sent, Some(s.foreground), refused).foreground == s.foreground)
            && (refused ==> RestoreFocusOp(sent, Some(s.foreground), refused) == sent)
  {
    SendAllKeys(s, ws, prompt, faults, waitMs);
  }

  class Sender {
    /** `config['window']['timing']['prompt_send_delay']` in milliseconds, if configured. */
    const configuredDelayMs: Option<int>
    /** `self.original_foreground`: None until the first send captures the foreground window. */
    var originalForeground: Option<Handle>

    constructor (configuredDelayMs: Option<int>)
      ensures this.configuredDelayMs == configuredDelayMs && originalForeground == None
    {
      this.configuredDelayMs := configuredDelayMs;
      originalForeground := None;
    }

    /** `_send_prompt_to_window`: the fixed action sequence; false as soon as a step raises. */
    method SendToWindow(desk: Desktop, h: Handle, prompt: string, fault: Fault) returns (ok: bool)
      modifies desk
      ensures (desk.State(), ok) == SendOne(old(desk.State()), h, prompt, fault)
      ensures desk.order == old(desk.order)
    {
      if desk.IsIconic(h) {
        desk.Restore(h);
      }
      if !desk.IsWindow(h) || fault == Some(FocusStep) {
        return false;
      }
      desk.SetForeground(h);
      if fault == Some(ClipboardStep) {
        return false;
      }
      desk.EmptyClipboard();
      if fault == Some(ClipboardTextStep) {
        return false;
      }
      desk.SetClipboardText(prompt);
      if fault == Some(ClipboardCloseStep) || fault == Some(PasteStep) {
        return false;
      }
      desk.SendKey(Paste);
      if fault == Some(EnterStep) {
        return false;
      }
      desk.SendKey(Enter);
      return true;
    }

    /** `_restore_original_focus`; `refused` says whether `SetForegroundWindow` raises. */
    method RestoreOriginalFocus(desk: Desktop, refused: bool)
      modifies desk
      ensures desk.State() == RestoreFocusOp(old(desk.State()), originalForeground, refused)
      ensures desk.order == old(desk.order)
    {
      if originalForeground.Some? && originalForeground.value != 0 && desk.IsWindow(originalForeground.value) {
        if !refused {
          desk.SetForeground(originalForeground.value);
        }
      }
    }

    /**
     * `send_prompt_to_all`: nothing happens for a blank prompt or no windows;
     * otherwise capture the foreground, deliver to every window in order with
     * the wait after each, and restore focus.
     */
    method SendToAll(desk: Desktop, windows: seq<Handle>, prompt: string, faults: seq<Fault>, restoreRefused: bool)
      returns (r: Outcome)
      modifies this, desk
      ensures IsBlank(prompt) || windows == [] ==>
                r == NOTHING_SENT && desk.State() == old(desk.State()) && originalForeground == old(originalForeground)
      ensures !IsBlank(prompt) && windows != [] ==>
                var sent := SendAll(old(desk.State()), windows, prompt, faults, WaitMs(configuredDelayMs));
                && originalForeground == Some(old(desk.foreground))
                && desk.State() == RestoreFocusOp(sent.0, originalForeground, restoreRefused)
                && r == Outcome(sent.1, |windows| - sent.1, |windows|)
      ensures r.success + r.failed == r.total == (if IsBlank(prompt) then 0 else |windows|)
      ensures desk.order == old(desk.order)
    {
      if Strip(prompt) == [] {
        StripEmptyIffBlank(prompt);
        return NOTHING_SENT;
      }
      StripEmptyIffBlank(prompt);
      if windows == [] {
        return NOTHING_SENT;
      }
      originalForeground := Some(desk.foreground);
      var success := DeliverAll(desk, windows, prompt, faults, WaitMs(configuredDelayMs));
      RestoreOriginalFocus(desk, restoreRefused);
      r := Outcome(success, |windows| - success, |windows|);
    }

    /** The loop of `send_prompt_to_all`: deliver to each window in order, then wait. */
    method DeliverAll(desk: Desktop, windows: seq<Handle>, prompt: string, faults: seq<Fault>, wait: nat)
      returns (success: nat)
      modifies desk
      ensures (desk.State(), success) == SendAll(old(desk.State()), windows, prompt, faults, wait)
      ensures desk.order == old(desk.order)
    {
      success := 0;
      for i := 0 to |windows|
        invariant (desk.State(), success) == SendAll(old(desk.State()), windows[..i], prompt, faults, wait)
        invariant desk.order == old(desk.order)
      {
        assert windows[..i + 1][..i] == windows[..i];
        var ok := SendToWindow(desk, windows[i], prompt, FaultAt(faults, i));
        if ok {
          success := success + 1;
        }
        desk.Sleep(wait);
      }
      assert windows[..|windows|] == windows;
    }

    /**
     * `send_prompt_to_single`: false for a blank prompt, with nothing done;
     * otherwise capture the foreground, deliver, restore focus.
     */
    method SendToSingle(desk: Desktop, h: Handle, prompt: string, fault: Fault, restoreRefused: bool) returns (ok: bool)
      modifies this, desk
      ensures IsBlank(prompt) ==> !ok && desk.State() == old(desk.State()) && originalForeground == old(originalForeground)
      ensures !IsBlank(prompt) ==>
                var sent := SendOne(old(desk.State()), h, prompt, fault);
                && originalForeground == Some(old(desk.foreground))
                && desk.State() == RestoreFocusOp(sent.0, originalForeground, restoreRefused)
                && ok == sent.1
      ensures ok <==> !IsBlank(prompt) && h in old(desk.windows) && fault.None?
      ensures desk.order == old(desk.order)
    {
      StripEmptyIffBlank(prompt);
      if Strip(prompt) == [] {
        return false;
      }
      SendOneFacts(desk.State(), h, prompt, fault);
      originalForeground := Some(desk.foreground);
      ok := SendToWindow(desk, h, prompt, fault);
      RestoreOriginalFocus(desk, restoreRefused);
    }
  }
}
