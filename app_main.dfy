/**
 * The two pieces of logic in the application entry point (main.py): the
 * check that the configuration has every required top-level section, and
 * the GUI's send callback, which narrows the window registry to the
 * applications the user ticked before handing it to the prompt sender.
 */
module App {
  import opened Wrappers
  import opened Text
  import opened Os
  import opened Classify
  import WindowManager
  import opened PromptSender

  // ---------------------------------------------------------------- required sections

  /** The top-level sections `main` insists on, in the order it reports them. */
  const REQUIRED_SECTIONS: seq<string> := ["app", "window", "ai_apps", "gui", "history"]

  /** `[s for s in required if s not in config]`: the configuration is reduced to its set of keys. */
  function Missing(required: seq<string>, keys: set<string>): (r: seq<string>)
    ensures |r| <= |required|
    ensures forall s :: s in r <==> s in required && s !in keys
  {
    if required == [] then []
    else (if required[0] in keys then [] else [required[0]]) + Missing(required[1..], keys)
  }

  function MissingSections(keys: set<string>): seq<string> {
    Missing(REQUIRED_SECTIONS, keys)
  }

  /** The comprehension is a filter: it keeps the order of the required list, section by section. */
  lemma {:induction false} MissingAppend(a: seq<string>, b: seq<string>, keys: set<string>)
    ensures Missing(a + b, keys) == Missing(a, keys) + Missing(b, keys)
  {
    if a == [] {
      assert a + b == b;
    } else {
      assert (a + b)[0] == a[0] && (a + b)[1..] == a[1..] + b;
      MissingAppend(a[1..], b, keys);
    }
  }

  /** Nothing is reported exactly when all five sections are present. */
  lemma MissingSectionsEmpty(keys: set<string>)
    ensures MissingSections(keys) == [] <==> forall s | s in REQUIRED_SECTIONS :: s in keys
  {
    if MissingSections(keys) == [] {
      forall s | s in REQUIRED_SECTIONS ensures s in keys {
        assert s !in MissingSections(keys);
      }
    } else {
      assert MissingSections(keys)[0] in MissingSections(keys);
    }
  }

  // ---------------------------------------------------------------- the send callback

  /** `window_info.get(hwnd, {}).get('app_name', '')`. */
  function AppNameOf(info: map<Handle, WindowRecord>, h: Handle): string {
    if h in info then info[h].appName else ""
  }

  /** The registry handles whose application the user selected, in registry order. */
  function Selected(hs: seq<Handle>, info: map<Handle, WindowRecord>, apps: set<string>): (r: seq<Handle>)
    ensures |r| <= |hs|
  {
    if hs == [] then []
    else
      var k := |hs| - 1;
      Selected(hs[..k], info, apps) + (if AppNameOf(info, hs[k]) in apps then [hs[k]] else [])
  }

  /** Selection is a filter: it distributes over concatenation, so registry order is kept. */
  lemma {:induction false} SelectedAppend(a: seq<Handle>, b: seq<Handle>, info: map<Handle, WindowRecord>, apps: set<string>)
    ensures Selected(a + b, info, apps) == Selected(a, info, apps) + Selected(b, info, apps)
    decreases |b|
  {
    if b == [] {
      assert a + b == a;
    } else {
      var k := |b| - 1;
      var ab := a + b;
      var last := if AppNameOf(info, b[k]) in apps then [b[k]] else [];
      assert ab[..|ab| - 1] == a + b[..k] && ab[|ab| - 1] == b[k];
      assert Selected(ab, info, apps) == Selected(a + b[..k], info, apps) + last;
      assert Selected(b, info, apps) == Selected(b[..k], info, apps) + last;
      SelectedAppend(a, b[..k], info, apps);
    }
  }

  /** A handle is selected exactly when it is registered and its application was ticked. */
  lemma {:induction false} SelectedMembers(hs: seq<Handle>, info: map<Handle, WindowRecord>, apps: set<string>)
    ensures forall h :: h in Selected(hs, info, apps) <==> h in hs && AppNameOf(info, h) in apps
  {
    if hs != [] {
      var k := |hs| - 1;
      SelectedMembers(hs[..k], info, apps);
      assert hs == hs[..k] + [hs[k]];
    }
  }

  /** The loop that builds `selected_windows`. */
  method SelectWindows(hs: seq<Handle>, info: map<Handle, WindowRecord>, apps: set<string>) returns (selected: seq<Handle>)
    ensures selected == Selected(hs, info, apps)
  {
    selected := [];
    for i := 0 to |hs|
      invariant selected == Selected(hs[..i], info, apps)
    {
      assert hs[..i + 1][..i] == hs[..i];
      if AppNameOf(info, hs[i]) in apps {
        selected := selected + [hs[i]];
      }
    }
    assert hs[..|hs|] == hs;
  }

  /**
   * `send_prompt_callback`: with no registered window, or none of the
   * selected applications, report zero without touching the desktop;
   * otherwise return what the prompt sender reports for the selected
   * windows, unchanged.
   */
  method SendPromptCallback(
    wm: WindowManager.Manager, sender: Sender, desk: Desktop,
    prompt: string, selectedApps: set<string>, faults: seq<Fault>, restoreRefused: bool)
    returns (r: Outcome)
    modifies sender, desk
    ensures var sel := Selected(old(wm.aiWindows), old(wm.windowInfo), selectedApps);
            if sel == [] then r == NOTHING_SENT && desk.State() == old(desk.State())
            else if IsBlank(prompt) then r == NOTHING_SENT && desk.State() == old(desk.State())
            else
              var sent := SendAll(old(desk.State()), sel, prompt, faults, WaitMs(sender.configuredDelayMs));
              && desk.State() == RestoreFocusOp(sent.0, Some(old(desk.foreground)), restoreRefused)
              && r == Outcome(sent.1, |sel| - sent.1, |sel|)
    ensures r.success + r.failed == r.total <= |wm.aiWindows|
  {
    if wm.aiWindows == [] {
      return NOTHING_SENT;
    }
    var selected := SelectWindows(wm.aiWindows, wm.windowInfo, selectedApps);
    if selected == [] {
      return NOTHING_SENT;
    }
    r := sender.SendToAll(desk, selected, prompt, faults, restoreRefused);
  }
}
