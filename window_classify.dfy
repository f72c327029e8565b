/**
 * How `get_ai_windows_fast` decides which windows belong to which configured
 * application (window_manager.py): the keyword table built from the enabled
 * applications, the first-match classification of a lower-cased title, the
 * process allow-list check, and the registry a whole enumeration produces.
 */
module Classify {
  import opened Wrappers
  import opened Sequences
  import opened Text
  import opened Os
  import opened Geometry

  /** One configured application, as far as window discovery reads it. */
  datatype AppConfig = AppConfig(name: string, keywords: seq<string>, enabled: bool)

  /** A registry entry (`window_info[hwnd]`). */
  datatype WindowRecord = WindowRecord(title: string, appName: string, hwnd: Handle, priority: int)

  /** The hard-coded `app_priority` table of the window manager, with its default of 999. */
  function AppPriority(name: string): (p: int)
    ensures p == 999 <==> name !in ["Claude", "Google Gemini", "Perplexity", "Grok", "DeepSeek", "ChatGPT"]
    ensures 0 <= p <= 5 || p == 999
  {
    if name == "Claude" then 0
    else if name == "Google Gemini" then 1
    else if name == "Perplexity" then 2
    else if name == "Grok" then 3
    else if name == "DeepSeek" then 4
    else if name == "ChatGPT" then 5
    else 999
  }

  // ---------------------------------------------------------------- keyword table

  /** `app_keyword_map`: an insertion-ordered dict from app name to lower-cased keywords. */
  type KeywordMap = seq<(string, seq<string>)>

  function LowerAll(kws: seq<string>): (r: seq<string>)
    ensures |r| == |kws| && forall i | 0 <= i < |kws| :: r[i] == Lower(kws[i])
  {
    seq(|kws|, i requires 0 <= i < |kws| => Lower(kws[i]))
  }

  /** The position of `name` among the keys of `m`. */
  function IndexOfName(m: KeywordMap, name: string): (r: Option<nat>)
    ensures r.Some? ==> r.value < |m| && m[r.value].0 == name
    ensures r.None? ==> forall i | 0 <= i < |m| :: m[i].0 != name
  {
    if m == [] then None
    else if m[|m| - 1].0 == name then Some(|m| - 1)
    else IndexOfName(m[..|m| - 1], name)
  }

  /** Python `d[name] = kws`: an existing key keeps its position, a new key goes last. */
  function Put(m: KeywordMap, name: string, kws: seq<string>): KeywordMap {
    match IndexOfName(m, name)
    case Some(i) => m[i := (name, kws)]
    case None => m + [(name, kws)]
  }

  /** The keyword table built from the configured applications, in configuration order. */
  function KeywordMapOf(apps: seq<AppConfig>): KeywordMap {
    if apps == [] then []
    else
      var m := KeywordMapOf(apps[..|apps| - 1]);
      var a := apps[|apps| - 1];
      if a.enabled then Put(m, a.name, LowerAll(a.keywords)) else m
  }

  /** The position of the last enabled application called `name`. */
  function LastEnabled(apps: seq<AppConfig>, name: string): (r: Option<nat>)
    ensures r.Some? ==> r.value < |apps| && apps[r.value].enabled && apps[r.value].name == name
  {
    if apps == [] then None
    else if apps[|apps| - 1].enabled && apps[|apps| - 1].name == name then Some(|apps| - 1)
    else LastEnabled(apps[..|apps| - 1], name)
  }

  predicate DistinctNames(m: KeywordMap) {
    forall i, j | 0 <= i < j < |m| :: m[i].0 != m[j].0
  }

  lemma PutFacts(m: KeywordMap, name: string, kws: seq<string>)
    requires DistinctNames(m)
    ensures DistinctNames(Put(m, name, kws))
    ensures forall i | 0 <= i < |Put(m, name, kws)| ::
              if Put(m, name, kws)[i].0 == name then Put(m, name, kws)[i].1 == kws
              else i < |m| && Put(m, name, kws)[i] == m[i]
    ensures IndexOfName(Put(m, name, kws), name).Some?
    ensures forall i | 0 <= i < |m| :: IndexOfName(Put(m, name, kws), m[i].0).Some?
  {
    var r := Put(m, name, kws);
    match IndexOfName(m, name)
    case Some(k) =>
      assert r == m[k := (name, kws)];
      assert forall i | 0 <= i < |m| :: r[i].0 == m[i].0;
      forall i | 0 <= i < |m| ensures IndexOfName(r, m[i].0).Some? {
        assert r[i].0 == m[i].0;
      }
      assert r[k].0 == name;
    case None =>
      assert r == m + [(name, kws)];
      forall i | 0 <= i < |m| ensures IndexOfName(r, m[i].0).Some? {
        assert r[i].0 == m[i].0;
      }
      assert r[|m|].0 == name;
  }

  /** The keyword table holds each enabled application name once. */
  lemma {:induction false} KeywordMapDistinct(apps: seq<AppConfig>)
    ensures DistinctNames(KeywordMapOf(apps))
  {
    if apps != [] {
      var pre := apps[..|apps| - 1];
      var a := apps[|apps| - 1];
      KeywordMapDistinct(pre);
      if a.enabled {
        PutFacts(KeywordMapOf(pre), a.name, LowerAll(a.keywords));
      }
    }
  }

  /**
   * Every entry of the keyword table holds the lower-cased keywords of the
   * LAST enabled application of that name: a later duplicate overwrites the
   * value but keeps the position of the first.
   */
  lemma {:induction false} KeywordMapValues(apps: seq<AppConfig>)
    ensures forall i | 0 <= i < |KeywordMapOf(apps)| ::
              var n := KeywordMapOf(apps)[i].0;
              LastEnabled(apps, n).Some?
              && KeywordMapOf(apps)[i].1 == LowerAll(apps[LastEnabled(apps, n).value].keywords)
  {
    if apps != [] {
      var pre := apps[..|apps| - 1];
      var a := apps[|apps| - 1];
      KeywordMapValues(pre);
      KeywordMapDistinct(pre);
      var m0 := KeywordMapOf(pre);
      var m := KeywordMapOf(apps);
      if a.enabled {
        PutFacts(m0, a.name, LowerAll(a.keywords));
      }
      forall i | 0 <= i < |m|
        ensures LastEnabled(apps, m[i].0).Some?
        ensures m[i].1 == LowerAll(apps[LastEnabled(apps, m[i].0).value].keywords)
      {
        if !(a.enabled && a.name == m[i].0) {
          assert i < |m0| && m[i] == m0[i];
          assert pre[LastEnabled(pre, m0[i].0).value] == apps[LastEnabled(pre, m0[i].0).value];
        }
      }
    }
  }

  /** Every enabled application has an entry in the keyword table. */
  lemma {:induction false} KeywordMapCovers(apps: seq<AppConfig>)
    ensures forall k | 0 <= k < |apps| && apps[k].enabled ::
              IndexOfName(KeywordMapOf(apps), apps[k].name).Some?
  {
    if apps != [] {
      var pre := apps[..|apps| - 1];
      var a := apps[|apps| - 1];
      KeywordMapCovers(pre);
      KeywordMapDistinct(pre);
      var m0 := KeywordMapOf(pre);
      if a.enabled {
        PutFacts(m0, a.name, LowerAll(a.keywords));
      }
      forall k | 0 <= k < |apps| - 1 && apps[k].enabled
        ensures IndexOfName(KeywordMapOf(apps), apps[k].name).Some?
      {
        assert pre[k] == apps[k];
        assert m0[IndexOfName(m0, apps[k].name).value].0 == apps[k].name;
      }
    }
  }

  // ---------------------------------------------------------------- classification

  /** Some keyword of `kws` is a substring of the lower-cased title `t`. */
  predicate Hits(t: string, kws: seq<string>) {
    ContainsAny(t, kws)
  }

  /** The position of the first entry of `m` one of whose keywords is in `t`. */
  function FirstHit(t: string, m: KeywordMap): (r: Option<nat>)
    ensures r.Some? ==> r.value < |m| && Hits(t, m[r.value].1)
    ensures forall j | 0 <= j < (if r.Some? then r.value else |m|) :: !Hits(t, m[j].1)
  {
    if m == [] then None
    else if Hits(t, m[0].1) then Some(0)
    else match FirstHit(t, m[1..])
      case Some(i) => Some(i + 1)
      case None => None
  }

  /** The application a lower-cased title is attributed to: the first one with a matching keyword. */
  function ClassifyTitle(t: string, m: KeywordMap): Option<string> {
    match FirstHit(t, m)
    case Some(i) => Some(m[i].0)
    case None => None
  }

  /**
   * The inner loops of the enumeration callback: scan the keyword table in
   * order and each entry's keywords in order, stopping at the first keyword
   * that is a substring of the lower-cased title.
   */
  method MatchTitle(titleLower: string, m: KeywordMap) returns (app: Option<string>)
    ensures app == ClassifyTitle(titleLower, m)
    ensures app.Some? <==> exists i | 0 <= i < |m| :: Hits(titleLower, m[i].1)
  {
    var i := 0;
    while i < |m|
      invariant 0 <= i <= |m|
      invariant forall j | 0 <= j < i :: !Hits(titleLower, m[j].1)
    {
      var kws := m[i].1;
      var k := 0;
      while k < |kws|
        invariant 0 <= k <= |kws|
        invariant forall q | 0 <= q < k :: !Contains(titleLower, kws[q])
      {
        if Contains(titleLower, kws[k]) {
          assert Hits(titleLower, m[i].1);
          return Some(m[i].0);
        }
        k := k + 1;
      }
      i := i + 1;
    }
    return None;
  }

  // ---------------------------------------------------------------- validation

  /** The host processes accepted as application windows. */
  const VALID_EXECUTABLES: seq<string> :=
    ["chrome.exe", "firefox.exe", "edge.exe", "msedge.exe", "brave.exe", "electron.exe", "opera.exe"]

  /**
   * `_is_valid_ai_window`: a destroyed window is rejected; a window whose
   * process cannot be inspected is accepted; otherwise the lower-cased
   * executable name must contain an allow-listed name.
   */
  function IsValidAiWindow(ws: map<Handle, Window>, h: Handle): (valid: bool)
    ensures h !in ws ==> !valid
    ensures h in ws && ws[h].exe.None? ==> valid
    ensures h in ws && ws[h].exe.Some? ==>
              (valid <==> exists i | 0 <= i < |VALID_EXECUTABLES| ::
                            Contains(Lower(ws[h].exe.value), VALID_EXECUTABLES[i]))
  {
    if h !in ws then false
    else match ws[h].exe
      case None => true
      case Some(name) => ContainsAny(Lower(name), VALID_EXECUTABLES)
  }

  // ---------------------------------------------------------------- one enumeration

  /** The enumeration callback records `h`. */
  predicate Detects(ws: map<Handle, Window>, m: KeywordMap, h: Handle) {
    TitleOf(ws, h) != [] && ClassifyTitle(Lower(TitleOf(ws, h)), m).Some? && IsValidAiWindow(ws, h)
  }

  /** The handles recorded by one enumeration of `order`, in enumeration order. */
  function Detect(ws: map<Handle, Window>, order: seq<Handle>, m: KeywordMap): seq<Handle> {
    if order == [] then []
    else
      var h := order[|order| - 1];
      Detect(ws, order[..|order| - 1], m) + (if Detects(ws, m, h) then [h] else [])
  }

  function RecordOf(ws: map<Handle, Window>, m: KeywordMap, h: Handle): WindowRecord {
    var name := ClassifyTitle(Lower(TitleOf(ws, h)), m).GetOr([]);
    WindowRecord(TitleOf(ws, h), name, h, AppPriority(name))
  }

  function InfoOf(ws: map<Handle, Window>, m: KeywordMap, hs: seq<Handle>): map<Handle, WindowRecord> {
    map h | h in hs :: RecordOf(ws, m, h)
  }

  /** Every recorded window had its tool-window bit set. */
  function HideAll(ws: map<Handle, Window>, hs: seq<Handle>): map<Handle, Window> {
    map h | h in ws :: if h in hs then ws[h].(exStyle := HideStyle(ws[h].exStyle)) else ws[h]
  }

  /** Two desktops that agree on which windows exist, their titles and their processes. */
  predicate SameIdentity(ws: map<Handle, Window>, ws': map<Handle, Window>) {
    ws.Keys == ws'.Keys
    && forall h | h in ws :: ws[h].title == ws'[h].title && ws[h].exe == ws'[h].exe
  }

  /**
   * The recorded handles are exactly the enumerated ones the callback
   * accepts, each once when the enumeration lists each window once.
   */
  lemma {:induction false} DetectFacts(ws: map<Handle, Window>, order: seq<Handle>, m: KeywordMap)
    ensures forall h :: h in Detect(ws, order, m) <==> h in order && Detects(ws, m, h)
    ensures Distinct(order) ==> Distinct(Detect(ws, order, m))
  {
    if order != [] {
      var pre := order[..|order| - 1];
      DetectFacts(ws, pre, m);
      assert order == pre + [order[|order| - 1]];
      if Distinct(order) {
        assert order[|order| - 1] !in pre;
      }
    }
  }

  /** Classification looks only at which windows exist, their titles and their processes. */
  lemma {:induction false} DetectIdentity(ws: map<Handle, Window>, ws': map<Handle, Window>, order: seq<Handle>, m: KeywordMap)
    requires SameIdentity(ws, ws')
    ensures Detect(ws', order, m) == Detect(ws, order, m)
    ensures InfoOf(ws', m, Detect(ws', order, m)) == InfoOf(ws, m, Detect(ws, order, m))
  {
    if order != [] {
      DetectIdentity(ws, ws', order[..|order| - 1], m);
      var h := order[|order| - 1];
      assert TitleOf(ws, h) == TitleOf(ws', h);
      assert IsValidAiWindow(ws, h) == IsValidAiWindow(ws', h);
    }
    var d := Detect(ws, order, m);
    forall h | h in d ensures RecordOf(ws', m, h) == RecordOf(ws, m, h) {
      assert TitleOf(ws, h) == TitleOf(ws', h);
    }
  }

  /** Refreshing twice in a row, with no window opened or closed in between, records the same table. */
  lemma RefreshTwice(ws: map<Handle, Window>, order: seq<Handle>, m: KeywordMap)
    ensures var d := Detect(ws, order, m);
            && Detect(HideAll(ws, d), order, m) == d
            && InfoOf(HideAll(ws, Detect(ws, order, m)), m, d) == InfoOf(ws, m, d)
  {
    var d := Detect(ws, order, m);
    var ws' := HideAll(ws, d);
    assert SameIdentity(ws, ws');
    DetectIdentity(ws, ws', order, m);
  }

  /** The recorded application is the first in table order with a matching keyword. */
  lemma ClassifyFirstMatch(t: string, m: KeywordMap, i: nat)
    requires i < |m| && Hits(t, m[i].1)
    requires forall j | 0 <= j < i :: !Hits(t, m[j].1)
    ensures ClassifyTitle(t, m) == Some(m[i].0)
  {}

  lemma HitsPair(t: string, a: string, b: string)
    ensures Hits(t, [a, b]) == (Contains(t, a) || Contains(t, b))
  {
    var s := [a, b];
    assert s[0] == a && s[1..] == [b];
    assert ContainsAny(t, s) == (Contains(t, a) || ContainsAny(t, [b]));
    HitsSingle(t, b);
  }

  lemma HitsSingle(t: string, a: string)
    ensures Hits(t, [a]) == Contains(t, a)
  {
    assert [a][0] == a && [a][1..] == [];
    assert ContainsAny(t, [a]) == (Contains(t, a) || ContainsAny(t, []));
  }

  /** The search tests the first entry, and only when it misses goes on to the rest of the table. */
  lemma ClassifyCons(t: string, m: KeywordMap)
    requires m != []
    ensures ClassifyTitle(t, m) == if Hits(t, m[0].1) then Some(m[0].0) else ClassifyTitle(t, m[1..])
  {
    if !Hits(t, m[0].1) {
      match FirstHit(t, m[1..])
      case Some(i) => assert m[1..][i] == m[i + 1];
      case None =>
    }
  }

  /** Case-insensitive matching: "ChatGPT — New Chat" is attributed to an app whose keyword is "chatgpt". */
  lemma ClassifyExample()
    ensures ClassifyTitle(Lower("ChatGPT - New Chat"), [("ChatGPT", ["chatgpt"])]) == Some("ChatGPT")
  {
    assert OccursAt(Lower("ChatGPT - New Chat"), "chatgpt", 0);
    assert Contains(Lower("ChatGPT - New Chat"), ["chatgpt"][0]);
    assert Hits(Lower("ChatGPT - New Chat"), ["chatgpt"]);
  }
}
