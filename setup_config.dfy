/**
 * The configuration helper (scripts/setup_config.py): recognising which AI
 * application a shortcut starts from its name, turning the shortcuts found
 * into `ai_apps` descriptors sorted by priority, and the per-file test that
 * decides whether a shortcut is recorded at all.
 */
module SetupConfig {
  import opened Wrappers
  import opened Text
  import opened Sequences
  import opened Classify

  /** What `detect_ai_app_type` returns. */
  datatype AppType = AppType(name: string, keywords: seq<string>, priority: int)

  /** A shortcut found on disk: its name without `.lnk`, its path and the keyword that matched. */
  datatype Shortcut = Shortcut(name: string, path: string, keyword: string)

  /** One entry of the generated `ai_apps` list. */
  datatype AppEntry = AppEntry(
    name: string,
    shortcut: string,
    keywords: seq<string>,
    enabled: bool,
    selected: bool,
    priority: int)

  // ---------------------------------------------------------------- recognising an application

  /** The categories in the order they are tested, with the substrings of the lower-cased name that select each. */
  const CATEGORY_TRIGGERS: KeywordMap := [
    ("ChatGPT", ["chatgpt", "chat gpt", "openai"]),
    ("Claude", ["claude", "anthropic"]),
    ("Google Gemini", ["gemini", "bard"]),
    ("Perplexity", ["perplexity"]),
    ("Grok", ["grok", "x.ai"]),
    ("DeepSeek", ["deepseek"]),
    ("Microsoft Copilot", ["copilot", "bing"])]

  /** What each category yields, in the same order. */
  const KNOWN_TYPES: seq<AppType> := [
    AppType("ChatGPT", ["chatgpt", "chat.openai", "openai"], 5),
    AppType("Claude", ["claude", "anthropic"], 0),
    AppType("Google Gemini", ["gemini", "bard", "google"], 1),
    AppType("Perplexity", ["perplexity"], 2),
    AppType("Grok", ["grok", "x.ai"], 3),
    AppType("DeepSeek", ["deepseek"], 4),
    AppType("Microsoft Copilot", ["copilot", "bing"], 6)]

  /** The priority given to a name no category recognises. */
  const UNKNOWN_PRIORITY: int := 999

  /** An unrecognised application keeps its name; its keyword is the lower-cased name without spaces. */
  function Unrecognised(name: string): AppType {
    AppType(name, [RemoveSpaces(Lower(name))], UNKNOWN_PRIORITY)
  }

  /** `detect_ai_app_type`: a chain of tests on the lower-cased name; the path is not consulted. */
  function DetectAppType(name: string, path: string): AppType {
    var n := Lower(name);
    if ContainsAny(n, ["chatgpt", "chat gpt", "openai"]) then AppType("ChatGPT", ["chatgpt", "chat.openai", "openai"], 5)
    else if ContainsAny(n, ["claude", "anthropic"]) then AppType("Claude", ["claude", "anthropic"], 0)
    else if ContainsAny(n, ["gemini", "bard"]) then AppType("Google Gemini", ["gemini", "bard", "google"], 1)
    else if Contains(n, "perplexity") then AppType("Perplexity", ["perplexity"], 2)
    else if ContainsAny(n, ["grok", "x.ai"]) then AppType("Grok", ["grok", "x.ai"], 3)
    else if Contains(n, "deepseek") then AppType("DeepSeek", ["deepseek"], 4)
    else if ContainsAny(n, ["copilot", "bing"]) then AppType("Microsoft Copilot", ["copilot", "bing"], 6)
    else Unrecognised(name)
  }

  /**
   * The chain of tests is a first-match search of the category table: the
   * first category with a trigger in the lower-cased name decides the type,
   * and a name no category recognises gets priority 999.
   */
  lemma DetectByTable(name: string, path: string)
    ensures DetectAppType(name, path) ==
              match FirstHit(Lower(name), CATEGORY_TRIGGERS)
              case Some(i) => KNOWN_TYPES[i]
              case None => Unrecognised(name)
  {
    var n := Lower(name);
    var m := CATEGORY_TRIGGERS;
    assert Contains(n, "perplexity") == ContainsAny(n, ["perplexity"]);
    assert Contains(n, "deepseek") == ContainsAny(n, ["deepseek"]);
    match FirstHit(n, m)
    case Some(i) =>
      assert Hits(n, m[i].1);
      if i >= 1 { assert !Hits(n, m[0].1); }
      if i >= 2 { assert !Hits(n, m[1].1); }
      if i >= 3 { assert !Hits(n, m[2].1); }
      if i >= 4 { assert !Hits(n, m[3].1); }
      if i >= 5 { assert !Hits(n, m[4].1); }
      if i >= 6 { assert !Hits(n, m[5].1); }
    case None =>
      assert !Hits(n, m[0].1) && !Hits(n, m[1].1) && !Hits(n, m[2].1) && !Hits(n, m[3].1);
      assert !Hits(n, m[4].1) && !Hits(n, m[5].1) && !Hits(n, m[6].1);
  }

  /** The category of a name does not depend on its letter case, nor on the path. */
  lemma DetectIgnoresCase(a: string, b: string, pathA: string, pathB: string)
    requires Lower(a) == Lower(b)
    ensures DetectAppType(a, pathA).priority == DetectAppType(b, pathB).priority
    ensures DetectAppType(a, pathA).keywords == DetectAppType(b, pathB).keywords
    ensures DetectAppType(a, pathA).priority != UNKNOWN_PRIORITY ==> DetectAppType(a, pathA) == DetectAppType(b, pathB)
  {
    DetectByTable(a, pathA);
    DetectByTable(b, pathB);
  }

  /** The known categories carry the fixed priorities 0 to 6, each once, and everything else 999. */
  lemma KnownPriorities(name: string, path: string)
    ensures var p := DetectAppType(name, path).priority;
            (0 <= p <= 6 || p == UNKNOWN_PRIORITY)
            && (p == UNKNOWN_PRIORITY <==> forall j | 0 <= j < |CATEGORY_TRIGGERS| :: !Hits(Lower(name), CATEGORY_TRIGGERS[j].1))
    ensures forall i | 0 <= i < |KNOWN_TYPES| :: KNOWN_TYPES[i].name == CATEGORY_TRIGGERS[i].0
  {
    DetectByTable(name, path);
    KnownTypesTable();
    match FirstHit(Lower(name), CATEGORY_TRIGGERS)
    case Some(i) =>
      assert DetectAppType(name, path).priority == KNOWN_TYPES[i].priority;
    case None =>
  }

  /** The two tables line up entry by entry, and the known priorities are 0 to 6. */
  lemma KnownTypesTable()
    ensures |KNOWN_TYPES| == |CATEGORY_TRIGGERS| == 7
    ensures forall i | 0 <= i < 7 :: 0 <= KNOWN_TYPES[i].priority <= 6 && KNOWN_TYPES[i].name == CATEGORY_TRIGGERS[i].0
  {
  }

  /** A name mentioning both OpenAI and Claude is classified as ChatGPT: ChatGPT is tested first. */
  lemma ChatGptTestedFirst()
    ensures DetectAppType("Claude and OpenAI", "").name == "ChatGPT"
  {
    var n := Lower("Claude and OpenAI");
    assert n[11..17] == "openai";
    assert OccursAt(n, "openai", 11);
  }

  // ---------------------------------------------------------------- building the descriptors

  /** The descriptor `create_ai_app_config` builds for one shortcut, before sorting. */
  function EntryFor(s: Shortcut): AppEntry {
    var t := DetectAppType(s.name, s.path);
    AppEntry(t.name, s.path, t.keywords, true, true, t.priority)
  }

  /** The descriptors in shortcut order. */
  function Built(shortcuts: seq<Shortcut>): (r: seq<AppEntry>)
    ensures |r| == |shortcuts|
    ensures forall i | 0 <= i < |shortcuts| :: r[i] == EntryFor(shortcuts[i])
  {
    if shortcuts == [] then []
    else Built(shortcuts[..|shortcuts| - 1]) + [EntryFor(shortcuts[|shortcuts| - 1])]
  }

  function EntryPriority(e: AppEntry): int {
    e.priority
  }

  /**
   * `create_ai_app_config`: build one descriptor per shortcut, then sort
   * them by priority with Python's stable sort.
   */
  method CreateAppConfig(shortcuts: seq<Shortcut>) returns (apps: seq<AppEntry>)
    ensures apps == SortBy(Built(shortcuts), EntryPriority)
    ensures |apps| == |shortcuts| && multiset(apps) == multiset(Built(shortcuts))
    ensures SortedBy(apps, EntryPriority)
    ensures forall k :: WithKey(apps, EntryPriority, k) == WithKey(Built(shortcuts), EntryPriority, k)
    ensures forall i | 0 <= i < |apps| ::
              apps[i].enabled && apps[i].selected && exists j | 0 <= j < |shortcuts| :: apps[i].shortcut == shortcuts[j].path
  {
    var built := BuildEntries(shortcuts);
    apps := SortBy(built, EntryPriority);
    SortBySorted(built, EntryPriority);
    forall k ensures WithKey(apps, EntryPriority, k) == WithKey(built, EntryPriority, k) {
      SortByStable(built, EntryPriority, k);
    }
    forall i | 0 <= i < |apps|
      ensures apps[i].enabled && apps[i].selected && exists j | 0 <= j < |shortcuts| :: apps[i].shortcut == shortcuts[j].path
    {
      assert apps[i] in multiset(built);
      var j :| 0 <= j < |built| && built[j] == apps[i];
      assert apps[i].shortcut == shortcuts[j].path;
    }
  }

  /** The loop of `create_ai_app_config` that builds one descriptor per shortcut. */
  method BuildEntries(shortcuts: seq<Shortcut>) returns (built: seq<AppEntry>)
    ensures built == Built(shortcuts)
  {
    built := [];
    for i := 0 to |shortcuts|
      invariant built == Built(shortcuts[..i])
    {
      assert shortcuts[..i + 1][..i] == shortcuts[..i];
      built := built + [EntryFor(shortcuts[i])];
    }
    assert shortcuts[..|shortcuts|] == shortcuts;
  }

  // ---------------------------------------------------------------- recognising a shortcut file

  /** The substrings of a lower-cased file name that mark an AI shortcut, in the order tried. */
  const AI_KEYWORDS: seq<string> := [
    "chatgpt", "chat gpt", "openai",
    "claude", "anthropic",
    "gemini", "bard", "google ai",
    "perplexity",
    "grok", "x.ai",
    "deepseek",
    "copilot",
    "bing chat"]

  /** Whether and how a file is recorded: a `.lnk` file whose name contains a keyword, with the first such keyword. */
  function ShortcutOf(file: string, fullPath: string): (r: Option<Shortcut>)
    ensures r.Some? <==> EndsWith(Lower(file), ".lnk") && ContainsAny(Lower(file), AI_KEYWORDS)
    ensures r.Some? ==> |file| >= 4 && r.value.name == file[..|file| - 4] && r.value.path == fullPath
    ensures r.Some? ==>
              exists k | 0 <= k < |AI_KEYWORDS| ::
                && r.value.keyword == AI_KEYWORDS[k] && Contains(Lower(file), AI_KEYWORDS[k])
                && forall j | 0 <= j < k :: !Contains(Lower(file), AI_KEYWORDS[j])
  {
    var lower := Lower(file);
    if !EndsWith(lower, ".lnk") then None
    else match FirstContained(lower, AI_KEYWORDS)
      case Some(k) => Some(Shortcut(file[..|file| - 4], fullPath, AI_KEYWORDS[k]))
      case None => None
  }

  /**
   * The body of the walk over one directory's files: keep a `.lnk` file
   * whose lower-cased name contains a keyword, stopping at the first one.
   */
  method MatchShortcut(file: string, fullPath: string) returns (r: Option<Shortcut>)
    ensures r == ShortcutOf(file, fullPath)
  {
    var lower := Lower(file);
    if !EndsWith(lower, ".lnk") {
      return None;
    }
    var k := FirstKeyword(lower, AI_KEYWORDS);
    if k.Some? {
      r := Some(Shortcut(file[..|file| - 4], fullPath, AI_KEYWORDS[k.value]));
    } else {
      r := None;
    }
  }

  /** The keyword loop with its `break`: the position of the first keyword contained in `lower`. */
  method FirstKeyword(lower: string, keywords: seq<string>) returns (r: Option<nat>)
    ensures r == FirstContained(lower, keywords)
  {
    var k := 0;
    while k < |keywords|
      invariant 0 <= k <= |keywords|
      invariant forall j | 0 <= j < k :: !Contains(lower, keywords[j])
    {
      if Contains(lower, keywords[k]) {
        FirstContainedUnique(lower, keywords, k);
        return Some(k);
      }
      k := k + 1;
    }
    return None;
  }
}
