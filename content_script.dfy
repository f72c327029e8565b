/**
 * The browser extension's content script (extensions/Chrome/content.js):
 * naming the chat platform from the page's host name, finding the chat
 * input among the page's elements, and focusing it when the user pastes
 * while no text field has the focus.
 *
 * The page is abstracted: `document.querySelectorAll` is a function from a
 * selector to the matching elements in document order, and an element is a
 * record of the properties the script reads.
 */
module ContentScript {
  import opened Wrappers
  import opened Text
  import opened Classify

  // ---------------------------------------------------------------- the platform

  /** The platforms in the order they are tested, with the host-name substrings that select each. */
  const PLATFORM_TRIGGERS: KeywordMap := [
    ("ChatGPT", ["chatgpt", "openai"]),
    ("Claude", ["claude"]),
    ("Gemini", ["gemini", "bard"]),
    ("Perplexity", ["perplexity"]),
    ("Grok", ["grok", "x.com"]),
    ("DeepSeek", ["deepseek"]),
    ("Copilot", ["copilot", "microsoft"])]

  /** `getPlatformName`: case-sensitive substring tests on the host name, in a fixed order. */
  function PlatformName(hostname: string): string {
    if Contains(hostname, "chatgpt") || Contains(hostname, "openai") then "ChatGPT"
    else if Contains(hostname, "claude") then "Claude"
    else if Contains(hostname, "gemini") || Contains(hostname, "bard") then "Gemini"
    else if Contains(hostname, "perplexity") then "Perplexity"
    else if Contains(hostname, "grok") || Contains(hostname, "x.com") then "Grok"
    else if Contains(hostname, "deepseek") then "DeepSeek"
    else if Contains(hostname, "copilot") || Contains(hostname, "microsoft") then "Copilot"
    else "Unknown"
  }

  /** The tests are a first-match search of the platform table, with "Unknown" when nothing matches. */
  lemma PlatformByTable(hostname: string)
    ensures PlatformName(hostname) == ClassifyTitle(hostname, PLATFORM_TRIGGERS).GetOr("Unknown")
  {
    var m := PLATFORM_TRIGGERS;
    ClassifyCons(hostname, m);
    ClassifyCons(hostname, m[1..]);
    ClassifyCons(hostname, m[2..]);
    ClassifyCons(hostname, m[3..]);
    ClassifyCons(hostname, m[4..]);
    ClassifyCons(hostname, m[5..]);
    ClassifyCons(hostname, m[6..]);
    assert m[6..][1..] == [];
    assert m[0] == ("ChatGPT", ["chatgpt", "openai"]) && m[1..][0] == ("Claude", ["claude"]);
    assert m[2..][0] == ("Gemini", ["gemini", "bard"]) && m[3..][0] == ("Perplexity", ["perplexity"]);
    assert m[4..][0] == ("Grok", ["grok", "x.com"]) && m[5..][0] == ("DeepSeek", ["deepseek"]);
    assert m[6..][0] == ("Copilot", ["copilot", "microsoft"]);
    HitsPair(hostname, "chatgpt", "openai");
    HitsPair(hostname, "gemini", "bard");
    HitsPair(hostname, "grok", "x.com");
    HitsPair(hostname, "copilot", "microsoft");
    HitsSingle(hostname, "claude");
    HitsSingle(hostname, "perplexity");
    HitsSingle(hostname, "deepseek");
  }

  /** A host naming both OpenAI and Claude is taken for ChatGPT, which is tested first. */
  lemma OpenAiBeforeClaude()
    ensures PlatformName("claude.openai.com") == "ChatGPT"
  {
    assert OccursAt("claude.openai.com", "openai", 7);
  }

  // ---------------------------------------------------------------- finding the input

  /** The properties of a DOM element that the script reads. */
  datatype Element = Element(
    id: nat,                  // identity of the DOM node
    tag: string,              // `tagName`
    hasOffsetParent: bool,    // `offsetParent !== null`
    disabled: bool,
    readOnly: bool,
    display: string,          // `style.display`
    visibility: string,       // `style.visibility`
    contentEditable: string,  // `contentEditable`
    role: Option<string>,     // `getAttribute("role")`
    value: string)            // `value`, for text areas

  /** `document.querySelectorAll`: the elements a selector matches, in document order. */
  type Query = string -> seq<Element>

  /** The selectors tried, most specific first. */
  const SELECTORS: seq<string> := [
    "#prompt-textarea",
    "textarea[data-id=\"root\"]",
    "textarea[placeholder*=\"Message\"]",
    "div[contenteditable=\"true\"][data-testid=\"composer-input\"]",
    "div[contenteditable=\"true\"]",
    "textarea[placeholder*=\"Talk to Claude\"]",
    "textarea[placeholder*=\"Enter a prompt\"]",
    "textarea[aria-label*=\"Enter a prompt\"]",
    "div[contenteditable=\"true\"][aria-label*=\"Message\"]",
    "textarea[placeholder*=\"Ask anything\"]",
    "textarea[placeholder*=\"Follow up\"]",
    "div[contenteditable=\"true\"][data-testid=\"search-input\"]",
    "textarea[placeholder*=\"Ask Grok\"]",
    "div[contenteditable=\"true\"][data-testid=\"tweetTextarea\"]",
    "textarea[placeholder*=\"Send a message\"]",
    "div[contenteditable=\"true\"][placeholder*=\"Type a message\"]",
    "textarea[placeholder*=\"Ask me anything\"]",
    "div[contenteditable=\"true\"][role=\"textbox\"]",
    "textarea[placeholder*=\"message\" i]",
    "textarea[placeholder*=\"chat\" i]",
    "textarea[placeholder*=\"ask\" i]",
    "textarea[placeholder*=\"prompt\" i]",
    "div[contenteditable=\"true\"]:not([aria-hidden=\"true\"])",
    "textarea:not([aria-hidden=\"true\"])",
    "textarea"]

  /** Visible and interactable: laid out, enabled, writable, not hidden by its inline style. */
  predicate Usable(e: Element) {
    && e.hasOffsetParent
    && !e.disabled
    && !e.readOnly
    && e.display != "none"
    && e.visibility != "hidden"
  }

  /** The position of the first usable element. */
  function FirstUsable(es: seq<Element>): (r: Option<nat>)
    ensures r.Some? ==> r.value < |es| && Usable(es[r.value])
    ensures forall j | 0 <= j < (if r.Some? then r.value else |es|) :: !Usable(es[j])
  {
    if es == [] then None
    else if Usable(es[0]) then Some(0)
    else match FirstUsable(es[1..])
      case Some(i) => Some(i + 1)
      case None => None
  }

  /** What the nested loops of `findInput` return: the first usable match of the first selector that has one. */
  function FindIn(query: Query, selectors: seq<string>): Option<Element> {
    if selectors == [] then None
    else
      var es := query(selectors[0]);
      match FirstUsable(es)
      case Some(k) => Some(es[k])
      case None => FindIn(query, selectors[1..])
  }

  /** Every match of every selector, selector by selector, each in document order. */
  function Candidates(query: Query, selectors: seq<string>): seq<Element> {
    if selectors == [] then [] else query(selectors[0]) + Candidates(query, selectors[1..])
  }

  /** The first usable element of a concatenation is in the first part if that has one. */
  lemma FirstUsableAppend(a: seq<Element>, b: seq<Element>)
    ensures FirstUsable(a + b) ==
              if FirstUsable(a).Some? then FirstUsable(a)
              else match FirstUsable(b) case Some(k) => Some(|a| + k) case None => None
  {
    if FirstUsable(a).Some? {
      var i := FirstUsable(a).value;
      assert forall j | 0 <= j <= i :: (a + b)[j] == a[j];
      FirstUsableIs(a + b, i);
    } else {
      assert forall j | 0 <= j < |a| :: (a + b)[j] == a[j];
      match FirstUsable(b)
      case Some(k) =>
        assert forall j | |a| <= j <= |a| + k :: (a + b)[j] == b[j - |a|];
        FirstUsableIs(a + b, |a| + k);
      case None =>
        assert forall j | |a| <= j < |a + b| :: (a + b)[j] == b[j - |a|];
    }
  }

  /**
   * `findInput` returns the first usable element in selector order, then
   * document order; `null` exactly when no match of any selector is usable.
   */
  lemma {:induction false} FindInFirst(query: Query, selectors: seq<string>)
    ensures FindIn(query, selectors) ==
              var cs := Candidates(query, selectors);
              match FirstUsable(cs) case Some(k) => Some(cs[k]) case None => None
  {
    if selectors != [] {
      var es := query(selectors[0]);
      var rest := Candidates(query, selectors[1..]);
      FirstUsableAppend(es, rest);
      FindInFirst(query, selectors[1..]);
      match FirstUsable(es)
      case Some(k) =>
        assert (es + rest)[k] == es[k];
      case None =>
        match FirstUsable(rest)
        case Some(k) => assert (es + rest)[|es| + k] == rest[k];
        case None =>
    }
  }

  /** `findInput`: scan the selectors in order and each one's matches in order; return the first usable one. */
  method FindInput(query: Query) returns (r: Option<Element>)
    ensures r == FindIn(query, SELECTORS)
    ensures r.Some? ==> Usable(r.value)
  {
    r := Scan(query, SELECTORS);
  }

  /** The nested loops of `findInput` over a given selector list. */
  method Scan(query: Query, selectors: seq<string>) returns (r: Option<Element>)
    ensures r == FindIn(query, selectors)
    ensures r.Some? ==> Usable(r.value)
  {
    var i := 0;
    while i < |selectors|
      invariant 0 <= i <= |selectors|
      invariant FindIn(query, selectors) == FindIn(query, selectors[i..])
    {
      var es := query(selectors[i]);
      assert selectors[i..][0] == selectors[i] && selectors[i..][1..] == selectors[i + 1..];
      var k := 0;
      while k < |es|
        invariant 0 <= k <= |es|
        invariant forall j | 0 <= j < k :: !Usable(es[j])
      {
        if Usable(es[k]) {
          assert FirstUsable(es) == Some(k) by { FirstUsableIs(es, k); }
          return Some(es[k]);
        }
        k := k + 1;
      }
      assert FirstUsable(es) == None;
      i := i + 1;
    }
    return None;
  }

  lemma FirstUsableIs(es: seq<Element>, k: nat)
    requires k < |es| && Usable(es[k]) && forall j | 0 <= j < k :: !Usable(es[j])
    ensures FirstUsable(es) == Some(k)
  {
  }

  // ---------------------------------------------------------------- focusing it

  /** `isInInputField`: some element has the focus and it takes text. */
  function IsInInputField(active: Option<Element>): bool {
    match active
    case None => false
    case Some(e) => e.tag == "INPUT" || e.tag == "TEXTAREA" || e.contentEditable == "true" || e.role == Some("textbox")
  }

  datatype KeyEvent = KeyEvent(key: string, ctrlKey: bool, metaKey: bool)

  /** When `handleKeyDown` tries to focus the input: Ctrl+v or Cmd+v, lower-case `v` only, outside any text field. */
  predicate ShouldFocus(ev: KeyEvent, active: Option<Element>) {
    (ev.ctrlKey || ev.metaKey) && ev.key == "v" && !IsInInputField(active)
  }

  /** A paste with Shift held reports the key as upper-case `V`, which is not acted on. */
  lemma UpperCaseIgnored(active: Option<Element>)
    ensures !ShouldFocus(KeyEvent("V", true, false), active)
    ensures ShouldFocus(KeyEvent("v", false, true), active) <==> !IsInInputField(active)
  {
  }

  /** The document's selection: untouched, a caret range in a text area, or collapsed at the end of an editable element. */
  datatype Selection = NoSelection | TextRange(start: nat, end: nat) | EndOfContents(node: nat)

  /** The page state the script changes: the focused element, the selection, and the URL it last saw. */
  class Page {
    const query: Query
    var active: Option<Element>
    var selection: Selection
    var lastUrl: string

    constructor (query: Query, url: string)
      ensures this.query == query && active == None && selection == NoSelection && lastUrl == url
    {
      this.query := query;
      active := None;
      selection := NoSelection;
      lastUrl := url;
    }

    /**
     * `focusInput`: focus the input found, put the caret at its end (after
     * the contents of an editable element, at `value.length` in a text
     * area), and report whether one was found.
     */
    method FocusInput() returns (focused: bool)
      modifies this`active, this`selection
      ensures focused <==> FindIn(query, SELECTORS).Some?
      ensures !focused ==> active == old(active) && selection == old(selection)
      ensures focused ==>
                var e := FindIn(query, SELECTORS).value;
                && active == Some(e) && Usable(e)
                && (e.contentEditable == "true" ==> selection == EndOfContents(e.id))
                && (e.contentEditable != "true" && e.tag == "TEXTAREA" ==> selection == TextRange(|e.value|, |e.value|))
                && (e.contentEditable != "true" && e.tag != "TEXTAREA" ==> selection == old(selection))
    {
      var input := FindInput(query);
      if input.None? {
        return false;
      }
      var e := input.value;
      active := Some(e);
      if e.contentEditable == "true" {
        selection := EndOfContents(e.id);
      } else if e.tag == "TEXTAREA" {
        selection := TextRange(|e.value|, |e.value|);
      }
      return true;
    }

    /** `handleKeyDown`: on a paste shortcut outside a text field, focus the input. */
    method HandleKeyDown(ev: KeyEvent) returns (attempted: bool)
      modifies this`active, this`selection
      ensures attempted <==> ShouldFocus(ev, old(active))
      ensures !attempted ==> active == old(active) && selection == old(selection)
      ensures attempted && FindIn(query, SELECTORS).Some? ==>
                var e := FindIn(query, SELECTORS).value;
                && active == Some(e)
                && (e.contentEditable == "true" ==> selection == EndOfContents(e.id))
                && (e.contentEditable != "true" && e.tag == "TEXTAREA" ==> selection == TextRange(|e.value|, |e.value|))
                && (e.contentEditable != "true" && e.tag != "TEXTAREA" ==> selection == old(selection))
      ensures attempted && FindIn(query, SELECTORS).None? ==> active == old(active) && selection == old(selection)
    {
      if (ev.ctrlKey || ev.metaKey) && ev.key == "v" {
        if IsInInputField(active) {
          return false;
        }
        var _ := FocusInput();
        return true;
      }
      return false;
    }

    /** The navigation observer: a changed URL is recorded and reported; the same URL is not. */
    method OnMutation(currentUrl: string) returns (navigated: bool)
      modifies this`lastUrl
      ensures navigated <==> currentUrl != old(lastUrl)
      ensures lastUrl == currentUrl
    {
      navigated := currentUrl != lastUrl;
      if navigated {
        lastUrl := currentUrl;
      }
    }
  }
}
