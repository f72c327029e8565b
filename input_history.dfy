/**
 * `InputHistoryManager` (input_history.py): a bounded list of the prompts
 * sent, without consecutive duplicates, with a navigation cursor for the
 * up/down keys, search, statistics, and a line-oriented history file of the
 * form `timestamp | prompt` behind a `#` header.
 *
 * The clock (`datetime.now().isoformat()`) is a parameter `now`; the history
 * file is the field `file` (None when it does not exist).
 */
module InputHistory {
  import opened Wrappers
  import opened Text

  datatype Entry = Entry(prompt: string, timestamp: string, length: nat)

  /** The separator between timestamp and prompt in the history file. */
  const SEP: string := " | "

  const HEADER_TITLE: string := "# Multi-AI Chat Manager v" + VERSION + " - Prompt History"
  const VERSION: string := "1.0.0"

  // ---------------------------------------------------------------- slicing and bounds

  /** Python `xs[-count:]`, including the quirk that `count == 0` selects the whole list. */
  function PyTail<T>(xs: seq<T>, count: int): (r: seq<T>)
    ensures |r| <= |xs| && r == xs[|xs| - |r|..]
    ensures count > 0 ==> |r| == if count < |xs| then count else |xs|
    ensures count == 0 ==> r == xs
    ensures count < 0 ==> |r| == if -count < |xs| then |xs| + count else 0
  {
    var start := if count > 0 then (if count < |xs| then |xs| - count else 0)
                 else (if -count < |xs| then -count else |xs|);
    xs[start..]
  }

  /**
   * The trimming `_load_history` performs, as written:
   * `history[-max_entries:]` once the list is longer than `max_entries`.
   */
  function LoadTrimAsWritten<T>(xs: seq<T>, maxEntries: nat): seq<T> {
    if |xs| > maxEntries then PyTail(xs, maxEntries) else xs
  }

  /** The newest `maxEntries` items: what the trimming is meant to keep. */
  function Newest<T>(xs: seq<T>, maxEntries: nat): (r: seq<T>)
    ensures |r| <= maxEntries && |r| <= |xs| && r == xs[|xs| - |r|..]
    ensures |xs| <= maxEntries ==> r == xs
    ensures |xs| > maxEntries ==> |r| == maxEntries
  {
    if |xs| > maxEntries then xs[|xs| - maxEntries..] else xs
  }

  /** With `max_entries = 0`, the trimming as written keeps every loaded entry. */
  lemma LoadTrimZeroKeepsAll<T>(x: T)
    ensures LoadTrimAsWritten([x], 0) == [x]
    ensures |LoadTrimAsWritten([x], 0)| > 0
  {}

  /** For every positive bound the trimming as written and the intended one agree. */
  lemma LoadTrimAgrees<T>(xs: seq<T>, maxEntries: nat)
    requires maxEntries > 0
    ensures LoadTrimAsWritten(xs, maxEntries) == Newest(xs, maxEntries)
  {}

  // ---------------------------------------------------------------- the history file

  /** Python `text.split('\n')`: the lines of a file read with `readlines()`, newlines removed. */
  function Lines(s: string): (r: seq<string>)
    ensures |r| >= 1
  {
    if s == [] then [[]]
    else
      var rest := Lines(s[1..]);
      if s[0] == '\n' then [[]] + rest else [[s[0]] + rest[0]] + rest[1..]
  }

  /** One `timestamp | prompt` line of the file. */
  function EntryLine(e: Entry): string {
    e.timestamp + SEP + e.prompt
  }

  function Body(h: seq<Entry>): string {
    if h == [] then [] else EntryLine(h[0]) + "\n" + Body(h[1..])
  }

  function Header(now: string, count: nat): string {
    HEADER_TITLE + "\n" + "# Last updated: " + now + "\n" + "# Total entries: " + NatToString(count) + "\n" + "\n"
  }

  /** The text `_save_history` writes. */
  function SaveText(now: string, h: seq<Entry>): string {
    Header(now, |h|) + Body(h)
  }

  /**
   * One line as `_load_history` reads it: blank and `#` lines are skipped;
   * otherwise the stripped line is split at the first separator, and a line
   * without one becomes a prompt stamped with the load time.
   */
  function ParseLine(line: string, now: string): Option<Entry> {
    var t := Strip(line);
    if t == [] || t[0] == '#' then None
    else
      match FindFrom(t, SEP, 0)
      case Some(i) => Some(Entry(t[i + |SEP|..], t[..i], |t| - i - |SEP|))
      case None => Some(Entry(t, now, |t|))
  }

  /** The entries among the results, in order. */
  function Somes<T>(xs: seq<Option<T>>): seq<T> {
    if xs == [] then []
    else (if xs[0].Some? then [xs[0].value] else []) + Somes(xs[1..])
  }

  function MapSeq<A, B>(f: A -> B, xs: seq<A>): (r: seq<B>)
    ensures |r| == |xs| && forall i | 0 <= i < |xs| :: r[i] == f(xs[i])
  {
    seq(|xs|, i requires 0 <= i < |xs| => f(xs[i]))
  }

  function LineParser(now: string): string -> Option<Entry> {
    line => ParseLine(line, now)
  }

  /** `_load_history`'s loop: each line parsed, the skipped ones dropped. */
  function ParseLines(lines: seq<string>, now: string): seq<Entry> {
    Somes(MapSeq(LineParser(now), lines))
  }

  function ParseText(text: string, now: string): seq<Entry> {
    ParseLines(Lines(text), now)
  }

  /**
   * An entry the file format carries unchanged: a timestamp that does not
   * start with whitespace or `#` and has no `|`, a prompt that does not end
   * with whitespace, neither with a line break, and the recorded length.
   */
  predicate WellFormed(e: Entry) {
    && e.timestamp != [] && !IsSpace(e.timestamp[0]) && e.timestamp[0] != '#'
    && '|' !in e.timestamp && '\n' !in e.timestamp && '\r' !in e.timestamp
    && e.prompt != [] && !IsSpace(e.prompt[|e.prompt| - 1])
    && '\n' !in e.prompt && '\r' !in e.prompt
    && e.length == |e.prompt|
  }

  function Matching(h: seq<Entry>, termLower: string): (r: seq<Entry>)
    ensures |r| <= |h|
  {
    if h == [] then []
    else
      var k := |h| - 1;
      Matching(h[..k], termLower) + if Contains(Lower(h[k].prompt), termLower) then [h[k]] else []
  }

  function SumLengths(h: seq<Entry>): nat {
    if h == [] then 0 else SumLengths(h[..|h| - 1]) + h[|h| - 1].length
  }

  /** An entry as the manager keeps it: a non-empty prompt and its length. */
  predicate Recorded(e: Entry) {
    e.prompt != [] && e.length == |e.prompt|
  }

  predicate AllRecorded(h: seq<Entry>) {
    forall i | 0 <= i < |h| :: Recorded(h[i])
  }

  /** `add_entry` records `p`: it is not empty and does not repeat the newest entry. */
  predicate Fresh(h: seq<Entry>, p: string) {
    p != [] && (h == [] || h[|h| - 1].prompt != p)
  }

  /** The integer fields of `get_stats`. */
  datatype Stats = Stats(totalEntries: nat, totalCharacters: nat, oldest: Option<string>, newest: Option<string>)

  // ---------------------------------------------------------------- lemmas

  lemma {:induction false} LinesAppend(a: string, b: string)
    requires '\n' !in a
    ensures Lines(a + "\n" + b) == [a] + Lines(b)
  {
    if a == [] {
      assert a + "\n" + b == "\n" + b;
      assert ("\n" + b)[1..] == b;
    } else {
      assert (a + "\n" + b)[1..] == a[1..] + "\n" + b;
      LinesAppend(a[1..], b);
      assert [a[0]] + a[1..] == a;
    }
  }

  lemma {:induction false} SomesAppend<T>(a: seq<Option<T>>, b: seq<Option<T>>)
    ensures Somes(a + b) == Somes(a) + Somes(b)
  {
    if a == [] {
      assert a + b == b;
    } else {
      assert (a + b)[0] == a[0] && (a + b)[1..] == a[1..] + b;
      SomesAppend(a[1..], b);
    }
  }

  lemma MapSeqAppend<A, B>(f: A -> B, a: seq<A>, b: seq<A>)
    ensures MapSeq(f, a + b) == MapSeq(f, a) + MapSeq(f, b)
  {
    assert forall i | 0 <= i < |a + b| :: MapSeq(f, a + b)[i] == (MapSeq(f, a) + MapSeq(f, b))[i];
  }

  lemma ParseLinesAppend(a: seq<string>, b: seq<string>, now: string)
    ensures ParseLines(a + b, now) == ParseLines(a, now) + ParseLines(b, now)
  {
    MapSeqAppend(LineParser(now), a, b);
    SomesAppend(MapSeq(LineParser(now), a), MapSeq(LineParser(now), b));
  }

  /** A loaded entry has a non-empty prompt and its length: a stripped line cannot end in the separator. */
  lemma ParseLineFacts(line: string, now: string)
    ensures ParseLine(line, now).Some? ==>
              Recorded(ParseLine(line, now).value)
  {
    var t := Strip(line);
    if t != [] && t[0] != '#' {
      match FindFrom(t, SEP, 0)
      case Some(i) =>
        assert !IsSpace(t[|t| - 1]);
        SeparatorNotLast(t, i);
      case None =>
    }
  }

  /** In a text that does not end with whitespace, the separator is followed by something. */
  lemma SeparatorNotLast(t: string, i: nat)
    requires i + |SEP| <= |t| && t[i..i + |SEP|] == SEP && !IsSpace(t[|t| - 1])
    ensures i + |SEP| < |t|
  {}

  lemma {:induction false} SomesFacts(xs: seq<Option<Entry>>)
    requires forall i | 0 <= i < |xs| :: xs[i].Some? ==> Recorded(xs[i].value)
    ensures AllRecorded(Somes(xs))
  {
    if xs != [] {
      SomesFacts(xs[1..]);
    }
  }

  lemma ParseLinesFacts(lines: seq<string>, now: string)
    ensures AllRecorded(ParseLines(lines, now))
  {
    var ps := MapSeq(LineParser(now), lines);
    forall i | 0 <= i < |ps| ensures ps[i].Some? ==> Recorded(ps[i].value) {
      ParseLineFacts(lines[i], now);
    }
    SomesFacts(ps);
  }

  lemma HeaderTitleOneLine()
    ensures '\n' !in HEADER_TITLE && HEADER_TITLE[0] == '#'
  {
  }

  /** A text that neither starts nor ends with whitespace is its own strip. */
  lemma StripUnchanged(s: string)
    requires s != [] && !IsSpace(s[0]) && !IsSpace(s[|s| - 1])
    ensures Strip(s) == s
  {}

  /** Stripping keeps a first character that is not whitespace. */
  lemma StripKeepsHead(s: string)
    requires s != [] && !IsSpace(s[0])
    ensures Strip(s) != [] && Strip(s)[0] == s[0]
  {
    assert TrimStart(s) == s;
  }

  /** A header line is skipped on load. */
  lemma CommentSkipped(s: string, now: string)
    requires s != [] && s[0] == '#'
    ensures ParseLine(s, now) == None
  {
    StripKeepsHead(s);
  }

  /** A well-formed entry's line parses back to the entry. */
  lemma EntryLineRoundTrip(e: Entry, now: string)
    requires WellFormed(e)
    ensures ParseLine(EntryLine(e), now) == Some(e)
  {
    var t := EntryLine(e);
    var n := |e.timestamp|;
    assert t[0] == e.timestamp[0] && t[|t| - 1] == e.prompt[|e.prompt| - 1];
    StripUnchanged(t);
    NoSeparatorBefore(e.timestamp, e.prompt);
    assert t[n..n + |SEP|] == SEP;
    FindFromAt(t, SEP, 0, n);
    assert t[..n] == e.timestamp && t[n + |SEP|..] == e.prompt;
  }

  /** FindFrom finds an occurrence at `n` when there is none from `from` up to `n`. */
  lemma {:induction false} FindFromAt(s: string, sub: string, from: nat, n: nat)
    requires from <= n && OccursAt(s, sub, n)
    requires forall j | from <= j < n :: !OccursAt(s, sub, j)
    ensures FindFrom(s, sub, from) == Some(n)
    decreases n - from
  {
    if from < n {
      assert !OccursAt(s, sub, from);
      FindFromAt(s, sub, from + 1, n);
    }
  }

  /** A timestamp without `|` holds no separator, nor does one straddle its end. */
  lemma NoSeparatorBefore(ts: string, p: string)
    requires '|' !in ts
    ensures forall j | 0 <= j < |ts| :: !OccursAt(ts + SEP + p, SEP, j)
  {
    var t := ts + SEP + p;
    forall j | 0 <= j < |ts| ensures !OccursAt(t, SEP, j) {
      assert t[j + 1] == if j + 1 < |ts| then ts[j + 1] else SEP[0];
    }
  }

  /** A well-formed entry is written as a single line. */
  lemma EntryLineOneLine(e: Entry)
    requires WellFormed(e)
    ensures '\n' !in EntryLine(e)
  {
    assert '\n' !in SEP;
  }

  /** An empty remainder reads as one empty line, which loading skips. */
  lemma EmptyTextNoEntries(now: string)
    ensures ParseText([], now) == []
  {
    assert Lines([]) == [[]];
    assert Strip([]) == [];
    assert ParseLine([], now) == None;
    ParseLineAlone([], now);
  }

  /** The entries of a single line are what `ParseLine` gives for it. */
  lemma ParseLineAlone(line: string, now: string)
    ensures ParseLines([line], now) == if ParseLine(line, now).Some? then [ParseLine(line, now).value] else []
  {
    var ps := MapSeq(LineParser(now), [line]);
    assert ps == [ParseLine(line, now)];
    assert ps[1..] == [];
    assert Somes(ps[1..]) == [];
    assert Somes(ps) == (if ps[0].Some? then [ps[0].value] else []) + Somes(ps[1..]);
  }

  lemma {:induction false} BodyRoundTrip(h: seq<Entry>, now: string)
    requires forall i | 0 <= i < |h| :: WellFormed(h[i])
    ensures ParseText(Body(h), now) == h
  {
    if h == [] {
      EmptyTextNoEntries(now);
    } else {
      BodyCons(h, now);
      BodyRoundTrip(h[1..], now);
      assert [h[0]] + h[1..] == h;
    }
  }

  /** The first entry's line is read back as that entry, ahead of the rest. */
  lemma BodyCons(h: seq<Entry>, now: string)
    requires h != [] && WellFormed(h[0])
    ensures ParseText(Body(h), now) == [h[0]] + ParseText(Body(h[1..]), now)
  {
    var line := EntryLine(h[0]);
    EntryLineOneLine(h[0]);
    LinesAppend(line, Body(h[1..]));
    ParseLinesAppend([line], Lines(Body(h[1..])), now);
    EntryLineRoundTrip(h[0], now);
    ParseLineAlone(line, now);
  }

  /**
   * Loading what `_save_history` wrote gives back the saved entries, in
   * order, when each entry is well formed and the save time has no line break.
   */
  lemma SaveLoadRoundTrip(now: string, h: seq<Entry>, later: string)
    requires forall i | 0 <= i < |h| :: WellFormed(h[i])
    requires '\n' !in now
    ensures ParseText(SaveText(now, h), later) == h
  {
    var l1 := HEADER_TITLE;
    var l2 := "# Last updated: " + now;
    var l3 := "# Total entries: " + NatToString(|h|);
    var rest := Body(h);
    assert SaveText(now, h) == l1 + "\n" + (l2 + "\n" + (l3 + "\n" + ([] + "\n" + rest)));
    assert '\n' !in l2 by { assert '\n' !in "# Last updated: "; }
    assert '\n' !in l3 by {
      assert '\n' !in "# Total entries: ";
      assert '\n' !in NatToString(|h|);
    }
    HeaderTitleOneLine();
    LinesAppend([], rest);
    LinesAppend(l3, [] + "\n" + rest);
    LinesAppend(l2, l3 + "\n" + ([] + "\n" + rest));
    LinesAppend(l1, l2 + "\n" + (l3 + "\n" + ([] + "\n" + rest)));
    var ls := Lines(rest);
    assert Lines(SaveText(now, h)) == [l1] + ([l2] + ([l3] + ([[]] + ls)));
    assert l2[0] == '#' && l3[0] == '#';
    HeaderSkipped(l1, l2, l3, ls, later);
    BodyRoundTrip(h, later);
  }

  /** The header's comment lines and blank line contribute no entries. */
  lemma HeaderSkipped(l1: string, l2: string, l3: string, ls: seq<string>, now: string)
    requires l1 != [] && l1[0] == '#' && l2 != [] && l2[0] == '#' && l3 != [] && l3[0] == '#'
    ensures ParseLines([l1] + ([l2] + ([l3] + ([[]] + ls))), now) == ParseLines(ls, now)
  {
    CommentSkipped(l1, now);
    CommentSkipped(l2, now);
    CommentSkipped(l3, now);
    assert Strip([]) == [];
    ParseLineAlone(l1, now);
    ParseLineAlone(l2, now);
    ParseLineAlone(l3, now);
    ParseLineAlone([], now);
    ParseLinesAppend([[]], ls, now);
    ParseLinesAppend([l3], [[]] + ls, now);
    ParseLinesAppend([l2], [l3] + ([[]] + ls), now);
    ParseLinesAppend([l1], [l2] + ([l3] + ([[]] + ls)), now);
  }

  /** A prompt with a line break in it comes back from the file as two entries. */
  lemma MultilinePromptSplits()
    ensures ParseText(Body([Entry("a\nb", "t", 3)]), "now") == [Entry("a", "t", 1), Entry("b", "now", 1)]
  {
    var first, second := "a", "b";
    assert "a\nb" == first + "\n" + second;
    assert WellFormed(Entry(first, "t", 1));
    PromptBreakSplits(Entry(first + "\n" + second, "t", 3), first, second, "now");
  }

  /**
   * A prompt `first + "\n" + second` is saved on two lines and read back as
   * two entries, the second one stamped with the load time.
   */
  lemma PromptBreakSplits(e: Entry, first: string, second: string, now: string)
    requires e.prompt == first + "\n" + second
    requires WellFormed(Entry(first, e.timestamp, |first|))
    requires second != [] && !IsSpace(second[0]) && !IsSpace(second[|second| - 1]) && second[0] != '#'
    requires '|' !in second && '\n' !in second
    ensures ParseText(Body([e]), now) == [Entry(first, e.timestamp, |first|), Entry(second, now, |second|)]
  {
    var e1 := Entry(first, e.timestamp, |first|);
    var l1 := EntryLine(e1);
    PromptBreakLines(e, first, second);
    EntryLineRoundTrip(e1, now);
    BareLineParsed(second, now);
    ParseLineAlone(l1, now);
    ParseLineAlone(second, now);
    EmptyTextNoEntries(now);
    ParseLinesAppend([second], [[]], now);
    ParseLinesAppend([l1], [second] + [[]], now);
  }

  /** The saved text of such an entry splits into the entry's own line, the second line, and the empty tail. */
  lemma PromptBreakLines(e: Entry, first: string, second: string)
    requires e.prompt == first + "\n" + second
    requires WellFormed(Entry(first, e.timestamp, |first|))
    requires '\n' !in second
    ensures Lines(Body([e])) == [EntryLine(Entry(first, e.timestamp, |first|))] + ([second] + [[]])
  {
    var e1 := Entry(first, e.timestamp, |first|);
    var l1 := EntryLine(e1);
    assert Body([e]) == l1 + "\n" + (second + "\n" + []);
    EntryLineOneLine(e1);
    LinesAppend(l1, second + "\n" + []);
    LinesAppend(second, []);
    assert Lines([]) == [[]];
  }

  /** A line without a separator is a prompt stamped with the load time. */
  lemma BareLineParsed(line: string, now: string)
    requires line != [] && !IsSpace(line[0]) && !IsSpace(line[|line| - 1]) && line[0] != '#'
    requires '|' !in line
    ensures ParseLine(line, now) == Some(Entry(line, now, |line|))
  {
    StripUnchanged(line);
    NoBarNoSeparator(line, 0);
  }

  lemma {:induction false} NoBarNoSeparator(s: string, from: nat)
    requires from <= |s| && '|' !in s
    ensures FindFrom(s, SEP, from) == None
    decreases |s| - from
  {
    if from + |SEP| <= |s| {
      assert s[from..from + |SEP|][1] == s[from + 1];
      NoBarNoSeparator(s, from + 1);
    }
  }

  /** A search result is exactly the entries whose lower-cased prompt contains the term. */
  lemma {:induction false} MatchingMembers(h: seq<Entry>, termLower: string)
    ensures forall e :: e in Matching(h, termLower) <==> e in h && Contains(Lower(e.prompt), termLower)
  {
    if h != [] {
      MatchingMembers(h[..|h| - 1], termLower);
      assert h == h[..|h| - 1] + [h[|h| - 1]];
    }
  }

  lemma AppendRecorded(a: seq<Entry>, b: seq<Entry>)
    requires AllRecorded(a) && AllRecorded(b)
    ensures AllRecorded(a + b)
  {
    forall i | 0 <= i < |a + b| ensures Recorded((a + b)[i]) {
      if i < |a| { assert (a + b)[i] == a[i]; } else { assert (a + b)[i] == b[i - |a|]; }
    }
  }

  lemma NewestRecorded(xs: seq<Entry>, maxEntries: nat)
    requires AllRecorded(xs)
    ensures AllRecorded(Newest(xs, maxEntries))
  {
    var r := Newest(xs, maxEntries);
    var n := |xs| - |r|;
    assert r == xs[n..];
    forall i | 0 <= i < |r| ensures Recorded(r[i]) {
      assert r[i] == xs[n + i];
      assert Recorded(xs[n + i]);
    }
  }

  /** With every entry non-empty, the character total is at least the entry count. */
  lemma {:induction false} CharactersAtLeastEntries(h: seq<Entry>)
    requires forall i | 0 <= i < |h| :: h[i].length >= 1
    ensures SumLengths(h) >= |h|
  {
    if h != [] {
      CharactersAtLeastEntries(h[..|h| - 1]);
    }
  }

  /** Reading one more line adds its entry, if it holds one. */
  lemma ParseLinesSnoc(lines: seq<string>, i: nat, now: string)
    requires i < |lines|
    ensures ParseLines(lines[..i + 1], now) ==
              ParseLines(lines[..i], now) + if ParseLine(lines[i], now).Some? then [ParseLine(lines[i], now).value] else []
  {
    ParseLinesAppend(lines[..i], [lines[i]], now);
    ParseLineAlone(lines[i], now);
    assert lines[..i + 1] == lines[..i] + [lines[i]];
  }

  /** The reading loop of `_load_history`: parse the file line by line, keeping the entries. */
  method ReadEntries(text: string, now: string) returns (parsed: seq<Entry>)
    ensures parsed == ParseText(text, now)
  {
    var lines := Lines(text);
    parsed := [];
    for i := 0 to |lines|
      invariant parsed == ParseLines(lines[..i], now)
    {
      ParseLinesSnoc(lines, i, now);
      var e := ParseLine(lines[i], now);
      if e.Some? {
        parsed := parsed + [e.value];
      }
    }
    assert lines[..|lines|] == lines;
  }

  class Manager {
    /** `history.max_entries` (default 100). */
    const maxEntries: nat
    /** `history.save_to_file` (default true). */
    const saveToFile: bool

    var history: seq<Entry>
    var currentIndex: int
    /** The contents of the history file; None when there is none. */
    var file: Option<string>

    ghost predicate Valid()
      reads this
    {
      && -1 <= currentIndex <= |history|
      && |history| <= maxEntries
      && AllRecorded(history)
    }

    /** `__init__`: start empty with the cursor at -1, then load the file. */
    constructor (maxEntries: nat, saveToFile: bool, file: Option<string>, now: string)
      ensures Valid()
      ensures this.maxEntries == maxEntries && this.saveToFile == saveToFile && this.file == file
      ensures history == if saveToFile && file.Some? then Newest(ParseText(file.value, now), maxEntries) else []
      ensures currentIndex == if saveToFile && file.Some? then |history| else -1
    {
      this.maxEntries := maxEntries;
      this.saveToFile := saveToFile;
      this.file := file;
      history := [];
      currentIndex := -1;
      new;
      Load(now);
    }

    /**
     * `_load_history`: parse every line of the file, append the entries and
     * keep the newest `max_entries`; the cursor goes past the end.
     */
    method Load(now: string)
      requires Valid()
      modifies this`history, this`currentIndex
      ensures Valid()
      ensures !saveToFile || file.None? ==> history == old(history) && currentIndex == old(currentIndex)
      ensures saveToFile && file.Some? ==>
                history == Newest(old(history) + ParseText(file.value, now), maxEntries)
                && currentIndex == |history|
    {
      if !saveToFile || file.None? {
        return;
      }
      var parsed := ReadEntries(file.value, now);
      ParseLinesFacts(Lines(file.value), now);
      var all := history + parsed;
      AppendRecorded(history, parsed);
      history := Newest(all, maxEntries);
      currentIndex := |history|;
      NewestRecorded(all, maxEntries);
    }

    /** `_save_history`: rewrite the file from the current list. */
    method Save(now: string)
      modifies this`file
      ensures file == if saveToFile then Some(SaveText(now, history)) else old(file)
    {
      if saveToFile {
        file := Some(SaveText(now, history));
      }
    }

    /**
     * `add_entry`: ignore a blank prompt and a repeat of the newest entry;
     * otherwise append the stripped prompt, drop the oldest entry past the
     * bound, put the cursor past the end and save.
     */
    method AddEntry(prompt: string, now: string)
      requires Valid()
      modifies this`history, this`currentIndex, this`file
      ensures Valid()
      ensures var p := Strip(prompt);
              if !Fresh(old(history), p)
              then history == old(history) && currentIndex == old(currentIndex) && file == old(file)
              else history == Newest(old(history) + [Entry(p, now, |p|)], maxEntries)
                   && currentIndex == |history|
                   && file == (if saveToFile then Some(SaveText(now, history)) else old(file))
      ensures Strip(prompt) == [] <==> IsBlank(prompt)
    {
      StripEmptyIffBlank(prompt);
      var p := Strip(prompt);
      if !Fresh(history, p) {
        return;
      }
      Append(Entry(p, now, |p|));
      Save(now);
    }

    /** Append an entry, drop the oldest one past the bound, cursor past the end. */
    method Append(e: Entry)
      requires Valid() && Recorded(e)
      modifies this`history, this`currentIndex
      ensures Valid()
      ensures history == Newest(old(history) + [e], maxEntries) && currentIndex == |history|
    {
      var all := history + [e];
      AppendRecorded(history, [e]);
      history := all;
      if |history| > maxEntries {
        history := history[1..];
      }
      assert history == Newest(all, maxEntries);
      currentIndex := |history|;
      NewestRecorded(all, maxEntries);
    }

    /** `get_previous`: step back, stopping at the oldest entry. */
    method GetPrevious() returns (r: Option<string>)
      requires Valid()
      modifies this`currentIndex
      ensures Valid()
      ensures history == [] ==> r == None && currentIndex == old(currentIndex)
      ensures history != [] ==>
                currentIndex == (if old(currentIndex) > 0 then old(currentIndex) - 1 else 0)
                && r == Some(history[currentIndex].prompt)
    {
      if history == [] {
        return None;
      }
      if currentIndex > 0 {
        currentIndex := currentIndex - 1;
      } else {
        currentIndex := 0;
      }
      return Some(history[currentIndex].prompt);
    }

    /** `get_next`: step forward; past the newest entry the input is cleared. */
    method GetNext() returns (r: Option<string>)
      requires Valid()
      modifies this`currentIndex
      ensures Valid()
      ensures history == [] ==> r == None && currentIndex == old(currentIndex)
      ensures history != [] && old(currentIndex) < |history| - 1 ==>
                currentIndex == old(currentIndex) + 1 && r == Some(history[currentIndex].prompt)
      ensures history != [] && old(currentIndex) >= |history| - 1 ==>
                currentIndex == |history| && r == Some([])
    {
      if history == [] {
        return None;
      }
      if currentIndex < |history| - 1 {
        currentIndex := currentIndex + 1;
        return Some(history[currentIndex].prompt);
      } else {
        currentIndex := |history|;
        return Some([]);
      }
    }

    /** `get_recent_entries`: the last `count` entries, by Python's slice rules. */
    function GetRecentEntries(count: int): (r: seq<Entry>)
      reads this
      ensures |r| <= |history| && r == history[|history| - |r|..]
      ensures count > 0 ==> |r| == if count < |history| then count else |history|
      ensures count == 0 ==> r == history
    {
      if history == [] then [] else PyTail(history, count)
    }

    /** `search_history`: the entries whose lower-cased prompt contains the lower-cased term. */
    method SearchHistory(term: string) returns (r: seq<Entry>)
      ensures IsBlank(term) ==> r == []
      ensures !IsBlank(term) ==> r == Matching(history, Lower(term))
    {
      StripEmptyIffBlank(term);
      if Strip(term) == [] {
        return [];
      }
      var t := Lower(term);
      r := [];
      for i := 0 to |history|
        invariant r == Matching(history[..i], t)
      {
        assert history[..i + 1][..i] == history[..i];
        if Contains(Lower(history[i].prompt), t) {
          r := r + [history[i]];
        }
      }
      assert history[..|history|] == history;
    }

    /** `clear_history`: empty the list, cursor to -1, save. */
    method ClearHistory(now: string)
      requires Valid()
      modifies this
      ensures Valid()
      ensures history == [] && currentIndex == -1
      ensures file == if saveToFile then Some(SaveText(now, [])) else old(file)
    {
      history := [];
      currentIndex := -1;
      Save(now);
    }

    /** The integer fields of `get_stats`. */
    function GetStats(): (r: Stats)
      requires Valid()
      reads this
      ensures r.totalEntries == |history| && r.totalCharacters == SumLengths(history)
      ensures r.totalCharacters >= r.totalEntries
      ensures r.oldest.Some? <==> history != []
      ensures r.newest.Some? <==> history != []
      ensures history != [] ==> r.oldest == Some(history[0].timestamp) && r.newest == Some(history[|history| - 1].timestamp)
    {
      CharactersAtLeastEntries(history);
      if history == [] then Stats(0, 0, None, None)
      else Stats(|history|, SumLengths(history), Some(history[0].timestamp), Some(history[|history| - 1].timestamp))
    }
  }
}
