/**
 * String helpers with the semantics of the Python and JavaScript string
 * operations the system uses: `in` / `includes`, `lower()`, `strip()`,
 * `startswith`, `endswith`, `split(sep, 1)` and `replace(' ', '')`.
 */
module Text {
  import opened Wrappers

  /** The characters Python's `str.isspace` accepts (and so `strip()` removes). */
  predicate IsSpace(c: char) {
    || c == ' ' || c == '\t' || c == '\n' || c == '\r'
    || c == '\U{0B}' || c == '\U{0C}'
    || ('\U{1C}' <= c <= '\U{1F}')
    || c == '\U{85}' || c == '\U{A0}' || c == '\U{1680}'
    || ('\U{2000}' <= c <= '\U{200A}')
    || c == '\U{2028}' || c == '\U{2029}' || c == '\U{202F}' || c == '\U{205F}'
    || c == '\U{3000}'
  }

  /** Python `not s.strip()`: empty or whitespace only. */
  predicate IsBlank(s: string) {
    forall i | 0 <= i < |s| :: IsSpace(s[i])
  }

  function LowerChar(c: char): char {
    if 'A' <= c <= 'Z' then (c as int + 32) as char else c
  }

  /** Lower-casing (ASCII letters; see README for what is left out). */
  function Lower(s: string): (r: string)
    ensures |r| == |s|
    ensures forall i | 0 <= i < |s| :: r[i] == LowerChar(s[i])
  {
    seq(|s|, i requires 0 <= i < |s| => LowerChar(s[i]))
  }

  /** Python `sub in s` / JavaScript `s.includes(sub)`. */
  predicate Contains(s: string, sub: string) {
    exists i | 0 <= i <= |s| - |sub| :: OccursAt(s, sub, i)
  }

  /** `sub` occurs in `s` starting at index `i`. */
  predicate OccursAt(s: string, sub: string, i: int) {
    0 <= i && i + |sub| <= |s| && s[i..i + |sub|] == sub
  }

  /** Python `any(sub in s for sub in subs)`. */
  function ContainsAny(s: string, subs: seq<string>): (r: bool)
    ensures r <==> exists k | 0 <= k < |subs| :: Contains(s, subs[k])
  {
    if subs == [] then false
    else Contains(s, subs[0]) || ContainsAny(s, subs[1..])
  }

  predicate StartsWith(s: string, prefix: string) {
    |prefix| <= |s| && s[..|prefix|] == prefix
  }

  predicate EndsWith(s: string, suffix: string) {
    |suffix| <= |s| && s[|s| - |suffix|..] == suffix
  }

  /** Python `s.lstrip()`. */
  function TrimStart(s: string): (r: string)
    ensures |r| <= |s| && r == s[|s| - |r|..]
    ensures r == [] || !IsSpace(r[0])
    ensures IsBlank(s[..|s| - |r|])
  {
    if s == [] || !IsSpace(s[0]) then s
    else
      var r := TrimStart(s[1..]);
      assert s[..|s| - |r|] == [s[0]] + s[1..][..|s| - 1 - |r|];
      r
  }

  /** Python `s.rstrip()`. */
  function TrimEnd(s: string): (r: string)
    ensures |r| <= |s| && r == s[..|r|]
    ensures r == [] || !IsSpace(r[|r| - 1])
    ensures IsBlank(s[|r|..])
  {
    if s == [] || !IsSpace(s[|s| - 1]) then s else TrimEnd(s[..|s| - 1])
  }

  /** Python `s.strip()`. */
  function Strip(s: string): (r: string) {
    TrimEnd(TrimStart(s))
  }

  /** Python `s.replace(' ', '')`. */
  function RemoveSpaces(s: string): (r: string)
    ensures forall i | 0 <= i < |r| :: r[i] != ' '
    ensures |r| <= |s|
  {
    if s == [] then []
    else if s[0] == ' ' then RemoveSpaces(s[1..])
    else [s[0]] + RemoveSpaces(s[1..])
  }

  /** The position of the first of `subs` that occurs in `s` (a loop over `subs` with `break`). */
  function FirstContained(s: string, subs: seq<string>): (r: Option<nat>)
    ensures r.Some? ==> r.value < |subs| && Contains(s, subs[r.value])
    ensures forall j | 0 <= j < (if r.Some? then r.value else |subs|) :: !Contains(s, subs[j])
    ensures r.Some? <==> ContainsAny(s, subs)
  {
    if subs == [] then None
    else if Contains(s, subs[0]) then Some(0)
    else match FirstContained(s, subs[1..])
      case Some(i) => Some(i + 1)
      case None => None
  }

  /** The first of `subs` contained in `s` is the one `FirstContained` finds. */
  lemma FirstContainedUnique(s: string, subs: seq<string>, k: nat)
    requires k < |subs| && Contains(s, subs[k])
    requires forall j | 0 <= j < k :: !Contains(s, subs[j])
    ensures FirstContained(s, subs) == Some(k)
  {
  }

  /** The first index at or after `from` where `sub` occurs in `s`. */
  function FindFrom(s: string, sub: string, from: nat): (r: Option<nat>)
    requires from <= |s|
    ensures r.Some? ==> from <= r.value && r.value + |sub| <= |s| && s[r.value..r.value + |sub|] == sub
    decreases |s| - from
  {
    if from + |sub| > |s| then None
    else if s[from..from + |sub|] == sub then Some(from)
    else FindFrom(s, sub, from + 1)
  }

  /** Decimal digits of a natural number, as Python's `str(n)` writes it. */
  function NatToString(n: nat): (r: string)
    ensures |r| > 0
    ensures forall i | 0 <= i < |r| :: '0' <= r[i] <= '9'
  {
    if n < 10 then [DigitChar(n)] else NatToString(n / 10) + [DigitChar(n % 10)]
  }

  function DigitChar(d: nat): char
    requires d < 10
  {
    ('0' as int + d) as char
  }

  /** The whitespace-stripped text is empty exactly when the text is blank. */
  lemma {:induction false} StripEmptyIffBlank(s: string)
    ensures Strip(s) == [] <==> IsBlank(s)
  {
    var t := TrimStart(s);
    if !IsBlank(s) && TrimEnd(t) == [] {
      // a non-empty lstripped text starts with a non-space, which rstrip keeps
      assert t == [];
      forall i | 0 <= i < |s| ensures IsSpace(s[i]) {
        assert s[i] == s[..|s| - |t|][i];
      }
    }
  }

  /** Stripped text neither starts nor ends with whitespace, and stripping it again changes nothing. */
  lemma StripIdempotent(s: string)
    ensures var r := Strip(s); r == [] || (!IsSpace(r[0]) && !IsSpace(r[|r| - 1]))
    ensures Strip(Strip(s)) == Strip(s)
  {
    var t := TrimStart(s);
    var r := TrimEnd(t);
    if r != [] {
      assert r[0] == t[0];
    }
  }

  /** Every string contains the empty string (Python `'' in s` is true). */
  lemma ContainsEmpty(s: string)
    ensures Contains(s, [])
  {
    assert OccursAt(s, [], 0);
  }

  /** A match found by FindFrom is an occurrence, and no earlier occurrence exists. */
  lemma {:induction false} FindFromFirst(s: string, sub: string, from: nat)
    requires from <= |s|
    ensures match FindFrom(s, sub, from)
      case Some(k) =>
        from <= k && k + |sub| <= |s| && s[k..k + |sub|] == sub
        && forall j | from <= j < k :: !OccursAt(s, sub, j)
      case None =>
        forall j | from <= j :: !OccursAt(s, sub, j)
    decreases |s| - from
  {
    if from + |sub| > |s| {
    } else if s[from..from + |sub|] == sub {
    } else {
      FindFromFirst(s, sub, from + 1);
    }
  }
}
