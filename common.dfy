/** Small value types and Python string operations shared by the whole model. */
module Common {

  datatype Option<+T> = None | Some(value: T) {
    function GetOr(default: T): T {
      match this
      case Some(v) => v
      case None => default
    }
  }

  /** Python truthiness of an `Optional[str]`: neither None nor the empty string. */
  predicate Truthy(s: Option<string>) {
    s.Some? && s.value != ""
  }

  /** An insertion-ordered dictionary with string keys, as a Python dict literal gives. */
  type Table<V> = seq<(string, V)>

  predicate HasKey<V>(t: Table<V>, key: string) {
    exists i :: 0 <= i < |t| && t[i].0 == key
  }

  /** Keys of a dict are distinct. */
  predicate DistinctKeys<V>(t: Table<V>) {
    forall i, j :: 0 <= i < j < |t| ==> t[i].0 != t[j].0
  }

  /** `dict.get(key)`: the value stored under `key`, or None. */
  function Lookup<V>(t: Table<V>, key: string): (r: Option<V>)
    ensures r.Some? <==> HasKey(t, key)
    ensures r.Some? ==> (key, r.value) in t
  {
    if t == [] then None
    else if t[0].0 == key then Some(t[0].1)
    else
      var r := Lookup(t[1..], key);
      assert HasKey(t[1..], key) ==> HasKey(t, key) by {
        if HasKey(t[1..], key) {
          var i :| 0 <= i < |t[1..]| && t[1..][i].0 == key;
          assert t[i + 1].0 == key;
        }
      }
      assert HasKey(t, key) ==> HasKey(t[1..], key) by {
        if HasKey(t, key) {
          var i :| 0 <= i < |t| && t[i].0 == key;
          assert i != 0;
          assert t[1..][i - 1].0 == key;
        }
      }
      r
  }

  /** In a dict with distinct keys, the lookup of a stored key yields the value stored with it. */
  lemma {:induction false} LookupStored<V>(t: Table<V>, i: nat)
    requires DistinctKeys(t)
    requires i < |t|
    ensures Lookup(t, t[i].0) == Some(t[i].1)
  {
    if i > 0 {
      assert t[0].0 != t[i].0;
      assert DistinctKeys(t[1..]) by {
        forall a, b | 0 <= a < b < |t[1..]| ensures t[1..][a].0 != t[1..][b].0 {
          assert t[a + 1].0 != t[b + 1].0;
        }
      }
      LookupStored(t[1..], i - 1);
    }
  }

  /** In a dict with distinct keys, a stored pair is what the lookup of its key yields. */
  lemma LookupPair<V>(t: Table<V>, key: string, v: V)
    requires DistinctKeys(t)
    requires (key, v) in t
    ensures Lookup(t, key) == Some(v)
  {
    var i :| 0 <= i < |t| && t[i] == (key, v);
    LookupStored(t, i);
  }

  predicate IsPrefix<T(==)>(p: seq<T>, s: seq<T>) {
    |p| <= |s| && s[..|p|] == p
  }

  /** `s.endswith(suffix)` */
  predicate EndsWith(s: string, suffix: string) {
    |suffix| <= |s| && s[|s| - |suffix|..] == suffix
  }

  /** `sub` occurs in `s` starting at index `i`. */
  predicate OccursAt(s: string, sub: string, i: int) {
    0 <= i <= |s| - |sub| && s[i..i + |sub|] == sub
  }

  /** `sub in s` for strings: `sub` occurs in `s` at some position. */
  predicate Contains(s: string, sub: string) {
    exists i | 0 <= i <= |s| - |sub| :: OccursAt(s, sub, i)
  }

  /** A character of `sub` that never occurs in `s` rules out an occurrence of `sub` in `s`. */
  lemma AbsentCharNotContained(s: string, sub: string, k: nat)
    requires k < |sub| && sub[k] !in s
    ensures !Contains(s, sub)
  {
    forall i | 0 <= i <= |s| - |sub| ensures !OccursAt(s, sub, i) {
      assert s[i + k] in s;
      assert s[i..i + |sub|][k] == s[i + k];
    }
  }

  /** `sub` occurs in `a + sub + b` right after `a`. */
  lemma OccursInfix(a: string, sub: string, b: string)
    ensures OccursAt(a + sub + b, sub, |a|)
  {
    assert (a + sub + b)[|a|..|a| + |sub|] == sub;
  }

  predicate IsUpper(c: char) {
    'A' <= c <= 'Z'
  }

  function LowerChar(c: char): char {
    if IsUpper(c) then (c as int + 32) as char else c
  }

  /** `s.lower()` restricted to ASCII letters: only upper-case letters change, each into its
      lower-case letter, and none is left. */
  function Lower(s: string): (r: string)
    ensures |r| == |s|
    ensures forall i :: 0 <= i < |s| ==> (r[i] == s[i] <==> !IsUpper(s[i]))
    ensures forall i :: 0 <= i < |s| && IsUpper(s[i]) ==> r[i] as int == s[i] as int + 32
    ensures forall i :: 0 <= i < |r| ==> !IsUpper(r[i])
  {
    seq(|s|, i requires 0 <= i < |s| => LowerChar(s[i]))
  }

  /** A piece without upper-case letters still occurs, after lower-casing, right after `a`. */
  lemma LowerOccursInfix(a: string, sub: string, b: string)
    requires forall i :: 0 <= i < |sub| ==> !IsUpper(sub[i])
    ensures OccursAt(Lower(a + sub + b), sub, |a|)
  {
    var s := a + sub + b;
    forall i | 0 <= i < |sub| ensures Lower(s)[|a|..|a| + |sub|][i] == sub[i] {
      assert s[|a| + i] == sub[i];
    }
  }

  /** A lower-case letter that occurs neither in lower nor in upper case in `s` is absent from `s.lower()`. */
  lemma LowerAbsent(s: string, c: char)
    requires 'a' <= c <= 'z'
    requires c !in s && (c as int - 32) as char !in s
    ensures c !in Lower(s)
  {
    forall i | 0 <= i < |s| ensures Lower(s)[i] != c {
      assert s[i] in s;
    }
  }

  /** `s.split(sep)[0]` for a non-empty separator: the text before the first occurrence of `sep`,
      or all of `s` when `sep` does not occur. */
  function SplitHead(s: string, sep: string): (r: string)
    requires sep != []
    ensures IsPrefix(r, s)
    decreases |s|
  {
    if IsPrefix(sep, s) then []
    else if s == [] then []
    else [s[0]] + SplitHead(s[1..], sep)
  }

  /** The head of `name + " (" + rest` split on `" ("` is `name` when `name` has no `'('`. */
  lemma {:induction false} SplitHeadBeforeParen(name: string, rest: string)
    requires '(' !in name
    ensures SplitHead(name + " (" + rest, " (") == name
  {
    var s := name + " (" + rest;
    if name == [] {
      assert IsPrefix(" (", s);
    } else {
      assert !IsPrefix(" (", s) by {
        if |name| == 1 {
          assert s[1] == ' ';
        } else {
          assert s[1] == name[1];
          assert name[1] in name;
        }
      }
      assert '(' !in name[1..] by {
        forall j | 0 <= j < |name[1..]| ensures name[1..][j] != '(' {
          assert name[j + 1] in name;
        }
      }
      assert s[1..] == name[1..] + " (" + rest;
      SplitHeadBeforeParen(name[1..], rest);
    }
  }

  /** Characters Python's `str.isspace()` accepts, which `str.strip()` removes. */
  predicate IsPythonSpace(c: char) {
    || '\t' <= c <= '\r'
    || '\U{1c}' <= c <= ' '
    || c == '\U{85}' || c == '\U{a0}' || c == '\U{1680}'
    || '\U{2000}' <= c <= '\U{200a}'
    || c == '\U{2028}' || c == '\U{2029}' || c == '\U{202f}' || c == '\U{205f}' || c == '\U{3000}'
  }

  /** Which whitespace a strip removes: that of `str.strip()`, or that `int()` skips around its
      literal, which leaves out the four separators U+001C to U+001F. */
  datatype Blanks = StrBlanks | IntBlanks

  predicate IsBlank(kind: Blanks, c: char) {
    IsPythonSpace(c) && (kind == IntBlanks ==> !('\U{1c}' <= c <= '\U{1f}'))
  }

  function StripLeft(s: string, kind: Blanks): (r: string)
    ensures r == [] || !IsBlank(kind, r[0])
    ensures |r| <= |s| && r == s[|s| - |r|..]
    ensures forall i :: 0 <= i < |s| - |r| ==> IsBlank(kind, s[i])
  {
    if s != [] && IsBlank(kind, s[0]) then StripLeft(s[1..], kind) else s
  }

  function StripRight(s: string, kind: Blanks): (r: string)
    ensures r == [] || !IsBlank(kind, r[|r| - 1])
    ensures |r| <= |s| && r == s[..|r|]
    ensures forall i :: |r| <= i < |s| ==> IsBlank(kind, s[i])
  {
    if s != [] && IsBlank(kind, s[|s| - 1]) then StripRight(s[..|s| - 1], kind) else s
  }

  /** `s.strip()` */
  function Strip(s: string): string {
    StripRight(StripLeft(s, StrBlanks), StrBlanks)
  }

  /** `s.strip()` is empty exactly when every character of `s` is whitespace. */
  lemma StripEmptyIffBlank(s: string)
    ensures Strip(s) == [] <==> forall i :: 0 <= i < |s| ==> IsPythonSpace(s[i])
  {
    var l := StripLeft(s, StrBlanks);
    if Strip(s) == [] {
      assert l == [];
    }
  }

  predicate IsDigit(c: char) {
    '0' <= c <= '9'
  }

  /** The digit part of a Python integer literal: digits, with single underscores between digits. */
  predicate DigitGroups(d: string) {
    && |d| > 0
    && IsDigit(d[0])
    && IsDigit(d[|d| - 1])
    && forall i :: 0 <= i < |d| ==> IsDigit(d[i]) || (d[i] == '_' && i + 1 < |d| && IsDigit(d[i + 1]))
  }

  /** The decimal value of a digit string, underscores skipped. */
  function DigitsValue(d: string): nat {
    if d == [] then 0
    else
      var last := d[|d| - 1];
      if IsDigit(last) then DigitsValue(d[..|d| - 1]) * 10 + (last as int - '0' as int)
      else DigitsValue(d[..|d| - 1])
  }

  /** Every character of `s` is whitespace of the given kind. */
  predicate AllBlank(s: string, kind: Blanks) {
    forall i :: 0 <= i < |s| ==> IsBlank(kind, s[i])
  }

  /** `s` reads as a Python integer literal in base 10: leading whitespace, an optional sign, digit
      groups, trailing whitespace. */
  predicate IntText(s: string, lead: string, sign: string, d: string, trail: string) {
    && s == lead + sign + d + trail
    && AllBlank(lead, IntBlanks) && AllBlank(trail, IntBlanks)
    && (sign == "" || sign == "+" || sign == "-")
    && DigitGroups(d)
  }

  /** The value of digit groups `d` under `sign`. */
  function SignedValue(sign: string, d: string): int {
    if sign == "-" then -(DigitsValue(d) as int) else DigitsValue(d)
  }

  /** `int()` on text without surrounding whitespace: an optional sign, then digit groups. */
  function ParseStripped(t: string): Option<int> {
    if |t| > 0 && (t[0] == '+' || t[0] == '-') then
      if DigitGroups(t[1..]) then Some(SignedValue(t[..1], t[1..])) else None
    else if DigitGroups(t) then Some(DigitsValue(t))
    else None
  }

  /** `s` is the whitespace a left strip removes followed by what it keeps. */
  lemma StripLeftShape(s: string, kind: Blanks) returns (lead: string)
    ensures s == lead + StripLeft(s, kind) && AllBlank(lead, kind)
  {
    var l := StripLeft(s, kind);
    lead := s[..|s| - |l|];
    assert s == lead + s[|s| - |l|..];
    forall i | 0 <= i < |lead| ensures IsBlank(kind, lead[i]) {
      assert lead[i] == s[i];
    }
  }

  /** `s` is what a right strip keeps followed by the whitespace it removes. */
  lemma StripRightShape(s: string, kind: Blanks) returns (trail: string)
    ensures s == StripRight(s, kind) + trail && AllBlank(trail, kind)
  {
    var t := StripRight(s, kind);
    trail := s[|t|..];
    assert s == s[..|t|] + trail;
    forall i | 0 <= i < |trail| ensures IsBlank(kind, trail[i]) {
      assert trail[i] == s[|t| + i];
    }
  }

  /** Concatenation is associative. */
  lemma AppendAssoc(a: string, b: string, c: string)
    ensures a + b + c == a + (b + c)
  {
  }

  /** The text `int()` reads once the whitespace around it is skipped. */
  function IntStrip(s: string): string {
    StripRight(StripLeft(s, IntBlanks), IntBlanks)
  }

  /** `s` is its stripped text between two runs of the whitespace `int()` skips. */
  lemma IntStripShape(s: string) returns (lead: string, trail: string)
    ensures s == lead + IntStrip(s) + trail && AllBlank(lead, IntBlanks) && AllBlank(trail, IntBlanks)
  {
    lead := StripLeftShape(s, IntBlanks);
    trail := StripRightShape(StripLeft(s, IntBlanks), IntBlanks);
    AppendAssoc(lead, IntStrip(s), trail);
  }

  /** What `ParseStripped` accepts is a sign and digit groups, and it gives their value. */
  lemma StrippedShape(t: string) returns (sign: string, d: string)
    requires ParseStripped(t).Some?
    ensures t == sign + d && (sign == "" || sign == "+" || sign == "-") && DigitGroups(d)
    ensures ParseStripped(t).value == SignedValue(sign, d)
  {
    if |t| > 0 && (t[0] == '+' || t[0] == '-') {
      sign, d := t[..1], t[1..];
    } else {
      sign, d := "", t;
    }
  }

  /** A signed literal between two runs of whitespace is an integer literal. */
  lemma IntTextOfParts(s: string, lead: string, t: string, trail: string, sign: string, d: string)
    requires s == lead + t + trail && AllBlank(lead, IntBlanks) && AllBlank(trail, IntBlanks)
    requires t == sign + d && (sign == "" || sign == "+" || sign == "-") && DigitGroups(d)
    ensures IntText(s, lead, sign, d, trail)
  {
  }

  /** `int(s)` for a string in base 10. None stands for the ValueError Python raises. Whatever it
      accepts is an integer literal, and the result is that literal's value. */
  function ParseInt(s: string): (r: Option<int>)
    ensures r.Some? ==> exists lead, sign, d, trail :: IntText(s, lead, sign, d, trail) && r.value == SignedValue(sign, d)
  {
    var t := IntStrip(s);
    var r := ParseStripped(t);
    assert r.Some? ==> exists lead, sign, d, trail :: IntText(s, lead, sign, d, trail) && r.value == SignedValue(sign, d) by {
      if r.Some? {
        var lead, trail := IntStripShape(s);
        var sign, d := StrippedShape(t);
        IntTextOfParts(s, lead, t, trail, sign, d);
      }
    }
    r
  }

  /** Whitespace in front of a text that does not start with whitespace is stripped away. */
  lemma StripLeftSpaces(lead: string, x: string, kind: Blanks)
    requires AllBlank(lead, kind)
    requires x == [] || !IsBlank(kind, x[0])
    ensures StripLeft(lead + x, kind) == x
  {
    var s := lead + x;
    var r := StripLeft(s, kind);
    assert forall i :: 0 <= i < |lead| ==> s[i] == lead[i];
    assert x != [] ==> s[|lead|] == x[0];
    assert r != [] ==> r[0] == s[|s| - |r|];
    assert |r| == |x|;
    assert s[|lead|..] == x;
  }

  /** Whitespace after a text that does not end in whitespace is stripped away. */
  lemma StripRightSpaces(y: string, trail: string, kind: Blanks)
    requires AllBlank(trail, kind)
    requires y == [] || !IsBlank(kind, y[|y| - 1])
    ensures StripRight(y + trail, kind) == y
  {
    var s := y + trail;
    var r := StripRight(s, kind);
    assert forall i :: 0 <= i < |trail| ==> s[|y| + i] == trail[i];
    assert y != [] ==> s[|y| - 1] == y[|y| - 1];
    assert r != [] ==> r[|r| - 1] == s[|r| - 1];
    assert |r| == |y|;
    assert s[..|y|] == y;
  }

  /** A sign and digit groups neither start nor end with whitespace, and `ParseStripped` reads them. */
  lemma SignedDigits(sign: string, d: string)
    requires (sign == "" || sign == "+" || sign == "-") && DigitGroups(d)
    ensures !IsPythonSpace((sign + d)[0]) && !IsPythonSpace((sign + d)[|sign + d| - 1])
    ensures ParseStripped(sign + d) == Some(SignedValue(sign, d))
  {
    var t := sign + d;
    if sign != "" {
      assert t[..1] == sign && t[1..] == d;
    } else {
      assert t == d;
    }
  }

  /** `int()` accepts every integer literal, whitespace and sign included, and gives its value. */
  lemma ParseIntAccepts(s: string, lead: string, sign: string, d: string, trail: string)
    requires IntText(s, lead, sign, d, trail)
    ensures ParseInt(s) == Some(SignedValue(sign, d))
  {
    var t := sign + d;
    SignedDigits(sign, d);
    AppendAssoc(lead, sign, d);
    AppendAssoc(lead, t, trail);
    assert s == lead + (t + trail);
    assert (t + trail)[0] == t[0];
    StripLeftSpaces(lead, t + trail, IntBlanks);
    assert StripLeft(s, IntBlanks) == t + trail;
    StripRightSpaces(t, trail, IntBlanks);
    assert IntStrip(s) == t;
    assert ParseStripped(IntStrip(s)) == Some(SignedValue(sign, d));
  }

  /** The separators U+001C to U+001F count as whitespace for `str.strip()`... */
  lemma StripRemovesSeparator()
    ensures Strip("\U{1c}1") == "1"
  {
    assert "\U{1c}1" == "\U{1c}" + "1";
    StripLeftSpaces("\U{1c}", "1", StrBlanks);
    StripRightSpaces("1", "", StrBlanks);
    assert "1" + "" == "1";
  }

  /** ...but not for `int()`, which rejects a count padded with one. */
  lemma IntKeepsSeparator()
    ensures ParseInt("\U{1c}1") == None
  {
    var s := "\U{1c}1";
    assert !IsBlank(IntBlanks, s[0]) && !IsBlank(IntBlanks, s[1]);
    assert StripLeft(s, IntBlanks) == s;
    assert StripRight(s, IntBlanks) == s;
    assert !DigitGroups(s);
    assert ParseStripped(s) == None;
  }
}
