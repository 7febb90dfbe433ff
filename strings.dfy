/**
 * The Python `str` operations the core relies on, with CPython's semantics:
 * `find`, `in`, `endswith`, `split` and `join` on a separator, `replace`,
 * `strip`, and the conversions between `int` and its decimal text
 * (`str(n)`, `f"{n}"`, `int(s)`).
 */
module Strings {
  import opened Wrappers

  /** `sep` occurs in `s` starting at index `k`. */
  predicate OccursAt(s: string, sep: string, k: nat) {
    k + |sep| <= |s| && s[k..k + |sep|] == sep
  }

  /** `s.find(sep, i)`: the least index from `i` on where `sep` occurs (None stands for -1). */
  function FindFrom(s: string, sep: string, i: nat): (r: Option<nat>)
    requires i <= |s|
    ensures r.Some? ==> i <= r.value && OccursAt(s, sep, r.value)
    ensures r.Some? ==> forall j: nat :: i <= j < r.value ==> !OccursAt(s, sep, j)
    ensures r.None? ==> forall j: nat :: i <= j ==> !OccursAt(s, sep, j)
    decreases |s| - i
  {
    if i + |sep| > |s| then None
    else if s[i..i + |sep|] == sep then Some(i)
    else FindFrom(s, sep, i + 1)
  }

  /** `s.find(sep)`. */
  function Find(s: string, sep: string): Option<nat> {
    FindFrom(s, sep, 0)
  }

  /** `sub in s`. */
  predicate Contains(s: string, sub: string) {
    Find(s, sub).Some?
  }

  lemma ContainsIff(s: string, sub: string)
    ensures Contains(s, sub) <==> exists j: nat :: OccursAt(s, sub, j)
  {
  }

  /** A text whose first character does not occur in `s` is not in `s`. */
  lemma AbsentFirstChar(s: string, sub: string)
    requires |sub| > 0 && sub[0] !in s
    ensures !Contains(s, sub)
  {
    forall j: nat | j + |sub| <= |s| ensures !OccursAt(s, sub, j) {
      assert s[j..j + |sub|][0] == s[j];
    }
  }

  /** An occurrence with none before it is the one `find` reports. */
  lemma FindFirst(s: string, sub: string, k: nat)
    requires OccursAt(s, sub, k)
    requires forall j: nat :: j < k ==> !OccursAt(s, sub, j)
    ensures Find(s, sub) == Some(k)
  {
  }

  /** What occurs in `t` occurs in any text that has `t` inside it. */
  lemma ContainsExtend(p: string, t: string, q: string, x: string)
    requires Contains(t, x)
    ensures Contains(p + t + q, x)
  {
    var j := Find(t, x).value;
    var s := p + t + q;
    assert s[|p| + j..|p| + j + |x|] == t[j..j + |x|];
    assert OccursAt(s, x, |p| + j);
  }

  /** What occurs in `t` occurs in `t` followed by anything. */
  lemma ContainsLeft(t: string, q: string, x: string)
    requires Contains(t, x)
    ensures Contains(t + q, x)
  {
    ContainsExtend("", t, q, x);
    assert "" + t + q == t + q;
  }

  /** What occurs in `t` occurs in anything followed by `t`. */
  lemma ContainsRight(p: string, t: string, x: string)
    requires Contains(t, x)
    ensures Contains(p + t, x)
  {
    ContainsExtend(p, t, "", x);
    assert p + t + "" == p + t;
  }

  /** Containment is transitive. */
  lemma ContainsTransitive(s: string, t: string, x: string)
    requires Contains(s, t) && Contains(t, x)
    ensures Contains(s, x)
  {
    var j := Find(s, t).value;
    ContainsExtend(s[..j], t, s[j + |t|..], x);
    assert s[..j] + t + s[j + |t|..] == s;
  }

  lemma ContainsSelf(x: string)
    ensures Contains(x, x)
  {
    assert OccursAt(x, x, 0);
  }

  /** Every part of a join occurs in it. */
  lemma {:induction false} JoinContains(sep: string, parts: seq<string>, i: nat)
    requires i < |parts|
    ensures Contains(Join(sep, parts), parts[i])
  {
    if |parts| == 1 {
      ContainsSelf(parts[0]);
    } else if i == 0 {
      ContainsSelf(parts[0]);
      ContainsExtend("", parts[0], sep + Join(sep, parts[1..]), parts[0]);
      assert "" + parts[0] + (sep + Join(sep, parts[1..])) == Join(sep, parts);
    } else {
      JoinContains(sep, parts[1..], i - 1);
      ContainsExtend(parts[0] + sep, Join(sep, parts[1..]), "", parts[i]);
      assert parts[0] + sep + Join(sep, parts[1..]) + "" == Join(sep, parts);
    }
  }

  /** `s.endswith(suffix)`. */
  predicate EndsWith(s: string, suffix: string) {
    |suffix| <= |s| && s[|s| - |suffix|..] == suffix
  }

  lemma OccursAtChar(s: string, c: char, j: nat)
    ensures OccursAt(s, [c], j) <==> j < |s| && s[j] == c
  {
    if j < |s| {
      assert s[j..j + 1] == [s[j]];
    }
  }

  lemma ContainsChar(s: string, c: char)
    ensures Contains(s, [c]) <==> c in s
  {
    if c in s {
      var j :| 0 <= j < |s| && s[j] == c;
      OccursAtChar(s, c, j);
    }
    if Contains(s, [c]) {
      OccursAtChar(s, c, Find(s, [c]).value);
    }
  }

  /** `s.split(sep)` for a non-empty separator (Python raises ValueError on an empty one). */
  function Split(s: string, sep: string): (parts: seq<string>)
    requires |sep| > 0
    ensures |parts| > 0
    decreases |s|
  {
    match Find(s, sep)
    case None => [s]
    case Some(k) => [s[..k]] + Split(s[k + |sep|..], sep)
  }

  /** `sep.join(parts)`. */
  function Join(sep: string, parts: seq<string>): string {
    if |parts| == 0 then ""
    else if |parts| == 1 then parts[0]
    else parts[0] + sep + Join(sep, parts[1..])
  }

  /** The first part of a split is a prefix of the string. */
  lemma SplitFirstPrefix(s: string, sep: string)
    requires |sep| > 0
    ensures |Split(s, sep)[0]| <= |s| && s == Split(s, sep)[0] + s[|Split(s, sep)[0]|..]
  {
    match Find(s, sep)
    case None =>
    case Some(k) => assert s == s[..k] + s[k..];
  }

  /** A string with no `sep` in it splits into itself alone. */
  lemma SplitAbsent(s: string, sep: string)
    requires |sep| > 0 && !Contains(s, sep)
    ensures Split(s, sep) == [s]
  {
  }

  lemma SplitNoOccurrence(s: string, sep: string)
    requires |sep| > 0
    requires forall j: nat :: !OccursAt(s, sep, j)
    ensures Split(s, sep) == [s]
  {
  }

  /** When the first occurrence of `sep` in `a + sep + b` is the one after `a`, split peels off `a`. */
  lemma SplitAt(a: string, sep: string, b: string)
    requires |sep| > 0
    requires forall j: nat :: j < |a| ==> !OccursAt(a + sep + b, sep, j)
    ensures Split(a + sep + b, sep) == [a] + Split(b, sep)
  {
    var s := a + sep + b;
    assert s[|a|..|a| + |sep|] == sep;
    assert OccursAt(s, sep, |a|);
    assert Find(s, sep) == Some(|a|);
    assert s[..|a|] == a;
    assert s[|a| + |sep|..] == b;
  }

  /** Splitting and re-joining on the same separator gives the string back. */
  lemma {:induction false} JoinSplit(s: string, sep: string)
    requires |sep| > 0
    ensures Join(sep, Split(s, sep)) == s
    decreases |s|
  {
    match Find(s, sep)
    case None =>
    case Some(k) =>
      var rest := s[k + |sep|..];
      JoinSplit(rest, sep);
      assert Split(s, sep) == [s[..k]] + Split(rest, sep);
      assert ([s[..k]] + Split(rest, sep))[1..] == Split(rest, sep);
      assert s == s[..k] + sep + rest by {
        assert s[k..k + |sep|] == sep;
      }
  }

  /** Every part that `split` on a single character returns is free of that character. */
  lemma {:induction false} SplitCharParts(s: string, c: char)
    ensures forall i :: 0 <= i < |Split(s, [c])| ==> c !in Split(s, [c])[i]
    decreases |s|
  {
    match Find(s, [c])
    case None =>
      ContainsChar(s, c);
    case Some(k) =>
      var rest := s[k + 1..];
      SplitCharParts(rest, c);
      assert c !in s[..k] by {
        forall j | 0 <= j < k ensures s[..k][j] != c {
          OccursAtChar(s, c, j);
        }
      }
      var parts := Split(s, [c]);
      assert parts == [s[..k]] + Split(rest, [c]);
      forall i | 0 <= i < |parts| ensures c !in parts[i] {
        if i > 0 {
          assert parts[i] == Split(rest, [c])[i - 1];
        }
      }
  }

  /** Joining parts free of `c` with `c` and splitting on `c` gives the parts back. */
  lemma {:induction false} SplitJoinChar(parts: seq<string>, c: char)
    requires |parts| > 0
    requires forall i :: 0 <= i < |parts| ==> c !in parts[i]
    ensures Split(Join([c], parts), [c]) == parts
  {
    if |parts| == 1 {
      forall j: nat ensures !OccursAt(parts[0], [c], j) {
        OccursAtChar(parts[0], c, j);
      }
      SplitNoOccurrence(parts[0], [c]);
    } else {
      var rest := Join([c], parts[1..]);
      var s := parts[0] + [c] + rest;
      forall j: nat | j < |parts[0]| ensures !OccursAt(s, [c], j) {
        OccursAtChar(s, c, j);
        assert s[j] == parts[0][j];
      }
      SplitAt(parts[0], [c], rest);
      SplitJoinChar(parts[1..], c);
      assert [parts[0]] + parts[1..] == parts;
    }
  }

  /** A character in neither the separator nor any part is not in the join. */
  lemma {:induction false} JoinFree(sep: string, parts: seq<string>, c: char)
    requires c !in sep
    requires forall i :: 0 <= i < |parts| ==> c !in parts[i]
    ensures c !in Join(sep, parts)
  {
    if |parts| > 1 {
      JoinFree(sep, parts[1..], c);
    }
  }

  /** A join of non-empty parts starts where its first part starts and ends where its last part ends. */
  lemma {:induction false} JoinEnds(sep: string, parts: seq<string>)
    requires |parts| > 0
    requires forall i :: 0 <= i < |parts| ==> |parts[i]| > 0
    ensures var s := Join(sep, parts);
      && |s| > 0 && s[0] == parts[0][0]
      && s[|s| - 1] == parts[|parts| - 1][|parts[|parts| - 1]| - 1]
  {
    if |parts| > 1 {
      JoinEnds(sep, parts[1..]);
    }
  }

  /** The last part of a join is appended after the join of the others. */
  lemma {:induction false} JoinSnoc(sep: string, parts: seq<string>)
    requires |parts| >= 2
    ensures Join(sep, parts) == Join(sep, parts[..|parts| - 1]) + sep + parts[|parts| - 1]
  {
    if |parts| == 2 {
      assert parts[..1] == [parts[0]];
    } else {
      var tail := parts[1..];
      JoinSnoc(sep, tail);
      assert tail[..|tail| - 1] == parts[..|parts| - 1][1..];
      assert tail[|tail| - 1] == parts[|parts| - 1];
    }
  }

  /** A character `str.isspace()` accepts. */
  predicate IsSpace(ch: char) {
    ch == ' ' || ('\t' <= ch <= '\r') || ('\U{1c}' <= ch <= '\U{1f}')
    || ch == '\U{85}' || ch == '\U{a0}' || ch == '\U{1680}'
    || ('\U{2000}' <= ch <= '\U{200a}') || ch == '\U{2028}' || ch == '\U{2029}'
    || ch == '\U{202f}' || ch == '\U{205f}' || ch == '\U{3000}'
  }

  /** Neither end of `s` is whitespace. */
  predicate Trimmed(s: string) {
    |s| == 0 || (!IsSpace(s[0]) && !IsSpace(s[|s| - 1]))
  }

  function TrimStart(s: string): string {
    if |s| > 0 && IsSpace(s[0]) then TrimStart(s[1..]) else s
  }

  function TrimEnd(s: string): string {
    if |s| > 0 && IsSpace(s[|s| - 1]) then TrimEnd(s[..|s| - 1]) else s
  }

  /** `s.strip()`. */
  function Strip(s: string): string {
    TrimEnd(TrimStart(s))
  }

  lemma {:induction false} TrimStartSuffix(s: string) returns (k: nat)
    ensures k <= |s| && TrimStart(s) == s[k..]
    decreases |s|
  {
    if |s| > 0 && IsSpace(s[0]) {
      var k' := TrimStartSuffix(s[1..]);
      k := k' + 1;
      assert s[1..][k'..] == s[k..];
    } else {
      k := 0;
    }
  }

  lemma {:induction false} TrimEndPrefix(s: string) returns (m: nat)
    ensures m <= |s| && TrimEnd(s) == s[..m]
    decreases |s|
  {
    if |s| > 0 && IsSpace(s[|s| - 1]) {
      m := TrimEndPrefix(s[..|s| - 1]);
      assert s[..|s| - 1][..m] == s[..m];
    } else {
      m := |s|;
    }
  }

  /** Whatever occurs in `s.strip()` occurs in `s`. */
  lemma StripContains(s: string, x: string)
    requires Contains(Strip(s), x)
    ensures Contains(s, x)
  {
    var k := TrimStartSuffix(s);
    var t := s[k..];
    var m := TrimEndPrefix(t);
    ContainsExtend(s[..k], t[..m], t[m..], x);
    assert s[..k] + t[..m] + t[m..] == s;
  }

  lemma StripTrimmed(s: string)
    requires Trimmed(s)
    ensures Strip(s) == s
  {
  }

  /** Stripping whitespace from both ends of a trimmed, non-empty string gives that string. */
  lemma {:induction false} StripPadded(front: string, s: string, back: string)
    requires |s| > 0 && Trimmed(s)
    requires forall i :: 0 <= i < |front| ==> IsSpace(front[i])
    requires forall i :: 0 <= i < |back| ==> IsSpace(back[i])
    ensures Strip(front + s + back) == s
  {
    TrimStartPadded(front, s + back);
    assert front + s + back == front + (s + back);
    TrimEndPadded(s, back);
  }

  lemma {:induction false} TrimStartPadded(front: string, s: string)
    requires |s| > 0 && !IsSpace(s[0])
    requires forall i :: 0 <= i < |front| ==> IsSpace(front[i])
    ensures TrimStart(front + s) == s
    decreases |front|
  {
    if |front| > 0 {
      assert (front + s)[1..] == front[1..] + s;
      TrimStartPadded(front[1..], s);
    }
  }

  lemma {:induction false} TrimEndPadded(s: string, back: string)
    requires |s| > 0 && !IsSpace(s[|s| - 1])
    requires forall i :: 0 <= i < |back| ==> IsSpace(back[i])
    ensures TrimEnd(s + back) == s
    decreases |back|
  {
    if |back| > 0 {
      assert (s + back)[..|s + back| - 1] == s + back[..|back| - 1];
      TrimEndPadded(s, back[..|back| - 1]);
    } else {
      assert s + back == s;
    }
  }

  /** `s.replace(target, replacement)`: leftmost, non-overlapping occurrences, scanned left to right. */
  function Replace(s: string, target: string, replacement: string): string
    requires |target| > 0
    decreases |s|
  {
    if |s| < |target| then s
    else if s[..|target|] == target then replacement + Replace(s[|target|..], target, replacement)
    else [s[0]] + Replace(s[1..], target, replacement)
  }

  /** Where the target occurs, the replacement occurs in the result. */
  lemma {:induction false} ReplaceIntroduces(s: string, target: string, replacement: string)
    requires |target| > 0 && Contains(s, target)
    ensures Contains(Replace(s, target, replacement), replacement)
    decreases |s|
  {
    var j := Find(s, target).value;
    if s[..|target|] == target {
      ContainsSelf(replacement);
      ContainsLeft(replacement, Replace(s[|target|..], target, replacement), replacement);
    } else {
      assert j > 0;
      assert s[1..][j - 1..j - 1 + |target|] == s[j..j + |target|];
      assert OccursAt(s[1..], target, j - 1);
      ContainsIff(s[1..], target);
      ReplaceIntroduces(s[1..], target, replacement);
      ContainsRight([s[0]], Replace(s[1..], target, replacement), replacement);
    }
  }

  /** Replacing one character by a text free of it leaves no such character. */
  lemma {:induction false} ReplaceCharRemoves(s: string, c: char, replacement: string)
    requires c !in replacement
    ensures c !in Replace(s, [c], replacement)
    decreases |s|
  {
    if |s| >= 1 {
      ReplaceCharRemoves(s[1..], c, replacement);
    }
  }

  /** Replacing a character that does not occur leaves no new occurrence of `d` behind. */
  lemma {:induction false} ReplaceCharKeepsAbsent(s: string, c: char, replacement: string, d: char)
    requires d !in s && d !in replacement
    ensures d !in Replace(s, [c], replacement)
    decreases |s|
  {
    if |s| >= 1 {
      ReplaceCharKeepsAbsent(s[1..], c, replacement, d);
    }
  }

  /** Replacing a single character distributes over concatenation. */
  lemma {:induction false} ReplaceCharConcat(a: string, b: string, c: char, replacement: string)
    ensures Replace(a + b, [c], replacement) == Replace(a, [c], replacement) + Replace(b, [c], replacement)
    decreases |a|
  {
    if |a| > 0 {
      assert (a + b)[1..] == a[1..] + b;
      assert (a + b)[..1] == a[..1];
      ReplaceCharConcat(a[1..], b, c, replacement);
    } else {
      assert a + b == b;
    }
  }

  /** Replacing a character that is absent changes nothing. */
  lemma {:induction false} ReplaceCharAbsent(s: string, c: char, replacement: string)
    requires c !in s
    ensures Replace(s, [c], replacement) == s
    decreases |s|
  {
    if |s| > 0 {
      ReplaceCharAbsent(s[1..], c, replacement);
      assert [s[0]] + s[1..] == s;
    }
  }

  predicate IsDigit(ch: char) {
    '0' <= ch <= '9'
  }

  function DigitChar(d: nat): (ch: char)
    requires d < 10
    ensures IsDigit(ch)
  {
    ('0' as int + d) as char
  }

  function DigitValue(ch: char): nat
    requires IsDigit(ch)
  {
    ch as int - '0' as int
  }

  predicate AllDigits(s: string) {
    forall i :: 0 <= i < |s| ==> IsDigit(s[i])
  }

  /** `str(n)` for a natural number: its decimal digits, most significant first. */
  function NatToString(n: nat): (r: string)
    ensures |r| > 0 && AllDigits(r)
    decreases n
  {
    if n < 10 then [DigitChar(n)] else NatToString(n / 10) + [DigitChar(n % 10)]
  }

  /** `str(i)` for any integer: a minus sign before the digits of a negative one. */
  function IntToString(i: int): (r: string)
    ensures |r| > 0 && IsDigit(r[|r| - 1])
    ensures forall k :: 0 <= k < |r| ==> IsDigit(r[k]) || (k == 0 && r[k] == '-')
  {
    if i < 0 then "-" + NatToString(-i) else NatToString(i)
  }

  /** The number a string of decimal digits denotes. */
  function DigitsValue(s: string): nat
    requires AllDigits(s)
  {
    if |s| == 0 then 0 else DigitsValue(s[..|s| - 1]) * 10 + DigitValue(s[|s| - 1])
  }

  /** `int(s)`: surrounding whitespace, an optional sign, then at least one decimal digit. */
  function ParseInt(s: string): (r: Option<int>)
  {
    var t := Strip(s);
    var negative := |t| > 0 && t[0] == '-';
    var digits := if |t| > 0 && (t[0] == '-' || t[0] == '+') then t[1..] else t;
    if |digits| > 0 && AllDigits(digits) then
      var magnitude: int := DigitsValue(digits);
      Some(if negative then -magnitude else magnitude)
    else
      None
  }

  /** Reading back the digits `NatToString` writes gives the number. */
  lemma {:induction false} DigitsValueOfNatToString(n: nat)
    ensures DigitsValue(NatToString(n)) == n
    decreases n
  {
    var r := NatToString(n);
    if n < 10 {
      assert r[..0] == "";
    } else {
      DigitsValueOfNatToString(n / 10);
      assert r[..|r| - 1] == NatToString(n / 10);
    }
  }

  /** `int(str(i)) == i`. */
  lemma ParseIntOfIntToString(i: int)
    ensures ParseInt(IntToString(i)) == Some(i)
  {
    var r := IntToString(i);
    assert !IsSpace(r[0]) && !IsSpace(r[|r| - 1]);
    StripTrimmed(r);
    assert Strip(r) == r;
    if i < 0 {
      var d := NatToString(-i);
      assert r == "-" + d;
      assert r[1..] == d;
      DigitsValueOfNatToString(-i);
    } else {
      assert r[0] != '-' && r[0] != '+';
      DigitsValueOfNatToString(i);
    }
  }
}
