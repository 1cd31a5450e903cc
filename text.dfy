/** The Python string builtins the app relies on (lower, title, replace, join,
    slicing) as pure functions over `string` (a sequence of Unicode scalar
    values), and two helpers used only in contracts.
    Case mapping covers the ASCII letters only. */
module Text {

  predicate IsUpper(c: char) { 'A' <= c <= 'Z' }
  predicate IsLower(c: char) { 'a' <= c <= 'z' }
  /** A letter that has an upper- and a lower-case form. */
  predicate IsCased(c: char) { IsUpper(c) || IsLower(c) }

  function LowerChar(c: char): (r: char)
    ensures IsCased(r) == IsCased(c)
    ensures !IsUpper(r)
    ensures !IsCased(c) ==> r == c
    ensures IsUpper(c) ==> r as int == c as int + 32
    ensures IsLower(c) ==> r == c
  {
    if IsUpper(c) then (c as int + 32) as char else c
  }

  function UpperChar(c: char): (r: char)
    ensures IsCased(r) == IsCased(c)
    ensures !IsLower(r)
    ensures !IsCased(c) ==> r == c
    ensures IsLower(c) ==> r as int == c as int - 32
    ensures IsUpper(c) ==> r == c
  {
    if IsLower(c) then (c as int - 32) as char else c
  }

  /** Python's `str.lower()`. */
  function Lower(s: string): (r: string)
    ensures |r| == |s|
    ensures forall i :: 0 <= i < |s| ==> r[i] == LowerChar(s[i])
  {
    seq(|s|, i requires 0 <= i < |s| => LowerChar(s[i]))
  }

  /** Two strings that differ at most in the case of their letters. */
  predicate SameIgnoringCase(a: string, b: string) {
    |a| == |b| &&
    forall i :: 0 <= i < |a| ==>
      || a[i] == b[i]
      || (IsUpper(a[i]) && b[i] as int == a[i] as int + 32)
      || (IsUpper(b[i]) && a[i] as int == b[i] as int + 32)
  }

  lemma SameIgnoringCaseLower(a: string, b: string)
    requires SameIgnoringCase(a, b)
    ensures Lower(a) == Lower(b)
  {
  }

  /** Python's `str.title()`: a cased letter is upper-cased when the character
      before it is not cased, and lower-cased otherwise. `afterCased` says
      whether the character just before `s` was cased. */
  function TitleFrom(s: string, afterCased: bool): (r: string)
    decreases |s|
  {
    if s == [] then []
    else
      var c := if afterCased then LowerChar(s[0]) else UpperChar(s[0]);
      [c] + TitleFrom(s[1..], IsCased(s[0]))
  }

  function Title(s: string): (r: string) {
    TitleFrom(s, false)
  }

  /** Each character is upper-cased when the one before it (or, at the start,
      the context) is not cased, and lower-cased when it is. */
  lemma {:induction false} TitleFromAt(s: string, afterCased: bool, i: int)
    requires 0 <= i < |s|
    ensures |TitleFrom(s, afterCased)| == |s|
    ensures TitleFrom(s, afterCased)[i] ==
      if (if i == 0 then afterCased else IsCased(s[i - 1])) then LowerChar(s[i]) else UpperChar(s[i])
    decreases |s|
  {
    TitleFromKeepsLetters(s, afterCased);
    if i > 0 {
      TitleFromAt(s[1..], IsCased(s[0]), i - 1);
      assert TitleFrom(s, afterCased)[1..] == TitleFrom(s[1..], IsCased(s[0]));
    }
  }

  /** Title-casing keeps the length and changes nothing but the case of letters. */
  lemma {:induction false} TitleFromKeepsLetters(s: string, afterCased: bool)
    ensures |TitleFrom(s, afterCased)| == |s|
    ensures Lower(TitleFrom(s, afterCased)) == Lower(s)
    decreases |s|
  {
    if s != [] {
      TitleFromKeepsLetters(s[1..], IsCased(s[0]));
      var r := TitleFrom(s, afterCased);
      assert r[1..] == TitleFrom(s[1..], IsCased(s[0]));
      forall i | 0 <= i < |s| ensures Lower(r)[i] == Lower(s)[i] {
        if i > 0 {
          assert Lower(r)[i] == Lower(r[1..])[i - 1];
          assert Lower(s)[i] == Lower(s[1..])[i - 1];
        }
      }
    }
  }

  /** Title-casing a title-cased string changes nothing. */
  lemma {:induction false} TitleFromIdempotent(s: string, afterCased: bool)
    ensures TitleFrom(TitleFrom(s, afterCased), afterCased) == TitleFrom(s, afterCased)
    decreases |s|
  {
    if s != [] {
      var r := TitleFrom(s, afterCased);
      var c := if afterCased then LowerChar(s[0]) else UpperChar(s[0]);
      assert r == [c] + TitleFrom(s[1..], IsCased(s[0]));
      assert r[0] == c && r[1..] == TitleFrom(s[1..], IsCased(s[0]));
      assert IsCased(c) == IsCased(s[0]);
      TitleFromIdempotent(s[1..], IsCased(s[0]));
      if IsUpper(s[0]) || IsLower(s[0]) {
        if afterCased {
          assert LowerChar(c) == c;
        } else {
          assert UpperChar(c) == c;
        }
      }
    }
  }

  /** A lower-case run after a cased letter is left as it is by title-casing. */
  lemma {:induction false} TitleFromLowerRun(s: string)
    requires forall i :: 0 <= i < |s| ==> IsLower(s[i])
    ensures TitleFrom(s, true) == s
    decreases |s|
  {
    if s != [] {
      TitleFromLowerRun(s[1..]);
      assert TitleFrom(s, true) == [s[0]] + s[1..];
    }
  }

  /** A capitalised word ("Unknown", "High") is already title-cased. */
  lemma TitleOfCapitalised(s: string)
    requires s != [] && IsUpper(s[0])
    requires forall i :: 1 <= i < |s| ==> IsLower(s[i])
    ensures Title(s) == s
  {
    TitleFromLowerRun(s[1..]);
    assert Title(s) == [s[0]] + TitleFrom(s[1..], true);
  }

  /** Python's `s.replace(from, to)` for one-character `from` and `to`. */
  function ReplaceChar(s: string, from: char, to: char): (r: string)
    ensures |r| == |s|
  {
    if s == [] then []
    else [if s[0] == from then to else s[0]] + ReplaceChar(s[1..], from, to)
  }

  /** Every occurrence of `from` is replaced and every other character kept. */
  lemma {:induction false} ReplaceCharAt(s: string, from: char, to: char, i: int)
    requires 0 <= i < |s|
    ensures ReplaceChar(s, from, to)[i] == if s[i] == from then to else s[i]
    decreases |s|
  {
    if i > 0 {
      ReplaceCharAt(s[1..], from, to, i - 1);
    }
  }

  /** Python's `"".join(parts)`. */
  function Concat(parts: seq<string>): (r: string)
    decreases |parts|
  {
    if parts == [] then "" else parts[0] + Concat(parts[1..])
  }

  lemma {:induction false} ConcatAppend(a: seq<string>, b: seq<string>)
    ensures Concat(a + b) == Concat(a) + Concat(b)
    decreases |a|
  {
    if a != [] {
      assert (a + b)[0] == a[0] && (a + b)[1..] == a[1..] + b;
      ConcatAppend(a[1..], b);
      assert Concat(a + b) == a[0] + (Concat(a[1..]) + Concat(b));
    } else {
      assert a + b == b;
    }
  }

  /** Joining no parts gives "", and joining one part gives that part. */
  lemma ConcatOfFew(x: string)
    ensures Concat([]) == ""
    ensures Concat([x]) == x
  {
    assert Concat([x]) == x + Concat([]);
  }

  /** Python's `sep.join(parts)`. */
  function Join(sep: string, parts: seq<string>): (r: string)
    decreases |parts|
  {
    if |parts| == 0 then ""
    else if |parts| == 1 then parts[0]
    else parts[0] + sep + Join(sep, parts[1..])
  }

  /** Adding a part to a non-empty join adds one separator and the part, at the end. */
  lemma {:induction false} JoinAppend(sep: string, parts: seq<string>, last: string)
    requires parts != []
    ensures Join(sep, parts + [last]) == Join(sep, parts) + sep + last
    decreases |parts|
  {
    if |parts| > 1 {
      assert (parts + [last])[1..] == parts[1..] + [last];
      JoinAppend(sep, parts[1..], last);
    } else {
      assert parts + [last] == [parts[0], last];
      assert [parts[0], last][1..] == [last];
    }
  }

  /** `s` ends with `suffix`. A helper for stating contracts. */
  predicate EndsWith(s: string, suffix: string) {
    |suffix| <= |s| && s[|s| - |suffix|..] == suffix
  }

  /** Python's slice `s[:n]` for `n >= 0`. */
  function Take(s: string, n: nat): (r: string)
    ensures |r| == if |s| < n then |s| else n
    ensures r <= s
  {
    if |s| < n then s else s[..n]
  }

  /** `s` written `n` times in a row. A helper for stating contracts; the app
      spells its repeated icons out as literals. A one-character `s` gives
      `n` copies of that character. */
  function Repeat(s: string, n: nat): (r: string)
    ensures |r| == n * |s|
    ensures |s| == 1 ==> forall i :: 0 <= i < |r| ==> r[i] == s[0]
  {
    if n == 0 then "" else s + Repeat(s, n - 1)
  }
}
