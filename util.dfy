/** Sequence and string helpers shared by the model: an Option type, the
    array operations the pages use (`filter`, `includes`, `join`) and the
    JavaScript notions of whitespace and `String.prototype.trim`. */
module Util {

  datatype Option<+T> = None | Some(value: T) {
    /** `x || d` on an optional value whose present values are all truthy. */
    function GetOr(default: T): T {
      match this
      case Some(v) => v
      case None => default
    }

    /** The first present value of `this` and `other`. */
    function OrElse(other: Option<T>): Option<T> {
      if Some? then this else other
    }
  }

  /** `s.filter(t => t !== x)`: every occurrence of `x` dropped, order kept. */
  function Remove(s: seq<string>, x: string): (r: seq<string>)
    ensures forall y :: y in r <==> y in s && y != x
    ensures |r| <= |s|
    ensures x !in s ==> r == s
  {
    if s == [] then []
    else (if s[0] == x then [] else [s[0]]) + Remove(s[1..], x)
  }

  /** `s.filter(t => !xs.includes(t))`. */
  function RemoveAll(s: seq<string>, xs: seq<string>): (r: seq<string>)
    ensures forall y :: y in r <==> y in s && y !in xs
    ensures |r| <= |s|
  {
    if s == [] then []
    else (if s[0] in xs then [] else [s[0]]) + RemoveAll(s[1..], xs)
  }

  /** `s.filter(t => xs.includes(t))`, the part of `s` that lies in `xs`. */
  function KeepOnly(s: seq<string>, xs: seq<string>): (r: seq<string>)
    ensures forall y :: y in r <==> y in s && y in xs
  {
    if s == [] then []
    else (if s[0] in xs then [s[0]] else []) + KeepOnly(s[1..], xs)
  }

  /** `Remove` keeps every other element as often as it occurs. */
  lemma {:induction false} RemoveCounts(s: seq<string>, x: string)
    ensures multiset(Remove(s, x)) == multiset(s)[x := 0]
  {
    if s != [] {
      RemoveCounts(s[1..], x);
      assert s == [s[0]] + s[1..];
    }
  }

  /** `RemoveAll` keeps every outsider as often as it occurs. */
  lemma {:induction false} RemoveAllCounts(s: seq<string>, xs: seq<string>, y: string)
    ensures multiset(RemoveAll(s, xs))[y] == if y in xs then 0 else multiset(s)[y]
  {
    if s != [] {
      RemoveAllCounts(s[1..], xs, y);
      assert s == [s[0]] + s[1..];
    }
  }

  /** `KeepOnly` keeps every member of `xs` as often as it occurs. */
  lemma {:induction false} KeepOnlyCounts(s: seq<string>, xs: seq<string>, y: string)
    ensures multiset(KeepOnly(s, xs))[y] == if y in xs then multiset(s)[y] else 0
  {
    if s != [] {
      KeepOnlyCounts(s[1..], xs, y);
      assert s == [s[0]] + s[1..];
    }
  }

  /** The membership flip used for tags and labels:
      `s.includes(x) ? s.filter(t => t !== x) : [...s, x]`. */
  function Toggle(s: seq<string>, x: string): (r: seq<string>)
    ensures x in r <==> x !in s
    ensures forall y :: y != x ==> (y in r <==> y in s)
    ensures NoDup(s) ==> NoDup(r)
  {
    if x in s then RemoveKeepsNoDup(s, x); Remove(s, x) else s + [x]
  }

  /** Toggling twice restores the members, and restores the very sequence
      when `x` was absent to begin with. */
  lemma ToggleTwice(s: seq<string>, x: string)
    ensures forall y :: y in Toggle(Toggle(s, x), x) <==> y in s
    ensures x !in s ==> Toggle(Toggle(s, x), x) == s
  {
    if x !in s {
      RemoveConcat(s, [x], x);
      assert Remove([x], x) == [];
      assert s + [] == s;
    }
  }

  /** `null`, `undefined` and `""` are falsy; every other string is truthy. */
  predicate IsTruthy(o: Option<string>)
  {
    o.Some? && o.value != ""
  }

  lemma KeepOnlyConcat(a: seq<string>, b: seq<string>, xs: seq<string>)
    ensures KeepOnly(a + b, xs) == KeepOnly(a, xs) + KeepOnly(b, xs)
  {
    if a != [] {
      assert (a + b)[1..] == a[1..] + b;
      KeepOnlyConcat(a[1..], b, xs);
    } else {
      assert a + b == b;
    }
  }

  /** Nothing of `s` lies in `xs`, so nothing is kept. */
  lemma KeepOnlyNone(s: seq<string>, xs: seq<string>)
    requires forall i :: 0 <= i < |s| ==> s[i] !in xs
    ensures KeepOnly(s, xs) == []
  {
  }

  predicate NoDup(s: seq<string>)
  {
    forall i, j :: 0 <= i < j < |s| ==> s[i] != s[j]
  }

  lemma {:induction false} RemoveKeepsNoDup(s: seq<string>, x: string)
    ensures NoDup(s) ==> NoDup(Remove(s, x))
  {
    if s != [] && NoDup(s) {
      RemoveKeepsNoDup(s[1..], x);
      var rest := Remove(s[1..], x);
      assert s[0] !in s[1..];
      assert s[0] !in rest;
    }
  }

  lemma RemoveAllKeepsNoDup(s: seq<string>, xs: seq<string>)
    ensures NoDup(s) ==> NoDup(RemoveAll(s, xs))
  {
    if s != [] && NoDup(s) {
      RemoveAllKeepsNoDup(s[1..], xs);
      assert s[0] !in s[1..];
    }
  }

  lemma AppendFreshKeepsNoDup(s: seq<string>, x: string)
    requires NoDup(s) && x !in s
    ensures NoDup(s + [x])
  {
  }

  /** `Remove` and `RemoveAll` applied in either order give the same sequence. */
  lemma RemoveAllAfterRemove(s: seq<string>, x: string, xs: seq<string>)
    ensures RemoveAll(Remove(s, x), xs) == Remove(RemoveAll(s, xs), x)
  {
    if s != [] {
      RemoveAllAfterRemove(s[1..], x, xs);
      assert Remove(s, x) == (if s[0] == x then [] else [s[0]]) + Remove(s[1..], x);
      RemoveAllConcat(if s[0] == x then [] else [s[0]], Remove(s[1..], x), xs);
      RemoveConcat(if s[0] in xs then [] else [s[0]], RemoveAll(s[1..], xs), x);
    }
  }

  lemma RemoveConcat(a: seq<string>, b: seq<string>, x: string)
    ensures Remove(a + b, x) == Remove(a, x) + Remove(b, x)
  {
    if a != [] {
      assert (a + b)[1..] == a[1..] + b;
      RemoveConcat(a[1..], b, x);
    } else {
      assert a + b == b;
    }
  }

  lemma RemoveAllConcat(a: seq<string>, b: seq<string>, xs: seq<string>)
    ensures RemoveAll(a + b, xs) == RemoveAll(a, xs) + RemoveAll(b, xs)
  {
    if a != [] {
      assert (a + b)[1..] == a[1..] + b;
      RemoveAllConcat(a[1..], b, xs);
    } else {
      assert a + b == b;
    }
  }

  /** Dropping `x` before dropping a list that contains `x` changes nothing. */
  lemma {:induction false} RemoveAllIgnoresOutsiders(s: seq<string>, xs: seq<string>, x: string)
    requires x in xs
    ensures RemoveAll(Remove(s, x), xs) == RemoveAll(s, xs)
  {
    if s != [] {
      RemoveAllIgnoresOutsiders(s[1..], xs, x);
      if s[0] == x {
        assert Remove(s, x) == Remove(s[1..], x);
      } else {
        assert Remove(s, x) == [s[0]] + Remove(s[1..], x);
        RemoveAllConcat([s[0]], Remove(s[1..], x), xs);
      }
    }
  }

  /** Dropping a sub-list first and the whole list after is dropping the list. */
  lemma {:induction false} RemoveAllTwice(s: seq<string>, a: seq<string>, b: seq<string>)
    requires forall y :: y in a ==> y in b
    ensures RemoveAll(RemoveAll(s, a), b) == RemoveAll(s, b)
  {
    if s != [] {
      RemoveAllTwice(s[1..], a, b);
      RemoveAllConcat(if s[0] in a then [] else [s[0]], RemoveAll(s[1..], a), b);
    }
  }

  // ----- strings -----

  /** `\s` of a JavaScript regular expression, which is also the set of code
      points `String.prototype.trim` removes: WhiteSpace and LineTerminator of
      ECMAScript. */
  predicate IsJsSpace(c: char)
  {
    c == ' ' || c == '\t' || c == '\n' || c == '\r' || c == '\U{000B}' || c == '\U{000C}'
    || c == '\U{00A0}' || c == '\U{1680}' || ('\U{2000}' <= c <= '\U{200A}')
    || c == '\U{2028}' || c == '\U{2029}' || c == '\U{202F}' || c == '\U{205F}'
    || c == '\U{3000}' || c == '\U{FEFF}'
  }

  /** The length of the run of whitespace starting at index `i`. */
  function SpaceRun(s: string, i: nat): (n: nat)
    requires i <= |s|
    ensures i + n <= |s|
    ensures forall j :: i <= j < i + n ==> IsJsSpace(s[j])
    ensures i + n < |s| ==> !IsJsSpace(s[i + n])
    decreases |s| - i
  {
    if i < |s| && IsJsSpace(s[i]) then 1 + SpaceRun(s, i + 1) else 0
  }

  /** The length of the run of whitespace ending just before index `j`. */
  function SpaceRunBefore(s: string, j: nat): (n: nat)
    requires j <= |s|
    ensures n <= j
    ensures forall k :: j - n <= k < j ==> IsJsSpace(s[k])
    ensures n < j ==> !IsJsSpace(s[j - n - 1])
  {
    if j > 0 && IsJsSpace(s[j - 1]) then 1 + SpaceRunBefore(s, j - 1) else 0
  }

  /** `s.trimStart()`. */
  function TrimStart(s: string): (r: string)
    ensures |r| <= |s| && r == s[|s| - |r|..]
    ensures forall i :: 0 <= i < |s| - |r| ==> IsJsSpace(s[i])
    ensures r != [] ==> !IsJsSpace(r[0])
  {
    s[SpaceRun(s, 0)..]
  }

  /** `s.trimEnd()`. */
  function TrimEnd(s: string): (r: string)
    ensures |r| <= |s| && r == s[..|r|]
    ensures forall i :: |r| <= i < |s| ==> IsJsSpace(s[i])
    ensures r != [] ==> !IsJsSpace(r[|r| - 1])
  {
    s[..|s| - SpaceRunBefore(s, |s|)]
  }

  /** `s.trim()`. */
  function Trim(s: string): string
  {
    TrimEnd(TrimStart(s))
  }

  /** The string has a character that is not whitespace. */
  predicate NotBlank(s: string)
  {
    exists i :: 0 <= i < |s| && !IsJsSpace(s[i])
  }

  /** `s.trim() !== ''` holds exactly for the strings that are not blank. */
  lemma NotBlankIffTrimNonEmpty(s: string)
    ensures NotBlank(s) <==> Trim(s) != ""
  {
    var t := TrimStart(s);
    if NotBlank(s) {
      var k :| 0 <= k < |s| && !IsJsSpace(s[k]);
      assert k >= |s| - |t|;
      assert t[k - (|s| - |t|)] == s[k];
    }
  }

  /** The trimmed string has no whitespace at either end. */
  lemma TrimEnds(s: string)
    ensures Trim(s) != [] ==> !IsJsSpace(Trim(s)[0]) && !IsJsSpace(Trim(s)[|Trim(s)| - 1])
  {
    var t := TrimStart(s);
    var r := TrimEnd(t);
    if r != [] {
      assert r[0] == t[0];
    }
  }

  /** `TrimEnd` keeps exactly the prefix up to the last non-space character. */
  lemma TrimEndExact(s: string, n: nat)
    requires n <= |s|
    requires forall i :: n <= i < |s| ==> IsJsSpace(s[i])
    requires n == 0 || !IsJsSpace(s[n - 1])
    ensures TrimEnd(s) == s[..n]
  {
  }

  /** Trimming a string that has no whitespace at either end changes nothing. */
  lemma TrimOfTrimmed(s: string)
    requires s == [] || (!IsJsSpace(s[0]) && !IsJsSpace(s[|s| - 1]))
    ensures Trim(s) == s
  {
  }

  lemma ConcatAssoc(a: string, b: string, c: string)
    ensures (a + b) + c == a + (b + c)
  {
  }

  /** `parts.join(sep)`. */
  function Join(parts: seq<string>, sep: string): string
  {
    if |parts| == 0 then ""
    else if |parts| == 1 then parts[0]
    else parts[0] + sep + Join(parts[1..], sep)
  }

  predicate IsPrefix(p: string, s: string)
  {
    |p| <= |s| && s[..|p|] == p
  }

  predicate OccursAt(s: string, needle: string, i: int)
  {
    0 <= i && i + |needle| <= |s| && s[i..i + |needle|] == needle
  }

  /** `s.includes(needle)` for strings. */
  function Contains(s: string, needle: string): (b: bool)
    ensures b <==> exists i :: OccursAt(s, needle, i)
  {
    if IsPrefix(needle, s) then
      assert OccursAt(s, needle, 0);
      true
    else if s == [] then false
    else
      var b := Contains(s[1..], needle);
      assert b ==> exists i :: OccursAt(s, needle, i) by {
        if b {
          var i :| OccursAt(s[1..], needle, i);
          assert s[1..][i..i + |needle|] == s[i + 1..i + 1 + |needle|];
          assert OccursAt(s, needle, i + 1);
        }
      }
      assert (exists i :: OccursAt(s, needle, i)) ==> b by {
        if exists i :: OccursAt(s, needle, i) {
          var i :| OccursAt(s, needle, i);
          assert i != 0;
          assert s[1..][i - 1..i - 1 + |needle|] == s[i..i + |needle|];
          assert OccursAt(s[1..], needle, i - 1);
        }
      }
      b
  }

  function DigitChar(d: nat): (c: char)
    requires d < 10
    ensures '0' <= c <= '9'
  {
    ['0', '1', '2', '3', '4', '5', '6', '7', '8', '9'][d]
  }

  /** The decimal text of a natural number, as JavaScript prints an array index. */
  function NatToString(n: nat): (r: string)
    ensures |r| >= 1
    ensures forall i :: 0 <= i < |r| ==> '0' <= r[i] <= '9'
    ensures n >= 10 ==> |r| >= 2
  {
    if n < 10 then [DigitChar(n)] else NatToString(n / 10) + [DigitChar(n % 10)]
  }

  lemma DigitCharInjective(a: nat, b: nat)
    requires a < 10 && b < 10 && DigitChar(a) == DigitChar(b)
    ensures a == b
  {
  }

  /** Different numbers print differently. */
  lemma {:induction false} NatToStringInjective(m: nat, n: nat)
    requires NatToString(m) == NatToString(n)
    ensures m == n
  {
    var sm, sn := NatToString(m), NatToString(n);
    if m < 10 {
      assert |sn| == 1;
      DigitCharInjective(m, n);
    } else {
      assert |sn| >= 2;
      assert sm[..|sm| - 1] == NatToString(m / 10);
      assert sn[..|sn| - 1] == NatToString(n / 10);
      NatToStringInjective(m / 10, n / 10);
      DigitCharInjective(m % 10, n % 10);
    }
  }
}
