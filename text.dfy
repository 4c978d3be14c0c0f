/** Python's built-in string operations used by the components: `str.split()`
    with no separator, `str.strip()`, `sep.join(parts)` and `str.lower()`. */
module Text {

  /** Python's whitespace test (`str.isspace` on one character): the ASCII
      separators, the information separators 0x1C-0x1F and the Unicode spaces. */
  predicate IsSpace(c: char) {
    var n := c as int;
    (9 <= n <= 13) || (28 <= n <= 32) || n == 0x85 || n == 0xA0 || n == 0x1680
    || (0x2000 <= n <= 0x200A) || n == 0x2028 || n == 0x2029 || n == 0x202F
    || n == 0x205F || n == 0x3000
  }

  /** A token `str.split()` can produce: non-empty, without whitespace. */
  predicate IsToken(t: string) {
    t != [] && forall i :: 0 <= i < |t| ==> !IsSpace(t[i])
  }

  predicate AllSpace(s: string) {
    forall i :: 0 <= i < |s| ==> IsSpace(s[i])
  }

  /** Number of whitespace characters `s` starts with. */
  function LeadingSpaces(s: string): (n: nat)
    ensures n <= |s|
  {
    if s == [] || !IsSpace(s[0]) then 0 else 1 + LeadingSpaces(s[1..])
  }

  lemma {:induction false} LeadingSpacesSpec(s: string)
    ensures forall i :: 0 <= i < LeadingSpaces(s) ==> IsSpace(s[i])
    ensures LeadingSpaces(s) < |s| ==> !IsSpace(s[LeadingSpaces(s)])
  {
    if s != [] && IsSpace(s[0]) { LeadingSpacesSpec(s[1..]); }
  }

  /** Number of whitespace characters `s` ends with. */
  function TrailingSpaces(s: string): (n: nat)
    ensures n <= |s|
  {
    if s == [] || !IsSpace(s[|s| - 1]) then 0 else 1 + TrailingSpaces(s[..|s| - 1])
  }

  lemma {:induction false} TrailingSpacesSpec(s: string)
    ensures forall i :: |s| - TrailingSpaces(s) <= i < |s| ==> IsSpace(s[i])
    ensures TrailingSpaces(s) < |s| ==> !IsSpace(s[|s| - 1 - TrailingSpaces(s)])
  {
    if s != [] && IsSpace(s[|s| - 1]) { TrailingSpacesSpec(s[..|s| - 1]); }
  }

  /** `s.split()`: the maximal runs of non-whitespace characters, in order.
      A non-whitespace character starts a new token unless the character
      after it is non-whitespace too, in which case it is prepended to the
      token that follows. */
  function Split(s: string): (ts: seq<string>)
    ensures s != [] && !IsSpace(s[0]) ==> ts != [] && ts[0] != [] && ts[0][0] == s[0]
  {
    if s == [] then []
    else
      var rest := Split(s[1..]);
      if IsSpace(s[0]) then rest
      else if |s| > 1 && !IsSpace(s[1]) then [[s[0]] + rest[0]] + rest[1..]
      else [[s[0]]] + rest
  }

  /** `s.strip()`: `s` without its leading and trailing whitespace. */
  function Strip(s: string): (r: string)
    ensures r == [] <==> AllSpace(s)
    ensures r != [] ==> !IsSpace(r[0]) && !IsSpace(r[|r| - 1])
    ensures exists i, j :: 0 <= i <= j <= |s| && r == s[i..j] && AllSpace(s[..i]) && AllSpace(s[j..])
  {
    var l := LeadingSpaces(s);
    var t := s[l..];
    var r := t[..|t| - TrailingSpaces(t)];
    LeadingSpacesSpec(s);
    TrailingSpacesSpec(t);
    assert r == s[l..l + |r|];
    assert forall i :: l <= i < |s| ==> s[i] == t[i - l];
    assert r != [] ==> r[0] == s[l] && r[|r| - 1] == t[|t| - 1 - TrailingSpaces(t)];
    assert AllSpace(s[..l]);
    assert s[l + |r|..] == t[|r|..];
    assert AllSpace(s[l + |r|..]);
    r
  }

  /** `sep.join(parts)`: the parts with one separator between neighbours. */
  function JoinWith(sep: string, parts: seq<string>): string {
    if parts == [] then ""
    else if |parts| == 1 then parts[0]
    else parts[0] + sep + JoinWith(sep, parts[1..])
  }

  /** The joined text is the parts and one separator between each pair of
      neighbours: its length counts them, and it starts with the first part
      followed, when there are more, by the separator. */
  lemma {:induction false} JoinWithLength(sep: string, parts: seq<string>)
    requires parts != []
    ensures |JoinWith(sep, parts)| == |Concat(parts)| + |sep| * (|parts| - 1)
    ensures JoinWith(sep, parts)[..|parts[0]|] == parts[0]
    ensures |parts| > 1 ==> JoinWith(sep, parts)[|parts[0]|..|parts[0]| + |sep|] == sep
  {
    if |parts| > 1 {
      JoinWithLength(sep, parts[1..]);
      assert Concat(parts) == parts[0] + Concat(parts[1..]);
      assert |sep| * (|parts| - 1) == |sep| + |sep| * (|parts| - 2);
    } else {
      assert Concat(parts) == parts[0] + Concat([]);
    }
  }

  /** The non-whitespace characters of `s`, in order. */
  function NonSpace(s: string): string {
    if s == [] then ""
    else if IsSpace(s[0]) then NonSpace(s[1..])
    else [s[0]] + NonSpace(s[1..])
  }

  function Concat(ts: seq<string>): string {
    if ts == [] then "" else ts[0] + Concat(ts[1..])
  }

  lemma {:induction false} ConcatAppend(a: seq<string>, b: seq<string>)
    ensures Concat(a + b) == Concat(a) + Concat(b)
  {
    if a == [] {
      assert a + b == b;
    } else {
      ConcatAppend(a[1..], b);
      assert (a + b)[1..] == a[1..] + b;
      assert (a + b)[0] == a[0];
    }
  }

  /** Every token `split` returns is non-empty and free of whitespace. */
  lemma {:induction false} SplitTokens(s: string)
    ensures forall i :: 0 <= i < |Split(s)| ==> IsToken(Split(s)[i])
  {
    if s != [] {
      SplitTokens(s[1..]);
      var rest := Split(s[1..]);
      if !IsSpace(s[0]) && |s| > 1 && !IsSpace(s[1]) {
        var t := [s[0]] + rest[0];
        assert IsToken(rest[0]);
        assert forall k :: 1 <= k < |t| ==> t[k] == rest[0][k - 1];
      }
    }
  }

  /** Splitting at one whitespace character splits the two sides apart:
      `(a + c + b).split() == a.split() + b.split()`. */
  lemma {:induction false} SplitAtSpace(a: string, c: char, b: string)
    requires IsSpace(c)
    ensures Split(a + [c] + b) == Split(a) + Split(b)
  {
    var s := a + [c] + b;
    if a == [] {
      assert s[1..] == b;
    } else {
      assert s[1..] == a[1..] + [c] + b;
      SplitAtSpace(a[1..], c, b);
      if |a| > 1 {
        assert s[1] == a[1];
      } else {
        assert a[1..] == [];
        assert s[1] == c;
      }
    }
  }

  /** No characters are lost or added: the tokens concatenate to the
      non-whitespace characters of the input. */
  lemma {:induction false} SplitKeepsCharacters(s: string)
    ensures Concat(Split(s)) == NonSpace(s)
  {
    if s != [] {
      var rest := Split(s[1..]);
      SplitKeepsCharacters(s[1..]);
      if !IsSpace(s[0]) && |s| > 1 && !IsSpace(s[1]) {
        assert rest == [rest[0]] + rest[1..];
        assert Concat(rest) == rest[0] + Concat(rest[1..]);
        var ts := [[s[0]] + rest[0]] + rest[1..];
        assert ts[1..] == rest[1..];
        assert Concat(ts) == [s[0]] + rest[0] + Concat(rest[1..]);
      } else if !IsSpace(s[0]) {
        assert ([[s[0]]] + rest)[1..] == rest;
      }
    }
  }

  /** A single token splits to itself. */
  lemma {:induction false} SplitToken(t: string)
    requires IsToken(t)
    ensures Split(t) == [t]
  {
    if |t| > 1 {
      assert IsToken(t[1..]) by {
        assert forall i :: 0 <= i < |t| - 1 ==> t[1..][i] == t[i + 1];
      }
      SplitToken(t[1..]);
      assert !IsSpace(t[1]);
      assert [t[0]] + t[1..] == t;
      assert Split(t[1..])[1..] == [];
    } else {
      assert t[1..] == [] && [t[0]] == t;
    }
  }

  /** Round trip: joining tokens with one space and splitting again gives
      back the same tokens. */
  lemma {:induction false} SplitJoin(ts: seq<string>)
    requires forall i :: 0 <= i < |ts| ==> IsToken(ts[i])
    ensures Split(JoinWith(" ", ts)) == ts
  {
    if ts == [] {
    } else if |ts| == 1 {
      SplitToken(ts[0]);
    } else {
      SplitToken(ts[0]);
      SplitJoin(ts[1..]);
      SplitAtSpace(ts[0], ' ', JoinWith(" ", ts[1..]));
      assert ts[0] + " " + JoinWith(" ", ts[1..]) == ts[0] + [' '] + JoinWith(" ", ts[1..]);
      assert ts == [ts[0]] + ts[1..];
    }
  }

  /** `s` consists of whitespace only exactly when it has no tokens. */
  lemma {:induction false} SplitEmpty(s: string)
    ensures Split(s) == [] <==> AllSpace(s)
  {
    if s != [] {
      SplitEmpty(s[1..]);
      assert AllSpace(s) <==> IsSpace(s[0]) && AllSpace(s[1..]) by {
        assert forall i :: 1 <= i < |s| ==> s[i] == s[1..][i - 1];
      }
    }
  }

  function LowerChar(c: char): char {
    if 'A' <= c <= 'Z' then (c as int + 32) as char else c
  }

  /** `s.lower()` on the ASCII letters. */
  function Lower(s: string): (r: string)
    ensures |r| == |s|
  {
    seq(|s|, i requires 0 <= i < |s| => LowerChar(s[i]))
  }

  /** No upper-case ASCII letter survives; each one becomes its lower-case
      letter and every other character is kept. */
  lemma LowerSpec(s: string)
    ensures forall i :: 0 <= i < |s| ==> !('A' <= Lower(s)[i] <= 'Z')
    ensures forall i :: 0 <= i < |s| && !('A' <= s[i] <= 'Z') ==> Lower(s)[i] == s[i]
    ensures forall i :: 0 <= i < |s| && 'A' <= s[i] <= 'Z' ==> Lower(s)[i] as int == s[i] as int + 32
  {
  }

  /** Comparing `s.lower()` with a lower-case word accepts exactly the
      spellings of that word in any mix of upper and lower case. */
  lemma LowerMatches(s: string, w: string)
    requires forall i :: 0 <= i < |w| ==> 'a' <= w[i] <= 'z'
    ensures Lower(s) == w <==>
      |s| == |w| && forall i :: 0 <= i < |s| ==> s[i] == w[i] || s[i] as int == w[i] as int - 32
  {
    if |s| == |w| && forall i :: 0 <= i < |s| ==> s[i] == w[i] || s[i] as int == w[i] as int - 32 {
      assert forall i :: 0 <= i < |s| ==> Lower(s)[i] == w[i];
    }
    if Lower(s) == w {
      forall i | 0 <= i < |s|
        ensures s[i] == w[i] || s[i] as int == w[i] as int - 32
      {
        assert LowerChar(s[i]) == w[i];
      }
    }
  }
}
