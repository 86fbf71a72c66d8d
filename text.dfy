/** The Python string operations the application relies on: `str.strip()`,
    `str.lower()`, `str.split(sep)`, `sep.join(parts)` and `str.replace(a, b)`,
    each stated by what it does to the characters of its argument. */
module Text {

  /** Python's `str.isspace()` on one character: exactly the characters that
      `str.strip()` with no argument removes. */
  predicate IsSpace(c: char) {
    ('\t' <= c <= '\r') || ('\U{1C}' <= c <= ' ') ||
    c == '\U{85}' || c == '\U{A0}' || c == '\U{1680}' ||
    ('\U{2000}' <= c <= '\U{200A}') ||
    c == '\U{2028}' || c == '\U{2029}' || c == '\U{202F}' || c == '\U{205F}' || c == '\U{3000}'
  }

  predicate AllSpace(s: string) {
    forall k :: 0 <= k < |s| ==> IsSpace(s[k])
  }

  /** Neither end of `s` is whitespace (vacuously so for the empty string). */
  predicate Trimmed(s: string) {
    s == [] || (!IsSpace(s[0]) && !IsSpace(s[|s| - 1]))
  }

  /** Index of the first character of `s` that is not whitespace, `|s|` if none. */
  function FirstNonSpace(s: string): (i: nat)
    ensures i <= |s|
    ensures forall k :: 0 <= k < i ==> IsSpace(s[k])
    ensures i < |s| ==> !IsSpace(s[i])
  {
    if s == [] || !IsSpace(s[0]) then 0 else 1 + FirstNonSpace(s[1..])
  }

  /** One past the last character of `s[lo..hi]` that is not whitespace, `lo` if none. */
  function EndNonSpace(s: string, lo: nat, hi: nat): (j: nat)
    requires lo <= hi <= |s|
    ensures lo <= j <= hi
    ensures forall k :: j <= k < hi ==> IsSpace(s[k])
    ensures j > lo ==> !IsSpace(s[j - 1])
    decreases hi
  {
    if hi == lo || !IsSpace(s[hi - 1]) then hi else EndNonSpace(s, lo, hi - 1)
  }

  /** Python's `s.strip()`: the slice of `s` between its leading and its
      trailing whitespace. */
  function Strip(s: string): (r: string)
    ensures |r| <= |s|
    ensures Trimmed(r)
    ensures forall c :: c in r ==> c in s
    ensures r == [] <==> AllSpace(s)
  {
    var i := FirstNonSpace(s);
    var j := EndNonSpace(s, i, |s|);
    assert j == i ==> i == |s|;
    s[i..j]
  }

  /** Strip is determined by its two properties: whatever is cut from either end
      is whitespace, and what is left is trimmed. */
  lemma StripUnique(a: string, m: string, b: string)
    requires AllSpace(a) && AllSpace(b) && Trimmed(m)
    ensures Strip(a + m + b) == m
  {
    var s := a + m + b;
    if m == [] {
      assert AllSpace(s) by {
        forall k | 0 <= k < |s| ensures IsSpace(s[k]) {
          if k < |a| { assert s[k] == a[k]; } else { assert s[k] == b[k - |a|]; }
        }
      }
    } else {
      var i := FirstNonSpace(s);
      assert s[|a|] == m[0];
      assert i == |a|;
      var j := EndNonSpace(s, i, |s|);
      assert s[|a| + |m| - 1] == m[|m| - 1];
      assert j == |a| + |m|;
      assert s[i..j] == m;
    }
  }

  /** `not s.strip()`: exactly the strings made of whitespace alone, the
      empty one included. */
  predicate Blank(s: string)
    ensures Blank(s) <==> AllSpace(s)
  {
    Strip(s) == []
  }

  /** A string with no whitespace at either end strips to itself. */
  lemma StripOfTrimmed(s: string)
    requires Trimmed(s)
    ensures Strip(s) == s
  {
    StripUnique([], s, []);
    assert [] + s + [] == s;
  }

  lemma StripIdempotent(s: string)
    ensures Strip(Strip(s)) == Strip(s)
  {
    StripOfTrimmed(Strip(s));
  }

  lemma AllSpaceConcat(x: string, y: string)
    requires AllSpace(x) && AllSpace(y)
    ensures AllSpace(x + y)
  {
    forall k | 0 <= k < |x + y| ensures IsSpace((x + y)[k]) {
      if k < |x| { assert (x + y)[k] == x[k]; } else { assert (x + y)[k] == y[k - |x|]; }
    }
  }

  /** What `strip()` cuts off on either side is whitespace. */
  lemma StripCutsSpace(s: string) returns (a: string, b: string)
    ensures AllSpace(a) && AllSpace(b)
    ensures s == a + Strip(s) + b
  {
    var i := FirstNonSpace(s);
    var j := EndNonSpace(s, i, |s|);
    a, b := s[..i], s[j..];
    assert Strip(s) == s[i..j];
    assert AllSpace(b) by {
      forall k | 0 <= k < |b| ensures IsSpace(b[k]) { assert b[k] == s[j + k]; }
    }
    assert s == a + s[i..j] + b;
  }

  lemma Regroup(p: string, a: string, m: string, b: string, q: string)
    ensures p + (a + m + b) + q == (p + a) + m + (b + q)
  {
  }

  /** Surrounding whitespace never changes what `strip()` returns. */
  lemma StripIgnoresPadding(p: string, s: string, q: string)
    requires AllSpace(p) && AllSpace(q)
    ensures Strip(p + s + q) == Strip(s)
  {
    var a, b := StripCutsSpace(s);
    var m := Strip(s);
    AllSpaceConcat(p, a);
    AllSpaceConcat(b, q);
    Regroup(p, a, m, b, q);
    StripUnique(p + a, m, b + q);
  }

  /** Lower-casing of one character: the ASCII capitals map to their small
      letters, every other character to itself. */
  function LowerChar(c: char): char {
    if 'A' <= c <= 'Z' then (c as int - 'A' as int + 'a' as int) as char else c
  }

  /** `s.lower()`, character by character. */
  function Lower(s: string): (r: string)
    ensures |r| == |s|
    ensures forall k :: 0 <= k < |s| ==> r[k] == LowerChar(s[k])
  {
    if s == [] then [] else [LowerChar(s[0])] + Lower(s[1..])
  }

  /** `s.replace(a, b)` for one-character `a` and `b`. */
  function ReplaceChar(s: string, a: char, b: char): (r: string)
    ensures |r| == |s|
    ensures forall k :: 0 <= k < |s| ==> r[k] == (if s[k] == a then b else s[k])
  {
    if s == [] then [] else [if s[0] == a then b else s[0]] + ReplaceChar(s[1..], a, b)
  }

  function Occurrences(s: string, c: char): nat {
    if s == [] then 0 else (if s[0] == c then 1 else 0) + Occurrences(s[1..], c)
  }

  lemma {:induction false} OccurrencesConcat(s: string, t: string, c: char)
    ensures Occurrences(s + t, c) == Occurrences(s, c) + Occurrences(t, c)
  {
    if s != [] {
      var u := s + t;
      assert u[0] == s[0];
      assert u[1..] == s[1..] + t;
      OccurrencesConcat(s[1..], t, c);
    } else {
      assert s + t == t;
    }
  }

  /** A character occurs no times exactly when it is absent. */
  lemma {:induction false} OccurrencesZero(s: string, c: char)
    ensures Occurrences(s, c) == 0 <==> c !in s
  {
    if s != [] {
      OccurrencesZero(s[1..], c);
      assert s == [s[0]] + s[1..];
    }
  }

  lemma OccurrencesOfSlice(s: string, i: nat, j: nat, c: char)
    requires i <= j <= |s|
    ensures Occurrences(s[i..j], c) <= Occurrences(s, c)
  {
    assert s == s[..i] + s[i..j] + s[j..];
    OccurrencesConcat(s[..i] + s[i..j], s[j..], c);
    OccurrencesConcat(s[..i], s[i..j], c);
  }

  /** Python's `s.split(sep)` for a one-character separator: the pieces between
      separators, one more piece than there are separators, none containing one. */
  function Split(s: string, sep: char): (parts: seq<string>)
    ensures |parts| == Occurrences(s, sep) + 1
    ensures forall k :: 0 <= k < |parts| ==> sep !in parts[k]
  {
    if s == [] then [[]]
    else
      var rest := Split(s[1..], sep);
      if s[0] == sep then [[]] + rest
      else [[s[0]] + rest[0]] + rest[1..]
  }

  /** Python's `sep.join(parts)`: when no part contains the separator's first
      character `c`, the result holds `c` only where the separator is
      written, once between each two parts. */
  function Join(parts: seq<string>, sep: string): (r: string)
    ensures |sep| >= 1 && |parts| >= 1 && (forall k :: 0 <= k < |parts| ==> sep[0] !in parts[k]) ==>
              Occurrences(r, sep[0]) == (|parts| - 1) * Occurrences(sep, sep[0])
  {
    if |parts| == 0 then []
    else if |parts| == 1 then
      (if |sep| >= 1 then OccurrencesZero(parts[0], sep[0]); parts[0] else parts[0])
    else
      var rest := Join(parts[1..], sep);
      if |sep| >= 1 then
        var c := sep[0];
        OccurrencesZero(parts[0], c);
        OccurrencesConcat(parts[0], sep, c);
        OccurrencesConcat(parts[0] + sep, rest, c);
        assert forall k :: 0 <= k < |parts| - 1 ==> parts[1..][k] == parts[k + 1];
        assert (|parts| - 2) * Occurrences(sep, c) + Occurrences(sep, c) == (|parts| - 1) * Occurrences(sep, c);
        parts[0] + sep + rest
      else parts[0] + sep + rest
  }

  /** Joining the pieces of a split with the separator gives the string back. */
  lemma {:induction false} JoinSplit(s: string, sep: char)
    ensures Join(Split(s, sep), [sep]) == s
  {
    if s != [] {
      var rest := Split(s[1..], sep);
      JoinSplit(s[1..], sep);
      if s[0] == sep {
        JoinCons([], rest, [sep]);
      } else {
        JoinHead([s[0]], rest, [sep]);
      }
      assert s == [s[0]] + s[1..];
    }
  }

  lemma JoinCons(p: string, rest: seq<string>, sep: string)
    requires |rest| >= 1
    ensures Join([p] + rest, sep) == p + sep + Join(rest, sep)
  {
    assert ([p] + rest)[1..] == rest;
  }

  lemma JoinHead(c: string, rest: seq<string>, sep: string)
    requires |rest| >= 1
    ensures Join([c + rest[0]] + rest[1..], sep) == c + Join(rest, sep)
  {
    if |rest| > 1 {
      JoinCons(c + rest[0], rest[1..], sep);
      JoinCons(rest[0], rest[1..], sep);
      assert [rest[0]] + rest[1..] == rest;
    } else {
      assert [c + rest[0]] + rest[1..] == [c + rest[0]];
    }
  }

  /** A prefix free of the separator sticks to the first piece. */
  lemma {:induction false} SplitPrefix(p: string, t: string, sep: char)
    requires sep !in p
    ensures Split(p + t, sep) == [p + Split(t, sep)[0]] + Split(t, sep)[1..]
  {
    if p != [] {
      var u := p + t;
      assert u != [] && u[0] == p[0] && p[0] != sep;
      assert u[1..] == p[1..] + t;
      SplitPrefix(p[1..], t, sep);
      var rest := Split(u[1..], sep);
      assert Split(u, sep) == [[p[0]] + rest[0]] + rest[1..];
      assert rest[0] == p[1..] + Split(t, sep)[0];
      assert rest[1..] == Split(t, sep)[1..];
      assert [p[0]] + (p[1..] + Split(t, sep)[0]) == p + Split(t, sep)[0];
    } else {
      var parts := Split(t, sep);
      assert p + t == t;
      assert p + parts[0] == parts[0];
      assert [parts[0]] + parts[1..] == parts;
    }
  }

  lemma SplitSeparatorFirst(t: string, sep: char)
    ensures Split([sep] + t, sep) == [[]] + Split(t, sep)
  {
    assert ([sep] + t)[1..] == t;
  }

  /** Splitting a join whose separator starts with `sep` (followed by `pad`)
      gives back the parts, every one after the first carrying `pad` in front. */
  lemma {:induction false} SplitJoinPadded(parts: seq<string>, sep: char, pad: string)
    requires |parts| >= 1
    requires sep !in pad
    requires forall k :: 0 <= k < |parts| ==> sep !in parts[k]
    ensures |Split(Join(parts, [sep] + pad), sep)| == |parts|
    ensures Split(Join(parts, [sep] + pad), sep)[0] == parts[0]
    ensures forall k :: 1 <= k < |parts| ==> Split(Join(parts, [sep] + pad), sep)[k] == pad + parts[k]
  {
    var glue := [sep] + pad;
    if |parts| == 1 {
      SplitPrefix(parts[0], [], sep);
      assert parts[0] + [] == parts[0];
    } else {
      var tail := Join(parts[1..], glue);
      SplitJoinPadded(parts[1..], sep, pad);
      var rest := Split(tail, sep);
      assert Join(parts, glue) == parts[0] + ([sep] + (pad + tail));
      SplitPrefix(parts[0], [sep] + (pad + tail), sep);
      assert ([sep] + (pad + tail))[1..] == pad + tail;
      SplitPrefix(pad, tail, sep);
      var whole := Split(Join(parts, glue), sep);
      assert whole == [parts[0] + []] + Split(pad + tail, sep);
      assert parts[0] + [] == parts[0];
      forall k | 1 <= k < |parts| ensures whole[k] == pad + parts[k] {
        if k == 1 {
          assert whole[1] == pad + rest[0];
        } else {
          assert whole[k] == rest[k - 1];
          assert parts[1..][k - 1] == parts[k];
        }
      }
    }
  }
}
