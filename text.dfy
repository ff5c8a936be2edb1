/**
  Strings as the database and Python see them: code-point lexicographic order (the
  collation `order_by` on a text column is modelled with) and `str.lower()` restricted
  to ASCII letters.
 */
module Text {

  /** Strict lexicographic order by code point; a proper prefix comes first. */
  predicate Less(a: string, b: string)
  {
    if b == [] then false
    else if a == [] then true
    else if a[0] != b[0] then a[0] < b[0]
    else Less(a[1..], b[1..])
  }

  predicate LessEq(a: string, b: string)
  {
    a == b || Less(a, b)
  }

  lemma {:induction false} LessIrreflexive(a: string)
    ensures !Less(a, a)
  {
    if a != [] {
      LessIrreflexive(a[1..]);
    }
  }

  /** Any two distinct strings are ordered one way. */
  lemma {:induction false} LessTrichotomy(a: string, b: string)
    ensures a == b || Less(a, b) || Less(b, a)
    ensures !(Less(a, b) && Less(b, a))
  {
    if a != [] && b != [] && a[0] == b[0] {
      LessTrichotomy(a[1..], b[1..]);
      assert a == [a[0]] + a[1..] && b == [b[0]] + b[1..];
    }
  }

  lemma {:induction false} LessTransitive(a: string, b: string, c: string)
    requires Less(a, b) && Less(b, c)
    ensures Less(a, c)
  {
    if a != [] && a[0] == b[0] && b[0] == c[0] {
      LessTransitive(a[1..], b[1..], c[1..]);
    }
  }

  lemma LessEqTransitive(a: string, b: string, c: string)
    requires LessEq(a, b) && LessEq(b, c)
    ensures LessEq(a, c)
  {
    if a != b && b != c {
      LessTransitive(a, b, c);
    }
  }

  /**
    `order_by(f1, f2, ...)` over text columns, all ascending: compare by the first key,
    and by the following keys only on a tie.
   */
  predicate KeysLessEq(a: seq<string>, b: seq<string>)
    requires |a| == |b|
  {
    a == [] || Less(a[0], b[0]) || (a[0] == b[0] && KeysLessEq(a[1..], b[1..]))
  }

  lemma {:induction false} KeysTotal(a: seq<string>, b: seq<string>)
    requires |a| == |b|
    ensures KeysLessEq(a, b) || KeysLessEq(b, a)
  {
    if a != [] {
      LessTrichotomy(a[0], b[0]);
      KeysTotal(a[1..], b[1..]);
    }
  }

  lemma {:induction false} KeysTransitive(a: seq<string>, b: seq<string>, c: seq<string>)
    requires |a| == |b| == |c| && KeysLessEq(a, b) && KeysLessEq(b, c)
    ensures KeysLessEq(a, c)
  {
    if a != [] {
      if Less(a[0], b[0]) && Less(b[0], c[0]) {
        LessTransitive(a[0], b[0], c[0]);
      } else if a[0] == b[0] && b[0] == c[0] {
        KeysTransitive(a[1..], b[1..], c[1..]);
      }
    }
  }

  /** `s.startswith(prefix)`. */
  predicate StartsWith(s: string, prefix: string)
  {
    |prefix| <= |s| && s[..|prefix|] == prefix
  }

  /** `s.endswith(suffix)`. */
  predicate EndsWith(s: string, suffix: string)
  {
    |suffix| <= |s| && s[|s| - |suffix|..] == suffix
  }

  /**
    A prefix, a suffix and a length that leaves nothing between them determine a string:
    the `__str__` contracts stated this way fix the whole text.
   */
  lemma PrefixSuffixDetermine(s: string, prefix: string, suffix: string)
    requires StartsWith(s, prefix) && EndsWith(s, suffix) && |s| == |prefix| + |suffix|
    ensures s == prefix + suffix
  {
    assert s == s[..|prefix|] + s[|prefix|..];
  }

  /** `c.lower()` for an ASCII upper-case letter; every other character is kept. */
  function LowerChar(c: char): (r: char)
    ensures 'A' <= c <= 'Z' ==> r as int == c as int + 32
    ensures !('A' <= c <= 'Z') ==> r == c
  {
    if 'A' <= c <= 'Z' then (c as int + 32) as char else c
  }

  /** `s.lower()`, character by character. */
  function Lower(s: string): (r: string)
    ensures |r| == |s|
    ensures forall i :: 0 <= i < |s| ==> r[i] == LowerChar(s[i])
  {
    seq(|s|, i requires 0 <= i < |s| => LowerChar(s[i]))
  }

  lemma LowerCharIs(c: char, lower: char, upper: char)
    requires 'a' <= lower <= 'z' && upper as int == lower as int - 32
    ensures LowerChar(c) == lower <==> c == lower || c == upper
  {
  }

  /**
    `v.lower() == "true"` holds exactly for the sixteen spellings of "true" in any mix of
    upper and lower case: "False", "1", "yes" and the empty string are all not "true".
   */
  lemma LowerIsTrue(v: string)
    ensures Lower(v) == "true" <==>
      && |v| == 4
      && (v[0] == 't' || v[0] == 'T') && (v[1] == 'r' || v[1] == 'R')
      && (v[2] == 'u' || v[2] == 'U') && (v[3] == 'e' || v[3] == 'E')
  {
    if |v| == 4 {
      LowerCharIs(v[0], 't', 'T');
      LowerCharIs(v[1], 'r', 'R');
      LowerCharIs(v[2], 'u', 'U');
      LowerCharIs(v[3], 'e', 'E');
      var l := Lower(v);
      assert l == "true" <==> l[0] == 't' && l[1] == 'r' && l[2] == 'u' && l[3] == 'e';
    }
  }
}
