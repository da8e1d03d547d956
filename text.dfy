/**
 * The string operations the data layer uses: `split(",")`, `contains(query, ignoreCase = true)`
 * and `isBlank()` of the Kotlin standard library, on strings as sequences of characters.
 */
module Text {

  /** The delimiter of the food asset. */
  const Comma: char := ','

  /** Number of occurrences of `d` in `s`. */
  function Count(s: string, d: char): nat
  {
    if s == [] then 0 else (if s[0] == d then 1 else 0) + Count(s[1..], d)
  }

  /**
   * `s.split(d)` for a one-character delimiter and no limit: every occurrence of `d` cuts,
   * and empty pieces (leading, trailing, between adjacent delimiters) are kept.
   */
  function Split(s: string, d: char): (pieces: seq<string>)
    ensures |pieces| == Count(s, d) + 1
    ensures forall i :: 0 <= i < |pieces| ==> d !in pieces[i]
  {
    if s == [] then [""]
    else
      var rest := Split(s[1..], d);
      if s[0] == d then [""] + rest
      else [[s[0]] + rest[0]] + rest[1..]
  }

  /** `pieces.joinToString(d)`: the pieces with one `d` between neighbours. */
  function Join(pieces: seq<string>, d: char): string
  {
    if |pieces| == 0 then ""
    else if |pieces| == 1 then pieces[0]
    else pieces[0] + [d] + Join(pieces[1..], d)
  }

  /** Joining the pieces of a split with the same delimiter gives back the original string. */
  lemma {:induction false} JoinSplit(s: string, d: char)
    ensures Join(Split(s, d), d) == s
  {
    if s != [] {
      var rest := Split(s[1..], d);
      JoinSplit(s[1..], d);
      if s[0] == d {
        assert ([""] + rest)[1..] == rest;
      } else if |rest| > 1 {
        var head := [s[0]] + rest[0];
        assert ([head] + rest[1..])[1..] == rest[1..];
        assert Join(rest, d) == rest[0] + [d] + Join(rest[1..], d);
      }
    }
  }

  /** Splitting `p + t` where `p` holds no delimiter glues `p` to the first piece of `t`. */
  lemma {:induction false} SplitPrefix(p: string, t: string, d: char)
    requires d !in p
    ensures Split(p + t, d) == [p + Split(t, d)[0]] + Split(t, d)[1..]
  {
    if p != [] {
      SplitPrefix(p[1..], t, d);
      assert (p + t)[1..] == p[1..] + t;
      assert [p[0]] + (p[1..] + Split(t, d)[0]) == p + Split(t, d)[0];
    } else {
      var pieces := Split(t, d);
      assert p + t == t && p + pieces[0] == pieces[0];
      assert pieces == [pieces[0]] + pieces[1..];
    }
  }

  /** Splitting a join of delimiter-free pieces gives back the pieces: Split and Join are inverse. */
  lemma {:induction false} SplitJoin(pieces: seq<string>, d: char)
    requires |pieces| >= 1
    requires forall i :: 0 <= i < |pieces| ==> d !in pieces[i]
    ensures Split(Join(pieces, d), d) == pieces
  {
    if |pieces| == 1 {
      SplitPrefix(pieces[0], "", d);
      assert pieces[0] + "" == pieces[0];
    } else {
      var t := Join(pieces[1..], d);
      SplitJoin(pieces[1..], d);
      SplitPrefix(pieces[0], [d] + t, d);
      assert pieces[0] + [d] + t == pieces[0] + ([d] + t);
      assert ([d] + t)[1..] == t;
      assert pieces[0] + "" == pieces[0];
      assert pieces == [pieces[0]] + pieces[1..];
    }
  }

  /** ASCII upper case of one character (the model's stand-in for Unicode case mapping). */
  function ToUpper(c: char): char
  {
    if 'a' <= c <= 'z' then (c as int - 32) as char else c
  }

  /** ASCII lower case of one character. */
  function ToLower(c: char): char
  {
    if 'A' <= c <= 'Z' then (c as int + 32) as char else c
  }

  /** The string with every character upper-cased. */
  function UpperCase(s: string): (r: string)
    ensures |r| == |s|
    ensures forall i :: 0 <= i < |s| ==> r[i] == ToUpper(s[i])
  {
    seq(|s|, i requires 0 <= i < |s| => ToUpper(s[i]))
  }

  /**
   * Character comparison of an ignore-case region match: equal, or equal once upper-cased,
   * or equal once upper-cased and then lower-cased.
   */
  predicate EqualsIgnoreCase(a: char, b: char)
  {
    a == b || ToUpper(a) == ToUpper(b) || ToLower(ToUpper(a)) == ToLower(ToUpper(b))
  }

  /** Under the ASCII case mapping, ignore-case equality is equality of lower-case forms. */
  lemma EqualsIgnoreCaseIsLowerEquality(a: char, b: char)
    ensures EqualsIgnoreCase(a, b) <==> ToLower(a) == ToLower(b)
  {
  }

  /** `query` occurs in `s` at offset `i`, ignoring case. */
  predicate RegionMatches(s: string, i: nat, query: string)
  {
    i + |query| <= |s| && forall k :: 0 <= k < |query| ==> EqualsIgnoreCase(s[i + k], query[k])
  }

  /**
   * `s.indexOf(query, from, ignoreCase = true)`: the first offset at or after `from` where
   * `query` matches, or -1 when there is none.
   */
  function IndexOfIgnoreCase(s: string, query: string, from: nat): (r: int)
    ensures r == -1 || (from <= r && RegionMatches(s, r, query))
    ensures r == -1 ==> forall j :: from <= j ==> !RegionMatches(s, j, query)
    ensures r != -1 ==> forall j :: from <= j < r ==> !RegionMatches(s, j, query)
    decreases |s| + 1 - from
  {
    if from + |query| > |s| then -1
    else if RegionMatches(s, from, query) then from
    else IndexOfIgnoreCase(s, query, from + 1)
  }

  /** `s.contains(query, ignoreCase = true)`: some offset of `s` matches `query` ignoring case. */
  function ContainsIgnoreCase(s: string, query: string): (r: bool)
    ensures r <==> exists i: nat :: RegionMatches(s, i, query)
  {
    IndexOfIgnoreCase(s, query, 0) >= 0
  }

  /** The empty query is contained in every string. */
  lemma EmptyQueryContained(s: string)
    ensures ContainsIgnoreCase(s, "")
  {
  }

  /** An exact (case-sensitive) occurrence is also an ignore-case occurrence. */
  lemma ExactOccurrenceContained(s: string, i: nat, query: string)
    requires i + |query| <= |s| && s[i..i + |query|] == query
    ensures ContainsIgnoreCase(s, query)
  {
    forall k | 0 <= k < |query|
      ensures EqualsIgnoreCase(s[i + k], query[k])
    {
      assert s[i..i + |query|][k] == s[i + k];
    }
    assert RegionMatches(s, i, query);
  }

  /** The case of the query does not matter: a query and its upper-case form match the same strings. */
  lemma QueryCaseIrrelevant(s: string, query: string)
    ensures ContainsIgnoreCase(s, query) == ContainsIgnoreCase(s, UpperCase(query))
  {
    var up := UpperCase(query);
    forall i: nat
      ensures RegionMatches(s, i, query) <==> RegionMatches(s, i, up)
    {
      forall a: char, k | 0 <= k < |query|
        ensures EqualsIgnoreCase(a, query[k]) <==> EqualsIgnoreCase(a, up[k])
      {
        EqualsIgnoreCaseIsLowerEquality(a, query[k]);
        EqualsIgnoreCaseIsLowerEquality(a, up[k]);
      }
    }
  }

  /**
   * `Char.isWhitespace()` on the JVM: `Character.isWhitespace` or `Character.isSpaceChar`,
   * that is the controls U+0009..U+000D and U+001C..U+001F and every character of the
   * Unicode categories Zs, Zl and Zp.
   */
  predicate IsWhitespace(c: char)
  {
    || ('\t' <= c <= '\r')
    || ('\U{1C}' <= c <= '\U{1F}')
    || c == ' '
    || c == '\U{A0}'
    || c == '\U{1680}'
    || ('\U{2000}' <= c <= '\U{200A}')
    || c == '\U{2028}'
    || c == '\U{2029}'
    || c == '\U{202F}'
    || c == '\U{205F}'
    || c == '\U{3000}'
  }

  /** `s.isBlank()`: empty, or made of whitespace only. */
  predicate IsBlank(s: string)
  {
    forall i :: 0 <= i < |s| ==> IsWhitespace(s[i])
  }

  /** A concatenation is blank exactly when both parts are. */
  lemma BlankConcat(a: string, b: string)
    ensures IsBlank(a + b) <==> IsBlank(a) && IsBlank(b)
  {
    if IsBlank(a) && IsBlank(b) {
      forall i | 0 <= i < |a + b|
        ensures IsWhitespace((a + b)[i])
      {
        if i < |a| { assert (a + b)[i] == a[i]; } else { assert (a + b)[i] == b[i - |a|]; }
      }
    }
    if IsBlank(a + b) {
      forall i | 0 <= i < |a| ensures IsWhitespace(a[i]) { assert (a + b)[i] == a[i]; }
      forall i | 0 <= i < |b| ensures IsWhitespace(b[i]) { assert (a + b)[|a| + i] == b[i]; }
    }
  }

  /** Letters, digits and the comma are not whitespace, so a string holding one is not blank. */
  lemma NameCharactersNotWhitespace(s: string, i: nat)
    requires i < |s|
    requires 'a' <= s[i] <= 'z' || 'A' <= s[i] <= 'Z' || '0' <= s[i] <= '9' || s[i] == Comma
    ensures !IsWhitespace(s[i]) && !IsBlank(s)
  {
  }
}
