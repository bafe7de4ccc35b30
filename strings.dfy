/** The PHP string built-ins the core uses, on `seq<char>`. */
module Strings {

  predicate StartsWith(s: string, prefix: string) {
    |prefix| <= |s| && s[..|prefix|] == prefix
  }

  /** A sequence starts with a non-empty prefix iff the heads agree and the tail starts with the prefix's tail. */
  lemma StartsWithCons(s: string, prefix: string)
    requires s != [] && prefix != []
    ensures StartsWith(s, prefix) <==> s[0] == prefix[0] && StartsWith(s[1..], prefix[1..])
  {
    if |prefix| <= |s| {
      assert s[..|prefix|] == [s[0]] + s[1..][..|prefix| - 1];
      assert prefix == [prefix[0]] + prefix[1..];
    }
  }

  /** One differing position inside both sequences rules the prefix out. */
  lemma Mismatch(s: string, prefix: string, j: nat)
    requires j < |s| && j < |prefix| && s[j] != prefix[j]
    ensures !StartsWith(s, prefix)
  {
    if |prefix| <= |s| {
      assert s[..|prefix|][j] == s[j];
    }
  }

  /** `str_contains($s, $needle)` for a non-empty needle. */
  ghost predicate Occurs(s: string, needle: string) {
    exists i :: 0 <= i <= |s| && StartsWith(s[i..], needle)
  }

  /** ASCII lower-casing of one character. */
  function LowerChar(c: char): (r: char)
    ensures !('A' <= r <= 'Z')
    ensures 'a' <= r <= 'z' <==> 'a' <= c <= 'z' || 'A' <= c <= 'Z'
  {
    if 'A' <= c <= 'Z' then (c as int + 32) as char else c
  }

  /** `Str::lower($s)`, restricted to ASCII letters. */
  function Lower(s: string): (r: string)
    ensures |r| == |s|
    ensures forall i :: 0 <= i < |s| ==> r[i] == LowerChar(s[i])
  {
    seq(|s|, i requires 0 <= i < |s| => LowerChar(s[i]))
  }

  lemma LowerIdempotent(s: string)
    ensures Lower(Lower(s)) == Lower(s)
  {
  }

  /**
   * `str_replace($search, $replace, $subject)`: scan left to right and replace every
   * non-overlapping occurrence; an empty search string leaves the subject unchanged.
   */
  function ReplaceAll(s: string, search: string, replace: string): (r: string)
    ensures search == [] ==> r == s
    ensures replace == search ==> r == s
    decreases |s|
  {
    if search == [] || |s| < |search| then s
    else if StartsWith(s, search) then
      assert s == search + s[|search|..];
      replace + ReplaceAll(s[|search|..], search, replace)
    else
      assert s == [s[0]] + s[1..];
      [s[0]] + ReplaceAll(s[1..], search, replace)
  }

  /** A subject that does not contain the search string comes back unchanged. */
  lemma {:induction false} ReplaceAllWithoutOccurrence(s: string, search: string, replace: string)
    requires !Occurs(s, search)
    ensures ReplaceAll(s, search, replace) == s
    decreases |s|
  {
    if search != [] && |s| >= |search| {
      assert s[0..] == s;
      assert !StartsWith(s, search);
      forall i | 0 <= i <= |s[1..]| ensures !StartsWith(s[1..][i..], search) {
        assert s[1..][i..] == s[i + 1..];
      }
      ReplaceAllWithoutOccurrence(s[1..], search, replace);
    }
  }

  /**
   * A prefix free of the search string's first character is copied through, and
   * replacement continues on the rest.
   */
  lemma {:induction false} ReplaceAllFreePrefix(a: string, b: string, search: string, replace: string)
    requires search != []
    requires search[0] !in a
    ensures ReplaceAll(a + b, search, replace) == a + ReplaceAll(b, search, replace)
    decreases |a|
  {
    if a != [] {
      var s := a + b;
      if |s| < |search| {
        assert ReplaceAll(b, search, replace) == b;
      } else {
        assert s[0] == a[0] != search[0];
        assert !StartsWith(s, search);
        assert s[1..] == a[1..] + b;
        ReplaceAllFreePrefix(a[1..], b, search, replace);
      }
    } else {
      assert a + b == b;
    }
  }

  /** A subject that starts with the search string starts with the replacement. */
  lemma ReplaceAllLeading(search: string, rest: string, replace: string)
    requires search != []
    ensures ReplaceAll(search + rest, search, replace) == replace + ReplaceAll(rest, search, replace)
  {
    var s := search + rest;
    assert StartsWith(s, search);
    assert s[|search|..] == rest;
  }

  /** `explode($sep, $s, 2)` padded to two parts with `''` (`array_pad(..., 2, '')`). */
  function SplitOnce(s: string, sep: char): (parts: (string, string))
    ensures sep !in parts.0
    ensures sep in s ==> s == parts.0 + [sep] + parts.1
    ensures sep !in s ==> parts == (s, "")
  {
    if s == [] then ("", "")
    else if s[0] == sep then ("", s[1..])
    else
      var rest := SplitOnce(s[1..], sep);
      assert s == [s[0]] + s[1..];
      ([s[0]] + rest.0, rest.1)
  }

  /** `implode($sep, $parts)`. */
  function Join(parts: seq<string>, sep: string): (r: string)
    ensures parts == [] ==> r == ""
    ensures |parts| == 1 ==> r == parts[0]
  {
    if parts == [] then ""
    else if |parts| == 1 then parts[0]
    else parts[0] + sep + Join(parts[1..], sep)
  }

  /** Appending a part appends the separator and that part. */
  lemma {:induction false} JoinAppend(parts: seq<string>, p: string, sep: string)
    requires parts != []
    ensures Join(parts + [p], sep) == Join(parts, sep) + sep + p
    decreases |parts|
  {
    if |parts| == 1 {
      assert (parts + [p])[1..] == [p];
    } else {
      assert (parts + [p])[1..] == parts[1..] + [p];
      JoinAppend(parts[1..], p, sep);
    }
  }
}
