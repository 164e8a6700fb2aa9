/**
 * The string primitives the two scripts rely on: `Array.prototype.join`,
 * `String.prototype.split` (used to read a joined text back), a literal
 * substitution of the first occurrence of a placeholder, and
 * `String.prototype.toLowerCase` restricted to ASCII letters.
 */
module Text {

  /** `parts.join(sep)`: the parts, with `sep` between consecutive ones. */
  function Join(parts: seq<string>, sep: string): string
  {
    if |parts| == 0 then ""
    else if |parts| == 1 then parts[0]
    else parts[0] + sep + Join(parts[1..], sep)
  }

  /** Joining spells the separators out between consecutive parts. */
  lemma JoinTwo(a: string, b: string, sep: string)
    ensures Join([a, b], sep) == a + sep + b
  {
  }

  lemma JoinFour(a: string, b: string, c: string, d: string, sep: string)
    ensures Join([a, b, c, d], sep) == a + sep + b + sep + c + sep + d
  {
    assert [a, b, c, d][1..] == [b, c, d];
    assert [b, c, d][1..] == [c, d];
    JoinTwo(c, d, sep);
    assert Join([b, c, d], sep) == b + sep + (c + sep + d);
    assert Join([a, b, c, d], sep) == a + sep + (b + sep + (c + sep + d));
  }

  /** `sep` occurs in `s` starting at index `i`. */
  predicate OccursAt(s: string, sep: string, i: nat)
  {
    i + |sep| <= |s| && s[i..i + |sep|] == sep
  }

  /** `sep` occurs nowhere in `s`. */
  predicate Free(s: string, sep: string)
  {
    forall i: nat :: i <= |s| ==> !OccursAt(s, sep, i)
  }

  /**
   * Writing `sep` right after `p` creates no occurrence of `sep` earlier
   * than the one written: neither inside `p` nor straddling its end.
   */
  predicate Delimits(p: string, sep: string)
  {
    forall i: nat :: i < |p| ==> !OccursAt(p + sep, sep, i)
  }

  /** `s.split(sep)` for a non-empty separator. */
  function Split(s: string, sep: string): (r: seq<string>)
    requires sep != []
    ensures |r| >= 1
    decreases |s|
  {
    if |s| < |sep| then [s]
    else if s[..|sep|] == sep then [""] + Split(s[|sep|..], sep)
    else
      var rest := Split(s[1..], sep);
      [[s[0]] + rest[0]] + rest[1..]
  }

  /**
   * The first occurrence of `key` in `s` replaced by `value`, taken
   * literally: `$` sequences in `value` are not expanded.
   */
  function ReplaceFirst(s: string, key: string, value: string): string
    requires key != []
    decreases |s|
  {
    if |s| < |key| then s
    else if s[..|key|] == key then value + s[|key|..]
    else [s[0]] + ReplaceFirst(s[1..], key, value)
  }

  /** `String.prototype.toLowerCase` on one character, ASCII letters only. */
  function LowerChar(c: char): (d: char)
    ensures 'A' <= c <= 'Z' ==> 'a' <= d <= 'z' && d as int - c as int == 32
    ensures !('A' <= c <= 'Z') ==> d == c
  {
    if 'A' <= c <= 'Z' then (c as int + 32) as char else c
  }

  /** `String.prototype.toLowerCase`, ASCII letters only. */
  function Lower(s: string): (r: string)
    ensures |r| == |s|
    ensures forall i :: 0 <= i < |s| ==> r[i] == LowerChar(s[i])
  {
    seq(|s|, i requires 0 <= i < |s| => LowerChar(s[i]))
  }

  // ---------------------------------------------------------------------
  // Properties

  /** A part that does not begin an occurrence of `sep` anywhere is a delimited part. */
  lemma DelimitsWithoutFirstChar(p: string, sep: string)
    requires sep != []
    requires forall i :: 0 <= i < |p| ==> p[i] != sep[0]
    ensures Delimits(p, sep)
  {
    forall i: nat | i < |p|
      ensures !OccursAt(p + sep, sep, i)
    {
      assert (p + sep)[i] == p[i];
    }
  }

  /**
   * A text holds no occurrence of `key` when the first character of `key`
   * appears only within its last |key| - 1 characters.
   */
  lemma FreeWhenKeyStartLate(p: string, t: string, key: string)
    requires key != [] && |t| < |key|
    requires forall i :: 0 <= i < |p| ==> p[i] != key[0]
    ensures Free(p + t, key)
  {
    forall i: nat | i <= |p + t|
      ensures !OccursAt(p + t, key, i)
    {
      if i < |p| {
        assert (p + t)[i] == p[i];
        assert i + |key| > |p + t| || (p + t)[i..i + |key|][0] == p[i];
      }
    }
  }

  /** A delimited part contains no occurrence of the separator either. */
  lemma DelimitsImpliesFree(p: string, sep: string)
    requires sep != []
    requires Delimits(p, sep)
    ensures Free(p, sep)
  {
    forall i: nat | i <= |p|
      ensures !OccursAt(p, sep, i)
    {
      if OccursAt(p, sep, i) {
        assert i < |p|;
        assert (p + sep)[i..i + |sep|] == p[i..i + |sep|];
        assert OccursAt(p + sep, sep, i);
        assert false;
      }
    }
  }

  /** Dropping the first character keeps a part delimited. */
  lemma DelimitsTail(p: string, sep: string)
    requires p != []
    requires Delimits(p, sep)
    ensures Delimits(p[1..], sep)
  {
    forall i: nat | i < |p[1..]|
      ensures !OccursAt(p[1..] + sep, sep, i)
    {
      assert p[1..] + sep == (p + sep)[1..];
      assert !OccursAt(p + sep, sep, i + 1);
    }
  }

  /** Dropping the first character keeps a text free of the separator. */
  lemma FreeTail(s: string, sep: string)
    requires s != []
    requires Free(s, sep)
    ensures Free(s[1..], sep)
  {
    forall i: nat | i <= |s[1..]|
      ensures !OccursAt(s[1..], sep, i)
    {
      if OccursAt(s[1..], sep, i) {
        assert s[1..][i..i + |sep|] == s[i + 1..i + 1 + |sep|];
        assert OccursAt(s, sep, i + 1);
        assert false;
      }
    }
  }

  /** Splitting a text that holds no separator gives the text itself. */
  lemma {:induction false} SplitFree(s: string, sep: string)
    requires sep != []
    requires Free(s, sep)
    ensures Split(s, sep) == [s]
    decreases |s|
  {
    if |s| >= |sep| {
      assert !OccursAt(s, sep, 0);
      assert s[..|sep|] != sep;
      FreeTail(s, sep);
      SplitFree(s[1..], sep);
      assert [s[0]] + s[1..] == s;
    }
  }

  /** Splitting `p + sep + rest` cuts off exactly `p` when `p` is delimited. */
  lemma {:induction false} SplitDelimited(p: string, sep: string, rest: string)
    requires sep != []
    requires Delimits(p, sep)
    ensures Split(p + sep + rest, sep) == [p] + Split(rest, sep)
    decreases |p|
  {
    var s := p + sep + rest;
    if p == [] {
      assert s == sep + rest;
      assert s[..|sep|] == sep;
      assert s[|sep|..] == rest;
    } else {
      assert (p + sep)[0..|sep|] == s[..|sep|];
      assert !OccursAt(p + sep, sep, 0);
      assert s[..|sep|] != sep;
      assert s[1..] == p[1..] + sep + rest;
      DelimitsTail(p, sep);
      SplitDelimited(p[1..], sep, rest);
      assert [p[0]] + p[1..] == p;
    }
  }

  /**
   * `join` followed by `split` gives the parts back, provided each part
   * (except possibly the last) is delimited by the separator and the last
   * one is free of it.
   */
  lemma {:induction false} SplitJoin(parts: seq<string>, sep: string)
    requires sep != [] && parts != []
    requires forall k :: 0 <= k < |parts| ==> Delimits(parts[k], sep)
    ensures Split(Join(parts, sep), sep) == parts
    decreases |parts|
  {
    if |parts| == 1 {
      DelimitsImpliesFree(parts[0], sep);
      SplitFree(parts[0], sep);
    } else {
      SplitDelimited(parts[0], sep, Join(parts[1..], sep));
      SplitJoin(parts[1..], sep);
      assert [parts[0]] + parts[1..] == parts;
    }
  }

  /** Replacing the first occurrence in a text that holds none changes nothing. */
  lemma {:induction false} ReplaceFirstFree(s: string, key: string, value: string)
    requires key != []
    requires Free(s, key)
    ensures ReplaceFirst(s, key, value) == s
    decreases |s|
  {
    if |s| >= |key| {
      assert !OccursAt(s, key, 0);
      FreeTail(s, key);
      ReplaceFirstFree(s[1..], key, value);
      assert [s[0]] + s[1..] == s;
    }
  }

  /** The placeholder after a delimited prefix is the one replaced. */
  lemma {:induction false} ReplaceFirstDelimited(p: string, key: string, value: string, rest: string)
    requires key != []
    requires Delimits(p, key)
    ensures ReplaceFirst(p + key + rest, key, value) == p + value + rest
    decreases |p|
  {
    var s := p + key + rest;
    if p == [] {
      assert s == key + rest;
      assert s[..|key|] == key;
      assert s[|key|..] == rest;
    } else {
      assert (p + key)[0..|key|] == s[..|key|];
      assert !OccursAt(p + key, key, 0);
      assert s[1..] == p[1..] + key + rest;
      DelimitsTail(p, key);
      ReplaceFirstDelimited(p[1..], key, value, rest);
      assert [p[0]] + (p[1..] + value + rest) == p + value + rest;
    }
  }

  /** The strings whose lower-case form is "ok" are exactly the four spellings of it. */
  lemma LowerIsOk(s: string)
    ensures Lower(s) == "ok" <==> s in {"ok", "oK", "Ok", "OK"}
  {
    if Lower(s) == "ok" {
      assert |s| == 2;
      assert LowerChar(s[0]) == 'o' && LowerChar(s[1]) == 'k';
      assert s[0] == 'o' || s[0] == 'O';
      assert s[1] == 'k' || s[1] == 'K';
      assert s == [s[0], s[1]];
    }
    if s in {"ok", "oK", "Ok", "OK"} {
      assert Lower(s) == [LowerChar(s[0]), LowerChar(s[1])];
    }
  }
}
