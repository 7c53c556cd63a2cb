/**
 * The few Python `str` operations the modelled code relies on:
 * `split`, `strip()`, `strip(chars)`, `join` and `lower`.
 */
module Text {

  /** `str.isspace()` for one character: the characters Python treats as whitespace. */
  predicate IsSpace(c: char)
  {
    var n := c as int;
    (9 <= n <= 13) || (28 <= n <= 32) || n == 0x85 || n == 0xA0 || n == 0x1680
    || (0x2000 <= n <= 0x200A) || n == 0x2028 || n == 0x2029 || n == 0x202F
    || n == 0x205F || n == 0x3000
  }

  /** The characters a strip removes: whitespace for `strip()`, one character for `strip(c)`. */
  datatype Strippable = Whitespace | Only(c: char)

  predicate Removes(k: Strippable, c: char)
  {
    match k
    case Whitespace => IsSpace(c)
    case Only(x) => c == x
  }

  /** Drops the leading characters of kind `k`. */
  function TrimStart(s: string, k: Strippable): (r: string)
    ensures |r| <= |s| && r == s[|s| - |r|..]
    ensures r != [] ==> !Removes(k, r[0])
    ensures forall i :: 0 <= i < |s| - |r| ==> Removes(k, s[i])
    decreases |s|
  {
    if s != [] && Removes(k, s[0]) then TrimStart(s[1..], k) else s
  }

  /** Drops the trailing characters of kind `k`. */
  function TrimEnd(s: string, k: Strippable): (r: string)
    ensures |r| <= |s| && r == s[..|r|]
    ensures r != [] ==> !Removes(k, r[|r| - 1])
    ensures forall i :: |r| <= i < |s| ==> Removes(k, s[i])
    decreases |s|
  {
    if s != [] && Removes(k, s[|s| - 1]) then TrimEnd(s[..|s| - 1], k) else s
  }

  /** `s.strip()`: no whitespace at either end; a string without any is kept. */
  function Strip(s: string): (r: string)
    ensures |r| <= |s|
    ensures r != [] ==> !IsSpace(r[0]) && !IsSpace(r[|r| - 1])
    ensures (s == [] || (!IsSpace(s[0]) && !IsSpace(s[|s| - 1]))) ==> r == s
    ensures r == [] <==> forall i :: 0 <= i < |s| ==> IsSpace(s[i])
  {
    TrimEnd(TrimStart(s, Whitespace), Whitespace)
  }

  /** `s.strip(c)` for a single character `c`. */
  function StripChar(s: string, c: char): (r: string)
    ensures r != [] ==> r[0] != c && r[|r| - 1] != c
    ensures c !in s ==> r == s
    ensures r == [] <==> forall i :: 0 <= i < |s| ==> s[i] == c
  {
    TrimEnd(TrimStart(s, Only(c)), Only(c))
  }

  /** Stripping `c` from `m` wrapped in `c` gives `m` back when `m` neither starts nor ends with `c`. */
  lemma StripCharWrapped(m: string, c: char)
    requires m != [] && m[0] != c && m[|m| - 1] != c
    ensures StripChar([c] + m + [c], c) == m
  {
    var s := [c] + m + [c];
    assert s[1..] == m + [c];
    assert TrimStart(s, Only(c)) == m + [c];
    assert (m + [c])[..|m|] == m;
  }

  /** Position of the first occurrence of `c` in `s`. */
  function IndexOf(s: string, c: char): (i: nat)
    requires c in s
    ensures i < |s| && s[i] == c && c !in s[..i]
  {
    if s[0] == c then 0 else 1 + IndexOf(s[1..], c)
  }

  /** `s.split(sep)`: the pieces between occurrences of `sep`; never empty. */
  function Split(s: string, sep: char): (parts: seq<string>)
    ensures |parts| >= 1
    ensures forall i :: 0 <= i < |parts| ==> sep !in parts[i]
    decreases |s|
  {
    if sep !in s then [s]
    else
      var i := IndexOf(s, sep);
      [s[..i]] + Split(s[i + 1..], sep)
  }

  /** `sep.join(parts)`. */
  function Join(parts: seq<string>, sep: string): string
  {
    if parts == [] then ""
    else if |parts| == 1 then parts[0]
    else parts[0] + sep + Join(parts[1..], sep)
  }

  lemma JoinCons(a: string, rest: seq<string>, sep: string)
    requires rest != []
    ensures Join([a] + rest, sep) == a + sep + Join(rest, sep)
  {
    assert ([a] + rest)[1..] == rest;
  }

  /** Joining the pieces of a split with the separator gives back the string. */
  lemma {:induction false} JoinSplit(s: string, sep: char)
    ensures Join(Split(s, sep), [sep]) == s
    decreases |s|
  {
    if sep in s {
      var i := IndexOf(s, sep);
      var rest := s[i + 1..];
      var pieces := Split(rest, sep);
      assert Split(s, sep) == [s[..i]] + pieces;
      JoinSplit(rest, sep);
      JoinCons(s[..i], pieces, [sep]);
      assert s == s[..i] + [sep] + rest;
    }
  }

  /** Splitting `a`, a separator and `b`, where `a` has no separator, gives `a` and then the pieces of `b`. */
  lemma SplitConcat(a: string, b: string, sep: char)
    requires sep !in a
    ensures Split(a + [sep] + b, sep) == [a] + Split(b, sep)
  {
    var s := a + [sep] + b;
    IndexOfConcat(a, b, sep);
    assert s[..|a|] == a && s[|a| + 1..] == b;
  }

  /** Splitting a join on a separator that no piece contains gives back the pieces. */
  lemma {:induction false} SplitJoin(parts: seq<string>, sep: char)
    requires parts != []
    requires forall i :: 0 <= i < |parts| ==> sep !in parts[i]
    ensures Split(Join(parts, [sep]), sep) == parts
    decreases |parts|
  {
    if |parts| > 1 {
      var rest := parts[1..];
      SplitJoin(rest, sep);
      assert Join(parts, [sep]) == parts[0] + [sep] + Join(rest, [sep]);
      SplitConcat(parts[0], Join(rest, [sep]), sep);
      assert parts == [parts[0]] + rest;
    }
  }

  /** The first `c` in `a`, `c`, `b` is the one after `a` when `a` has none. */
  lemma IndexOfConcat(a: string, b: string, c: char)
    requires c !in a
    ensures IndexOf(a + [c] + b, c) == |a|
  {
    var s := a + [c] + b;
    assert s[|a|] == c;
    assert forall k :: 0 <= k < |a| ==> s[k] == a[k];
  }

  /** `str(n)` for a natural number: its decimal digits, without leading zeros. */
  function NatToString(n: nat): (r: string)
    ensures r != []
    ensures forall i :: 0 <= i < |r| ==> '0' <= r[i] <= '9'
  {
    var d := ['0' + (n % 10) as char];
    if n < 10 then d else NatToString(n / 10) + d
  }

  /** `str.lower()` on one character (ASCII letters only). */
  function LowerChar(c: char): char
  {
    if 'A' <= c <= 'Z' then (c as int + 32) as char else c
  }

  /** `s.lower()`. */
  function Lower(s: string): (r: string)
    ensures |r| == |s|
    ensures forall i :: 0 <= i < |s| ==> r[i] == LowerChar(s[i])
  {
    if s == [] then [] else [LowerChar(s[0])] + Lower(s[1..])
  }

  /** A lower-cased string has no upper-case ASCII letter. */
  predicate IsLower(s: string)
  {
    forall i :: 0 <= i < |s| ==> !('A' <= s[i] <= 'Z')
  }

  /** Lower-casing yields a lower-case string and is idempotent. */
  lemma LowerIsLower(s: string)
    ensures IsLower(Lower(s))
    ensures Lower(Lower(s)) == Lower(s)
  {
  }

  /** Code-point order on strings: a prefix comes first, otherwise the first differing character decides. */
  predicate StrLe(a: string, b: string)
    decreases |a|
  {
    a == [] || (b != [] && (a[0] < b[0] || (a[0] == b[0] && StrLe(a[1..], b[1..]))))
  }

  /** The order is total. */
  lemma {:induction false} StrLeTotal(a: string, b: string)
    ensures StrLe(a, b) || StrLe(b, a)
    decreases |a|
  {
    if a != [] && b != [] && a[0] == b[0] {
      StrLeTotal(a[1..], b[1..]);
    }
  }

  /** The order is antisymmetric. */
  lemma {:induction false} StrLeAntisymmetric(a: string, b: string)
    requires StrLe(a, b) && StrLe(b, a)
    ensures a == b
    decreases |a|
  {
    if a != [] {
      StrLeAntisymmetric(a[1..], b[1..]);
      assert a == [a[0]] + a[1..] && b == [b[0]] + b[1..];
    }
  }

  /** The order is transitive. */
  lemma {:induction false} StrLeTransitive(a: string, b: string, c: string)
    requires StrLe(a, b) && StrLe(b, c)
    ensures StrLe(a, c)
    decreases |a|
  {
    if a != [] && a[0] == b[0] && b[0] == c[0] {
      StrLeTransitive(a[1..], b[1..], c[1..]);
    }
  }

  /** `s` has a least element under `StrLe`. */
  ghost predicate HasLeast(s: set<string>)
  {
    exists k :: k in s && forall k' :: k' in s ==> StrLe(k, k')
  }

  /** Every non-empty finite set of strings has a least element. */
  lemma {:induction false} LeastExists(s: set<string>)
    requires s != {}
    ensures HasLeast(s)
    decreases |s|
  {
    var x :| x in s;
    if s == {x} {
      assert forall k' :: k' in s ==> k' == x;
      assert StrLe(x, x) by { StrLeTotal(x, x); }
    } else {
      var rest := s - {x};
      LeastExists(rest);
      var m :| m in rest && forall k' :: k' in rest ==> StrLe(m, k');
      StrLeTotal(m, x);
      if StrLe(m, x) {
        assert forall k' :: k' in s ==> StrLe(m, k');
      } else {
        forall k' | k' in s
          ensures StrLe(x, k')
        {
          if k' != x {
            StrLeTransitive(x, m, k');
          } else {
            StrLeTotal(x, x);
          }
        }
      }
    }
  }

  /**
   * The least element of a non-empty set of strings. Two least elements are
   * equal, so the choice is determined.
   */
  function Least(s: set<string>): (r: string)
    requires s != {}
    ensures r in s && forall k :: k in s ==> StrLe(r, k)
  {
    LeastExists(s);
    assert forall a, b :: a in s && b in s && StrLe(a, b) && StrLe(b, a) ==> a == b by {
      forall a, b | a in s && b in s && StrLe(a, b) && StrLe(b, a) ensures a == b {
        StrLeAntisymmetric(a, b);
      }
    }
    var k :| k in s && forall k' :: k' in s ==> StrLe(k, k');
    k
  }
}
