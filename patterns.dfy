/**
 * The regular expressions of the search query, as predicates on strings.
 * `\w` is an ASCII letter, digit or underscore; `.` is any character but a
 * newline; `$` is the end of the string.
 */
module Patterns {
  import opened Base

  /** `\w`. */
  predicate IsWordChar(c: char)
  {
    ('a' <= c <= 'z') || ('A' <= c <= 'Z') || ('0' <= c <= '9') || c == '_'
  }

  /** `[\w.]`. */
  predicate IsWordOrDot(c: char)
  {
    IsWordChar(c) || c == '.'
  }

  /** `[=<>!]`. */
  predicate IsOperatorChar(c: char)
  {
    c == '=' || c == '<' || c == '>' || c == '!'
  }

  /** `\w*` over the whole string. */
  predicate AllWord(s: string)
  {
    forall i :: 0 <= i < |s| ==> IsWordChar(s[i])
  }

  /** `[\w.]*` over the whole string. */
  predicate AllWordOrDot(s: string)
  {
    forall i :: 0 <= i < |s| ==> IsWordOrDot(s[i])
  }

  /** `\w[\w.]*` over the whole string. */
  predicate IsDottedWord(s: string)
  {
    |s| > 0 && IsWordChar(s[0]) && AllWordOrDot(s)
  }

  /** `\".*\"` over the whole string. */
  predicate IsQuoted(s: string)
  {
    |s| >= 2 && s[0] == '"' && s[|s| - 1] == '"' && '\n' !in s[1..|s| - 1]
  }

  /** `[=<>!]{1,2}` over the whole string. */
  predicate IsOperator(op: string)
  {
    1 <= |op| <= 2 && forall i :: 0 <= i < |op| ==> IsOperatorChar(op[i])
  }

  /** The value group `$|\".*\"$|[\w.]*$`. */
  predicate IsFieldValue(v: string)
  {
    IsQuoted(v) || AllWordOrDot(v)
  }

  /** A field parameter cut into the three groups of the field pattern. */
  datatype FieldParts = FieldParts(name: string, op: string, value: string)

  /** The parts are groups the field pattern can match. */
  predicate ValidParts(p: FieldParts)
  {
    IsDottedWord(p.name) && IsOperator(p.op) && IsFieldValue(p.value)
  }

  /** `^\w[\w.]*[=<>!]{1,2}(?:$|\".*\"$|[\w.]*$)` matches `s`: some cut of `s` into valid parts. */
  ghost predicate FieldShape(s: string)
  {
    exists p: FieldParts :: ValidParts(p) && s == p.name + p.op + p.value
  }

  /** The end of the run of `[\w.]` starting at `i`. */
  function WordRunEnd(s: string, i: nat): (j: nat)
    requires i <= |s|
    ensures i <= j <= |s|
    ensures forall k :: i <= k < j ==> IsWordOrDot(s[k])
    ensures j == |s| || !IsWordOrDot(s[j])
    decreases |s| - i
  {
    if i == |s| || !IsWordOrDot(s[i]) then i else WordRunEnd(s, i + 1)
  }

  /**
   * The groups of the field pattern, as the regular expression engine finds
   * them: the longest name, then two operator characters when there are
   * two, then the rest as the value.
   */
  function ParseField(s: string): (r: Option<FieldParts>)
    ensures r.Some? ==> ValidParts(r.value) && s == r.value.name + r.value.op + r.value.value
  {
    if |s| == 0 || !IsWordChar(s[0]) then None
    else
      var i := WordRunEnd(s, 0);
      if i == |s| || !IsOperatorChar(s[i]) then None
      else
        var j := if i + 1 < |s| && IsOperatorChar(s[i + 1]) then i + 2 else i + 1;
        if IsFieldValue(s[j..]) then
          assert s == s[..i] + s[i..j] + s[j..];
          Some(FieldParts(s[..i], s[i..j], s[j..]))
        else None
  }

  /**
   * The field pattern matches `s` exactly when the parse succeeds, and
   * then the match is unique: every cut of `s` into valid parts is the
   * one the parse returns.
   */
  lemma ParseFieldComplete(s: string, p: FieldParts)
    requires ValidParts(p) && s == p.name + p.op + p.value
    ensures ParseField(s) == Some(p)
  {
    var n := |p.name|;
    assert s[..n] == p.name;
    assert s[n] == p.op[0];
    assert IsWordChar(s[0]);
    assert forall k :: 0 <= k < n ==> IsWordOrDot(s[k]);
    WordRunEndAt(s, 0, n);
    var m := |p.op|;
    var j := n + m;
    assert s[j..] == p.value;
    assert s[n..j] == p.op;
  }

  /** The run starting at `i` ends at `j` when `s[i..j]` is `[\w.]` and `s[j]` is not. */
  lemma {:induction false} WordRunEndAt(s: string, i: nat, j: nat)
    requires i <= j <= |s|
    requires forall k :: i <= k < j ==> IsWordOrDot(s[k])
    requires j == |s| || !IsWordOrDot(s[j])
    ensures WordRunEnd(s, i) == j
    decreases j - i
  {
    if i < j {
      WordRunEndAt(s, i + 1, j);
    }
  }

  /** `ParseField` is a decision procedure for the field pattern. */
  lemma ParseFieldIff(s: string)
    ensures ParseField(s).Some? <==> FieldShape(s)
  {
    if FieldShape(s) {
      var p: FieldParts :| ValidParts(p) && s == p.name + p.op + p.value;
      ParseFieldComplete(s, p);
    }
    if ParseField(s).Some? {
      var p := ParseField(s).value;
      assert ValidParts(p) && s == p.name + p.op + p.value;
    }
  }

  /** The first entry of a pattern table whose pattern accepts `s`. */
  function FirstMatch<T>(table: seq<(T, string -> bool)>, s: string): (r: Option<T>)
    ensures r.None? <==> forall k :: 0 <= k < |table| ==> !table[k].1(s)
  {
    if table == [] then None
    else if table[0].1(s) then Some(table[0].0)
    else
      assert forall k :: 1 <= k < |table| ==> table[1..][k - 1] == table[k];
      FirstMatch(table[1..], s)
  }

  /** A found type is that of an accepting entry with no accepting entry before it. */
  lemma {:induction false} FirstMatchIsFirst<T>(table: seq<(T, string -> bool)>, s: string)
    requires FirstMatch(table, s).Some?
    ensures exists k :: 0 <= k < |table| && table[k].1(s) && table[k].0 == FirstMatch(table, s).value
                        && forall l :: 0 <= l < k ==> !table[l].1(s)
  {
    if !table[0].1(s) {
      FirstMatchIsFirst(table[1..], s);
      var k :| 0 <= k < |table[1..]| && table[1..][k].1(s) && table[1..][k].0 == FirstMatch(table[1..], s).value
               && forall l :: 0 <= l < k ==> !table[1..][l].1(s);
      assert forall l :: 1 <= l < k + 1 ==> table[l] == table[1..][l - 1];
      assert table[k + 1].1(s) && table[k + 1].0 == FirstMatch(table, s).value;
    } else {
      assert table[0].0 == FirstMatch(table, s).value;
    }
  }

  /** The loop of `get_parameter_type`: try each pattern in turn and return the first type that matches. */
  method FirstMatching<T>(table: seq<(T, string -> bool)>, s: string) returns (r: Option<T>)
    ensures r == FirstMatch(table, s)
  {
    var k := 0;
    while k < |table|
      invariant 0 <= k <= |table|
      invariant FirstMatch(table, s) == FirstMatch(table[k..], s)
    {
      if table[k].1(s) {
        return Some(table[k].0);
      }
      assert table[k..][1..] == table[k + 1..];
      k := k + 1;
    }
    return None;
  }
}
