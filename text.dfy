/**
 * The string operations the dialects are written with: `Array.prototype.join`,
 * lodash's `filter` with its default (truthiness) predicate, the `|| fallback`
 * idiom on a joined condition list, and the decimal text a number becomes
 * inside a template literal.
 */
module Text {
  import opened Wrappers

  /** A condition as a hook resolves it: `None` stands for `undefined`/`null`. */
  type Cond = Option<string>

  /** JavaScript truthiness of a condition: present and not the empty string. */
  predicate Truthy(c: Cond) {
    c.Some? && c.value != ""
  }

  function SumLengths(parts: seq<string>): nat {
    if |parts| == 0 then 0 else |parts[0]| + SumLengths(parts[1..])
  }

  /** `parts.join(sep)`. */
  function Join(parts: seq<string>, sep: string): (r: string)
    ensures |parts| == 0 ==> r == ""
    ensures |parts| == 1 ==> r == parts[0]
    ensures |r| == SumLengths(parts) + (if |parts| == 0 then 0 else (|parts| - 1) * |sep|)
  {
    if |parts| == 0 then ""
    else if |parts| == 1 then parts[0]
    else parts[0] + sep + Join(parts[1..], sep)
  }

  /** Joining one more part adds exactly one separator, at the end. */
  lemma {:induction false} JoinSnoc(parts: seq<string>, p: string, sep: string)
    requires |parts| >= 1
    ensures Join(parts + [p], sep) == Join(parts, sep) + sep + p
  {
    if |parts| == 1 {
      assert (parts + [p])[1..] == [p];
    } else {
      assert (parts + [p])[1..] == parts[1..] + [p];
      JoinSnoc(parts[1..], p, sep);
    }
  }

  /** A join whose first part is not empty is not empty. */
  lemma JoinNonEmpty(parts: seq<string>, sep: string)
    requires |parts| >= 1 && parts[0] != ""
    ensures Join(parts, sep) != ""
  {
    assert SumLengths(parts) >= |parts[0]|;
  }

  /** `s.endsWith(t)`. */
  predicate EndsWith(s: string, t: string) {
    |t| <= |s| && s[|s| - |t|..] == t
  }

  /** A join starts with its first part and ends with its last. */
  lemma {:induction false} JoinFrame(parts: seq<string>, sep: string)
    requires |parts| >= 1
    ensures parts[0] <= Join(parts, sep)
    ensures EndsWith(Join(parts, sep), parts[|parts| - 1])
  {
    if |parts| > 1 {
      JoinFrame(parts[1..], sep);
      var rest := Join(parts[1..], sep);
      var last := parts[|parts| - 1];
      assert parts[1..][|parts[1..]| - 1] == last;
      var r := parts[0] + sep + rest;
      assert r[|r| - |last|..] == rest[|rest| - |last|..];
    }
  }

  /** Text written around `x` starts with the prefix and ends with the suffix. */
  lemma Enclosed(pre: string, x: string, post: string)
    ensures pre <= pre + x + post
    ensures EndsWith(pre + x + post, post)
  {
    var s := pre + x + post;
    assert s[..|pre|] == pre;
    assert s[|s| - |post|..] == post;
  }

  /** A prefix of `x` stays a prefix once text is written around `x`. */
  lemma PrefixWithin(pre: string, a: string, x: string, post: string)
    requires a <= x
    ensures pre + a <= pre + x + post
  {
    var s := pre + x + post;
    assert s[..|pre| + |a|] == pre + x[..|a|];
  }

  /**
   * Text written around a join: the first part follows the prefix and the last
   * part precedes the suffix.
   */
  lemma WrappedJoinFrame(pre: string, parts: seq<string>, sep: string, post: string)
    requires |parts| >= 1
    ensures pre + parts[0] <= pre + Join(parts, sep) + post
    ensures EndsWith(pre + Join(parts, sep) + post, parts[|parts| - 1] + post)
  {
    JoinFrame(parts, sep);
    var j := Join(parts, sep);
    var s := pre + j + post;
    var last := parts[|parts| - 1];
    assert s[..|pre| + |parts[0]|] == pre + j[..|parts[0]|];
    assert s[|s| - |last + post|..] == j[|j| - |last|..] + post;
  }

  /** A join of two or more parts ends with its last two parts and the separator between them. */
  lemma JoinEndsWithLastTwo(parts: seq<string>, sep: string)
    requires |parts| >= 2
    ensures EndsWith(Join(parts, sep), parts[|parts| - 2] + sep + parts[|parts| - 1])
  {
    var n := |parts|;
    var init := parts[..n - 1];
    assert init + [parts[n - 1]] == parts;
    JoinSnoc(init, parts[n - 1], sep);
    JoinFrame(init, sep);
    var j := Join(init, sep);
    var tail := sep + parts[n - 1];
    var s := j + sep + parts[n - 1];
    assert s[|s| - |init[n - 2] + tail|..] == j[|j| - |init[n - 2]|..] + tail;
  }

  /** A join of two or more parts starts with its first part and the separator. */
  lemma JoinSecondStartsAfterSeparator(parts: seq<string>, sep: string)
    requires |parts| >= 2
    ensures parts[0] + sep <= Join(parts, sep)
  {
    assert Join(parts, sep) == parts[0] + sep + Join(parts[1..], sep);
  }

  /** A suffix of a suffix is a suffix. */
  lemma EndsWithTransitive(s: string, t: string, u: string)
    requires EndsWith(s, t) && EndsWith(t, u)
    ensures EndsWith(s, u)
  {
    assert s[|s| - |u|..] == s[|s| - |t|..][|t| - |u|..];
  }

  /** lodash `filter(conds)`: keeps the truthy conditions, in order. */
  function Compact(conds: seq<Cond>): (r: seq<string>)
    ensures |r| <= |conds|
    ensures forall i :: 0 <= i < |r| ==> r[i] != ""
    ensures forall s :: s in r <==> s != "" && Some(s) in conds
    ensures |conds| == 1 ==> r == (if Truthy(conds[0]) then [conds[0].value] else [])
  {
    if |conds| == 0 then []
    else
      var rest := Compact(conds[1..]);
      assert forall s :: Some(s) in conds <==> Some(s) == conds[0] || Some(s) in conds[1..];
      if Truthy(conds[0]) then [conds[0].value] + rest else rest
  }

  /** Filtering distributes over concatenation. */
  lemma {:induction false} CompactAppend(a: seq<Cond>, b: seq<Cond>)
    ensures Compact(a + b) == Compact(a) + Compact(b)
  {
    if |a| > 0 {
      assert (a + b)[1..] == a[1..] + b;
      CompactAppend(a[1..], b);
    } else {
      assert a + b == b;
    }
  }

  /**
   * `filter(conds).join(' AND ') || fallback`: the truthy conditions joined by
   * AND, or the fallback when there is none.
   */
  function WhereClause(conds: seq<Cond>, fallback: string): (r: string)
    ensures Compact(conds) == [] ==> r == fallback
    ensures Compact(conds) != [] ==> r == Join(Compact(conds), " AND ")
  {
    var parts := Compact(conds);
    var joined := Join(parts, " AND ");
    assert parts != [] ==> joined != "" by {
      if parts != [] { JoinNonEmpty(parts, " AND "); }
    }
    if joined != "" then joined else fallback
  }

  /** The where clause built from shared conditions plus one extra, never-empty, condition. */
  lemma WhereClauseWithLast(shared: seq<Cond>, last: string, fallback: string)
    requires last != ""
    ensures WhereClause(shared + [Some(last)], fallback) ==
            if Compact(shared) == [] then last else Join(Compact(shared), " AND ") + " AND " + last
  {
    CompactAppend(shared, [Some(last)]);
    assert Compact([Some(last)]) == [last];
    if Compact(shared) != [] {
      JoinSnoc(Compact(shared), last, " AND ");
    } else {
      assert Compact(shared + [Some(last)]) == [last];
    }
  }

  /** `keys.map(key => `${quote(parent)}.${quote(key)}`)`. */
  function QualifiedKeys(quote: string -> string, parent: string, keys: seq<string>): (r: seq<string>)
    ensures |r| == |keys|
    ensures forall i :: 0 <= i < |keys| ==> r[i] == quote(parent) + "." + quote(keys[i])
  {
    seq(|keys|, i requires 0 <= i < |keys| => quote(parent) + "." + quote(keys[i]))
  }

  // ---- decimal text of a number -------------------------------------------------

  predicate IsDigit(c: char) { '0' <= c <= '9' }

  predicate AllDigits(s: string) {
    forall i :: 0 <= i < |s| ==> IsDigit(s[i])
  }

  function DigitChar(d: nat): (c: char)
    requires d < 10
    ensures IsDigit(c) && (c as int) - ('0' as int) == d
  {
    (('0' as int) + d) as char
  }

  /** The text `${n}` produces for a non-negative integer. */
  function NatToString(n: nat): (r: string)
    ensures |r| >= 1 && AllDigits(r)
    ensures r[0] == '0' ==> n == 0
    decreases n
  {
    if n < 10 then [DigitChar(n)] else NatToString(n / 10) + [DigitChar(n % 10)]
  }

  /** The number a string of decimal digits denotes. */
  function DecimalValue(s: string): nat
    requires AllDigits(s)
  {
    if |s| == 0 then 0
    else 10 * DecimalValue(s[..|s| - 1]) + ((s[|s| - 1] as int) - ('0' as int))
  }

  /** Rendering a number and reading it back gives the number. */
  lemma {:induction false} DecimalRoundTrip(n: nat)
    ensures DecimalValue(NatToString(n)) == n
    decreases n
  {
    if n >= 10 {
      var s := NatToString(n);
      assert s[..|s| - 1] == NatToString(n / 10);
      DecimalRoundTrip(n / 10);
    }
  }

  lemma AppendAssociates<T>(a: seq<T>, b: seq<T>, c: seq<T>)
    ensures a + (b + c) == a + b + c
  {
  }

  /** Regrouping four appended pieces; spares the solver a search over sequence extensionality. */
  lemma AppendRegroup<T>(a: seq<T>, b: seq<T>, c: seq<T>, d: seq<T>)
    ensures a + b + c + d == a + (b + c + d)
  {
  }
}
