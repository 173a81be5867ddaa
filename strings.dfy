/**
 * Text operations the serialisers and views rely on, written out the way
 * Python 2 performs them: `str(n)` of a non-negative integer, `s.replace(a, b)`
 * for one-character arguments, `s.lower()`, `sep.join(parts)`,
 * `s.split(c)`, `s.count(c)`, `s.rfind(c)` with the slice `s[:end]`, and
 * the reading of an integer list by `json.loads('[' + v + ']')`.
 */
module Strings {

  datatype Option<T> = None | Some(value: T)

  // ---------------------------------------------------------------------------
  // str(n) for a non-negative integer
  // ---------------------------------------------------------------------------

  predicate IsDigit(c: char) {
    '0' <= c <= '9'
  }

  function DigitChar(d: nat): (c: char)
    requires d < 10
    ensures IsDigit(c) && (c as int) - ('0' as int) == d
  {
    (('0' as int) + d) as char
  }

  /** Decimal rendering of `n`, as Python's `str(n)`: digits only, no leading zero. */
  function Str(n: nat): (r: string)
    ensures |r| > 0
    ensures forall i :: 0 <= i < |r| ==> IsDigit(r[i])
    ensures (|r| == 1) <==> (n < 10)
    ensures |r| > 1 ==> r[0] != '0'
    decreases n
  {
    if n < 10 then [DigitChar(n)] else Str(n / 10) + [DigitChar(n % 10)]
  }

  /** The number a string of decimal digits denotes. */
  function DigitsValue(s: string): nat
    requires forall i :: 0 <= i < |s| ==> IsDigit(s[i])
  {
    if s == [] then 0
    else
      assert IsDigit(s[|s| - 1]);
      DigitsValue(s[..|s| - 1]) * 10 + ((s[|s| - 1] as int) - ('0' as int)) as nat
  }

  lemma {:induction false} DigitsValueOfStr(n: nat)
    ensures DigitsValue(Str(n)) == n
    decreases n
  {
    if n >= 10 {
      var s := Str(n);
      assert s[..|s| - 1] == Str(n / 10);
      DigitsValueOfStr(n / 10);
    }
  }

  /** Distinct numbers render differently. */
  lemma StrInjective(m: nat, n: nat)
    requires Str(m) == Str(n)
    ensures m == n
  {
    DigitsValueOfStr(m);
    DigitsValueOfStr(n);
  }

  // ---------------------------------------------------------------------------
  // s.replace(a, b) for single characters, s.lower()
  // ---------------------------------------------------------------------------

  /** `s.replace(a, b)`: every occurrence of `a` becomes `b`, everything else stays. */
  function Replace(s: string, a: char, b: char): (r: string)
    ensures |r| == |s|
    ensures forall i :: 0 <= i < |s| ==> r[i] == (if s[i] == a then b else s[i])
    ensures a != b ==> a !in r
  {
    seq(|s|, i requires 0 <= i < |s| => if s[i] == a then b else s[i])
  }

  lemma ReplaceIdempotent(s: string, a: char, b: char)
    ensures Replace(Replace(s, a, b), a, b) == Replace(s, a, b)
  {
  }

  /** ASCII `lower()`: A-Z become a-z, every other character is kept. */
  function Lower(s: string): (r: string)
    ensures |r| == |s|
    ensures forall i :: 0 <= i < |s| ==> !('A' <= r[i] <= 'Z')
    ensures forall i :: 0 <= i < |s| && !('A' <= s[i] <= 'Z') ==> r[i] == s[i]
  {
    seq(|s|, i requires 0 <= i < |s| =>
      if 'A' <= s[i] <= 'Z' then (s[i] as int + 32) as char else s[i])
  }

  // ---------------------------------------------------------------------------
  // sep.join(parts) and s.split(c)
  // ---------------------------------------------------------------------------

  function Join(sep: string, parts: seq<string>): string
    decreases |parts|
  {
    if |parts| == 0 then ""
    else if |parts| == 1 then parts[0]
    else parts[0] + sep + Join(sep, parts[1..])
  }

  /** Appending one more part, the way an accumulating loop does. */
  lemma {:induction false} JoinAppend(sep: string, parts: seq<string>, x: string)
    ensures Join(sep, parts + [x]) ==
            if parts == [] then x else Join(sep, parts) + sep + x
    decreases |parts|
  {
    if |parts| >= 2 {
      assert (parts + [x])[1..] == parts[1..] + [x];
      JoinAppend(sep, parts[1..], x);
    } else if |parts| == 1 {
      assert (parts + [x])[1..] == [x];
    }
  }

  /** A join of non-empty parts is empty exactly when there are no parts. */
  lemma JoinEmptyIff(sep: string, parts: seq<string>)
    requires forall i :: 0 <= i < |parts| ==> parts[i] != ""
    ensures Join(sep, parts) == "" <==> parts == []
  {
    if |parts| >= 2 {
      assert |Join(sep, parts)| >= |parts[0]|;
    }
  }

  /** Python's `s.split(c)`: the pieces between the occurrences of `c`. */
  function Split(s: string, c: char): (r: seq<string>)
    ensures |r| >= 1
    decreases |s|
  {
    if s == [] then [""]
    else
      var rest := Split(s[1..], c);
      if s[0] == c then [""] + rest else [[s[0]] + rest[0]] + rest[1..]
  }

  lemma {:induction false} SplitPrefix(p: string, t: string, c: char)
    requires c !in p
    ensures Split(p + t, c) == [p + Split(t, c)[0]] + Split(t, c)[1..]
    decreases |p|
  {
    if p != [] {
      assert (p + t)[1..] == p[1..] + t;
      SplitPrefix(p[1..], t, c);
      assert [p[0]] + (p[1..] + Split(t, c)[0]) == p + Split(t, c)[0];
    } else {
      assert p + t == t;
      assert p + Split(t, c)[0] == Split(t, c)[0];
      assert Split(t, c) == [Split(t, c)[0]] + Split(t, c)[1..];
    }
  }

  /** Splitting a join undoes it, as long as no part contains the separator. */
  lemma {:induction false} SplitJoin(parts: seq<string>, c: char)
    requires |parts| >= 1
    requires forall i :: 0 <= i < |parts| ==> c !in parts[i]
    ensures Split(Join([c], parts), c) == parts
    decreases |parts|
  {
    if |parts| == 1 {
      SplitPrefix(parts[0], "", c);
      assert Split("", c) == [""];
      assert parts[0] + "" == parts[0];
    } else {
      var rest := Join([c], parts[1..]);
      SplitJoin(parts[1..], c);
      assert Join([c], parts) == parts[0] + ([c] + rest);
      SplitPrefix(parts[0], [c] + rest, c);
      assert ([c] + rest)[1..] == rest;
      assert Split([c] + rest, c) == [""] + parts[1..];
      assert parts[0] + Split([c] + rest, c)[0] == parts[0];
      assert parts == [parts[0]] + parts[1..];
    }
  }

  // ---------------------------------------------------------------------------
  // s.count(c)
  // ---------------------------------------------------------------------------

  function Count(s: string, c: char): nat
    decreases |s|
  {
    if s == [] then 0 else (if s[0] == c then 1 else 0) + Count(s[1..], c)
  }

  lemma {:induction false} CountConcat(a: string, b: string, c: char)
    ensures Count(a + b, c) == Count(a, c) + Count(b, c)
    decreases |a|
  {
    if a != [] {
      assert (a + b)[1..] == a[1..] + b;
      CountConcat(a[1..], b, c);
    } else {
      assert a + b == b;
    }
  }

  lemma {:induction false} CountAbsent(s: string, c: char)
    requires c !in s
    ensures Count(s, c) == 0
    decreases |s|
  {
    if s != [] {
      CountAbsent(s[1..], c);
    }
  }

  /** `str(n)` never contains a character that is not a digit. */
  lemma StrHasNo(n: nat, c: char)
    requires !IsDigit(c)
    ensures c !in Str(n)
  {
  }

  // ---------------------------------------------------------------------------
  // s.rfind(c) and s[:end]
  // ---------------------------------------------------------------------------

  /** `s.rfind(c)`: the index of the last `c`, or -1 when there is none. */
  function RFind(s: string, c: char): (r: int)
    ensures -1 <= r < |s|
    ensures r >= 0 ==> s[r] == c
    ensures forall k :: r < k < |s| ==> s[k] != c
    decreases |s|
  {
    if s == [] then -1
    else if s[|s| - 1] == c then |s| - 1
    else RFind(s[..|s| - 1], c)
  }

  /** Python's slice `s[:end]`, where a negative `end` counts from the back. */
  function SliceTo(s: string, end: int): (r: string)
    ensures end >= 0 ==> r == s[..if end <= |s| then end else |s|]
    ensures end < 0 ==> r == s[..if |s| + end >= 0 then |s| + end else 0]
  {
    if end >= 0 then (if end <= |s| then s[..end] else s)
    else if |s| + end >= 0 then s[..|s| + end] else []
  }

  // ---------------------------------------------------------------------------
  // json.loads('[' + v + ']') for a list of integers
  // ---------------------------------------------------------------------------

  predicate IsJsonSpace(c: char) {
    c == ' ' || c == '\t' || c == '\n' || c == '\r'
  }

  predicate IsBlank(s: string) {
    forall i :: 0 <= i < |s| ==> IsJsonSpace(s[i])
  }

  function TrimLeft(s: string): (r: string)
    ensures r == [] || !IsJsonSpace(r[0])
    ensures |r| <= |s| && r == s[|s| - |r|..]
    decreases |s|
  {
    if s != [] && IsJsonSpace(s[0]) then TrimLeft(s[1..]) else s
  }

  function TrimRight(s: string): (r: string)
    ensures r == [] || !IsJsonSpace(r[|r| - 1])
    ensures |r| <= |s| && r == s[..|r|]
    decreases |s|
  {
    if s != [] && IsJsonSpace(s[|s| - 1]) then TrimRight(s[..|s| - 1]) else s
  }

  /** The text of one list element with JSON white space on both sides removed. */
  function Trim(s: string): string {
    TrimRight(TrimLeft(s))
  }

  /** A JSON integer: an optional minus, then `0` or digits not starting with `0`. */
  function ParseInt(s: string): (r: Option<int>)
    ensures r.Some? ==> |s| > 0
  {
    if s == [] then None
    else if s[0] == '-' then
      (match ParseNat(s[1..])
       case Some(n) => Some(-(n as int))
       case None => None)
    else
      (match ParseNat(s)
       case Some(n) => Some(n)
       case None => None)
  }

  function ParseNat(s: string): Option<nat> {
    if s != [] && (forall i :: 0 <= i < |s| ==> IsDigit(s[i])) && (|s| == 1 || s[0] != '0')
    then Some(DigitsValue(s))
    else None
  }

  function ParseElements(tokens: seq<string>): Option<seq<int>>
    decreases |tokens|
  {
    if tokens == [] then Some([])
    else
      match (ParseInt(Trim(tokens[0])), ParseElements(tokens[1..]))
      case (Some(n), Some(ns)) => Some([n] + ns)
      case _ => None
  }

  /**
   * The list `json.loads('[' + v + ']')` yields when it holds integers only.
   * Blank text is the empty list; `None` is the `ValueError` json.loads raises.
   */
  function ParseIdList(v: string): Option<seq<int>> {
    if IsBlank(v) then Some([]) else ParseElements(Split(v, ','))
  }

  // ---------------------------------------------------------------------------
  // int(s) on a text, as Python 2 converts it
  // ---------------------------------------------------------------------------

  /** The white space `int()` strips: space, tab, line feed, vertical tab, form feed, carriage return. */
  predicate IsPySpace(c: char) {
    c == ' ' || '\t' <= c <= '\r'
  }

  /** `s.strip()`: the text without its leading and trailing white space. */
  function PyStrip(s: string): (r: string)
    ensures r == [] || (!IsPySpace(r[0]) && !IsPySpace(r[|r| - 1]))
    ensures |r| <= |s|
    decreases |s|
  {
    if s != [] && IsPySpace(s[0]) then PyStrip(s[1..])
    else if s != [] && IsPySpace(s[|s| - 1]) then PyStrip(s[..|s| - 1])
    else s
  }

  /** A non-empty run of decimal digits, leading zeros allowed, and the number it denotes. */
  function Decimal(s: string): (r: Option<nat>)
    ensures r.Some? <==> s != [] && forall i :: 0 <= i < |s| ==> IsDigit(s[i])
  {
    if s != [] && forall i :: 0 <= i < |s| ==> IsDigit(s[i]) then Some(DigitsValue(s)) else None
  }

  /**
   * `int(s)` in base 10: white space around the literal, an optional sign,
   * white space again (Python 2 skips it after the sign too), then decimal
   * digits. `None` is the `ValueError` `int()` raises.
   */
  function PyInt(s: string): (r: Option<int>)
    ensures r.Some? ==> exists i :: 0 <= i < |s| && IsDigit(s[i])
  {
    var t := PyStrip(s);
    var signed := t != [] && (t[0] == '-' || t[0] == '+');
    var unsigned := if signed then PyStrip(t[1..]) else t;
    match Decimal(unsigned)
    case None => None
    case Some(n) =>
      assert unsigned[0] in t by {
        if signed {
          PyStripKeeps(t[1..], unsigned[0]);
        }
      }
      PyStripKeeps(s, unsigned[0]);
      if t[0] == '-' then Some(-(n as int)) else Some(n)
  }

  /** Every character of the stripped text is a character of the text. */
  lemma {:induction false} PyStripKeeps(s: string, c: char)
    requires c in PyStrip(s)
    ensures c in s
    decreases |s|
  {
    if s != [] && IsPySpace(s[0]) {
      PyStripKeeps(s[1..], c);
    } else if s != [] && IsPySpace(s[|s| - 1]) {
      PyStripKeeps(s[..|s| - 1], c);
    }
  }

  /** A rendered id converts back to the id. */
  lemma PyIntOfStr(n: nat)
    ensures PyInt(Str(n)) == Some(n as int)
  {
    var s := Str(n);
    assert !IsPySpace(s[0]) && !IsPySpace(s[|s| - 1]);
    assert PyStrip(s) == s;
    DigitsValueOfStr(n);
  }

  /** White space around a rendered id and a `+` in front of it are accepted too. */
  lemma PyIntOfPadded(pre: string, n: nat, post: string)
    requires forall i :: 0 <= i < |pre| ==> IsPySpace(pre[i])
    requires forall i :: 0 <= i < |post| ==> IsPySpace(post[i])
    ensures PyInt(pre + "+" + Str(n) + post) == Some(n as int)
  {
    var core := "+" + Str(n);
    var s := pre + core + post;
    assert pre + "+" + Str(n) + post == s;
    assert core[|core| - 1] == Str(n)[|Str(n)| - 1];
    PyStripPadded(pre, core, post);
    assert core[1..] == Str(n);
    PyStripDigits(n);
    PyIntSigned(s, n);
  }

  /** A rendered id has nothing to strip, and its digits denote the id. */
  lemma PyStripDigits(n: nat)
    ensures PyStrip(Str(n)) == Str(n)
    ensures Decimal(Str(n)) == Some(n)
  {
    var s := Str(n);
    assert !IsPySpace(s[0]) && !IsPySpace(s[|s| - 1]);
    DigitsValueOfStr(n);
  }

  /** A text that strips to a sign and, after further stripping, a rendered id. */
  lemma PyIntSigned(s: string, n: nat)
    requires PyStrip(s) != [] && PyStrip(s)[0] in "+-"
    requires PyStrip(PyStrip(s)[1..]) == Str(n)
    ensures PyInt(s) == if PyStrip(s)[0] == '-' then Some(-(n as int)) else Some(n as int)
  {
    PyStripDigits(n);
  }

  /** White space between the sign and the digits is skipped: `int('- 5') == -5`. */
  lemma PyIntSpaceAfterSign(sp: string, n: nat)
    requires forall i :: 0 <= i < |sp| ==> IsPySpace(sp[i])
    ensures PyInt("-" + sp + Str(n)) == Some(-(n as int))
  {
    var d := Str(n);
    StrEnds(n);
    var s := "-" + sp + d;
    assert PyStrip(s) == s by {
      assert s[|s| - 1] == d[|d| - 1];
      assert s == [] + s + [];
      PyStripPadded([], s, []);
    }
    assert PyStrip(s[1..]) == d by {
      assert s[1..] == sp + d + [];
      PyStripPadded(sp, d, []);
    }
    PyIntSigned(s, n);
  }

  /** A rendered id starts and ends with a digit. */
  lemma StrEnds(n: nat)
    ensures Str(n) != [] && IsDigit(Str(n)[0]) && IsDigit(Str(n)[|Str(n)| - 1])
  {
  }

  lemma PyIntMinusSpaceFive()
    ensures PyInt("- 5") == Some(-5)
  {
    PyIntSpaceAfterSign(" ", 5);
    assert Str(5) == "5";
    assert "-" + " " + Str(5) == "- 5";
  }

  lemma {:induction false} PyStripPadded(pre: string, core: string, post: string)
    requires forall i :: 0 <= i < |pre| ==> IsPySpace(pre[i])
    requires forall i :: 0 <= i < |post| ==> IsPySpace(post[i])
    requires core != [] && !IsPySpace(core[0]) && !IsPySpace(core[|core| - 1])
    ensures PyStrip(pre + core + post) == core
    decreases |pre| + |post|
  {
    var s := pre + core + post;
    if pre != [] {
      assert s[0] == pre[0];
      assert s[1..] == pre[1..] + core + post;
      PyStripPadded(pre[1..], core, post);
    } else if post != [] {
      assert s == core + post;
      assert s[0] == core[0];
      assert s[|s| - 1] == post[|post| - 1];
      assert s[..|s| - 1] == pre + core + post[..|post| - 1];
      PyStripPadded(pre, core, post[..|post| - 1]);
    } else {
      assert s == core;
    }
  }

  lemma ParseNatOfStr(n: nat)
    ensures ParseNat(Str(n)) == Some(n)
  {
    DigitsValueOfStr(n);
  }

  lemma ParseIntOfStr(n: nat)
    ensures ParseInt(Str(n)) == Some(n as int)
  {
    ParseNatOfStr(n);
    assert Str(n)[0] != '-';
  }

  lemma {:induction false} ParseElementsOfRendered(tokens: seq<string>, ids: seq<nat>)
    requires |tokens| == |ids|
    requires forall k :: 0 <= k < |ids| ==> Trim(tokens[k]) == Str(ids[k])
    ensures ParseElements(tokens) == Some(ids)
    decreases |ids|
  {
    if ids != [] {
      ParseElementsOfRendered(tokens[1..], ids[1..]);
      ParseIntOfStr(ids[0]);
      var rest: seq<int> := ids[1..];
      assert ParseElements(tokens) == Some([ids[0] as int] + rest);
      assert [ids[0] as int] + rest == ids;
    }
  }

  lemma TrimmedNotBlank(t: string, n: nat)
    requires Trim(t) == Str(n)
    ensures !IsBlank(t)
  {
    var l := TrimLeft(t);
    var r := TrimRight(l);
    assert r[0] == l[0] == t[|t| - |l|];
  }

  /**
   * Round trip: the option ids a client sends, each padded with any JSON white
   * space and joined by commas, are read back as exactly those ids, in order.
   */
  lemma ParseIdListOfJoined(tokens: seq<string>, ids: seq<nat>)
    requires |tokens| == |ids|
    requires forall k :: 0 <= k < |ids| ==> ',' !in tokens[k] && Trim(tokens[k]) == Str(ids[k])
    ensures ParseIdList(Join(",", tokens)) == Some(ids)
  {
    if ids != [] {
      SplitJoin(tokens, ',');
      assert Join(",", tokens) == Join([','], tokens);
      ParseElementsOfRendered(tokens, ids);
      TrimmedNotBlank(tokens[0], ids[0]);
      JoinBlank(tokens);
    }
  }

  lemma {:induction false} JoinBlank(tokens: seq<string>)
    requires |tokens| >= 1 && !IsBlank(tokens[0])
    ensures !IsBlank(Join(",", tokens))
  {
    var i :| 0 <= i < |tokens[0]| && !IsJsonSpace(tokens[0][i]);
    if |tokens| >= 2 {
      assert Join(",", tokens)[i] == tokens[0][i];
    }
  }
}
