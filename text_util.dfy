/**
 * Character- and string-level helpers shared by the whole model: the
 * JavaScript whitespace class, ASCII case mapping, substring search, trimming,
 * splitting on a one-character separator and joining.
 */
module TextUtil {

  /** The characters JavaScript's `\s` and `String.prototype.trim` treat as
      white space (WhiteSpace and LineTerminator of ECMA-262). */
  predicate IsSpace(c: char)
  {
    c == ' ' || c == '\t' || c == '\n' || c == '\U{B}' || c == '\U{C}' || c == '\r'
    || c == '\U{A0}' || c == '\U{1680}' || ('\U{2000}' <= c <= '\U{200A}')
    || c == '\U{2028}' || c == '\U{2029}' || c == '\U{202F}' || c == '\U{205F}'
    || c == '\U{3000}' || c == '\U{FEFF}'
  }

  predicate HasSpace(s: string)
  {
    exists i :: 0 <= i < |s| && IsSpace(s[i])
  }

  predicate IsDigit(c: char)
  {
    '0' <= c <= '9'
  }

  predicate AllDigits(s: string)
  {
    forall i :: 0 <= i < |s| ==> IsDigit(s[i])
  }

  /** ASCII lower-casing of one character. */
  function LowerChar(c: char): char
  {
    if 'A' <= c <= 'Z' then (c as int + 32) as char else c
  }

  /** ASCII upper-casing of one character. */
  function UpperChar(c: char): char
  {
    if 'a' <= c <= 'z' then (c as int - 32) as char else c
  }

  function Lower(s: string): (r: string)
    ensures |r| == |s|
    ensures forall i :: 0 <= i < |s| ==> r[i] == LowerChar(s[i])
  {
    seq(|s|, i requires 0 <= i < |s| => LowerChar(s[i]))
  }

  function Upper(s: string): (r: string)
    ensures |r| == |s|
    ensures forall i :: 0 <= i < |s| ==> r[i] == UpperChar(s[i])
  {
    seq(|s|, i requires 0 <= i < |s| => UpperChar(s[i]))
  }

  lemma LowerIdempotent(s: string)
    ensures Lower(Lower(s)) == Lower(s)
  {
    assert forall i :: 0 <= i < |s| ==> LowerChar(LowerChar(s[i])) == LowerChar(s[i]);
  }

  /** Lower-casing forgets any earlier upper-casing. */
  lemma LowerUpper(s: string)
    ensures Lower(Upper(s)) == Lower(s)
  {
    assert forall i :: 0 <= i < |s| ==> LowerChar(UpperChar(s[i])) == LowerChar(s[i]);
  }

  lemma LowerKeepsSpaces(s: string)
    ensures forall i :: 0 <= i < |s| ==> (IsSpace(Lower(s)[i]) <==> IsSpace(s[i]))
  {
  }

  lemma UpperConcat(a: string, b: string)
    ensures Upper(a + b) == Upper(a) + Upper(b)
  {
  }

  lemma LowerConcat(a: string, b: string)
    ensures Lower(a + b) == Lower(a) + Lower(b)
  {
  }

  /** `s.includes(sub)`: `sub` occurs in `s` at some position. */
  predicate Contains(s: string, sub: string)
  {
    exists i :: 0 <= i <= |s| && OccursAt(s, sub, i)
  }

  predicate OccursAt(s: string, sub: string, i: int)
  {
    0 <= i <= |s| - |sub| && s[i..i + |sub|] == sub
  }

  lemma ContainsEmpty(s: string)
    ensures Contains(s, "")
  {
    assert OccursAt(s, "", 0);
  }

  /** Whatever sits between two other pieces occurs in the whole. */
  lemma ContainsInfix(a: string, b: string, c: string)
    ensures Contains(a + b + c, b)
  {
    assert (a + b + c)[|a|..|a| + |b|] == b;
    assert OccursAt(a + b + c, b, |a|);
  }

  lemma ContainsSecondOfFour(a: string, b: string, c: string, d: string)
    ensures Contains(a + b + c + d, b)
  {
    assert a + b + c + d == a + b + (c + d);
    ContainsInfix(a, b, c + d);
  }

  lemma ContainsTransitive(a: string, b: string, c: string)
    requires Contains(a, b) && Contains(b, c)
    ensures Contains(a, c)
  {
    var i :| 0 <= i <= |a| && OccursAt(a, b, i);
    var j :| 0 <= j <= |b| && OccursAt(b, c, j);
    assert forall k :: 0 <= k < |b| ==> a[i + k] == b[k];
    assert forall k :: 0 <= k < |c| ==> b[j + k] == c[k];
    assert a[i + j..i + j + |c|] == c;
    assert OccursAt(a, c, i + j);
  }

  /** `s.startsWith(p)` */
  predicate StartsWith(s: string, p: string)
  {
    |p| <= |s| && s[..|p|] == p
  }

  /** Text starts with whatever is written first. */
  lemma StartsWithAppend(a: string, b: string, c: string)
    ensures StartsWith(a + b + c, a)
  {
    assert (a + b + c)[..|a|] == a;
  }

  /** Text that starts with `a + b` contains `a`. */
  lemma StartsWithContains(s: string, a: string, b: string)
    requires StartsWith(s, a + b)
    ensures Contains(s, a)
  {
    assert s[..|a|] == (a + b)[..|a|] == a;
    assert OccursAt(s, a, 0);
  }

  /** `s.substring(0, n)` */
  function Take(s: string, n: nat): (r: string)
    ensures |r| <= n && |r| <= |s|
    ensures r == s[..|r|]
    ensures |s| <= n ==> r == s
  {
    if |s| <= n then s else s[..n]
  }

  function TrimStart(s: string): (r: string)
    ensures |r| <= |s| && r == s[|s| - |r|..]
    ensures r == [] || !IsSpace(r[0])
    ensures forall i :: 0 <= i < |s| - |r| ==> IsSpace(s[i])
  {
    if |s| > 0 && IsSpace(s[0]) then TrimStart(s[1..]) else s
  }

  function TrimEnd(s: string): (r: string)
    ensures |r| <= |s| && r == s[..|r|]
    ensures r == [] || !IsSpace(r[|r| - 1])
    ensures forall i :: |r| <= i < |s| ==> IsSpace(s[i])
  {
    if |s| > 0 && IsSpace(s[|s| - 1]) then TrimEnd(s[..|s| - 1]) else s
  }

  /** `s.trim()`: the longest infix of `s` that neither starts nor ends with
      white space, everything around it being white space. */
  function Trim(s: string): (r: string)
    ensures r == [] || (!IsSpace(r[0]) && !IsSpace(r[|r| - 1]))
    ensures exists a :: TrimmedAt(s, r, a)
  {
    var t := TrimStart(s);
    var r := TrimEnd(t);
    assert TrimmedAt(s, r, |s| - |t|);
    r
  }

  /** `r` is the infix of `s` at `a`, and only white space surrounds it. */
  predicate TrimmedAt(s: string, r: string, a: int)
  {
    0 <= a <= |s| - |r| && r == s[a..a + |r|]
    && (forall i :: 0 <= i < a ==> IsSpace(s[i]))
    && (forall i :: a + |r| <= i < |s| ==> IsSpace(s[i]))
  }

  /** Trimming takes away characters and adds none. */
  lemma TrimKeepsOut(s: string, c: char)
    requires c !in s
    ensures c !in Trim(s)
  {
    var r := Trim(s);
    var a :| TrimmedAt(s, r, a);
    assert forall j :: 0 <= j < |r| ==> r[j] == s[a + j];
  }

  lemma {:induction false} TrimStartUnchanged(s: string)
    requires |s| > 0 && !IsSpace(s[0])
    ensures TrimStart(s) == s
  {
  }

  lemma {:induction false} TrimUnchanged(s: string)
    requires |s| > 0 && !IsSpace(s[0]) && !IsSpace(s[|s| - 1])
    ensures Trim(s) == s
  {
  }

  /** A word after one space trims to the word. */
  lemma TrimAfterSpace(w: string)
    requires |w| > 0 && !IsSpace(w[0]) && !IsSpace(w[|w| - 1])
    ensures Trim(" " + w) == w
  {
    assert (" " + w)[1..] == w;
    assert TrimStart(" " + w) == TrimStart(w);
    TrimUnchanged(w);
  }

  /** White space alone trims to nothing. */
  lemma TrimSpaces(s: string)
    requires forall i :: 0 <= i < |s| ==> IsSpace(s[i])
    ensures Trim(s) == ""
  {
  }

  /** The index of the first occurrence of `c` in `s`, or `|s|`. */
  function IndexOf(s: string, c: char): (k: nat)
    ensures k <= |s|
    ensures k < |s| ==> s[k] == c
    ensures forall i :: 0 <= i < k ==> s[i] != c
  {
    if |s| == 0 || s[0] == c then 0 else 1 + IndexOf(s[1..], c)
  }

  /** `s.split(c)` for a one-character separator: the pieces between
      occurrences of `c`; there is always one piece more than there are
      separators, so `""` gives `[""]`. */
  function Split(s: string, c: char): (r: seq<string>)
    ensures |r| >= 1
    ensures forall k :: 0 <= k < |r| ==> c !in r[k]
    decreases |s|
  {
    var k := IndexOf(s, c);
    if k == |s| then [s] else [s[..k]] + Split(s[k + 1..], c)
  }

  /** `parts.join(sep)` */
  function Join(parts: seq<string>, sep: string): string
  {
    if |parts| == 0 then ""
    else if |parts| == 1 then parts[0]
    else parts[0] + sep + Join(parts[1..], sep)
  }

  /** Splitting and joining again on the same separator gives back the text. */
  lemma {:induction false} JoinSplit(s: string, c: char)
    ensures Join(Split(s, c), [c]) == s
    decreases |s|
  {
    var k := IndexOf(s, c);
    if k < |s| {
      var rest := Split(s[k + 1..], c);
      JoinSplit(s[k + 1..], c);
      assert Split(s, c) == [s[..k]] + rest;
      assert s == s[..k] + [c] + s[k + 1..];
    }
  }

  /** Joining pieces free of the separator and splitting again gives back
      the pieces. */
  lemma {:induction false} SplitJoin(parts: seq<string>, c: char)
    requires |parts| >= 1
    requires forall i :: 0 <= i < |parts| ==> c !in parts[i]
    ensures Split(Join(parts, [c]), c) == parts
    decreases |parts|
  {
    var a := parts[0];
    if |parts| == 1 {
      assert IndexOf(a, c) == |a|;
    } else {
      var rest := parts[1..];
      var b := Join(rest, [c]);
      var s := a + [c] + b;
      assert Join(parts, [c]) == s;
      assert s[|a|] == c;
      assert forall i :: 0 <= i < |a| ==> s[i] == a[i];
      assert IndexOf(s, c) == |a|;
      assert s[..|a|] == a && s[|a| + 1..] == b;
      SplitJoin(rest, c);
    }
  }

  /** The concatenation of the parts, in order. */
  function Concat(parts: seq<string>): string
  {
    if |parts| == 0 then "" else Concat(parts[..|parts| - 1]) + parts[|parts| - 1]
  }

  /** Every part occurs in the concatenation of all parts. */
  lemma {:induction false} ConcatContains(parts: seq<string>, i: nat)
    requires i < |parts|
    ensures Contains(Concat(parts), parts[i])
  {
    var init := parts[..|parts| - 1];
    var last := parts[|parts| - 1];
    assert Concat(parts) == Concat(init) + last;
    if i == |parts| - 1 {
      ContainsInfix(Concat(init), last, "");
      assert Concat(init) + last + "" == Concat(parts);
    } else {
      ConcatContains(init, i);
      ContainsInfix("", Concat(init), last);
      assert "" + Concat(init) + last == Concat(parts);
      ContainsTransitive(Concat(parts), Concat(init), parts[i]);
    }
  }

  /** `s.replace(from, to)` with a one-character pattern: only the first
      occurrence is replaced. */
  function ReplaceFirst(s: string, from: char, to: char): (r: string)
    ensures |r| == |s|
    ensures var k := IndexOf(s, from);
            (forall i :: 0 <= i < |s| && i != k ==> r[i] == s[i])
            && (k < |s| ==> r[k] == to)
  {
    var k := IndexOf(s, from);
    if k == |s| then s else s[..k] + [to] + s[k + 1..]
  }
}
