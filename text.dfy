/** Python string primitives the parser and the analysers rely on, on ASCII text:
    `sub in s`, `s.split(sep)`, `s.strip()`, `s.lower()`, `int(s)` and `str(n)`. */
module Text {

  datatype Option<T> = None | Some(value: T) {
    /** Python's `x if x is not None else default`. */
    function GetOr(default: T): T {
      if Some? then value else default
    }
  }

  /** Python's `\s` restricted to ASCII: space, \t, \n, \v, \f, \r. */
  predicate IsSpace(c: char) {
    c == ' ' || c == '\t' || c == '\n' || c == '\U{0B}' || c == '\U{0C}' || c == '\r'
  }

  predicate IsDigit(c: char) { '0' <= c <= '9' }

  /** Python's `\w` restricted to ASCII. */
  predicate IsWordChar(c: char) {
    'a' <= c <= 'z' || 'A' <= c <= 'Z' || IsDigit(c) || c == '_'
  }

  predicate IsDigits(s: string) {
    forall i :: 0 <= i < |s| ==> IsDigit(s[i])
  }

  predicate StartsWith(s: string, prefix: string) {
    |prefix| <= |s| && s[..|prefix|] == prefix
  }

  /** `sub` occurs in `s` at index `j`. */
  predicate OccursAt(s: string, sub: string, j: int) {
    0 <= j && j + |sub| <= |s| && s[j..j + |sub|] == sub
  }

  /** The first index at which `sub` occurs in `s` (Python's `s.find(sub)`). */
  function IndexOf(s: string, sub: string): (r: Option<nat>)
    ensures r.Some? ==> OccursAt(s, sub, r.value)
    ensures r.Some? ==> forall j :: 0 <= j < r.value ==> !OccursAt(s, sub, j)
    ensures r.None? ==> forall j :: 0 <= j <= |s| ==> !OccursAt(s, sub, j)
    decreases |s|
  {
    if StartsWith(s, sub) then Some(0)
    else if s == [] then None
    else
      match IndexOf(s[1..], sub)
      case Some(i) =>
        assert forall j :: 1 <= j <= |s| ==> (OccursAt(s, sub, j) <==> OccursAt(s[1..], sub, j - 1));
        Some(i + 1)
      case None =>
        assert forall j :: 1 <= j <= |s| ==> (OccursAt(s, sub, j) <==> OccursAt(s[1..], sub, j - 1));
        None
  }

  /** Python's `sub in s`. */
  predicate Contains(s: string, sub: string) {
    IndexOf(s, sub).Some?
  }

  lemma ContainsAt(s: string, sub: string, j: int)
    requires OccursAt(s, sub, j)
    ensures Contains(s, sub)
  {
  }

  /** An occurrence past the first character is an occurrence in the whole text. */
  lemma ContainsTail(s: string, sub: string)
    requires s != [] && Contains(s[1..], sub)
    ensures Contains(s, sub)
  {
    var j := IndexOf(s[1..], sub).value;
    assert s[1..][j..j + |sub|] == s[j + 1..j + 1 + |sub|];
    ContainsAt(s, sub, j + 1);
  }

  /** Text found in the first part of a concatenation is found in the whole. */
  lemma ContainsLeft(a: string, b: string, sub: string)
    requires Contains(a, sub)
    ensures Contains(a + b, sub)
  {
    var j := IndexOf(a, sub).value;
    assert (a + b)[j..j + |sub|] == a[j..j + |sub|];
    ContainsAt(a + b, sub, j);
  }

  /** Text found in the second part of a concatenation is found in the whole. */
  lemma ContainsRight(a: string, b: string, sub: string)
    requires Contains(b, sub)
    ensures Contains(a + b, sub)
  {
    var j := IndexOf(b, sub).value;
    assert (a + b)[|a| + j..|a| + j + |sub|] == b[j..j + |sub|];
    ContainsAt(a + b, sub, |a| + j);
  }

  /** Python's `sep.join(parts)`. */
  function Join(parts: seq<string>, sep: string): string
  {
    if |parts| == 0 then ""
    else if |parts| == 1 then parts[0]
    else parts[0] + sep + Join(parts[1..], sep)
  }

  lemma JoinCons(x: string, rest: seq<string>, sep: string)
    requires rest != []
    ensures Join([x] + rest, sep) == x + sep + Join(rest, sep)
  {
    assert ([x] + rest)[1..] == rest;
  }

  /** Joining one more part appends the separator and that part. */
  lemma {:induction false} JoinSnoc(parts: seq<string>, v: string, sep: string)
    requires parts != []
    ensures Join(parts + [v], sep) == Join(parts, sep) + sep + v
  {
    if |parts| > 1 {
      assert (parts + [v])[1..] == parts[1..] + [v];
      JoinSnoc(parts[1..], v, sep);
    }
  }

  /** Text cut off before the first occurrence of `sub` does not contain it. */
  lemma NoneBeforeFirst(s: string, sub: string, i: nat)
    requires sub != [] && i <= |s|
    requires forall j :: 0 <= j < i ==> !OccursAt(s, sub, j)
    ensures !Contains(s[..i], sub)
  {
    if Contains(s[..i], sub) {
      var j := IndexOf(s[..i], sub).value;
      assert s[j..j + |sub|] == s[..i][j..j + |sub|];
      assert OccursAt(s, sub, j);
    }
  }

  /** Python's `s.split(sep)` for a non-empty separator: joining the pieces
      with `sep` gives `s` back. */
  function Split(s: string, sep: string): (r: seq<string>)
    requires sep != []
    ensures |r| >= 1
    ensures Join(r, sep) == s
    decreases |s|
  {
    match IndexOf(s, sep)
    case None => [s]
    case Some(i) =>
      var rest := Split(s[i + |sep|..], sep);
      JoinCons(s[..i], rest, sep);
      assert s == s[..i] + sep + s[i + |sep|..];
      [s[..i]] + rest
  }

  /** No piece of a split contains the separator. */
  lemma {:induction false} SplitPiecesFree(s: string, sep: string)
    requires sep != []
    ensures forall k :: 0 <= k < |Split(s, sep)| ==> !Contains(Split(s, sep)[k], sep)
    decreases |s|
  {
    match IndexOf(s, sep)
    case None =>
    case Some(i) =>
      NoneBeforeFirst(s, sep, i);
      SplitPiecesFree(s[i + |sep|..], sep);
  }

  /** A split has a single piece exactly when the separator does not occur. */
  lemma SplitSingle(s: string, sep: string)
    requires sep != []
    ensures |Split(s, sep)| == 1 <==> !Contains(s, sep)
  {
  }

  /** A separator found twice, without overlap, splits the text in three or more pieces. */
  lemma SplitTwice(s: string, sep: string, i: int, j: int)
    requires sep != []
    requires OccursAt(s, sep, i) && OccursAt(s, sep, j) && i + |sep| <= j
    ensures |Split(s, sep)| >= 3
  {
    var f := IndexOf(s, sep).value;
    assert f <= i;
    var rest := s[f + |sep|..];
    assert OccursAt(rest, sep, j - f - |sep|) by {
      assert rest[j - f - |sep|..j - f] == s[j..j + |sep|];
    }
    SplitSingle(rest, sep);
  }

  /** Python's `s.split(sep, 1)[0]`, equally `s.split(sep)[0]`: the text before
      the first occurrence of `sep`, or all of `s`. */
  function Before(s: string, sep: string): (r: string)
    requires sep != []
    ensures r == Split(s, sep)[0]
    ensures StartsWith(s, r)
    ensures !Contains(r, sep)
    ensures !Contains(s, sep) ==> r == s
  {
    match IndexOf(s, sep)
    case None => s
    case Some(i) =>
      NoneBeforeFirst(s, sep, i);
      s[..i]
  }

  /** When `sep` occurs, the text starts with the part before it followed by `sep`. */
  lemma BeforeSep(s: string, sep: string)
    requires sep != [] && Contains(s, sep)
    ensures StartsWith(s, Before(s, sep) + sep)
  {
    var i := IndexOf(s, sep).value;
    assert s[..i + |sep|] == s[..i] + s[i..i + |sep|];
  }

  /** Cutting at a one-character separator that the head does not hold gives
      the head back. */
  lemma BeforeChar(a: string, c: char, b: string)
    requires c !in a
    ensures Before(a + [c] + b, [c]) == a
  {
    var s := a + [c] + b;
    assert OccursAt(s, [c], |a|) by { assert s[|a|..|a| + 1] == [c]; }
    forall j | 0 <= j < |a| ensures !OccursAt(s, [c], j) {
      assert s[j..j + 1] == [a[j]];
    }
    assert s[..|a|] == a;
  }

  /** Python's `s.split('\n')`. */
  function Lines(s: string): seq<string>
  {
    Split(s, "\n")
  }

  /** The longest prefix of `s` whose characters are all in the class `p`. */
  function TakeWhile(s: string, p: char -> bool): (r: string)
    ensures StartsWith(s, r)
    ensures forall i :: 0 <= i < |r| ==> p(r[i])
    ensures |r| < |s| ==> !p(s[|r|])
  {
    if s == [] || !p(s[0]) then "" else [s[0]] + TakeWhile(s[1..], p)
  }

  /** A run of class characters followed by a character outside the class is
      exactly what `TakeWhile` takes. */
  lemma {:induction false} TakeWhileRun(a: string, b: string, p: char -> bool)
    requires forall i :: 0 <= i < |a| ==> p(a[i])
    requires b == [] || !p(b[0])
    ensures TakeWhile(a + b, p) == a
  {
    if a != [] {
      assert (a + b)[1..] == a[1..] + b;
      TakeWhileRun(a[1..], b, p);
    } else {
      assert a + b == b;
    }
  }

  /** Python's `s.lstrip()`. */
  function TrimLeft(s: string): (r: string)
    ensures |r| <= |s| && r == s[|s| - |r|..]
    ensures r != [] ==> !IsSpace(r[0])
    ensures forall i :: 0 <= i < |s| - |r| ==> IsSpace(s[i])
  {
    if s != [] && IsSpace(s[0]) then TrimLeft(s[1..]) else s
  }

  /** Whitespace in front of a text is dropped by `lstrip` with the rest of
      its leading whitespace. */
  lemma {:induction false} TrimLeftIndent(ws: string, s: string)
    requires forall i :: 0 <= i < |ws| ==> IsSpace(ws[i])
    ensures TrimLeft(ws + s) == TrimLeft(s)
  {
    if ws != [] {
      assert (ws + s)[1..] == ws[1..] + s;
      TrimLeftIndent(ws[1..], s);
    } else {
      assert ws + s == s;
    }
  }

  /** `lstrip` drops exactly the whitespace in front of the first other character. */
  lemma {:induction false} TrimLeftSpaces(ws: string, x: string)
    requires forall i :: 0 <= i < |ws| ==> IsSpace(ws[i])
    requires x == [] || !IsSpace(x[0])
    ensures TrimLeft(ws + x) == x
  {
    if ws != [] {
      assert (ws + x)[1..] == ws[1..] + x;
      TrimLeftSpaces(ws[1..], x);
    } else {
      assert ws + x == x;
    }
  }

  /** Python's `s.rstrip()`. */
  function TrimRight(s: string): (r: string)
    ensures StartsWith(s, r)
    ensures r != [] ==> !IsSpace(r[|r| - 1])
    ensures forall i :: |r| <= i < |s| ==> IsSpace(s[i])
  {
    if s != [] && IsSpace(s[|s| - 1]) then TrimRight(s[..|s| - 1]) else s
  }

  /** Python's `s.strip()`. */
  function Strip(s: string): string
  {
    TrimRight(TrimLeft(s))
  }

  /** True when `s` holds a character other than whitespace. */
  predicate HasNonSpace(s: string) {
    exists i :: 0 <= i < |s| && !IsSpace(s[i])
  }

  function LowerChar(c: char): char {
    if 'A' <= c <= 'Z' then (c as int - 'A' as int + 'a' as int) as char else c
  }

  /** Python's `s.lower()` on ASCII letters. */
  function Lower(s: string): (r: string)
    ensures |r| == |s|
    ensures forall i :: 0 <= i < |s| ==> r[i] == LowerChar(s[i])
  {
    seq(|s|, i requires 0 <= i < |s| => LowerChar(s[i]))
  }

  lemma LowerConcat(a: string, b: string)
    ensures Lower(a + b) == Lower(a) + Lower(b)
  {
  }

  /** Python's `s.replace(c, '')` for one character. */
  function Remove(s: string, c: char): (r: string)
    ensures c !in r
    ensures |r| <= |s|
  {
    if s == [] then ""
    else if s[0] == c then Remove(s[1..], c)
    else [s[0]] + Remove(s[1..], c)
  }

  lemma RemoveAbsent(s: string, c: char)
    requires c !in s
    ensures Remove(s, c) == s
  {
    if s != [] {
      assert c !in s[1..];
      RemoveAbsent(s[1..], c);
    }
  }

  /** Removing a character distributes over concatenation. */
  lemma {:induction false} RemoveConcat(a: string, b: string, c: char)
    ensures Remove(a + b, c) == Remove(a, c) + Remove(b, c)
  {
    if a != [] {
      assert (a + b)[1..] == a[1..] + b;
      RemoveConcat(a[1..], b, c);
    } else {
      assert a + b == b;
    }
  }

  /** A first character other than the removed one stays first. */
  lemma RemoveKeepsHead(s: string, c: char)
    requires s != [] && s[0] != c
    ensures Remove(s, c) != [] && Remove(s, c)[0] == s[0]
  {
  }

  function DigitValue(c: char): nat
    requires IsDigit(c)
  {
    c as int - '0' as int
  }

  function DigitChar(d: nat): (c: char)
    requires d < 10
    ensures IsDigit(c) && DigitValue(c) == d
  {
    ('0' as int + d) as char
  }

  /** The number a string of decimal digits denotes. */
  function DigitsValue(s: string): nat
    requires IsDigits(s)
  {
    if s == [] then 0 else DigitsValue(s[..|s| - 1]) * 10 + DigitValue(s[|s| - 1])
  }

  /** Python's `str(n)` for a natural number. */
  function NatToString(n: nat): (r: string)
    ensures r != [] && IsDigits(r)
  {
    if n < 10 then [DigitChar(n)] else NatToString(n / 10) + [DigitChar(n % 10)]
  }

  /** Decimal rendering and reading are inverse: `int(str(n)) == n`. */
  lemma {:induction false} NatToStringRoundTrip(n: nat)
    ensures DigitsValue(NatToString(n)) == n
  {
    var s := NatToString(n);
    if n >= 10 {
      NatToStringRoundTrip(n / 10);
      assert s[..|s| - 1] == NatToString(n / 10);
    }
  }

  /** Python's `str(i)` for any integer. */
  function IntToString(i: int): (r: string)
    ensures r != []
    ensures i >= 0 ==> r == NatToString(i)
    ensures i < 0 ==> r[0] == '-'
  {
    if i < 0 then "-" + NatToString(-i) else NatToString(i)
  }

  /** Python's `int(s)` on ASCII text: surrounding whitespace, an optional sign
      and a non-empty run of decimal digits; anything else is a ValueError. */
  function ParseInt(s: string): Option<int>
  {
    var t := Strip(s);
    if t == [] then None
    else if t[0] == '-' || t[0] == '+' then
      if t[1..] != [] && IsDigits(t[1..]) then
        var magnitude: int := DigitsValue(t[1..]);
        Some(if t[0] == '-' then -magnitude else magnitude)
      else None
    else if IsDigits(t) then Some(DigitsValue(t))
    else None
  }

  lemma StripUnchanged(s: string)
    requires s != [] && !IsSpace(s[0]) && !IsSpace(s[|s| - 1])
    ensures Strip(s) == s
  {
  }

  /** A number written with a comma between digit groups is not an integer to `int()`. */
  lemma ParseGrouped(a: string, b: string)
    requires a != [] && IsDigits(a) && b != [] && IsDigits(b)
    ensures ParseInt(a + "," + b) == None
  {
    var s := a + "," + b;
    assert s[0] == a[0] && s[|s| - 1] == b[|b| - 1];
    StripUnchanged(s);
    assert s[|a|] == ',';
  }

  /** `int` of a non-empty digit string is the number the digits denote. */
  lemma ParseDigits(s: string)
    requires s != [] && IsDigits(s)
    ensures ParseInt(s) == Some(DigitsValue(s))
  {
    StripUnchanged(s);
  }

  /** `int(str(i)) == i` for every integer. */
  lemma IntToStringRoundTrip(i: int)
    ensures ParseInt(IntToString(i)) == Some(i)
  {
    var s := IntToString(i);
    if i >= 0 {
      NatToStringRoundTrip(i);
      ParseDigits(s);
    } else {
      var d := NatToString(-i);
      NatToStringRoundTrip(-i);
      assert s == "-" + d;
      assert IsDigit(d[|d| - 1]);
      StripUnchanged(s);
      assert s[1..] == d;
    }
  }
}
