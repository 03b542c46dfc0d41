/** The few pieces of Python's `str` behaviour that parse_query relies on:
    `str.split` with an explicit separator, `str.upper` (ASCII letters only),
    and the textual form `int()` accepts. */
module PyText {

  /** Position of the first occurrence of `c` in `s`. */
  function IndexOf(s: string, c: char): (i: nat)
    requires c in s
    ensures i < |s| && s[i] == c && c !in s[..i]
  {
    if s[0] == c then 0
    else
      var j := IndexOf(s[1..], c);
      assert s[..j + 1] == [s[0]] + s[1..][..j];
      j + 1
  }

  /** `s.split(sep)`: the pieces of `s` between occurrences of `sep`;
      always at least one piece, two or more exactly when `sep` occurs. */
  function Split(s: string, sep: char): (r: seq<string>)
    ensures |r| >= 1
    ensures |r| >= 2 <==> sep in s
    decreases |s|
  {
    if sep in s then
      var i := IndexOf(s, sep);
      [s[..i]] + Split(s[i + 1..], sep)
    else
      [s]
  }

  /** `sep.join(parts)`. */
  function Join(parts: seq<string>, sep: char): string
    requires |parts| >= 1
  {
    if |parts| == 1 then parts[0] else parts[0] + [sep] + Join(parts[1..], sep)
  }

  /** Joining the pieces of a split gives back the original text. */
  lemma {:induction false} JoinSplit(s: string, sep: char)
    ensures Join(Split(s, sep), sep) == s
    decreases |s|
  {
    if sep in s {
      var i := IndexOf(s, sep);
      JoinSplit(s[i + 1..], sep);
      assert s == s[..i] + [sep] + s[i + 1..];
    }
  }

  /** No piece of a split contains the separator. */
  lemma {:induction false} SplitPiecesLackSeparator(s: string, sep: char)
    ensures forall k :: 0 <= k < |Split(s, sep)| ==> sep !in Split(s, sep)[k]
    decreases |s|
  {
    if sep in s {
      var i := IndexOf(s, sep);
      SplitPiecesLackSeparator(s[i + 1..], sep);
    }
  }

  /** The first separator after a separator-free prefix is the one that ends it. */
  lemma {:induction false} IndexOfAfterFreePrefix(a: string, sep: char, b: string)
    requires sep !in a
    ensures IndexOf(a + [sep] + b, sep) == |a|
  {
    if a != [] {
      assert (a + [sep] + b)[1..] == a[1..] + [sep] + b;
      IndexOfAfterFreePrefix(a[1..], sep, b);
    }
  }

  /** Splitting a join of separator-free pieces gives back the pieces:
      together with JoinSplit, split and join are inverse. */
  lemma {:induction false} SplitJoin(parts: seq<string>, sep: char)
    requires |parts| >= 1
    requires forall k :: 0 <= k < |parts| ==> sep !in parts[k]
    ensures Split(Join(parts, sep), sep) == parts
  {
    if |parts| > 1 {
      var s := Join(parts, sep);
      var rest := Join(parts[1..], sep);
      assert s == parts[0] + [sep] + rest;
      assert s[|parts[0]|] == sep;
      assert s[..|parts[0]|] == parts[0];
      IndexOfAfterFreePrefix(parts[0], sep, rest);
      assert s[|parts[0]| + 1..] == rest;
      SplitJoin(parts[1..], sep);
    }
  }

  /** The text before the first `sep` (all of `s` when there is none). */
  function FirstField(s: string, sep: char): string
  {
    if sep in s then s[..IndexOf(s, sep)] else s
  }

  /** The text between the first and the second `sep` (up to the end when there
      is no second one; empty when there is no `sep` at all). */
  function SecondField(s: string, sep: char): string
  {
    if sep in s then FirstField(s[IndexOf(s, sep) + 1..], sep) else ""
  }

  /** `s.split(sep)[0]` and `s.split(sep)[1]` are the first and second fields. */
  lemma SplitFields(s: string, sep: char)
    ensures Split(s, sep)[0] == FirstField(s, sep)
    ensures sep in s ==> Split(s, sep)[1] == SecondField(s, sep)
  {
  }

  /** The fields of `a`, a separator, then `b`, when `a` has no separator. */
  lemma FieldsOfJoined(a: string, sep: char, b: string)
    requires sep !in a
    ensures sep in a + [sep] + b
    ensures FirstField(a + [sep] + b, sep) == a
    ensures SecondField(a + [sep] + b, sep) == FirstField(b, sep)
  {
    IndexOfAfterFreePrefix(a, sep, b);
    assert (a + [sep] + b)[|a| + 1..] == b;
  }

  /** The fields of a text made of `a`, one separator and `b`. */
  lemma FieldsOfPair(s: string, a: string, sep: char, b: string)
    requires s == a + [sep] + b
    requires sep !in a && sep !in b
    ensures sep in s
    ensures FirstField(s, sep) == a && SecondField(s, sep) == b
  {
    FieldsOfJoined(a, sep, b);
  }

  /** The upper-case form of an ASCII lower-case letter; other characters are kept. */
  function UpperChar(c: char): char
  {
    if 'a' <= c <= 'z' then (c as int - 32) as char else c
  }

  predicate IsLower(c: char)
  {
    'a' <= c <= 'z'
  }

  /** `s.upper()` restricted to ASCII: each lower-case letter becomes the
      letter 32 code points below it, every other character is kept. */
  function Upper(s: string): (r: string)
    ensures |r| == |s|
    ensures forall i :: 0 <= i < |s| && IsLower(s[i]) ==> r[i] as int == s[i] as int - 32
    ensures forall i :: 0 <= i < |s| && !IsLower(s[i]) ==> r[i] == s[i]
  {
    seq(|s|, i requires 0 <= i < |s| => UpperChar(s[i]))
  }

  /** Upper-casing leaves no lower-case letter, and doing it twice changes nothing more. */
  lemma UpperIsUpper(s: string)
    ensures forall i :: 0 <= i < |Upper(s)| ==> !IsLower(Upper(s)[i])
    ensures Upper(Upper(s)) == Upper(s)
  {
  }

  /** Text without lower-case letters is its own upper-case form. */
  lemma UpperKeepsNonLower(s: string)
    requires forall i :: 0 <= i < |s| ==> !IsLower(s[i])
    ensures Upper(s) == s
  {
  }

  /** The white space `int()` skips around the digits of a text: tab, line
      feed, vertical tab, form feed, carriage return and space (CPython's
      `Py_ISSPACE`). Unlike `str.isspace`, it does not include the information
      separators U+001C..U+001F. */
  predicate IsIntSpace(c: char)
  {
    '\t' <= c <= '\r' || c == ' '
  }

  predicate AllIntSpace(s: string)
  {
    forall i :: 0 <= i < |s| ==> IsIntSpace(s[i])
  }

  predicate IsDigit(c: char)
  {
    '0' <= c <= '9'
  }

  /** The leading white space `int()` skips, removed. */
  function TrimStart(s: string): (r: string)
    ensures |r| <= |s| && r == s[|s| - |r|..]
    ensures r == [] || !IsIntSpace(r[0])
    ensures forall i :: 0 <= i < |s| - |r| ==> IsIntSpace(s[i])
  {
    if s != [] && IsIntSpace(s[0]) then TrimStart(s[1..]) else s
  }

  /** The trailing white space `int()` skips, removed. */
  function TrimEnd(s: string): (r: string)
    ensures |r| <= |s| && r == s[..|r|]
    ensures r == [] || !IsIntSpace(r[|r| - 1])
    ensures forall i :: |r| <= i < |s| ==> IsIntSpace(s[i])
  {
    if s != [] && IsIntSpace(s[|s| - 1]) then TrimEnd(s[..|s| - 1]) else s
  }

  /** White space in front of a text that does not start with white space is
      exactly what TrimStart removes. */
  lemma {:induction false} TrimStartSkips(lead: string, rest: string)
    requires AllIntSpace(lead)
    requires rest == [] || !IsIntSpace(rest[0])
    ensures TrimStart(lead + rest) == rest
  {
    if lead == [] {
      assert lead + rest == rest;
    } else {
      assert (lead + rest)[1..] == lead[1..] + rest;
      TrimStartSkips(lead[1..], rest);
    }
  }

  /** White space after a text that does not end with white space is exactly
      what TrimEnd removes. */
  lemma {:induction false} TrimEndSkips(rest: string, trail: string)
    requires AllIntSpace(trail)
    requires rest == [] || !IsIntSpace(rest[|rest| - 1])
    ensures TrimEnd(rest + trail) == rest
  {
    if trail == [] {
      assert rest + trail == rest;
    } else {
      var n := |trail| - 1;
      assert (rest + trail)[..|rest| + n] == rest + trail[..n];
      TrimEndSkips(rest, trail[..n]);
    }
  }

  /** CPython's default limit on the digits of a decimal `int()` (see
      `sys.get_int_max_str_digits`); a longer digit string raises ValueError. */
  const IntMaxStrDigits: nat := 4300

  /** The number of decimal digits in `u`. */
  function DigitCount(u: string): (n: nat)
    ensures n <= |u|
  {
    if u == [] then 0 else (if IsDigit(u[0]) then 1 else 0) + DigitCount(u[1..])
  }

  /** Digits, with single underscores allowed between two digits. */
  predicate IsDigitGroups(u: string)
  {
    && |u| > 0
    && IsDigit(u[0])
    && IsDigit(u[|u| - 1])
    && (forall i :: 0 <= i < |u| ==> IsDigit(u[i]) || u[i] == '_')
    && (forall i :: 0 <= i < |u| - 1 && u[i] == '_' ==> u[i + 1] != '_')
  }

  /** The digits `int()` converts: digit groups within the digit limit. */
  predicate IsIntDigits(u: string)
  {
    IsDigitGroups(u) && DigitCount(u) <= IntMaxStrDigits
  }

  /** An optional sign followed by the digits `int()` converts. */
  predicate IsSignedDigits(t: string)
  {
    var u := if |t| > 0 && (t[0] == '+' || t[0] == '-') then t[1..] else t;
    IsIntDigits(u)
  }

  /** The texts `int(s)` accepts in base 10: white space, an optional sign, then
      digit groups of at most IntMaxStrDigits digits, then white space. */
  predicate IsPyIntLiteral(s: string)
  {
    IsSignedDigits(TrimEnd(TrimStart(s)))
  }

  /** A signed digit text is its sign, if any, then its digits. */
  lemma SignedDigitsParts(t: string) returns (sign: string, digits: string)
    requires IsSignedDigits(t)
    ensures t == sign + digits
    ensures sign == "" || sign == "+" || sign == "-"
    ensures IsIntDigits(digits)
  {
    if |t| > 0 && (t[0] == '+' || t[0] == '-') {
      sign, digits := t[..1], t[1..];
    } else {
      sign, digits := "", t;
    }
  }

  /** A text is the white space TrimStart removes followed by the rest. */
  lemma TrimStartSplits(s: string) returns (lead: string)
    ensures s == lead + TrimStart(s) && AllIntSpace(lead)
  {
    var r := TrimStart(s);
    lead := s[..|s| - |r|];
    forall i | 0 <= i < |lead| ensures IsIntSpace(lead[i]) {
      assert lead[i] == s[i];
    }
  }

  /** A text is what TrimEnd keeps followed by the white space it removes. */
  lemma TrimEndSplits(r: string) returns (trail: string)
    ensures r == TrimEnd(r) + trail && AllIntSpace(trail)
  {
    var t := TrimEnd(r);
    trail := r[|t|..];
    forall i | 0 <= i < |trail| ensures IsIntSpace(trail[i]) {
      assert trail[i] == r[|t| + i];
    }
  }

  /** Every text `int()` accepts is white space, an optional sign, digit groups
      within the digit limit, and white space. */
  lemma IntLiteralParts(s: string) returns (lead: string, sign: string, digits: string, trail: string)
    requires IsPyIntLiteral(s)
    ensures s == lead + (sign + digits + trail)
    ensures AllIntSpace(lead) && AllIntSpace(trail)
    ensures sign == "" || sign == "+" || sign == "-"
    ensures IsIntDigits(digits)
  {
    lead := TrimStartSplits(s);
    trail := TrimEndSplits(TrimStart(s));
    sign, digits := SignedDigitsParts(TrimEnd(TrimStart(s)));
  }

  /** A sign followed by digits is a signed digit text that starts and ends
      with something other than white space. */
  lemma SignedDigitsFromParts(sign: string, digits: string)
    requires sign == "" || sign == "+" || sign == "-"
    requires IsIntDigits(digits)
    ensures IsSignedDigits(sign + digits)
    ensures |sign + digits| > 0 && !IsIntSpace((sign + digits)[0])
    ensures !IsIntSpace((sign + digits)[|sign + digits| - 1])
  {
    var core := sign + digits;
    assert core[|core| - 1] == digits[|digits| - 1];
    if sign == "" {
      assert core == digits;
    } else {
      assert core[1..] == digits;
    }
  }

  /** Conversely, `int()` accepts every text of that form. */
  lemma IntLiteralFromParts(lead: string, sign: string, digits: string, trail: string)
    requires AllIntSpace(lead) && AllIntSpace(trail)
    requires sign == "" || sign == "+" || sign == "-"
    requires IsIntDigits(digits)
    ensures IsPyIntLiteral(lead + (sign + digits + trail))
  {
    SignedDigitsFromParts(sign, digits);
    TrimStartSkips(lead, sign + digits + trail);
    TrimEndSkips(sign + digits, trail);
  }

  /** In a text made only of digits every character counts as a digit. */
  lemma {:induction false} AllDigitsCount(u: string)
    requires forall i :: 0 <= i < |u| ==> IsDigit(u[i])
    ensures DigitCount(u) == |u|
  {
    if u != [] {
      AllDigitsCount(u[1..]);
    }
  }

  /** `int()` accepts a non-empty plain digit string within the digit limit. */
  lemma ShortDigitStringAccepted(u: string)
    requires forall i :: 0 <= i < |u| ==> IsDigit(u[i])
    requires 0 < |u| <= IntMaxStrDigits
    ensures IsPyIntLiteral(u)
  {
    AllDigitsCount(u);
    assert IsDigit(u[0]) && IsDigit(u[|u| - 1]);
    assert TrimStart(u) == u;
    assert TrimEnd(u) == u;
    assert IsDigitGroups(u);
  }

  /** `int()` rejects a plain digit string longer than the digit limit. */
  lemma LongDigitStringRejected(u: string)
    requires forall i :: 0 <= i < |u| ==> IsDigit(u[i])
    requires |u| > IntMaxStrDigits
    ensures !IsPyIntLiteral(u)
  {
    AllDigitsCount(u);
    assert IsDigit(u[0]) && IsDigit(u[|u| - 1]);
    assert TrimStart(u) == u;
    assert TrimEnd(u) == u;
  }
}
