/** Splitting, joining and number text: the string helpers that name-server addresses go through. */
module Text {
  import opened Base

  const INT32_LIMIT: nat := 0x8000_0000

  // ---- Splitting and joining ----

  /** One more character in front of a split text. */
  function InFront(c: char, rest: seq<string>, sep: char): (parts: seq<string>)
    requires rest != []
    ensures parts != []
  {
    if c == sep then [""] + rest else [[c] + rest[0]] + rest[1..]
  }

  /** absl::StrSplit: one part more than there are separators. */
  function Split(s: string, sep: char): (parts: seq<string>)
    ensures |parts| >= 1
  {
    if s == "" then [""] else InFront(s[0], Split(s[1..], sep), sep)
  }

  function Join(parts: seq<string>, sep: char): string {
    if parts == [] then ""
    else if |parts| == 1 then parts[0]
    else parts[0] + [sep] + Join(parts[1..], sep)
  }

  function FirstExtended(a: string, parts: seq<string>): (r: seq<string>)
    requires parts != []
    ensures |r| == |parts|
  {
    [a + parts[0]] + parts[1..]
  }

  lemma InFrontFirst(c: char, a: string, parts: seq<string>, sep: char)
    requires parts != [] && c != sep
    ensures InFront(c, FirstExtended(a, parts), sep) == FirstExtended([c] + a, parts)
  {
    assert [c] + (a + parts[0]) == [c] + a + parts[0];
  }

  /** Text without the separator extends the first part only. */
  lemma {:induction false} SplitAfter(a: string, s: string, sep: char)
    requires sep !in a
    ensures Split(a + s, sep) == FirstExtended(a, Split(s, sep))
  {
    if a == "" {
      assert a + s == s && a + Split(s, sep)[0] == Split(s, sep)[0];
    } else {
      SplitAfter(a[1..], s, sep);
      InFrontFirst(a[0], a[1..], Split(s, sep), sep);
      assert (a + s)[1..] == a[1..] + s && [a[0]] + a[1..] == a;
    }
  }

  lemma SplitWhole(s: string, sep: char)
    requires sep !in s
    ensures Split(s, sep) == [s]
  {
    SplitAfter(s, "", sep);
    assert s + "" == s;
  }

  lemma SplitHead(a: string, s: string, sep: char)
    requires sep !in a
    ensures Split(a + [sep] + s, sep) == [a] + Split(s, sep)
  {
    SplitAfter(a, [sep] + s, sep);
    assert a + ([sep] + s) == a + [sep] + s;
    assert ([sep] + s)[1..] == s;
    assert Split([sep] + s, sep) == [""] + Split(s, sep);
    assert a + "" == a;
  }

  function LastExtended(parts: seq<string>, b: string): (r: seq<string>)
    requires parts != []
    ensures |r| == |parts|
  {
    parts[..|parts| - 1] + [parts[|parts| - 1] + b]
  }

  lemma InFrontExtended(c: char, rest: seq<string>, sep: char, b: string)
    requires rest != []
    ensures InFront(c, LastExtended(rest, b), sep) == LastExtended(InFront(c, rest, sep), b)
  {
    if c == sep {
      assert ([""] + rest)[..|rest|] == [""] + rest[..|rest| - 1];
    } else if |rest| == 1 {
      assert [c] + (rest[0] + b) == [c] + rest[0] + b;
    } else {
      var parts := InFront(c, rest, sep);
      assert parts[..|parts| - 1] == [[c] + rest[0]] + rest[1..|rest| - 1];
    }
  }

  /** Text without the separator extends the last part only. */
  lemma {:induction false} SplitBefore(s: string, b: string, sep: char)
    requires sep !in b
    ensures Split(s + b, sep) == LastExtended(Split(s, sep), b)
  {
    if s == "" {
      SplitWhole(b, sep);
      assert s + b == b && "" + b == b;
    } else {
      var rest := Split(s[1..], sep);
      InFrontExtended(s[0], rest, sep, b);
      SplitBefore(s[1..], b, sep);
      assert (s + b)[1..] == s[1..] + b;
    }
  }

  /** Splitting undoes joining, for parts that do not hold the separator. */
  lemma {:induction false} SplitJoin(parts: seq<string>, sep: char)
    requires parts != [] && forall i :: 0 <= i < |parts| ==> sep !in parts[i]
    ensures Split(Join(parts, sep), sep) == parts
  {
    if |parts| == 1 {
      SplitWhole(parts[0], sep);
    } else {
      SplitJoin(parts[1..], sep);
      SplitHead(parts[0], Join(parts[1..], sep), sep);
    }
  }

  lemma {:induction false} SplitFree(s: string, sep: char)
    ensures forall i :: 0 <= i < |Split(s, sep)| ==> sep !in Split(s, sep)[i]
  {
    if s != "" {
      SplitFree(s[1..], sep);
    }
  }

  /** Joining undoes splitting. */
  lemma {:induction false} JoinSplit(s: string, sep: char)
    ensures Join(Split(s, sep), sep) == s
  {
    if s != "" {
      JoinSplit(s[1..], sep);
      var rest := Split(s[1..], sep);
      if s[0] == sep {
        assert ([""] + rest)[1..] == rest;
      } else {
        var parts := [[s[0]] + rest[0]] + rest[1..];
        assert parts[1..] == rest[1..];
      }
    }
  }

  /** std::string::rfind of one character; -1 stands for npos. */
  function LastIndex(s: string, c: char): (i: int)
    ensures -1 <= i < |s|
  {
    if s == "" then -1
    else if s[|s| - 1] == c then |s| - 1
    else LastIndex(s[..|s| - 1], c)
  }

  lemma {:induction false} LastIndexIs(s: string, c: char)
    ensures LastIndex(s, c) >= 0 ==> s[LastIndex(s, c)] == c
    ensures forall k :: LastIndex(s, c) < k < |s| ==> s[k] != c
  {
    if s != "" && s[|s| - 1] != c {
      LastIndexIs(s[..|s| - 1], c);
    }
  }

  // ---- Numbers ----

  predicate Digit(c: char) {
    '0' <= c <= '9'
  }

  predicate AllDigits(s: string) {
    forall i :: 0 <= i < |s| ==> Digit(s[i])
  }

  function Print(n: nat): (s: string)
    ensures AllDigits(s) && s != ""
  {
    (if n < 10 then "" else Print(n / 10)) + [(n % 10) as char + '0']
  }

  function DigitValue(c: char): nat {
    if Digit(c) then (c - '0') as nat else 0
  }

  /** The number a run of digits stands for. */
  function Value(s: string): nat {
    if s == "" then 0 else 10 * Value(s[..|s| - 1]) + DigitValue(s[|s| - 1])
  }

  lemma {:induction false} ValuePrint(n: nat)
    ensures Value(Print(n)) == n
  {
    var s := Print(n);
    assert s[..|s| - 1] == if n < 10 then "" else Print(n / 10);
    if n >= 10 {
      ValuePrint(n / 10);
    }
  }

  predicate Canonical(s: string) {
    AllDigits(s) && s != "" && (|s| > 1 ==> s[0] != '0')
  }

  lemma LastDigit(v: nat, d: nat)
    requires d < 10
    ensures (10 * v + d) / 10 == v && (10 * v + d) % 10 == d
  {}

  lemma PrintAppend(v: nat, c: char)
    requires Digit(c)
    ensures Print(10 * v + DigitValue(c)) == (if v == 0 then "" else Print(v)) + [c]
  {
    LastDigit(v, DigitValue(c));
  }

  lemma {:induction false} LeadingPositive(s: string)
    requires AllDigits(s) && s != "" && s[0] != '0'
    ensures Value(s) > 0
  {
    if |s| > 1 {
      LeadingPositive(s[..|s| - 1]);
    }
  }

  lemma ValueAppend(front: string, last: char)
    ensures Value(front + [last]) == 10 * Value(front) + DigitValue(last)
  {
    assert (front + [last])[..|front|] == front;
  }

  /** A number written without leading zeros is what its value prints as. */
  lemma {:induction false} PrintValue(s: string)
    requires Canonical(s)
    ensures Print(Value(s)) == s
  {
    var front, last := s[..|s| - 1], s[|s| - 1];
    assert s == front + [last];
    ValueAppend(front, last);
    PrintAppend(Value(front), last);
    if front != "" {
      assert Canonical(front);
      PrintValue(front);
      LeadingPositive(front);
    }
  }

  predicate Space(c: char) {
    c == ' ' || 9 as char <= c <= 13 as char
  }

  function TrimLeft(s: string): string {
    if s != "" && Space(s[0]) then TrimLeft(s[1..]) else s
  }

  function TrimRight(s: string): string {
    if s != "" && Space(s[|s| - 1]) then TrimRight(s[..|s| - 1]) else s
  }

  function DigitPrefix(s: string): string {
    if s == "" || !Digit(s[0]) then "" else [s[0]] + DigitPrefix(s[1..])
  }

  /** It is the longest run of digits in front. */
  lemma {:induction false} DigitPrefixIs(s: string)
    ensures DigitPrefix(s) <= s && AllDigits(DigitPrefix(s))
    ensures |DigitPrefix(s)| < |s| ==> !Digit(s[|DigitPrefix(s)|])
  {
    if s != "" && Digit(s[0]) {
      DigitPrefixIs(s[1..]);
    }
  }

  function ReadDigits(digits: string): Option<nat> {
    if digits != "" && AllDigits(digits) && Value(digits) < UINT32_MODULUS then Some(Value(digits)) else None
  }

  function WithoutPlus(t: string): string {
    if t != "" && t[0] == '+' then t[1..] else t
  }

  /** absl::SimpleAtoi into a 32-bit unsigned integer: spaces on both sides, no minus, no overflow. */
  function SimpleAtoi(s: string): Option<nat> {
    ReadDigits(WithoutPlus(TrimRight(TrimLeft(s))))
  }

  /** std::stoi: leading spaces, a sign, the longest run of digits; None stands for the exception it throws. */
  function Stoi(s: string): Option<int> {
    var t := TrimLeft(s);
    var signed := t != "" && (t[0] == '+' || t[0] == '-');
    var digits := DigitPrefix(if signed then t[1..] else t);
    if digits == "" then None
    else
      var v: int := if signed && t[0] == '-' then 0 - Value(digits) else Value(digits);
      if 0 - INT32_LIMIT <= v < INT32_LIMIT then Some(v) else None
  }

  // ---- What the two readers accept ----

  /** Blanks, tabs, line feeds, vertical tabs, form feeds and carriage returns. */
  predicate AllSpaces(s: string) {
    forall i :: 0 <= i < |s| ==> s[i] in " \t\n\U{000B}\U{000C}\r"
  }

  lemma SpaceIs(c: char)
    ensures Space(c) <==> c in " \t\n\U{000B}\U{000C}\r"
  {}

  /** Trimming on the left finds the one place where the spaces end. */
  lemma {:induction false} TrimLeftIs(s: string, pre: string, t: string)
    requires s == pre + t && AllSpaces(pre) && (t != "" ==> !Space(t[0]))
    ensures TrimLeft(s) == t
  {
    if pre != "" {
      SpaceIs(pre[0]);
      assert s[1..] == pre[1..] + t;
      TrimLeftIs(s[1..], pre[1..], t);
    }
  }

  lemma {:induction false} TrimLeftSplits(s: string) returns (pre: string)
    ensures s == pre + TrimLeft(s) && AllSpaces(pre) && (TrimLeft(s) != "" ==> !Space(TrimLeft(s)[0]))
  {
    pre := "";
    if s != "" && Space(s[0]) {
      pre := TrimLeftSplits(s[1..]);
      SpaceIs(s[0]);
      assert s == [s[0]] + s[1..];
      pre := [s[0]] + pre;
    }
  }

  lemma {:induction false} TrimRightIs(s: string, t: string, post: string)
    requires s == t + post && AllSpaces(post) && (t != "" ==> !Space(t[|t| - 1]))
    ensures TrimRight(s) == t
  {
    if post != "" {
      SpaceIs(post[|post| - 1]);
      assert s[..|s| - 1] == t + post[..|post| - 1];
      TrimRightIs(s[..|s| - 1], t, post[..|post| - 1]);
    }
  }

  lemma {:induction false} TrimRightSplits(s: string) returns (post: string)
    ensures s == TrimRight(s) + post && AllSpaces(post)
  {
    post := "";
    if s != "" && Space(s[|s| - 1]) {
      post := TrimRightSplits(s[..|s| - 1]);
      SpaceIs(s[|s| - 1]);
      assert s == s[..|s| - 1] + [s[|s| - 1]];
      post := post + [s[|s| - 1]];
    }
  }

  /** Spaces, perhaps a plus, digits, spaces. */
  ghost predicate AtoiParts(s: string, pre: string, plus: string, digits: string, post: string) {
    && s == pre + ((plus + digits) + post)
    && AllSpaces(pre) && AllSpaces(post) && (plus == "" || plus == "+") && digits != "" && AllDigits(digits)
  }

  /** A number, perhaps with a plus, has no space at either end. */
  lemma NumberEnds(plus: string, digits: string)
    requires (plus == "" || plus == "+") && digits != "" && AllDigits(digits)
    ensures var body := plus + digits; !Space(body[0]) && !Space(body[|body| - 1])
    ensures WithoutPlus(plus + digits) == digits
  {
    var body := plus + digits;
    assert body[|body| - 1] == digits[|digits| - 1] && Digit(digits[0]);
    if plus == "" {
      assert body == digits;
    } else {
      assert body[0] == '+' && body[1..] == digits;
    }
  }

  lemma AtoiOfParts(s: string, pre: string, plus: string, digits: string, post: string)
    requires AtoiParts(s, pre, plus, digits, post)
    ensures SimpleAtoi(s) == if Value(digits) < UINT32_MODULUS then Some(Value(digits)) else None
  {
    NumberEnds(plus, digits);
    var body := plus + digits;
    assert (body + post)[0] == body[0];
    TrimLeftIs(s, pre, body + post);
    TrimRightIs(body + post, body, post);
  }

  lemma AtoiSplits(s: string) returns (pre: string, plus: string, digits: string, post: string)
    requires SimpleAtoi(s).Some?
    ensures AtoiParts(s, pre, plus, digits, post)
  {
    pre := TrimLeftSplits(s);
    post := TrimRightSplits(TrimLeft(s));
    plus, digits := PlusSplits(TrimRight(TrimLeft(s)));
  }

  lemma PlusSplits(t: string) returns (plus: string, digits: string)
    ensures t == plus + digits && (plus == "" || plus == "+")
    ensures digits == WithoutPlus(t)
  {
    plus, digits := "", t;
    if t != "" && t[0] == '+' {
      plus, digits := "+", t[1..];
    }
  }

  /** SimpleAtoi accepts exactly the texts of that form whose number fits 32 bits, and reads that number. */
  lemma AtoiIff(s: string, n: nat)
    ensures SimpleAtoi(s) == Some(n) <==>
            n < 0x1_0000_0000 && exists pre, plus, digits, post ::
              AtoiParts(s, pre, plus, digits, post) && Value(digits) == n
  {
    if SimpleAtoi(s) == Some(n) {
      var pre, plus, digits, post := AtoiSplits(s);
      AtoiOfParts(s, pre, plus, digits, post);
    }
    forall pre, plus, digits, post | AtoiParts(s, pre, plus, digits, post) && Value(digits) == n
      ensures SimpleAtoi(s) == if n < UINT32_MODULUS then Some(n) else None
    {
      AtoiOfParts(s, pre, plus, digits, post);
    }
  }

  lemma {:induction false} DigitPrefixOf(s: string, digits: string, rest: string)
    requires s == digits + rest && AllDigits(digits) && (rest != "" ==> !Digit(rest[0]))
    ensures DigitPrefix(s) == digits
  {
    if digits != "" {
      assert s[1..] == digits[1..] + rest;
      DigitPrefixOf(s[1..], digits[1..], rest);
    }
  }

  /** Spaces, perhaps a sign, digits, and whatever comes after the last of them. */
  ghost predicate StoiParts(s: string, pre: string, sign: string, digits: string, rest: string) {
    && s == pre + (sign + (digits + rest))
    && AllSpaces(pre) && (sign == "" || sign == "+" || sign == "-") && digits != "" && AllDigits(digits)
    && (rest != "" ==> !Digit(rest[0]))
  }

  lemma StoiOfParts(s: string, pre: string, sign: string, digits: string, rest: string)
    requires StoiParts(s, pre, sign, digits, rest)
    ensures var v := Signed(sign, digits);
            Stoi(s) == if 0 - INT32_LIMIT <= v < INT32_LIMIT then Some(v) else None
  {
    var t := sign + (digits + rest);
    assert t[0] == if sign == "" then digits[0] else sign[0];
    assert Digit(digits[0]);
    TrimLeftIs(s, pre, t);
    var signed := t[0] == '+' || t[0] == '-';
    assert signed <==> sign != "";
    var unsigned := if signed then t[1..] else t;
    assert unsigned == digits + rest;
    DigitPrefixOf(unsigned, digits, rest);
  }

  /** The number of such a text. */
  function Signed(sign: string, digits: string): int {
    if sign == "-" then 0 - Value(digits) else Value(digits)
  }

  lemma DigitsSplit(s: string) returns (rest: string)
    ensures s == DigitPrefix(s) + rest && AllDigits(DigitPrefix(s)) && (rest != "" ==> !Digit(rest[0]))
  {
    DigitPrefixIs(s);
    rest := s[|DigitPrefix(s)|..];
  }

  lemma SignSplits(t: string) returns (sign: string, unsigned: string)
    ensures t == sign + unsigned
    ensures var signed := t != "" && (t[0] == '+' || t[0] == '-');
            sign == (if signed then [t[0]] else "") && unsigned == if signed then t[1..] else t
  {
    sign, unsigned := "", t;
    if t != "" && (t[0] == '+' || t[0] == '-') {
      sign, unsigned := [t[0]], t[1..];
    }
  }

  lemma StoiSplits(s: string) returns (pre: string, sign: string, digits: string, rest: string)
    requires Stoi(s).Some?
    ensures StoiParts(s, pre, sign, digits, rest)
  {
    pre := TrimLeftSplits(s);
    var unsigned;
    sign, unsigned := SignSplits(TrimLeft(s));
    rest := DigitsSplit(unsigned);
    digits := DigitPrefix(unsigned);
  }

  /** stoi accepts exactly the texts of that form whose number fits an int, and reads that number. */
  lemma StoiIff(s: string, v: int)
    ensures Stoi(s) == Some(v) <==>
            -0x8000_0000 <= v < 0x8000_0000 && exists pre, sign, digits, rest ::
              StoiParts(s, pre, sign, digits, rest) && Signed(sign, digits) == v
  {
    if Stoi(s) == Some(v) {
      var pre, sign, digits, rest := StoiSplits(s);
      StoiOfParts(s, pre, sign, digits, rest);
    }
    forall pre, sign, digits, rest | StoiParts(s, pre, sign, digits, rest) && Signed(sign, digits) == v
      ensures Stoi(s) == if 0 - INT32_LIMIT <= v < INT32_LIMIT then Some(v) else None
    {
      StoiOfParts(s, pre, sign, digits, rest);
    }
  }

  /** A plain run of digits reads back as its value, unless it leaves the range of int. */
  lemma StoiDigits(s: string)
    requires AllDigits(s) && s != ""
    ensures Stoi(s) == if Value(s) < INT32_LIMIT then Some(Value(s)) else None
  {
    DigitPrefixIs(s);
    assert Digit(s[0]) && DigitPrefix(s) == s;
  }

  lemma StoiPrint(n: nat)
    ensures Stoi(Print(n)) == if n < INT32_LIMIT then Some(n) else None
  {
    StoiDigits(Print(n));
    ValuePrint(n);
  }
}
