/** JSON documents, and integers as the tools accept them. */
module Json {
  import opened Base

  /** `true` and `1` are kept apart; `1` and `1.0` are the same number. */
  datatype Json = Null | Bool(flag: bool) | Num(number: real) | Str(text: string) | Arr(items: seq<Json>) | Obj(fields: map<string, Json>)

  type Fields = map<string, Json>

  /** `document.get(key)`: an absent key reads as null. */
  function Field(fields: Fields, key: string): Json { if key in fields then fields[key] else Null }

  function Int(n: int): Json { Num(n as real) }

  function Strip(s: string): string
    decreases |s|
  {
    if s == "" then s
    else if IsSpace(s[0]) then Strip(s[1..])
    else if IsSpace(s[|s| - 1]) then Strip(s[..|s| - 1])
    else s
  }

  predicate Blank(s: string) { Strip(s) == "" }

  ghost predicate AllSpace(s: string) { forall i :: 0 <= i < |s| ==> IsSpace(s[i]) }

  /** Only white space is taken off, at both ends, until neither end is white space. */
  lemma {:induction false} StripIs(s: string) returns (before: string, after: string)
    ensures s == before + Strip(s) + after && AllSpace(before) && AllSpace(after)
    ensures Strip(s) != "" ==> !IsSpace(Strip(s)[0]) && !IsSpace(Strip(s)[|Strip(s)| - 1])
    decreases |s|
  {
    hide IsSpace;
    before, after := "", "";
    if s != "" && IsSpace(s[0]) {
      before, after := StripIs(s[1..]);
      before := PutBefore(s, before, Strip(s[1..]), after);
    } else if s != "" && IsSpace(s[|s| - 1]) {
      before, after := StripIs(s[..|s| - 1]);
      after := PutAfter(s, before, Strip(s[..|s| - 1]), after);
    }
  }

  lemma {:induction false} PutBefore(s: string, before: string, middle: string, after: string) returns (longer: string)
    requires s != "" && IsSpace(s[0]) && s[1..] == before + middle + after && AllSpace(before)
    ensures s == longer + middle + after && AllSpace(longer)
  {
    hide IsSpace;
    longer := [s[0]] + before;
    assert s == [s[0]] + s[1..];
  }

  lemma {:induction false} PutAfter(s: string, before: string, middle: string, after: string) returns (longer: string)
    requires s != "" && IsSpace(s[|s| - 1]) && s[..|s| - 1] == before + middle + after && AllSpace(after)
    ensures s == before + middle + longer && AllSpace(longer)
  {
    hide IsSpace;
    longer := after + [s[|s| - 1]];
    assert s == s[..|s| - 1] + [s[|s| - 1]];
  }

  lemma {:induction false} BlankIs(s: string)
    ensures Blank(s) <==> AllSpace(s)
  {
    hide IsSpace, Strip;
    var before, after := StripIs(s);
    if Strip(s) != "" {
      assert s[|before|] == Strip(s)[0];
    }
  }

  // ----- integers -----

  function Digit(n: nat): char
    requires n < 10
  {
    '0' + n as char
  }

  predicate IsDigit(c: char) { '0' <= c <= '9' }

  function Decimal(n: nat): (s: string)
    ensures s != ""
  {
    if n < 10 then [Digit(n)] else Decimal(n / 10) + [Digit(n % 10)]
  }

  /** `str(n)` */
  function Text(n: int): string { if n < 0 then "-" + Decimal(-n) else Decimal(n) }

  function DigitValue(c: char): nat
    requires IsDigit(c)
  {
    c as int - '0' as int
  }

  function Value(s: string): (n: int)
    requires forall i :: 0 <= i < |s| ==> IsDigit(s[i])
    ensures n >= 0
  {
    if s == "" then 0 else Value(s[..|s| - 1]) * 10 + DigitValue(s[|s| - 1])
  }

  predicate Canonical(s: string)
  {
    s != "" && (forall i :: 0 <= i < |s| ==> IsDigit(s[i])) && (s[0] == '0' ==> |s| == 1)
  }

  predicate Negative(s: string)
  {
    s != "" && s[0] == '-' && Canonical(s[1..]) && Value(s[1..]) > 0
  }

  function ReadInt(s: string): Option<int>
  {
    if Canonical(s) then Some(Value(s))
    else if Negative(s) then Some(-Value(s[1..]))
    else None
  }

  /** `require_int`: integral numbers, and their exact decimal text with blanks around it. */
  function RequireInt(v: Json): Option<int>
  {
    match v
    case Num(x) => if x.Floor as real == x then Some(x.Floor) else None
    case Str(s) => ReadInt(Strip(s))
    case _ => None
  }

  function RequirePositive(v: Json): Option<int>
  {
    var n := RequireInt(v);
    if n.Some? && n.value > 0 then n else None
  }

  lemma {:induction false} DecimalIsCanonical(n: nat)
    ensures Canonical(Decimal(n)) && Value(Decimal(n)) == n
    ensures n > 0 ==> Decimal(n)[0] != '0'
  {
    if n < 10 {
      assert Decimal(n)[..0] == "";
    } else {
      DecimalIsCanonical(n / 10);
      var s := Decimal(n);
      assert s[..|s| - 1] == Decimal(n / 10);
    }
  }

  lemma {:induction false} DecimalStep(n: int, d: nat)
    requires n > 0 && d < 10
    ensures Decimal(n * 10 + d) == Decimal(n) + [Digit(d)]
  {
    var m := n * 10 + d;
    assert m >= 10 && m / 10 == n && m % 10 == d;
  }

  lemma {:induction false} CanonicalIsDecimal(s: string)
    requires Canonical(s)
    ensures Decimal(Value(s)) == s
    ensures s[0] != '0' ==> Value(s) > 0
  {
    var l := |s| - 1;
    if l == 0 {
      assert s[..0] == "";
      assert s == [s[0]];
    } else {
      CanonicalIsDecimal(s[..l]);
      assert s[..l][0] == s[0];
      DecimalStep(Value(s[..l]), DigitValue(s[l]));
      hide Decimal;
      assert s == s[..l] + [s[l]];
    }
  }

  lemma {:induction false} WrittenReads(n: int)
    ensures ReadInt(Text(n)) == Some(n)
  {
    if n < 0 {
      DecimalIsCanonical(-n);
      hide Decimal, Value;
      assert Text(n)[1..] == Decimal(-n);
    } else {
      DecimalIsCanonical(n);
    }
  }

  lemma {:induction false} ReadIsWritten(t: string)
    requires ReadInt(t).Some?
    ensures Text(ReadInt(t).value) == t
  {
    if Canonical(t) {
      CanonicalIsDecimal(t);
    } else {
      CanonicalIsDecimal(t[1..]);
      hide Decimal, Value;
      assert t == "-" + t[1..];
    }
  }

  /** A text is read as `n` exactly when, blanks aside, it is how `n` is written. */
  lemma {:induction false} ReadsExactlyItsText(s: string, n: int)
    ensures RequireInt(Str(s)) == Some(n) <==> Strip(s) == Text(n)
  {
    WrittenReads(n);
    if ReadInt(Strip(s)).Some? {
      ReadIsWritten(Strip(s));
    }
  }

  /** An integer is read from the number it is, or from its text; a positive one if it is that. */
  lemma {:induction false} ReadsExactly(v: Json, n: int)
    ensures RequireInt(v) == Some(n) <==> v == Int(n) || (v.Str? && Strip(v.text) == Text(n))
    ensures RequirePositive(v) == Some(n) <==> n > 0 && RequireInt(v) == Some(n)
  {
    if v.Str? { ReadsExactlyItsText(v.text, n); }
    hide Strip, ReadInt, Text;
  }

  lemma {:induction false} IntReadsBack(n: int)
    ensures RequireInt(Int(n)) == Some(n)
  {
  }
}
