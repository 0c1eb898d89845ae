/** Exact amounts: a signed 64-bit count of stroops, and its seven-decimal text. */
module Money {
  import opened Common
  import opened Decimal

  const PRECISION := 7
  const ONE := 10_000_000

  datatype Amount = Ok(stroops: int) | Bad(error: ParseError)

  datatype ParseError = Syntax | Precision | TooLarge

  /** Where a character first stands, or the length. */
  function Find(s: string, c: char): (i: nat)
    ensures i <= |s|
    ensures i < |s| ==> s[i] == c
    ensures forall j :: 0 <= j < i ==> s[j] != c
  {
    if s == [] then 0 else if s[0] == c then 0 else 1 + Find(s[1..], c)
  }

  lemma {:induction false} FindConcat(a: string, c: char, b: string)
    requires c !in a
    ensures Find(a + [c] + b, c) == |a|
  {
    var s := a + [c] + b;
    assert s[|a|] == c;
    assert forall j :: 0 <= j < |a| ==> s[j] == a[j] && a[j] in a;
  }

  function Zeros(n: nat): (s: string)
    ensures |s| == n && AllDigits(s)
  {
    seq(n, i => '0')
  }

  /** The strict reader: an optional minus, digits, and at most seven decimals. */
  function Parse(s: string): Amount {
    if s == "" then Bad(Syntax)
    else if s[0] == '-' then ParseBody(true, s[1..])
    else ParseBody(false, s)
  }

  function ParseBody(neg: bool, body: string): Amount {
    var dot := Find(body, '.');
    var hasDot := dot < |body|;
    var whole := body[..dot];
    var frac := if hasDot then body[dot + 1..] else "";
    if whole == "" then Bad(Syntax)
    else if hasDot && frac == "" then Bad(Syntax)
    else if !AllDigits(whole) || !AllDigits(frac) then Bad(Syntax)
    else if |frac| > PRECISION then Bad(Precision)
    else
      var v := Value(whole + frac + Zeros(PRECISION - |frac|));
      var n := if neg then 0 - v else v as int;
      if FitsInt64(n) then Ok(n) else Bad(TooLarge)
  }

  function Pow10(k: nat): nat {
    if k == 0 then 1 else 10 * Pow10(k - 1)
  }

  /** The last k digits of n, leading zeros kept. */
  function Pad(n: nat, k: nat): (s: string)
    ensures |s| == k && AllDigits(s)
  {
    if k == 0 then "" else Pad(n / 10, k - 1) + [DigitOf(n % 10)]
  }

  function Format(n: int): string {
    var u: nat := if n < 0 then -n else n;
    (if n < 0 then "-" else "") + Digits(u / ONE) + "." + Pad(u % ONE, PRECISION)
  }

  lemma {:induction false} PadDenotes(n: nat, k: nat)
    requires n < Pow10(k)
    ensures Value(Pad(n, k)) == n
  {
    if k > 0 {
      PadDenotes(n / 10, k - 1);
      assert Pad(n, k)[..k - 1] == Pad(n / 10, k - 1);
    }
  }

  lemma {:induction false} ValueConcat(a: string, b: string)
    requires AllDigits(a) && AllDigits(b)
    ensures Value(a + b) == Value(a) * Pow10(|b|) + Value(b)
  {
    if b == [] {
      assert a + b == a;
    } else {
      var init := b[..|b| - 1];
      ValueConcat(a, init);
      ValueLast(a + b);
      ValueLast(b);
      assert (a + b)[..|a + b| - 1] == a + init;
      hide Value;
      Regroup(Value(a), Pow10(|init|));
    }
  }

  lemma ValueLast(s: string)
    requires AllDigits(s) && s != []
    ensures Value(s) == 10 * Value(s[..|s| - 1]) + (s[|s| - 1] as int - '0' as int)
  {
  }

  lemma Regroup(x: nat, p: nat)
    ensures 10 * (x * p) == x * (10 * p)
  {
  }

  lemma SevenIsOne()
    ensures Pow10(7) == ONE
  {
    assert Pow10(1) == 10 && Pow10(2) == 100 && Pow10(3) == 1000 && Pow10(4) == 10000;
    assert Pow10(5) == 100000 && Pow10(6) == 1000000;
  }

  /** The digits of the text of an amount are the amount. */
  lemma FormatDenotes(u: nat)
    ensures Value(Digits(u / ONE) + Pad(u % ONE, PRECISION)) == u
  {
    SevenIsOne();
    DigitsDenote(u / ONE);
    PadDenotes(u % ONE, PRECISION);
    ValueConcat(Digits(u / ONE), Pad(u % ONE, PRECISION));
  }

  /** Digits, and perhaps a point and more. */
  function Body(whole: string, frac: string): string {
    if frac == "" then whole else whole + ['.'] + frac
  }

  /** A text is an amount: perhaps a minus, digits, and perhaps a point and up to seven more. */
  predicate Spells(s: string, neg: bool, whole: string, frac: string) {
    && AllDigits(whole) && whole != "" && AllDigits(frac) && |frac| <= PRECISION
    && s == if neg then "-" + Body(whole, frac) else Body(whole, frac)
  }

  /** How many stroops that is. */
  function Spelled(neg: bool, whole: string, frac: string): int
    requires AllDigits(whole) && AllDigits(frac) && |frac| <= PRECISION
  {
    var v := Value(whole + frac + Zeros(PRECISION - |frac|));
    if neg then 0 - v else v
  }

  lemma BodyParts(whole: string, frac: string)
    requires AllDigits(whole) && whole != "" && AllDigits(frac)
    ensures var body := Body(whole, frac);
            var dot := Find(body, '.');
            && body != "" && body[0] != '-' && body[..dot] == whole && (dot < |body| <==> frac != "")
            && (dot < |body| ==> body[dot + 1..] == frac)
  {
    var body := Body(whole, frac);
    assert '.' !in whole && IsDigit(whole[0]);
    if frac == "" {
      assert Find(body, '.') == |body|;
      assert body[..|body|] == body;
    } else {
      FindConcat(whole, '.', frac);
      assert body[..|whole|] == whole && body[|whole| + 1..] == frac;
    }
  }

  /** Digits, and perhaps a point and more digits, read as the one number they spell. */
  lemma ParseDigits(s: string, neg: bool, whole: string, frac: string)
    requires Spells(s, neg, whole, frac)
    ensures var n := Spelled(neg, whole, frac); Parse(s) == if FitsInt64(n) then Ok(n) else Bad(TooLarge)
  {
    BodyParts(whole, frac);
    hide Value, Find, AllDigits;
    var body := Body(whole, frac);
    hide Body;
    assert neg ==> s[0] == '-' && s[1..] == body;
  }

  /** The strict reader accepts exactly such texts whose number fits in 64 bits. */
  lemma ParsesIff(s: string)
    ensures Parse(s).Ok? <==>
            exists neg, whole, frac :: Spells(s, neg, whole, frac) && FitsInt64(Spelled(neg, whole, frac))
  {
    if Parse(s).Ok? {
      var neg, whole, frac := ParsedParts(s);
      ParseDigits(s, neg, whole, frac);
    }
    hide Parse, Spells, Spelled;
    if neg, whole, frac :| Spells(s, neg, whole, frac) && FitsInt64(Spelled(neg, whole, frac)) {
      ParseDigits(s, neg, whole, frac);
    }
  }

  lemma ParsedParts(s: string) returns (neg: bool, whole: string, frac: string)
    requires Parse(s).Ok?
    ensures Spells(s, neg, whole, frac)
  {
    neg := s[0] == '-';
    whole, frac := ParsedBody(neg, if neg then s[1..] else s);
    hide Body, ParseBody;
    assert neg ==> s == "-" + s[1..];
  }

  lemma ParsedBody(neg: bool, body: string) returns (whole: string, frac: string)
    requires ParseBody(neg, body).Ok?
    ensures AllDigits(whole) && whole != "" && AllDigits(frac) && |frac| <= PRECISION && body == Body(whole, frac)
  {
    hide Value;
    var dot := Find(body, '.');
    whole, frac := body[..dot], if dot < |body| then body[dot + 1..] else "";
    assert dot == |body| ==> body[..dot] == body;
    assert dot < |body| ==> body == body[..dot] + [body[dot]] + body[dot + 1..];
  }

  lemma FormatIs(n: int)
    ensures var u: nat := if n < 0 then -n else n;
            var body := Body(Digits(u / ONE), Pad(u % ONE, PRECISION));
            Format(n) == if n < 0 then "-" + body else body
  {
    hide Digits, Pad;
    var u: nat := if n < 0 then -n else n;
    var whole, frac := Digits(u / ONE), Pad(u % ONE, PRECISION);
    assert "" + whole + "." + frac == whole + ['.'] + frac;
    assert "-" + whole + "." + frac == "-" + (whole + ['.'] + frac);
  }

  /** Every representable amount survives being written and read, down to the most
      negative, whose magnitude alone would not fit. */
  lemma RoundTrip(n: int)
    requires FitsInt64(n)
    ensures Parse(Format(n)) == Ok(n)
  {
    hide Parse;
    var u: nat := if n < 0 then -n else n;
    var whole, frac := Digits(u / ONE), Pad(u % ONE, PRECISION);
    FormatDenotes(u);
    hide Value, Digits, Pad;
    assert whole + frac + Zeros(0) == whole + frac;
    FormatIs(n);
    ParseDigits(Format(n), n < 0, whole, frac);
  }

  /** Written as a whole number, a point and all seven places: one text for each amount. */
  lemma FormatSpells(n: int) returns (whole: string, frac: string)
    ensures Spells(Format(n), n < 0, whole, frac) && |frac| == PRECISION && Spelled(n < 0, whole, frac) == n
    ensures |whole| > 1 ==> whole[0] != '0'
  {
    var u: nat := if n < 0 then -n else n;
    whole, frac := Digits(u / ONE), Pad(u % ONE, PRECISION);
    FormatDenotes(u);
    hide Value, Digits, Pad;
    assert whole + frac + Zeros(0) == whole + frac;
    FormatIs(n);
  }
}
