/** Reading an amount out of a spreadsheet cell, strictly. */
module TabularAmount {
  import opened Common
  import opened Decimal
  import opened Splitting
  import Words
  import Money

  const MAX_DECIMAL_PLACES := 7

  datatype Unreadable =
    | Empty
    | Formula
    | AccountingNegative
    | Negative
    | Signed
    | SeparatorAfterPoint
    | Misgrouped
    | NoDigits
    | TwoPoints
    | NotPlain
    | EndsInPoint
    | TooPrecise
    | Zero

  datatype Reading = Ok(text: string) | Refused(why: Unreadable)

  // ----- the grammar -----

  function Flat(g: seq<string>): string {
    if g == [] then "" else Flat(g[..|g| - 1]) + g[|g| - 1]
  }

  /** Digits in one run, or one to three of them and then groups of exactly three. */
  predicate Grouping(g: seq<string>) {
    && |g| > 0
    && (forall i :: 0 <= i < |g| ==> AllDigits(g[i]))
    && (|g| > 1 ==> 1 <= |g[0]| <= 3 && forall i :: 1 <= i < |g| ==> |g[i]| == 3)
  }

  /** A strict decimal: grouped digits, and at most seven more after a point. Digits may be
      missing before the point, never after it. */
  predicate Cell(t: string, g: seq<string>, frac: string) {
    && Grouping(g)
    && AllDigits(frac) && |frac| <= MAX_DECIMAL_PLACES
    && t == Join(g, ',') + (if frac == "" then "" else "." + frac)
    && t != ""
  }

  /** The number of stroops a cell's digits spell. */
  function Spelled(digits: string, frac: string): nat
    requires AllDigits(digits) && AllDigits(frac) && |frac| <= MAX_DECIMAL_PLACES
  {
    Value(digits + frac + Money.Zeros(MAX_DECIMAL_PLACES - |frac|))
  }

  // ----- reading a cell -----

  /** The text of a cell: trimmed, without the mark that says it is text. */
  function Body(raw: string): string {
    Unmarked(Words.Trim(raw))
  }

  function Unmarked(t: string): string {
    if t != "" && t[0] == '\'' then t[1..] else t
  }

  function Whole(t: string): string {
    t[..Money.Find(t, '.')]
  }

  predicate HasPoint(t: string) {
    Money.Find(t, '.') < |t|
  }

  function Fraction(t: string): string {
    if HasPoint(t) then t[Money.Find(t, '.') + 1..] else ""
  }

  predicate Starts(t: string, c: char) {
    t != "" && t[0] == c
  }

  function StripZeros(s: string): string {
    if s != "" && s[0] == '0' then StripZeros(s[1..]) else s
  }

  function Canonical(digits: string): string {
    if StripZeros(digits) == "" then "0" else StripZeros(digits)
  }

  predicate AllZeros(s: string) {
    forall i :: 0 <= i < |s| ==> s[i] == '0'
  }

  /** Why a cell is refused, the first reason winning. */
  function Verdict(raw: string): Option<Unreadable> {
    var t := Body(raw);
    if Words.Trim(raw) == "" then Some(Empty)
    else if Starts(t, '=') then Some(Formula)
    else if Starts(t, '(') && t[|t| - 1] == ')' then Some(AccountingNegative)
    else if Starts(t, '-') then Some(Negative)
    else if Starts(t, '+') then Some(Signed)
    else PartsVerdict(Whole(t), Fraction(t), HasPoint(t))
  }

  /** The same of what stands before and after the point. */
  function PartsVerdict(whole: string, frac: string, hasPoint: bool): Option<Unreadable> {
    var digits := Flat(Split(whole, ','));
    if ',' in frac then Some(SeparatorAfterPoint)
    else if ',' in whole && !Grouping(Split(whole, ',')) then Some(Misgrouped)
    else if digits == "" && !hasPoint then Some(NoDigits)
    else if '.' in frac then Some(TwoPoints)
    else if !AllDigits(digits) || (hasPoint && !AllDigits(frac)) then Some(NotPlain)
    else if hasPoint && frac == "" then Some(EndsInPoint)
    else if |frac| > MAX_DECIMAL_PLACES then Some(TooPrecise)
    else if AllZeros(digits) && AllZeros(frac) then Some(Zero)
    else None
  }

  function Written(digits: string, frac: string): string {
    Canonical(digits) + if frac == "" then "" else "." + frac
  }

  function Output(raw: string): string {
    Written(Flat(Split(Whole(Body(raw)), ',')), Fraction(Body(raw)))
  }

  // ----- the methods -----

  method CheckDigits(s: string) returns (ok: bool)
    ensures ok == AllDigits(s)
  {
    if s == "" {
      return true;
    }
    for i := 0 to |s|
      invariant AllDigits(s[..i])
    {
      if !('0' <= s[i] <= '9') {
        return false;
      }
    }
    assert s[..|s|] == s;
    return true;
  }

  lemma FlatOne(s: string)
    ensures Flat([s]) == s
  {
    assert [s][..0] == [];
  }

  /** Takes the separators out, or says that they are in the wrong places. */
  method StripGrouping(whole: string) returns (digits: string, ok: bool)
    ensures ok == (',' in whole ==> Grouping(Split(whole, ',')))
    ensures ok ==> digits == Flat(Split(whole, ','))
  {
    if ',' !in whole {
      OnePart(whole, ',');
      FlatOne(whole);
      return whole, true;
    }
    var groups := Split(whole, ',');
    JoinInvertsSplit(whole, ',');
    digits := "";
    for i := 0 to |groups|
      invariant digits == Flat(groups[..i])
      invariant forall j :: 0 <= j < i ==> AllDigits(groups[j]) && (if j == 0 then 1 <= |groups[j]| <= 3 else |groups[j]| == 3)
    {
      var plain := CheckDigits(groups[i]);
      if !plain || groups[i] == "" {
        CommaMakesGroups(whole);
        return "", false;
      }
      if i == 0 && |groups[i]| > 3 {
        CommaMakesGroups(whole);
        return "", false;
      }
      if i > 0 && |groups[i]| != 3 {
        return "", false;
      }
      assert groups[..i + 1][..i] == groups[..i];
      digits := digits + groups[i];
    }
    assert groups[..|groups|] == groups;
    ok := true;
  }

  lemma CommaMakesGroups(whole: string)
    requires ',' in whole
    ensures |Split(whole, ',')| > 1
  {
    JoinInvertsSplit(whole, ',');
    var g := Split(whole, ',');
    if |g| == 1 {
      assert Join(g, ',') == g[0];
      NoSeparator(whole, ',', 0);
    }
  }

  lemma {:induction false} NoSeparator(s: string, sep: char, i: nat)
    requires i < |Split(s, sep)|
    ensures sep !in Split(s, sep)[i]
  {
    if s != "" {
      var f := Split(s[1..], sep);
      if s[0] == sep {
        if i > 0 {
          NoSeparator(s[1..], sep, i - 1);
        }
      } else {
        NoSeparator(s[1..], sep, i);
      }
    }
  }

  method NormalizeTabularAmount(raw: string) returns (r: Reading)
    ensures r == if Verdict(raw).Some? then Refused(Verdict(raw).value) else Ok(Output(raw))
  {
    hide Split, Grouping, Words.Trim, Flat, AllDigits, PartsVerdict, Written;
    var text := Words.Trim(raw);
    if text == "" {
      return Refused(Empty);
    }
    if text[0] == '\'' {
      text := text[1..];
    }
    assert text == Body(raw);
    if Starts(text, '=') {
      return Refused(Formula);
    }
    if Starts(text, '(') && text[|text| - 1] == ')' {
      return Refused(AccountingNegative);
    }
    if Starts(text, '-') {
      return Refused(Negative);
    }
    if Starts(text, '+') {
      return Refused(Signed);
    }
    r := ReadParts(Whole(text), Fraction(text), HasPoint(text));
  }

  /** What stands before and after the point. */
  method ReadParts(whole: string, fraction: string, hasPoint: bool) returns (r: Reading)
    ensures r == if PartsVerdict(whole, fraction, hasPoint).Some? then Refused(PartsVerdict(whole, fraction, hasPoint).value)
                 else Ok(Written(Flat(Split(whole, ',')), fraction))
  {
    hide Split, Grouping, Flat, AllDigits, StripZeros;
    if ',' in fraction {
      return Refused(SeparatorAfterPoint);
    }
    var digits, ok := StripGrouping(whole);
    if !ok {
      return Refused(Misgrouped);
    }
    if digits == "" && !hasPoint {
      return Refused(NoDigits);
    }
    if '.' in fraction {
      return Refused(TwoPoints);
    }
    var plainWhole := CheckDigits(digits);
    var plainFraction := CheckDigits(fraction);
    if !plainWhole || (hasPoint && !plainFraction) {
      return Refused(NotPlain);
    }
    if hasPoint && fraction == "" {
      return Refused(EndsInPoint);
    }
    if |fraction| > MAX_DECIMAL_PLACES {
      return Refused(TooPrecise);
    }
    var canonical := StripZeros(digits);
    if canonical == "" {
      canonical := "0";
    }
    var out := canonical;
    if fraction != "" {
      out := out + "." + fraction;
    }
    ZerosStripped(digits);
    assert canonical == Canonical(digits);
    if AllZeros(canonical) && AllZeros(fraction) {
      return Refused(Zero);
    }
    return Ok(out);
  }

  // ----- what the text denotes -----

  lemma {:induction false} ZerosStripped(s: string)
    ensures AllZeros(s) <==> StripZeros(s) == ""
    ensures AllZeros(Canonical(s)) <==> AllZeros(s)
    ensures StripZeros(s) != "" ==> StripZeros(s)[0] != '0'
  {
    if s != "" && s[0] == '0' {
      ZerosStripped(s[1..]);
      assert AllZeros(s) <==> AllZeros(s[1..]) by {
        assert forall i :: 1 <= i < |s| ==> s[i] == s[1..][i - 1];
      }
    }
    var t := StripZeros(s);
    assert t != "" ==> !AllZeros(t);
  }

  lemma {:induction false} StripKeepsDigits(s: string)
    requires AllDigits(s)
    ensures AllDigits(StripZeros(s)) && Value(StripZeros(s)) == Value(s)
    decreases |s|
  {
    if s != "" && s[0] == '0' {
      StripKeepsDigits(s[1..]);
      Money.ValueConcat([s[0]], s[1..]);
      assert [s[0]] + s[1..] == s;
      assert [s[0]][..0] == "";
      assert Value([s[0]]) == 0;
    }
  }

  /** Leading zeros dropped or one put in: the number is the same. */
  lemma CanonicalDenotes(digits: string, rest: string)
    requires AllDigits(digits) && AllDigits(rest)
    ensures AllDigits(Canonical(digits)) && Canonical(digits) != ""
    ensures Value(Canonical(digits) + rest) == Value(digits + rest)
  {
    StripKeepsDigits(digits);
    assert "0"[..0] == "";
    assert Value("0") == 0;
    Money.ValueConcat(digits, rest);
    Money.ValueConcat(Canonical(digits), rest);
  }

  lemma CanonicalSpells(digits: string, frac: string)
    requires AllDigits(digits) && AllDigits(frac) && |frac| <= MAX_DECIMAL_PLACES
    ensures AllDigits(Canonical(digits)) && Canonical(digits) != ""
    ensures Spelled(Canonical(digits), frac) == Spelled(digits, frac)
  {
    var pad := Money.Zeros(MAX_DECIMAL_PLACES - |frac|);
    CanonicalDenotes(digits, frac + pad);
    hide Value, Canonical;
    assert digits + (frac + pad) == digits + frac + pad;
    assert Canonical(digits) + (frac + pad) == Canonical(digits) + frac + pad;
  }

  lemma CanonicalIsStable(digits: string)
    ensures Canonical(Canonical(digits)) == Canonical(digits)
  {
    ZerosStripped(digits);
    assert "0"[1..] == "";
    assert StripZeros("0") == StripZeros("");
  }

  lemma {:induction false} ZeroValueIff(s: string)
    requires AllDigits(s)
    ensures Value(s) == 0 <==> AllZeros(s)
  {
    if s != "" {
      var init := s[..|s| - 1];
      ZeroValueIff(init);
      assert AllZeros(s) <==> AllZeros(init) && s[|s| - 1] == '0' by {
        assert forall i :: 0 <= i < |init| ==> init[i] == s[i];
      }
    }
  }

  lemma SpelledZeroIff(digits: string, frac: string)
    requires AllDigits(digits) && AllDigits(frac) && |frac| <= MAX_DECIMAL_PLACES
    ensures Spelled(digits, frac) == 0 <==> AllZeros(digits) && AllZeros(frac)
  {
    var all := digits + frac + Money.Zeros(MAX_DECIMAL_PLACES - |frac|);
    ZeroValueIff(all);
    assert forall i :: 0 <= i < |digits| ==> all[i] == digits[i];
    assert forall i :: 0 <= i < |frac| ==> all[|digits| + i] == frac[i];
  }

  // ----- the cell a text spells -----

  lemma {:induction false} JoinedChars(g: seq<string>)
    requires |g| > 0 && forall i :: 0 <= i < |g| ==> AllDigits(g[i])
    ensures forall c :: c in Join(g, ',') ==> IsDigit(c) || c == ','
  {
    if |g| > 1 {
      JoinedChars(g[1..]);
    }
  }

  /** A text spells a cell in one way only, and the reader finds its parts. */
  lemma CellParts(t: string, g: seq<string>, frac: string)
    requires Cell(t, g, frac)
    ensures Split(Whole(t), ',') == g && Fraction(t) == frac && (HasPoint(t) <==> frac != "")
    ensures IsDigit(t[0]) || t[0] == ',' || t[0] == '.'
  {
    var whole := Join(g, ',');
    JoinedChars(g);
    assert forall i :: 0 <= i < |g| ==> ',' !in g[i];
    SplitInvertsJoin(g, ',');
    hide Split, Join, Grouping;
    assert '.' !in whole;
    if frac == "" {
      assert t == whole;
      assert Money.Find(t, '.') == |t|;
      assert t[..|t|] == t;
    } else {
      assert t == whole + ['.'] + frac;
      Money.FindConcat(whole, '.', frac);
      assert t[..|whole|] == whole && t[|whole| + 1..] == frac;
    }
    assert t[0] in t;
  }

  lemma {:induction false} FlatDigits(g: seq<string>)
    ensures AllDigits(Flat(g)) <==> forall i :: 0 <= i < |g| ==> AllDigits(g[i])
  {
    if g != [] {
      var init, last := g[..|g| - 1], g[|g| - 1];
      FlatDigits(init);
      var a, all := Flat(init), Flat(g);
      assert forall i :: 0 <= i < |a| ==> all[i] == a[i];
      assert forall i :: 0 <= i < |last| ==> all[|a| + i] == last[i];
      assert AllDigits(all) <==> AllDigits(a) && AllDigits(last);
      assert forall i :: 0 <= i < |init| ==> g[i] == init[i];
    }
  }

  lemma WhatIsRead(raw: string)
    requires Verdict(raw).None?
    ensures var t := Body(raw); Cell(t, Split(Whole(t), ','), Fraction(t))
    ensures AllDigits(Flat(Split(Whole(Body(raw)), ',')))
  {
    var t := Body(raw);
    var whole := Whole(t);
    var g := Split(whole, ',');
    FlatDigits(g);
    if ',' !in whole {
      OnePart(whole, ',');
    }
    assert Grouping(g);
    assert AllDigits(Fraction(t)) && |Fraction(t)| <= MAX_DECIMAL_PLACES;
    assert HasPoint(t) ==> Fraction(t) != "";
    assert Flat(g) != "" || HasPoint(t);
    hide Verdict, Body, Split, Grouping, AllDigits, Words.Trim;
    Rejoins(t);
    if t == "" {
      FlatOne("");
    }
  }

  lemma Rejoins(t: string)
    ensures t == Join(Split(Whole(t), ','), ',') + (if Fraction(t) == "" && !HasPoint(t) then "" else "." + Fraction(t))
    ensures t == "" ==> Split(Whole(t), ',') == [""] && !HasPoint(t)
  {
    JoinInvertsSplit(Whole(t), ',');
    hide Split, Join;
    var k := Money.Find(t, '.');
    if HasPoint(t) {
      assert t == t[..k] + ['.'] + t[k + 1..];
    } else {
      assert t == t[..k] + "";
    }
    if t == "" {
      OnePart("", ',');
    }
  }

  /** Exactly the strict decimals above zero are accepted. */
  lemma AcceptedIff(raw: string)
    ensures Verdict(raw).None? <==>
            exists g, frac :: Cell(Body(raw), g, frac) && AllDigits(Flat(g)) && Spelled(Flat(g), frac) > 0
  {
    var t := Body(raw);
    if Verdict(raw).None? {
      WhatIsRead(raw);
      SpelledZeroIff(Flat(Split(Whole(t), ',')), Fraction(t));
    }
    if g, frac :| Cell(t, g, frac) && AllDigits(Flat(g)) && Spelled(Flat(g), frac) > 0 {
      CellIsAccepted(raw, g, frac);
    }
  }

  lemma CellIsAccepted(raw: string, g: seq<string>, frac: string)
    requires Cell(Body(raw), g, frac) && AllDigits(Flat(g)) && Spelled(Flat(g), frac) > 0
    ensures Verdict(raw).None? && Output(raw) == Written(Flat(g), frac)
  {
    hide Split, Flat, Words.Trim, Cell, Spelled, Whole, Fraction, HasPoint, Written, AllDigits, Starts, Grouping;
    CellFacts(Body(raw), g, frac);
    SpelledZeroIff(Flat(g), frac);
    assert Words.Trim(raw) == "" ==> Body(raw) == "";
  }

  /** Nothing a cell is refused for, except being zero. */
  lemma CellFacts(t: string, g: seq<string>, frac: string)
    requires Cell(t, g, frac)
    ensures t != "" && !Starts(t, '=') && !Starts(t, '(') && !Starts(t, '-') && !Starts(t, '+')
    ensures Split(Whole(t), ',') == g && Fraction(t) == frac && (HasPoint(t) <==> frac != "") && Grouping(g)
    ensures AllDigits(frac) && ',' !in frac && '.' !in frac && |frac| <= MAX_DECIMAL_PLACES
    ensures Flat(g) == "" ==> HasPoint(t)
  {
    CellParts(t, g, frac);
    NoDigitsOnlyIfEmpty(t, g, frac);
    hide Split, Flat, Whole, Fraction, HasPoint, Join;
  }

  lemma NoDigitsOnlyIfEmpty(t: string, g: seq<string>, frac: string)
    requires Cell(t, g, frac)
    ensures Flat(g) == "" ==> frac != ""
  {
    if |g| > 1 {
      assert |Flat(g)| >= |g[|g| - 1]|;
    } else {
      FlatOne(g[0]);
      assert g == [g[0]];
    }
  }

  /** A cell's text is white space, perhaps the mark that says it is text, and a cell. */
  predicate Laid(raw: string, pre: string, mark: string, t: string, post: string) {
    Words.Blank(pre) && Words.Blank(post) && (mark == "" || mark == "'") && raw == pre + (mark + t) + post
  }

  lemma LaidOut(raw: string, pre: string, mark: string, t: string, post: string, g: seq<string>, frac: string)
    requires Laid(raw, pre, mark, t, post) && Cell(t, g, frac)
    ensures Body(raw) == t
  {
    CellParts(t, g, frac);
    LastOfCell(t, g, frac);
    assert t != "";
    hide Cell, Split, Words.Trim, Words.Blank, AllDigits;
    MarkedText(mark, t);
    hide Unmarked;
    Words.TrimOf(pre, mark + t, post);
  }

  lemma MarkedText(mark: string, t: string)
    requires (mark == "" || mark == "'") && t != ""
    requires IsDigit(t[0]) || t[0] == ',' || t[0] == '.'
    requires IsDigit(t[|t| - 1]) || t[|t| - 1] == ','
    ensures Words.Trimmed(mark + t) && Unmarked(mark + t) == t
  {
    var x := mark + t;
    assert x[|x| - 1] == t[|t| - 1];
    assert mark == "" ==> x == t;
    assert mark == "'" ==> x[0] == '\'' && x[1..] == t;
  }

  lemma LastOfCell(t: string, g: seq<string>, frac: string)
    requires Cell(t, g, frac)
    ensures IsDigit(t[|t| - 1]) || t[|t| - 1] == ','
  {
    JoinedChars(g);
    hide Join;
    var whole := Join(g, ',');
    if frac == "" {
      assert t == whole;
      assert t[|t| - 1] in whole;
    } else {
      assert t[|t| - 1] == frac[|frac| - 1];
    }
  }

  /** A strict decimal above zero. */
  ghost predicate Pays(t: string, g: seq<string>, frac: string) {
    Cell(t, g, frac) && AllDigits(Flat(g)) && Spelled(Flat(g), frac) > 0
  }

  /** From the cell as it stands in the sheet: accepted exactly when it is a strict decimal above
      zero, with white space around it and perhaps a leading apostrophe. */
  lemma AcceptedAsItStandsIff(raw: string)
    ensures Verdict(raw).None? <==> exists pre, mark, t, post, g, frac :: Laid(raw, pre, mark, t, post) && Pays(t, g, frac)
  {
    AcceptedIff(raw);
    if Verdict(raw).None? {
      var g, frac :| Cell(Body(raw), g, frac) && AllDigits(Flat(g)) && Spelled(Flat(g), frac) > 0;
      assert Pays(Body(raw), g, frac);
      hide *;
      var pre, mark, post := HowItStands(raw);
    }
    if pre, mark, t, post, g, frac :| Laid(raw, pre, mark, t, post) && Pays(t, g, frac) {
      hide Verdict, Laid, Body, Cell, Flat, Spelled, AllDigits;
      LaidOut(raw, pre, mark, t, post, g, frac);
    }
  }

  lemma HowItStands(raw: string) returns (pre: string, mark: string, post: string)
    ensures Laid(raw, pre, mark, Body(raw), post)
  {
    hide Words.Trim;
    pre, post := Words.TrimParts(raw);
    mark := if Words.Trim(raw) != "" && Words.Trim(raw)[0] == '\'' then "'" else "";
    assert mark + Body(raw) == Words.Trim(raw);
  }

  // ----- reading it a second time -----

  /** The strict reader of amounts gets from the output the number the cell spells, and fails
      on it only where that number does not fit in 64 bits. */
  lemma OutputDenotes(raw: string, g: seq<string>, frac: string)
    requires Verdict(raw).None? && Cell(Body(raw), g, frac) && AllDigits(Flat(g))
    ensures var v := Spelled(Flat(g), frac);
            Money.Parse(Output(raw)) == if v <= MAX_INT64 then Money.Ok(v) else Money.Bad(Money.TooLarge)
  {
    CellParts(Body(raw), g, frac);
    CanonicalSpells(Flat(g), frac);
    ParseWritten(Canonical(Flat(g)), frac);
    hide Money.Parse, Canonical, Split, Flat, Spelled, Cell, Body, Verdict, AllDigits;
  }

  /** The cell, as it stands, spells this many stroops, which is more than none. */
  ghost predicate Reads(raw: string, n: int) {
    exists pre, mark, t, post, g, frac :: Laid(raw, pre, mark, t, post) && PaysThis(t, g, frac, n)
  }

  ghost predicate PaysThis(t: string, g: seq<string>, frac: string, n: int) {
    Pays(t, g, frac) && n == Spelled(Flat(g), frac)
  }

  /** What the strict reader makes of the output, told by the cell alone. */
  lemma OutputReads(raw: string, n: int)
    requires Reads(raw, n)
    ensures Verdict(raw).None? && n > 0
    ensures Money.Parse(Output(raw)) == if n <= MAX_INT64 then Money.Ok(n) else Money.Bad(Money.TooLarge)
  {
    hide Verdict, Output, Laid, Cell, Spelled, Flat, AllDigits, Body, Money.Parse;
    var pre, mark, t, post, g, frac :| Laid(raw, pre, mark, t, post) && PaysThis(t, g, frac, n);
    LaidOut(raw, pre, mark, t, post, g, frac);
    CellIsAccepted(raw, g, frac);
    OutputDenotes(raw, g, frac);
  }

  lemma AcceptedReads(raw: string) returns (n: int)
    requires Verdict(raw).None?
    ensures Reads(raw, n)
  {
    hide Verdict, Laid, Pays;
    AcceptedAsItStandsIff(raw);
    var pre, mark, t, post, g, frac :| Laid(raw, pre, mark, t, post) && Pays(t, g, frac);
    PaysSomething(t, g, frac);
    n := Spelled(Flat(g), frac);
    assert PaysThis(t, g, frac, n);
  }

  lemma PaysSomething(t: string, g: seq<string>, frac: string)
    requires Pays(t, g, frac)
    ensures AllDigits(Flat(g)) && AllDigits(frac) && |frac| <= MAX_DECIMAL_PLACES
  {
  }

  lemma AcceptedIsPositive(raw: string, g: seq<string>, frac: string)
    requires Verdict(raw).None? && Cell(Body(raw), g, frac) && AllDigits(Flat(g))
    ensures Spelled(Flat(g), frac) > 0
  {
    CellParts(Body(raw), g, frac);
    SpelledZeroIff(Flat(g), frac);
    hide Split, Flat, Words.Trim, Cell, Spelled, Whole, Fraction, HasPoint, Body, AllDigits, Grouping, AllZeros;
  }

  lemma ParseWritten(whole: string, frac: string)
    requires AllDigits(whole) && whole != "" && AllDigits(frac) && |frac| <= MAX_DECIMAL_PLACES
    ensures var v := Spelled(whole, frac);
            Money.Parse(whole + if frac == "" then "" else "." + frac)
            == if v <= MAX_INT64 then Money.Ok(v) else Money.Bad(Money.TooLarge)
  {
    hide Value;
    var s := whole + if frac == "" then "" else "." + frac;
    assert s == "" + whole + if frac == "" then "" else "." + frac;
    Money.ParseDigits(s, false, whole, frac);
  }

  /** Reading the output again returns it unchanged. */
  lemma OutputIsStable(raw: string)
    requires Verdict(raw).None?
    ensures Verdict(Output(raw)).None? && Output(Output(raw)) == Output(raw)
  {
    var t := Body(raw);
    var digits, frac := Flat(Split(Whole(t), ',')), Fraction(t);
    WhatIsRead(raw);
    SpelledZeroIff(digits, frac);
    hide Split, Spelled, Body, Words.Trim, Verdict, AllZeros, Whole, Fraction;
    PlainIsRead(digits, frac);
  }

  lemma PlainIsRead(digits: string, frac: string)
    requires AllDigits(digits) && AllDigits(frac) && |frac| <= MAX_DECIMAL_PLACES && Spelled(digits, frac) > 0
    ensures var o := Written(digits, frac); Verdict(o).None? && Output(o) == o
  {
    CanonicalSpells(digits, frac);
    CanonicalIsStable(digits);
    var c, o := Canonical(digits), Written(digits, frac);
    FlatOne(c);
    PlainBody(c, frac);
    assert Cell(o, [c], frac);
    hide Canonical, Split, Spelled, Words.Trim, Flat, Body, Verdict, Cell, AllDigits;
    CellIsAccepted(o, [c], frac);
  }

  lemma PlainBody(c: string, frac: string)
    requires AllDigits(c) && c != "" && AllDigits(frac)
    ensures var o := c + (if frac == "" then "" else "." + frac); Body(o) == o
  {
    var o := c + if frac == "" then "" else "." + frac;
    assert o[0] == c[0] && IsDigit(o[0]);
    assert frac == "" ==> o == c;
    assert IsDigit(o[|o| - 1]);
    assert Words.TrimLeft(o) == o && Words.TrimRight(o) == o;
  }

  /** A cell the first reading accepts and the second does not. */
  lemma SecondReadingCanFail()
    ensures var raw := "1" + Money.Zeros(12);
            Verdict(raw).None? && Money.Parse(Output(raw)) == Money.Bad(Money.TooLarge)
  {
    var raw := "1" + Money.Zeros(12);
    assert Body(raw) == raw by { PlainBody(raw, ""); }
    FlatOne(raw);
    assert Cell(raw, [raw], "");
    BigSpelling();
    hide Verdict, Body, Money.Parse, Cell, Spelled, AllDigits, Flat, Output, Money.Zeros;
    CellIsAccepted(raw, [raw], "");
    OutputDenotes(raw, [raw], "");
  }

  lemma BigSpelling()
    ensures AllDigits("1" + Money.Zeros(12)) && Spelled("1" + Money.Zeros(12), "") > MAX_INT64
  {
    assert "1" + Money.Zeros(12) + "" + Money.Zeros(7) == "1" + Money.Zeros(19);
    Money.ValueConcat("1", Money.Zeros(19));
    assert "1"[..0] == "" && Value("1") == 1;
    TenToTheNineteen();
  }

  lemma TenToTheNineteen()
    ensures Money.Pow10(19) > MAX_INT64
  {
    Money.SevenIsOne();
    assert Money.Pow10(10) == 10_000_000_000 by {
      assert Money.Pow10(8) == 100_000_000 && Money.Pow10(9) == 1_000_000_000;
    }
    assert Money.Pow10(13) == 10_000_000_000_000 by {
      assert Money.Pow10(11) == 100_000_000_000 && Money.Pow10(12) == 1_000_000_000_000;
    }
    assert Money.Pow10(16) == 10_000_000_000_000_000 by {
      assert Money.Pow10(14) == 100_000_000_000_000 && Money.Pow10(15) == 1_000_000_000_000_000;
    }
    assert Money.Pow10(17) == 100_000_000_000_000_000 && Money.Pow10(18) == 1_000_000_000_000_000_000;
  }
}
