/**
 How a reply reads once it is in pieces: every piece is cut out of the text as it stands,
 except that a line too long for a message is set word by word with single spaces; and no
 piece ends before the text that comes next would have made it too long.
 */
module ReplyLayout {
  import opened Words
  import opened Replies

  // ----- the text as it is laid out -----

  function Wrote(c: string, s: string, sep: string): string {
    if c == "" then s else c + sep + s
  }

  function WroteWords(c: string, words: seq<string>, first: string): string {
    if words == [] then c else
      var n := |words| - 1;
      Wrote(WroteWords(c, words[..n], first), words[n], if n == 0 then first else " ")
  }

  function WroteLines(c: string, lines: seq<string>, limit: nat): string {
    if lines == [] then c else
      var n := |lines| - 1;
      var before, sep := WroteLines(c, lines[..n], limit), if n == 0 then "\n\n" else "\n";
      if Units(lines[n]) <= limit then Wrote(before, lines[n], sep) else WroteWords(before, Fields(lines[n]), sep)
  }

  function WroteParagraphs(c: string, paragraphs: seq<string>, limit: nat): string {
    if paragraphs == [] then c else
      var n := |paragraphs| - 1;
      var before := WroteParagraphs(c, paragraphs[..n], limit);
      if Units(paragraphs[n]) <= limit then Wrote(before, paragraphs[n], "\n\n")
      else WroteLines(before, SplitOn(paragraphs[n], "\n"), limit)
  }

  /** The text with its overlong lines set word by word. */
  function LaidOut(text: string, limit: nat): string {
    WroteParagraphs("", SplitOn(Trim(text), "\n\n"), limit)
  }

  predicate AllFit(ps: seq<string>, limit: nat) {
    forall i :: 0 <= i < |ps| ==> Units(ps[i]) <= limit
  }

  /** Every line of a paragraph that does not fit does. */
  predicate LinesFit(paragraphs: seq<string>, limit: nat) {
    forall i :: 0 <= i < |paragraphs| && Units(paragraphs[i]) > limit ==> AllFit(SplitOn(paragraphs[i], "\n"), limit)
  }

  lemma {:induction false} JoinOneMore(f: seq<string>, x: string, sep: string)
    requires |f| > 0
    ensures JoinOn(f + [x], sep) == JoinOn(f, sep) + sep + x
  {
    if |f| == 1 {
      assert (f + [x])[1..] == [x];
    } else {
      assert (f + [x])[1..] == f[1..] + [x];
      JoinOneMore(f[1..], x, sep);
      assert f[0] + sep + (JoinOn(f[1..], sep) + sep + x) == f[0] + sep + JoinOn(f[1..], sep) + sep + x;
    }
  }

  lemma JoinLast(f: seq<string>, sep: string)
    requires |f| > 1
    ensures JoinOn(f, sep) == JoinOn(f[..|f| - 1], sep) + sep + f[|f| - 1]
  {
    assert f == f[..|f| - 1] + [f[|f| - 1]];
    JoinOneMore(f[..|f| - 1], f[|f| - 1], sep);
  }

  lemma {:induction false} LinesJoin(c: string, lines: seq<string>, limit: nat)
    requires lines != [] && AllFit(lines, limit) && (c != "" || lines[0] != "")
    ensures WroteLines(c, lines, limit) == Wrote(c, JoinOn(lines, "\n"), "\n\n") != ""
  {
    hide Units;
    var n := |lines| - 1;
    if n == 0 {
      assert WroteLines(c, lines[..0], limit) == c;
    } else {
      LinesJoin(c, lines[..n], limit);
      JoinLast(lines, "\n");
      var before, last := JoinOn(lines[..n], "\n"), lines[n];
      assert c + "\n\n" + before + "\n" + last == c + "\n\n" + (before + "\n" + last);
    }
  }

  lemma SplitHead(s: string, sep: string)
    requires sep != "" && s != "" && s[0] != sep[0]
    ensures SplitOn(s, sep)[0] != "" && SplitOn(s, sep)[0][0] == s[0]
  {
  }

  lemma LongParagraphJoins(c: string, p: string, limit: nat)
    requires AllFit(SplitOn(p, "\n"), limit) && (c != "" || (p != "" && !IsSpace(p[0])))
    ensures WroteLines(c, SplitOn(p, "\n"), limit) == Wrote(c, p, "\n\n") != ""
  {
    if c == "" {
      SplitHead(p, "\n");
    }
    JoinInvertsSplitOn(p, "\n");
    hide SplitOn, WroteLines, JoinOn, Units, IsSpace;
    LinesJoin(c, SplitOn(p, "\n"), limit);
  }

  lemma {:induction false} ParagraphsJoin(paragraphs: seq<string>, limit: nat)
    requires paragraphs != [] && LinesFit(paragraphs, limit)
    requires paragraphs[0] != "" && !IsSpace(paragraphs[0][0])
    ensures WroteParagraphs("", paragraphs, limit) == JoinOn(paragraphs, "\n\n") != ""
  {
    hide Units, SplitOn, WroteLines, IsSpace;
    var n := |paragraphs| - 1;
    var before := WroteParagraphs("", paragraphs[..n], limit);
    if n > 0 {
      ParagraphsJoin(paragraphs[..n], limit);
      JoinLast(paragraphs, "\n\n");
    }
    if Units(paragraphs[n]) > limit {
      LongParagraphJoins(before, paragraphs[n], limit);
    }
  }

  /** Unless a line is too long for a message, the layout is the text, to the character. */
  lemma LaidOutIsText(text: string, limit: nat)
    requires Trim(text) != "" && LinesFit(SplitOn(Trim(text), "\n\n"), limit)
    ensures LaidOut(text, limit) == Trim(text)
  {
    var t := Trim(text);
    TrimKeeps(text);
    assert t[0] != '\n';
    SplitHead(t, "\n\n");
    JoinInvertsSplitOn(t, "\n\n");
    hide Trim, SplitOn, JoinOn, WroteParagraphs, IsSpace, Fields, Units;
    ParagraphsJoin(SplitOn(t, "\n\n"), limit);
  }

  // ----- pieces of it -----

  predicate Ends(c: string, x: string) {
    |x| <= |c| && c[|c| - |x|..] == x
  }

  predicate Separates(sep: string) {
    sep == "\n\n" || sep == "\n" || sep == " "
  }

  /** What a piece had no room for: the next text with what parts it from the last one, or, in
      a word that has to be cut, the next character. */
  ghost predicate Next(r: string, texts: iset<string>) {
    |r| == 1 || exists sep, s :: NextText(r, sep, s) && s in texts
  }

  predicate NextText(r: string, sep: string, s: string) {
    Separates(sep) && r == sep + s
  }

  ghost predicate ClosedBy(c: string, p: string, q: string, r: string, texts: iset<string>, limit: nat) {
    Trim(q) == p && Next(r, texts) && Contains(c, q + r) && Units(q + r) > limit
  }

  /** The piece ends where it does because what follows it in the text was too much. */
  ghost predicate Closed(c: string, p: string, texts: iset<string>, limit: nat) {
    exists q, r :: ClosedBy(c, p, q, r, texts, limit)
  }

  ghost predicate CutOut(c: string, p: string, texts: iset<string>, limit: nat) {
    Contains(c, p) && Closed(c, p, texts, limit)
  }

  ghost predicate AllCutOut(c: string, out: seq<string>, texts: iset<string>, limit: nat) {
    forall i :: 0 <= i < |out| ==> CutOut(c, out[i], texts, limit)
  }

  /** The pieces are cut out of what has been written, and it ends in the one being written. */
  ghost predicate Laid(d: Draft, c: string, texts: iset<string>, limit: nat) {
    Ends(c, d.piece) && AllCutOut(c, d.out, texts, limit)
  }

  lemma ContainsEnd(c: string, x: string)
    requires Ends(c, x)
    ensures Contains(c, x)
  {
    assert At(c, |c| - |x|, x);
  }

  lemma ContainsTrimmed(c: string, q: string, r: string)
    requires Contains(c, q + r)
    ensures Contains(c, Trim(q))
  {
    TrimIsInside(q);
    ContainsInside("", q, r, Trim(q));
    assert "" + q + r == q + r;
    InsideInside(c, q + r, Trim(q));
  }

  /** More written afterwards changes nothing about a piece. */
  lemma StaysCutOut(c: string, more: string, out: seq<string>, texts: iset<string>, limit: nat)
    requires AllCutOut(c, out, texts, limit)
    ensures AllCutOut(c + more, out, texts, limit)
  {
    hide Trim, Units, Next, Contains;
    forall i | 0 <= i < |out| ensures CutOut(c + more, out[i], texts, limit) {
      assert CutOut(c, out[i], texts, limit);
      var q, r :| ClosedBy(c, out[i], q, r, texts, limit);
      assert "" + c + more == c + more;
      ContainsInside("", c, more, q + r);
      ContainsInside("", c, more, out[i]);
      assert ClosedBy(c + more, out[i], q, r, texts, limit);
    }
  }

  /** A flush closes a piece that what comes next would have made too long. */
  lemma FlushCutsOut(d: Draft, c: string, r: string, texts: iset<string>, limit: nat)
    requires AllCutOut(c, d.out, texts, limit) && Next(r, texts)
    requires d.piece != "" ==> Contains(c, d.piece + r) && Units(d.piece + r) > limit
    ensures AllCutOut(c, Flushed(d).out, texts, limit)
  {
    if Trim(d.piece) != "" {
      assert d.piece != "";
      ContainsTrimmed(c, d.piece, r);
      assert ClosedBy(c, Trim(d.piece), d.piece, r, texts, limit);
      assert CutOut(c, Trim(d.piece), texts, limit);
      hide CutOut, Trim;
    }
  }

  lemma WroteEnds(c: string, x: string, s: string, sep: string)
    requires Ends(c, x)
    ensures Ends(Wrote(c, s, sep), s)
    ensures x != "" ==> Ends(Wrote(c, s, sep), x + sep + s)
    ensures Wrote(c, s, sep) == c + (if c == "" then s else sep + s)
  {
    var w := c + sep + s;
    assert c == c[..|c| - |x|] + x;
    assert c != "" ==> w == c[..|c| - |x|] + (x + sep + s) && w == (c + sep) + s;
    assert c + (sep + s) == w;
  }

  lemma TooMuch(x: string, s: string, sep: string, limit: nat)
    requires Units(x) + Units(sep) + Units(s) > limit
    ensures Units(x + (sep + s)) > limit && x + (sep + s) == x + sep + s
  {
    UnitsConcat(x, sep);
    UnitsConcat(x + sep, s);
    assert x + (sep + s) == x + sep + s;
  }

  lemma AddLays(d: Draft, c: string, s: string, sep: string, texts: iset<string>, limit: nat)
    requires Laid(d, c, texts, limit) && s in texts && Separates(sep)
    ensures Laid(Added(d, s, sep, limit), Wrote(c, s, sep), texts, limit)
  {
    hide AllCutOut, Separates, Units, Trim;
    var w := Wrote(c, s, sep);
    WroteEnds(c, d.piece, s, sep);
    StaysCutOut(c, if c == "" then s else sep + s, d.out, texts, limit);
    if Overflows(d, s, sep, limit) {
      TooMuch(d.piece, s, sep, limit);
      ContainsEnd(w, d.piece + sep + s);
      assert NextText(sep + s, sep, s);
      FlushCutsOut(d, w, sep + s, texts, limit);
    }
  }

  lemma TrimmedIsTrimmed(s: string)
    requires Trimmed(s)
    ensures Trim(s) == s
  {
    TrimOf("", s, "");
    assert "" + s + "" == s;
  }

  /** A word on its way in: what is left of it ends what is written, and follows the piece. */
  ghost predicate Coming(d: Draft, w: string, sep: string, full: string, texts: iset<string>, limit: nat) {
    && AllCutOut(full, d.out, texts, limit) && Ends(full, w)
    && (d.piece != "" ==> Ends(full, d.piece + sep + w) && w in texts)
  }

  lemma CutLays(d: Draft, w: string, sep: string, full: string, texts: iset<string>, limit: nat)
    requires Coming(d, w, sep, full, texts, limit) && IsWord(w) && Separates(sep)
    requires Units(w) > limit && CutAt(w, limit) > 0
    ensures var k := CutAt(w, limit);
            k < |w| && Coming(Flushed(d).(out := Flushed(d).out + [w[..k]]), w[k..], sep, full, texts, limit)
  {
    hide AllCutOut, Separates, Trim, CutAt, IsSpace, Units, Ends, Contains, Next, IsWord, CutOut;
    var k := CutAt(w, limit);
    HeadIsCutOut(w, full, texts, limit);
    EndsLater(full, w, k);
    FlushedForWord(d, w, sep, full, texts, limit);
    OneMoreCutOut(full, Flushed(d).out, w[..k], texts, limit);
  }

  lemma EndsLater(c: string, x: string, k: nat)
    requires Ends(c, x) && k <= |x|
    ensures Ends(c, x[k..])
  {
  }

  lemma FlushedForWord(d: Draft, w: string, sep: string, full: string, texts: iset<string>, limit: nat)
    requires Coming(d, w, sep, full, texts, limit) && Separates(sep)
    requires Units(d.piece) + Units(sep) + Units(w) > limit
    ensures AllCutOut(full, Flushed(d).out, texts, limit)
  {
    hide AllCutOut, Separates, Trim, Units, Ends, Contains, Flushed;
    if d.piece != "" {
      TooMuch(d.piece, w, sep, limit);
      ContainsEnd(full, d.piece + sep + w);
      assert NextText(sep + w, sep, w);
      FlushCutsOut(d, full, sep + w, texts, limit);
    } else {
      FlushCutsOut(d, full, "x", texts, limit);
    }
  }

  lemma OneMoreCutOut(c: string, out: seq<string>, p: string, texts: iset<string>, limit: nat)
    requires AllCutOut(c, out, texts, limit) && CutOut(c, p, texts, limit)
    ensures AllCutOut(c, out + [p], texts, limit)
  {
    hide CutOut;
  }

  lemma NextOverflows(w: string, limit: nat)
    requires Units(w) > limit
    ensures var k := CutAt(w, limit); k < |w| && Units(w[..k] + [w[k]]) > limit
  {
    hide Units, CutAt;
    var k := CutAt(w, limit);
    assert w[..|w|] == w;
    var head := w[..k + 1];
    assert Units(head) > limit;
    assert head == w[..k] + [w[k]];
  }

  lemma HeadIsTrimmed(w: string, k: nat)
    requires IsWord(w) && 0 < k <= |w|
    ensures Trimmed(w[..k])
  {
  }

  lemma HeadIsThere(c: string, w: string, k: nat)
    requires Ends(c, w) && k < |w|
    ensures Contains(c, w[..k] + [w[k]])
  {
    var x := w[..k] + [w[k]];
    assert x == w[..k + 1];
    assert c[|c| - |w|..][..k + 1] == x;
    assert At(c, |c| - |w|, x);
  }

  lemma HeadIsCutOut(w: string, full: string, texts: iset<string>, limit: nat)
    requires IsWord(w) && Ends(full, w) && Units(w) > limit && CutAt(w, limit) > 0
    ensures CutAt(w, limit) < |w| && CutOut(full, w[..CutAt(w, limit)], texts, limit)
  {
    hide Units, CutAt, IsSpace, Trim, Trimmed, IsWord, Contains, Ends;
    var k := CutAt(w, limit);
    NextOverflows(w, limit);
    HeadIsTrimmed(w, k);
    HeadIsThere(full, w, k);
    TrimmedIsTrimmed(w[..k]);
    ContainsTrimmed(full, w[..k], [w[k]]);
    assert ClosedBy(full, w[..k], w[..k], [w[k]], texts, limit);
  }

  lemma {:induction false} WordLays(d: Draft, w: string, sep: string, full: string, texts: iset<string>, limit: nat)
    requires Coming(d, w, sep, full, texts, limit) && IsWord(w) && Separates(sep)
    ensures Laid(AddedWord(d, w, sep, limit), full, texts, limit)
    decreases |w|
  {
    var k := CutAt(w, limit);
    if Units(w) <= limit || k == 0 {
      hide AllCutOut, Separates, Units, Trim, CutAt;
      if Overflows(d, w, sep, limit) {
        TooMuch(d.piece, w, sep, limit);
        ContainsEnd(full, d.piece + sep + w);
        assert NextText(sep + w, sep, w);
        FlushCutsOut(d, full, sep + w, texts, limit);
      }
    } else {
      CutLays(d, w, sep, full, texts, limit);
      hide Coming, Laid, Units, CutAt, Flushed;
      WordLays(Flushed(d).(out := Flushed(d).out + [w[..k]]), w[k..], sep, full, texts, limit);
    }
  }

  lemma ComesIn(d: Draft, c: string, w: string, sep: string, texts: iset<string>, limit: nat)
    requires Laid(d, c, texts, limit) && w in texts
    ensures Coming(d, w, sep, Wrote(c, w, sep), texts, limit)
  {
    hide AllCutOut;
    WroteEnds(c, d.piece, w, sep);
    StaysCutOut(c, if c == "" then w else sep + w, d.out, texts, limit);
  }

  lemma {:induction false} WordsLay(d: Draft, c: string, words: seq<string>, first: string, texts: iset<string>, limit: nat)
    requires Laid(d, c, texts, limit) && Separates(first) && forall w :: w in words ==> IsWord(w) && w in texts
    ensures Laid(AddedWords(d, words, first, limit), WroteWords(c, words, first), texts, limit)
  {
    assert Separates(" ");
    hide Laid, IsWord, AddedWord, Separates, Wrote;
    if words != [] {
      var n := |words| - 1;
      WordsLay(d, c, words[..n], first, texts, limit);
      var before, w, sep := AddedWords(d, words[..n], first, limit), words[n], if n == 0 then first else " ";
      assert w in words;
      ComesIn(before, WroteWords(c, words[..n], first), w, sep, texts, limit);
      hide Coming;
      WordLays(before, w, sep, Wrote(WroteWords(c, words[..n], first), w, sep), texts, limit);
    }
  }

  lemma {:induction false} LinesLay(d: Draft, c: string, lines: seq<string>, texts: iset<string>, limit: nat)
    requires Laid(d, c, texts, limit)
    requires forall l :: l in lines ==> l in texts && forall w :: w in Fields(l) ==> w in texts
    ensures Laid(AddedLines(d, lines, limit), WroteLines(c, lines, limit), texts, limit)
  {
    assert Separates("\n\n") && Separates("\n");
    hide Laid, AddedWords, WroteWords, Added, Wrote, Separates, Fields, Units;
    if lines != [] {
      var n := |lines| - 1;
      LinesLay(d, c, lines[..n], texts, limit);
      var before, l, sep := AddedLines(d, lines[..n], limit), lines[n], if n == 0 then "\n\n" else "\n";
      assert l in lines;
      LineLays(before, WroteLines(c, lines[..n], limit), l, sep, texts, limit);
    }
  }

  lemma LineLays(d: Draft, c: string, l: string, sep: string, texts: iset<string>, limit: nat)
    requires Laid(d, c, texts, limit) && Separates(sep) && l in texts && forall w :: w in Fields(l) ==> w in texts
    ensures Units(l) <= limit ==> Laid(Added(d, l, sep, limit), Wrote(c, l, sep), texts, limit)
    ensures Units(l) > limit ==> Laid(AddedWords(d, Fields(l), sep, limit), WroteWords(c, Fields(l), sep), texts, limit)
  {
    hide *;
    AddLays(d, c, l, sep, texts, limit);
    FieldsAreWords(l);
    WordsLay(d, c, Fields(l), sep, texts, limit);
  }

  ghost predicate Includes(texts: iset<string>, p: string) {
    && p in texts
    && forall l :: l in SplitOn(p, "\n") ==> l in texts && forall w :: w in Fields(l) ==> w in texts
  }

  lemma {:induction false} ParagraphsLay(d: Draft, c: string, paragraphs: seq<string>, texts: iset<string>, limit: nat)
    requires Laid(d, c, texts, limit) && forall p :: p in paragraphs ==> Includes(texts, p)
    ensures Laid(AddedParagraphs(d, paragraphs, limit), WroteParagraphs(c, paragraphs, limit), texts, limit)
  {
    assert Separates("\n\n");
    hide Laid, AddedLines, WroteLines, Added, Wrote, Separates, Fields, Units, SplitOn;
    if paragraphs != [] {
      var n := |paragraphs| - 1;
      ParagraphsLay(d, c, paragraphs[..n], texts, limit);
      var before, p := AddedParagraphs(d, paragraphs[..n], limit), paragraphs[n];
      assert p in paragraphs && Includes(texts, p);
      var written := WroteParagraphs(c, paragraphs[..n], limit);
      if Units(p) <= limit {
        AddLays(before, written, p, "\n\n", texts, limit);
      } else {
        LinesLay(before, written, SplitOn(p, "\n"), texts, limit);
      }
    }
  }

  /** A paragraph of the text, a line of one, or a word. */
  ghost predicate IsPart(text: string, s: string) {
    exists p :: p in SplitOn(Trim(text), "\n\n") && (s == p || LineOrWord(p, s))
  }

  ghost predicate LineOrWord(p: string, s: string) {
    exists l :: l in SplitOn(p, "\n") && (s == l || s in Fields(l))
  }

  ghost function Texts(text: string): iset<string> {
    iset s | IsPart(text, s)
  }

  lemma TextsInclude(text: string)
    ensures forall p :: p in SplitOn(Trim(text), "\n\n") ==> Includes(Texts(text), p)
  {
    hide SplitOn, Trim, Fields;
    forall p | p in SplitOn(Trim(text), "\n\n") ensures Includes(Texts(text), p) {
      forall l | l in SplitOn(p, "\n") ensures l in Texts(text) && forall w :: w in Fields(l) ==> w in Texts(text) {
        assert LineOrWord(p, l);
        assert forall w :: w in Fields(l) ==> LineOrWord(p, w);
      }
    }
  }

  lemma NothingLaid(texts: iset<string>, limit: nat)
    ensures Laid(Draft([], ""), "", texts, limit)
  {
  }

  lemma LastPiece(d: Draft, c: string, texts: iset<string>, limit: nat)
    requires Laid(d, c, texts, limit)
    ensures var out := Flushed(d).out;
            && (forall i :: 0 <= i < |out| ==> Contains(c, out[i]))
            && (forall i :: 0 <= i < |out| - 1 ==> Closed(c, out[i], texts, limit))
  {
    hide Trim, Closed;
    ContainsEnd(c, d.piece);
    assert d.piece + "" == d.piece;
    ContainsTrimmed(c, d.piece, "");
    forall i | 0 <= i < |d.out| ensures Contains(c, d.out[i]) && Closed(c, d.out[i], texts, limit) {
      assert CutOut(c, d.out[i], texts, limit);
    }
    hide Contains;
  }

  lemma WholeFits(text: string, limit: nat)
    requires Trim(text) != "" && Units(Trim(text)) <= limit
    ensures LaidOut(text, limit) == Trim(text)
  {
    hide SplitOn, Trim, LaidOut, Units;
    var ps := SplitOn(Trim(text), "\n\n");
    forall i | 0 <= i < |ps| ensures Units(ps[i]) <= limit {
      SplitPartInside(Trim(text), "\n\n", i);
      InsideIsSmaller(Trim(text), ps[i]);
    }
    LaidOutIsText(text, limit);
  }

  /**
   The pieces of a reply are cut out of its layout, so nothing in a piece is put differently
   from the text but the spaces of an overlong line; and each but the last stops where the
   next paragraph, line, word or character would have taken it past the limit.
   */
  lemma PiecesAreCutOut(text: string, limit: nat)
    requires limit > 0
    ensures var out, layout := Pieces(text, limit), LaidOut(text, limit);
            && (forall i :: 0 <= i < |out| ==> Contains(layout, out[i]))
            && (forall i :: 0 <= i < |out| - 1 ==> Closed(layout, out[i], Texts(text), limit))
  {
    hide LaidOut, AddedParagraphs, Flushed, Trim, SplitOn, Units, Laid, Contains, Closed, Texts;
    var t := Trim(text);
    if t == "" {
    } else if Units(t) <= limit {
      WholeFits(text, limit);
      ContainsWhole(t);
    } else {
      var ps := SplitOn(t, "\n\n");
      NothingLaid(Texts(text), limit);
      TextsInclude(text);
      LaidOutUnfolds(text, limit);
      ParagraphsLay(Draft([], ""), "", ps, Texts(text), limit);
      LastPiece(AddedParagraphs(Draft([], ""), ps, limit), LaidOut(text, limit), Texts(text), limit);
    }
  }

  lemma LaidOutUnfolds(text: string, limit: nat)
    ensures LaidOut(text, limit) == WroteParagraphs("", SplitOn(Trim(text), "\n\n"), limit)
  {
  }
}
