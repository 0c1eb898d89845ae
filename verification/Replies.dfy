/** Splitting a reply into pieces a chat platform will accept. */
module Replies {
  import opened Words

  // ----- cutting a word that is longer than a whole message -----

  /** The longest prefix of at most k characters that fits. */
  function LongestFit(s: string, limit: nat, k: nat): (r: nat)
    requires k <= |s|
    ensures r <= k && Units(s[..r]) <= limit
    ensures forall j :: r < j <= k ==> Units(s[..j]) > limit
  {
    if Units(s[..k]) <= limit then k else LongestFit(s, limit, k - 1)
  }

  function CutAt(s: string, limit: nat): (r: nat)
    ensures r <= |s| && Units(s[..r]) <= limit
    ensures forall j :: r < j <= |s| ==> Units(s[..j]) > limit
  {
    LongestFit(s, limit, |s|)
  }

  lemma PrefixGrows(s: string, i: nat, j: nat)
    requires i <= j <= |s|
    ensures Units(s[..i]) <= Units(s[..j])
  {
    assert s[..j] == s[..i] + s[i..j];
    UnitsConcat(s[..i], s[i..j]);
  }

  /** The first character that does not fit is where the longest fitting prefix ends. */
  lemma CutIsHere(s: string, limit: nat, i: nat)
    requires i < |s| && Units(s[..i]) <= limit < Units(s[..i + 1])
    ensures CutAt(s, limit) == i
  {
    var r := CutAt(s, limit);
    var n := Units(s[..i]);
    assert r < i ==> n > limit;
    if r > i {
      PrefixGrows(s, i + 1, r);
    }
  }

  method Cut(s: string, limit: nat) returns (head: string, tail: string)
    ensures head == s[..CutAt(s, limit)] && tail == s[CutAt(s, limit)..]
  {
    var n := 0;
    for i := 0 to |s|
      invariant n == Units(s[..i]) <= limit
    {
      assert s[..i + 1][..i] == s[..i];
      var w := UnitsOf(s[i]);
      if n + w > limit {
        CutIsHere(s, limit, i);
        return s[..i], s[i..];
      }
      n := n + w;
    }
    assert s[..|s|] == s;
    return s, "";
  }

  /** A limit that any character of the text fits in. */
  predicate Cuttable(s: string, limit: int) {
    limit >= 2 || (limit == 1 && forall c :: c in s ==> UnitsOf(c) == 1)
  }

  lemma CutMoves(s: string, limit: nat)
    requires s != "" && Cuttable(s, limit)
    ensures CutAt(s, limit) > 0
  {
    assert s[..1][..0] == "";
    assert Units(s[..1]) == Units("") + UnitsOf(s[0]);
    var n := Units(s[..1]);
    assert CutAt(s, limit) == 0 ==> n > limit;
  }

  /** Where a word starts with a character that is longer than the limit, cutting leaves it
      as it was: nothing before it, and all of it still to come. */
  lemma CutStalls(s: string, limit: nat)
    requires s != "" && UnitsOf(s[0]) > limit
    ensures CutAt(s, limit) == 0 && Units(s) > limit
  {
    assert s[..1][..0] == "" && s[..0] == "";
    assert Units(s[..1]) == Units("") + UnitsOf(s[0]);
    CutIsHere(s, limit, 0);
    PrefixGrows(s, 1, |s|);
    assert s[..|s|] == s;
  }

  /** A word, cut only where it is longer than a whole message. */
  function Chop(w: string, limit: nat): seq<string>
    decreases |w|
  {
    if Units(w) <= limit || CutAt(w, limit) == 0 then [w]
    else [w[..CutAt(w, limit)]] + Chop(w[CutAt(w, limit)..], limit)
  }

  function ChopAll(ws: seq<string>, limit: nat): seq<string> {
    if ws == [] then [] else ChopAll(ws[..|ws| - 1], limit) + Chop(ws[|ws| - 1], limit)
  }

  function Concat(ps: seq<string>): string {
    if ps == [] then "" else ps[0] + Concat(ps[1..])
  }

  /** The parts of a cut word, put together, are the word; each fits; a word that fits is
      not cut at all. */
  lemma {:induction false} ChopIsFaithful(w: string, limit: nat)
    requires w != "" && Cuttable(w, limit)
    ensures Concat(Chop(w, limit)) == w
    ensures forall p :: p in Chop(w, limit) ==> p != "" && Units(p) <= limit
    ensures Units(w) <= limit <==> Chop(w, limit) == [w]
    decreases |w|
  {
    hide Chop, CutAt, Units, Cuttable, Concat;
    if Units(w) > limit {
      ChopOnce(w, limit);
      var k := CutAt(w, limit);
      var head, tail := w[..k], w[k..];
      ChopIsFaithful(tail, limit);
      assert head + tail == w;
      FirstPart(head, tail, Chop(tail, limit), w, limit);
    } else {
      ChopNone(w, limit);
    }
  }

  lemma ChopNone(w: string, limit: nat)
    requires Units(w) <= limit
    ensures Chop(w, limit) == [w] && Concat([w]) == w
  {
    assert [w][1..] == [];
    assert w + "" == w;
  }

  lemma FirstPart(head: string, tail: string, rest: seq<string>, w: string, limit: nat)
    requires head + tail == w && head != "" && tail != "" && Units(head) <= limit
    requires Concat(rest) == tail && forall p :: p in rest ==> p != "" && Units(p) <= limit
    ensures Concat([head] + rest) == w && [head] + rest != [w]
    ensures forall p :: p in [head] + rest ==> p != "" && Units(p) <= limit
  {
    hide Units;
    assert ([head] + rest)[1..] == rest;
    assert ([head] + rest)[0] == head && |head| < |w|;
  }

  lemma ChopOnce(w: string, limit: nat)
    requires w != "" && Cuttable(w, limit) && Units(w) > limit
    ensures var k := CutAt(w, limit);
            0 < k < |w| && Cuttable(w[k..], limit) && Chop(w, limit) == [w[..k]] + Chop(w[k..], limit)
  {
    CutMoves(w, limit);
    assert w[..|w|] == w;
  }

  lemma OneUnitAtLeast(s: string, c: char)
    requires c in s
    ensures Units(s) >= UnitsOf(c)
  {
    var i :| 0 <= i < |s| && s[i] == c;
    assert s == s[..i] + [c] + s[i + 1..];
    UnitsWithin(s[..i], [c], s[i + 1..]);
    assert [c][..0] == "";
  }

  lemma {:induction false} StuckOn(w: string, c: char, limit: nat) returns (p: string)
    requires c in w && UnitsOf(c) > limit
    ensures p in Chop(w, limit) && Units(p) > limit
    decreases |w|
  {
    OneUnitAtLeast(w, c);
    var k := CutAt(w, limit);
    if k == 0 {
      p := w;
    } else {
      assert w == w[..k] + w[k..];
      if c in w[..k] {
        OneUnitAtLeast(w[..k], c);
      }
      p := StuckOn(w[k..], c, limit);
    }
  }

  /** Cutting a word gets it down to pieces that fit exactly when each of its characters
      fits: with a limit of one unit, a character of two is never got past. */
  lemma CuttingEndsIff(w: string, limit: nat)
    requires w != "" && limit > 0
    ensures Cuttable(w, limit) <==> forall p :: p in Chop(w, limit) ==> Units(p) <= limit
  {
    if Cuttable(w, limit) {
      ChopIsFaithful(w, limit);
    } else {
      var c :| c in w && UnitsOf(c) != 1;
      var p := StuckOn(w, c, limit);
    }
  }

  /** So nothing that fits in a message, such as a link, is ever broken. */
  lemma {:induction false} ShortWordsStay(ws: seq<string>, limit: nat)
    requires forall w :: w in ws ==> Units(w) <= limit
    ensures ChopAll(ws, limit) == ws
  {
    if ws != [] {
      ShortWordsStay(ws[..|ws| - 1], limit);
      assert ws[|ws| - 1] in ws;
      assert ws[..|ws| - 1] + [ws[|ws| - 1]] == ws;
    }
  }

  lemma {:induction false} ChopAllConcat(xs: seq<string>, ys: seq<string>, limit: nat)
    ensures ChopAll(xs + ys, limit) == ChopAll(xs, limit) + ChopAll(ys, limit)
  {
    hide Chop;
    if ys == [] {
      assert xs + ys == xs;
    } else {
      var init, last := ys[..|ys| - 1], ys[|ys| - 1];
      assert (xs + ys)[..|xs + ys| - 1] == xs + init;
      ChopAllConcat(xs, init, limit);
      assert ChopAll(xs, limit) + (ChopAll(init, limit) + Chop(last, limit))
          == ChopAll(xs, limit) + ChopAll(init, limit) + Chop(last, limit);
    }
  }

  // ----- the pieces so far, and the one being written -----

  datatype Draft = Draft(out: seq<string>, piece: string)

  ghost predicate Good(d: Draft, limit: nat) {
    && Units(d.piece) <= limit
    && forall i :: 0 <= i < |d.out| ==> Trimmed(d.out[i]) && Units(d.out[i]) <= limit
  }

  /** Every word written so far, in order. */
  function Said(d: Draft): seq<string> {
    AllFields(d.out) + Fields(d.piece)
  }

  ghost predicate InOne(ps: seq<string>, t: string) {
    exists i :: 0 <= i < |ps| && Contains(ps[i], t)
  }

  /** Stands unbroken in one piece. */
  ghost predicate Holds(d: Draft, t: string) {
    Contains(d.piece, t) || InOne(d.out, t)
  }

  /** Nothing that stood unbroken has been broken since. */
  ghost predicate Extends(d: Draft, e: Draft) {
    forall t :: Trimmed(t) && Holds(d, t) ==> Holds(e, t)
  }

  function Flushed(d: Draft): Draft {
    Draft(if Trim(d.piece) != "" then d.out + [Trim(d.piece)] else d.out, "")
  }

  predicate Overflows(d: Draft, s: string, sep: string, limit: nat) {
    d.piece != "" && Units(d.piece) + Units(sep) + Units(s) > limit
  }

  function Appended(d: Draft, s: string, sep: string): Draft {
    d.(piece := if d.piece != "" then d.piece + sep + s else s)
  }

  function Added(d: Draft, s: string, sep: string, limit: nat): Draft {
    Appended(if Overflows(d, s, sep, limit) then Flushed(d) else d, s, sep)
  }

  /** A word, cut while it is longer than a whole message. */
  function AddedWord(d: Draft, w: string, sep: string, limit: nat): Draft
    decreases |w|
  {
    if Units(w) <= limit || CutAt(w, limit) == 0 then Added(d, w, sep, limit) else
      var k := CutAt(w, limit);
      AddedWord(Flushed(d).(out := Flushed(d).out + [w[..k]]), w[k..], sep, limit)
  }

  function AddedWords(d: Draft, words: seq<string>, first: string, limit: nat): Draft {
    if words == [] then d else
      var n := |words| - 1;
      AddedWord(AddedWords(d, words[..n], first, limit), words[n], if n == 0 then first else " ", limit)
  }

  function AddedLines(d: Draft, lines: seq<string>, limit: nat): Draft {
    if lines == [] then d else
      var n := |lines| - 1;
      var before, sep := AddedLines(d, lines[..n], limit), if n == 0 then "\n\n" else "\n";
      if Units(lines[n]) <= limit then Added(before, lines[n], sep, limit)
      else AddedWords(before, Fields(lines[n]), sep, limit)
  }

  function AddedParagraphs(d: Draft, paragraphs: seq<string>, limit: nat): Draft {
    if paragraphs == [] then d else
      var n := |paragraphs| - 1;
      var before := AddedParagraphs(d, paragraphs[..n], limit);
      if Units(paragraphs[n]) <= limit then Added(before, paragraphs[n], "\n\n", limit)
      else AddedLines(before, SplitOn(paragraphs[n], "\n"), limit)
  }

  /** The pieces of a reply, whatever limit it is to keep. */
  function Pieces(text: string, limit: int): seq<string> {
    var t := Trim(text);
    if t == "" || limit <= 0 then []
    else if Units(t) <= limit then [t]
    else Flushed(AddedParagraphs(Draft([], ""), SplitOn(t, "\n\n"), limit)).out
  }

  lemma CutOnce(d: Draft, w: string, sep: string, limit: nat)
    requires Units(w) > limit && CutAt(w, limit) > 0
    ensures var k := CutAt(w, limit);
            AddedWord(d, w, sep, limit) == AddedWord(Flushed(d).(out := Flushed(d).out + [w[..k]]), w[k..], sep, limit)
  {
  }

  lemma NotCut(d: Draft, w: string, sep: string, limit: nat)
    requires Units(w) <= limit
    ensures AddedWord(d, w, sep, limit) == Added(d, w, sep, limit)
  {
  }

  lemma NothingAdded(d: Draft, first: string, limit: nat)
    ensures AddedWords(d, [], first, limit) == AddedLines(d, [], limit) == AddedParagraphs(d, [], limit) == d
    ensures ChopAll([], limit) == []
  {
  }

  lemma OneMoreWord(d: Draft, words: seq<string>, i: nat, first: string, limit: nat)
    requires i < |words|
    ensures AddedWords(d, words[..i + 1], first, limit)
         == AddedWord(AddedWords(d, words[..i], first, limit), words[i], if i == 0 then first else " ", limit)
  {
    assert words[..i + 1][..i] == words[..i];
  }

  lemma OneMoreLine(d: Draft, lines: seq<string>, i: nat, limit: nat)
    requires i < |lines|
    ensures var before, sep := AddedLines(d, lines[..i], limit), if i == 0 then "\n\n" else "\n";
            AddedLines(d, lines[..i + 1], limit) ==
            if Units(lines[i]) <= limit then Added(before, lines[i], sep, limit)
            else AddedWords(before, Fields(lines[i]), sep, limit)
  {
    assert lines[..i + 1][..i] == lines[..i];
  }

  lemma OneMoreParagraph(d: Draft, paragraphs: seq<string>, i: nat, limit: nat)
    requires i < |paragraphs|
    ensures var before := AddedParagraphs(d, paragraphs[..i], limit);
            AddedParagraphs(d, paragraphs[..i + 1], limit) ==
            if Units(paragraphs[i]) <= limit then Added(before, paragraphs[i], "\n\n", limit)
            else AddedLines(before, SplitOn(paragraphs[i], "\n"), limit)
  {
    assert paragraphs[..i + 1][..i] == paragraphs[..i];
  }

  lemma PieceAdds(out: seq<string>, p: string)
    ensures AllFields(out + [p]) == AllFields(out) + Fields(p)
  {
    assert (out + [p])[..|out|] == out;
  }

  lemma FlushKeeps(d: Draft, limit: nat)
    requires Good(d, limit)
    ensures Good(Flushed(d), limit) && Said(Flushed(d)) == Said(d) && Extends(d, Flushed(d))
  {
    var t := Trim(d.piece);
    TrimKeeps(d.piece);
    NoFields();
    PieceAdds(d.out, t);
    assert Units("") == 0;
    hide Fields, AllFields, Trim, Units;
    assert Said(Flushed(d)) == Said(d);
    assert Good(Flushed(d), limit);
    hide Flushed, Good, Said;
    forall u | Trimmed(u) && Holds(d, u) ensures Holds(Flushed(d), u) {
      FlushHolds(d, u);
    }
  }

  lemma FlushHolds(d: Draft, u: string)
    requires Trimmed(u) && Holds(d, u)
    ensures Holds(Flushed(d), u)
  {
    hide Trim;
    var out, t := Flushed(d).out, Trim(d.piece);
    if Contains(d.piece, u) {
      TrimHolds(d.piece, u);
      var i: nat :| At(t, i, u);
      assert t != "";
      assert out[|d.out|] == t;
    } else {
      var i :| 0 <= i < |d.out| && Contains(d.out[i], u);
      assert out[i] == d.out[i];
    }
  }

  lemma AppendKeeps(d: Draft, s: string, sep: string, limit: nat)
    requires Good(d, limit) && Units(s) <= limit && !Overflows(d, s, sep, limit)
    requires Blank(sep) && sep != ""
    ensures Good(Appended(d, s, sep), limit)
    ensures Said(Appended(d, s, sep)) == Said(d) + Fields(s)
    ensures Extends(d, Appended(d, s, sep))
    ensures Trim(s) != "" ==> Holds(Appended(d, s, sep), Trim(s))
  {
    AppendSays(d, s, sep);
    AppendFits(d, s, sep, limit);
    forall u | Trimmed(u) && Holds(d, u) ensures Holds(Appended(d, s, sep), u) {
      AppendHolds(d, s, sep, u);
    }
    assert Extends(d, Appended(d, s, sep));
    hide *;
  }

  lemma AppendFits(d: Draft, s: string, sep: string, limit: nat)
    requires Good(d, limit) && Units(s) <= limit && !Overflows(d, s, sep, limit)
    ensures Good(Appended(d, s, sep), limit)
    ensures Holds(Appended(d, s, sep), Trim(s))
  {
    UnitsConcat(d.piece, sep);
    UnitsConcat(d.piece + sep, s);
    TrimIsInside(s);
    assert d.piece + sep + s + "" == d.piece + sep + s;
    ContainsInside(d.piece + sep, s, "", Trim(s));
    hide Trim, Units, Contains;
  }

  lemma AppendSays(d: Draft, s: string, sep: string)
    requires Blank(sep) && sep != ""
    ensures Said(Appended(d, s, sep)) == Said(d) + Fields(s)
  {
    NoFields();
    FieldsAroundBlank(d.piece, sep, s);
    hide Fields, AllFields, Blank;
    Associate(AllFields(d.out), Fields(d.piece), Fields(s));
  }

  lemma AppendHolds(d: Draft, s: string, sep: string, u: string)
    requires Trimmed(u) && Holds(d, u)
    ensures Holds(Appended(d, s, sep), u)
  {
    if Contains(d.piece, u) {
      ContainsInside("", d.piece, sep + s, u);
      assert "" + d.piece + (sep + s) == d.piece + sep + s;
      var i: nat :| At(d.piece, i, u);
    }
  }

  lemma ExtendsOn(d: Draft, e: Draft, f: Draft)
    requires Extends(d, e) && Extends(e, f)
    ensures Extends(d, f)
  {
  }

  /** Adding a text that fits keeps every bound, says its words next, and leaves it whole. */
  lemma AddKeeps(d: Draft, s: string, sep: string, limit: nat)
    requires Good(d, limit) && Units(s) <= limit
    requires Blank(sep) && sep != ""
    ensures Good(Added(d, s, sep, limit), limit)
    ensures Said(Added(d, s, sep, limit)) == Said(d) + ChopAll(Fields(s), limit)
    ensures Extends(d, Added(d, s, sep, limit))
    ensures Trim(s) != "" ==> Holds(Added(d, s, sep, limit), Trim(s))
  {
    FieldsAreWords(s);
    ShortWordsStay(Fields(s), limit);
    hide Good, Said, Extends, Holds, Fields, ChopAll, Trim, Blank, Appended;
    var e := if Overflows(d, s, sep, limit) then Flushed(d) else d;
    if Overflows(d, s, sep, limit) {
      FlushKeeps(d, limit);
    } else {
      ExtendsItself(d);
    }
    AppendKeeps(e, s, sep, limit);
    ExtendsOn(d, e, Added(d, s, sep, limit));
  }

  lemma ExtendsItself(d: Draft)
    ensures Extends(d, d)
  {
  }

  /** Sending the head of an overlong word on its own. */
  lemma HeadKeeps(d: Draft, w: string, limit: nat)
    requires Good(d, limit) && IsWord(w) && Cuttable(w, limit) && Units(w) > limit
    ensures var k := CutAt(w, limit);
            var e := Flushed(d).(out := Flushed(d).out + [w[..k]]);
            && 0 < k < |w| && IsWord(w[k..]) && Cuttable(w[k..], limit)
            && Good(e, limit) && Extends(d, e)
            && Said(e) + Chop(w[k..], limit) == Said(d) + Chop(w, limit)
  {
    ChopOnce(w, limit);
    var k := CutAt(w, limit);
    hide CutAt, Chop;
    var f := Flushed(d);
    FlushKeeps(d, limit);
    HeadAlone(f, w[..k], limit);
    var e := f.(out := f.out + [w[..k]]);
    ExtendsOn(d, f, e);
    assert IsWord(w[k..]);
    hide *;
    Associate(Said(d), [w[..k]], Chop(w[k..], limit));
  }

  lemma Associate(x: seq<string>, y: seq<string>, z: seq<string>)
    ensures x + y + z == x + (y + z)
  {
  }

  lemma HeadAlone(f: Draft, head: string, limit: nat)
    requires Good(f, limit) && f.piece == "" && IsWord(head) && Units(head) <= limit
    ensures var e := f.(out := f.out + [head]);
            Good(e, limit) && Extends(f, e) && Said(e) == Said(f) + [head]
  {
    OneWord(head);
    PieceAdds(f.out, head);
    NoFields();
    OneMoreExtends(f, head);
    hide Fields, AllFields, Extends, Units;
  }

  lemma OneMoreExtends(d: Draft, p: string)
    ensures Extends(d, d.(out := d.out + [p]))
  {
    forall t | Trimmed(t) && Holds(d, t) ensures Holds(d.(out := d.out + [p]), t) {
      if !Contains(d.piece, t) {
        var i :| 0 <= i < |d.out| && Contains(d.out[i], t);
        assert (d.out + [p])[i] == d.out[i];
      }
    }
  }

  // ----- what is never broken -----

  /** Of these parts, each one that fits in a message stands unbroken in one. */
  ghost predicate Unbroken(d: Draft, parts: seq<string>, limit: nat) {
    forall i :: 0 <= i < |parts| && Units(parts[i]) <= limit && Trim(parts[i]) != "" ==> Holds(d, Trim(parts[i]))
  }

  /** A paragraph that fits is unbroken, and so is each line that fits of one that does not. */
  ghost predicate ReadsWell(d: Draft, paragraphs: seq<string>, limit: nat) {
    && Unbroken(d, paragraphs, limit)
    && forall i :: 0 <= i < |paragraphs| && Units(paragraphs[i]) > limit ==>
                     Unbroken(d, SplitOn(paragraphs[i], "\n"), limit)
  }

  lemma UnbrokenStays(d: Draft, e: Draft, parts: seq<string>, limit: nat)
    requires Unbroken(d, parts, limit) && Extends(d, e)
    ensures Unbroken(e, parts, limit)
  {
    hide Holds, Trim, Units;
    forall i | 0 <= i < |parts| && Units(parts[i]) <= limit && Trim(parts[i]) != ""
      ensures Holds(e, Trim(parts[i]))
    {
      TrimKeeps(parts[i]);
    }
  }

  lemma UnbrokenMore(d: Draft, e: Draft, parts: seq<string>, i: nat, limit: nat)
    requires i < |parts| && Unbroken(d, parts[..i], limit) && Extends(d, e)
    requires Units(parts[i]) <= limit && Trim(parts[i]) != "" ==> Holds(e, Trim(parts[i]))
    ensures Unbroken(e, parts[..i + 1], limit)
  {
    UnbrokenStays(d, e, parts[..i], limit);
    hide Holds, Trim, Units, Extends;
    forall j | 0 <= j < i + 1 && Units(parts[j]) <= limit && Trim(parts[j]) != ""
      ensures Holds(e, Trim(parts[j]))
    {
      assert j < i ==> parts[..i][j] == parts[j];
    }
  }

  lemma ReadsMore(d: Draft, e: Draft, paragraphs: seq<string>, i: nat, limit: nat)
    requires i < |paragraphs| && ReadsWell(d, paragraphs[..i], limit) && Extends(d, e)
    requires var p := paragraphs[i];
             if Units(p) <= limit then Trim(p) != "" ==> Holds(e, Trim(p)) else Unbroken(e, SplitOn(p, "\n"), limit)
    ensures ReadsWell(e, paragraphs[..i + 1], limit)
  {
    UnbrokenMore(d, e, paragraphs, i, limit);
    hide Unbroken, Holds, Trim, Units, Extends;
    forall j | 0 <= j < i + 1 && Units(paragraphs[j]) > limit
      ensures Unbroken(e, SplitOn(paragraphs[j], "\n"), limit)
    {
      if j < i {
        assert paragraphs[..i][j] == paragraphs[j];
        UnbrokenStays(d, e, SplitOn(paragraphs[j], "\n"), limit);
      }
    }
  }

  // ----- the splitter -----

  class Splitter {
    const limit: nat
    var out: seq<string>
    var piece: string

    constructor (limit: nat)
      ensures this.limit == limit && State() == Draft([], "")
    {
      this.limit := limit;
      out := [];
      piece := "";
    }

    function State(): Draft
      reads this
    {
      Draft(out, piece)
    }

    method Flush()
      modifies this
      ensures State() == Flushed(old(State()))
    {
      var s := Trim(piece);
      if s != "" {
        out := out + [s];
      }
      piece := "";
    }

    method Add(s: string, sep: string)
      modifies this
      ensures State() == Added(old(State()), s, sep, limit)
    {
      var a := CountUnits(piece);
      var b := CountUnits(sep);
      var c := CountUnits(s);
      if |piece| > 0 && a + b + c > limit {
        Flush();
      }
      if |piece| > 0 {
        piece := piece + sep;
      }
      piece := piece + s;
    }

    /** One word, cut while it is longer than a whole message. */
    method AddWord(whole: string, sep: string)
      requires Good(State(), limit) && IsWord(whole) && Cuttable(whole, limit) && Blank(sep) && sep != ""
      modifies this
      ensures Good(State(), limit) && Extends(old(State()), State())
      ensures Said(State()) == old(Said(State())) + Chop(whole, limit)
      ensures State() == AddedWord(old(State()), whole, sep, limit)
    {
      hide Good, Said, Extends, Chop, ChopAll, Fields, AllFields, Flushed, Added, AddedWord, Units, Cuttable,
        IsWord, CutAt, Blank, Trim;
      var word := whole;
      var n := CountUnits(word);
      ExtendsItself(State());
      while n > limit
        invariant n == Units(word) && IsWord(word) && Cuttable(word, limit)
        invariant Good(State(), limit) && Extends(old(State()), State())
        invariant Said(State()) + Chop(word, limit) == old(Said(State())) + Chop(whole, limit)
        invariant AddedWord(State(), word, sep, limit) == AddedWord(old(State()), whole, sep, limit)
        decreases |word|
      {
        HeadKeeps(State(), word, limit);
        CutOnce(State(), word, sep, limit);
        ghost var before := State();
        Flush();
        var head, tail := Cut(word, limit);
        out := out + [head];
        ExtendsOn(old(State()), before, State());
        word := tail;
        n := CountUnits(word);
      }
      AddKeeps(State(), word, sep, limit);
      NotCut(State(), word, sep, limit);
      WordSays(word, limit);
      ghost var before := State();
      Add(word, sep);
      ExtendsOn(old(State()), before, State());
    }

    /** A line too long for one message, word by word. */
    method AddWords(line: string, first: string)
      requires Good(State(), limit) && Cuttable(line, limit) && Blank(first) && first != ""
      modifies this
      ensures Good(State(), limit) && Extends(old(State()), State())
      ensures Said(State()) == old(Said(State())) + ChopAll(Fields(line), limit)
      ensures State() == AddedWords(old(State()), Fields(line), first, limit)
    {
      hide *;
      var words, sep, space := Fields(line), first, " ";
      FieldsAreCuttable(line, limit);
      ExtendsItself(State());
      LineBreaksAreBlank();
      NothingAdded(State(), first, limit);
      for i := 0 to |words|
        invariant Blank(sep) && sep != "" && sep == (if i == 0 then first else space)
        invariant State() == AddedWords(old(State()), words[..i], first, limit)
        invariant Good(State(), limit) && Extends(old(State()), State())
        invariant Said(State()) == old(Said(State())) + ChopAll(words[..i], limit)
      {
        ghost var before := State();
        assert words[i] in words;
        AddWord(words[i], sep);
        OneMoreWord(old(State()), words, i, first, limit);
        ChopOneMore(words, i, limit);
        Associate(old(Said(State())), ChopAll(words[..i], limit), Chop(words[i], limit));
        ExtendsOn(old(State()), before, State());
        sep := space;
      }
      assert words[..|words|] == words;
    }

    /** A paragraph too long for one message, line by line. */
    method AddLines(paragraph: string)
      requires Good(State(), limit) && Cuttable(paragraph, limit)
      modifies this
      ensures Good(State(), limit) && Extends(old(State()), State())
      ensures Said(State()) == old(Said(State())) + ChopAll(Fields(paragraph), limit)
      ensures Unbroken(State(), SplitOn(paragraph, "\n"), limit)
      ensures State() == AddedLines(old(State()), SplitOn(paragraph, "\n"), limit)
    {
      hide *;
      var lines := SplitOn(paragraph, "\n");
      var sep, newline := "\n\n", "\n";
      LineBreaksAreBlank();
      LinesAreCuttable(paragraph, newline, limit);
      SplitKeepsFields(paragraph, newline);
      LinesStart(State(), lines, limit);
      for i := 0 to |lines|
        invariant Blank(sep) && sep != "" && sep == (if i == 0 then "\n\n" else newline)
        invariant LinesIn(old(State()), State(), lines, i, limit)
      {
        ghost var before := State();
        LinesAreGood(old(State()), before, lines, i, limit);
        var n := CountUnits(lines[i]);
        if n <= limit {
          Add(lines[i], sep);
          FittingLine(old(State()), before, lines, i, sep, limit);
        } else {
          AddWords(lines[i], sep);
          LongLine(old(State()), before, State(), lines, i, sep, limit);
        }
        sep := newline;
      }
      LinesEnd(old(State()), State(), lines, limit);
    }

    method AddParagraphs(paragraphs: seq<string>)
      requires Good(State(), limit) && forall i :: 0 <= i < |paragraphs| ==> Cuttable(paragraphs[i], limit)
      modifies this
      ensures Good(State(), limit)
      ensures Said(State()) == old(Said(State())) + ChopAll(AllFields(paragraphs), limit)
      ensures ReadsWell(State(), paragraphs, limit)
      ensures State() == AddedParagraphs(old(State()), paragraphs, limit)
    {
      hide *;
      var blank := "\n\n";
      LineBreaksAreBlank();
      NoneYet(State(), paragraphs, limit);
      NothingAdded(State(), blank, limit);
      assert paragraphs[..0] == [];
      for i := 0 to |paragraphs|
        invariant State() == AddedParagraphs(old(State()), paragraphs[..i], limit)
        invariant Good(State(), limit)
        invariant Said(State()) == old(Said(State())) + ChopAll(AllFields(paragraphs[..i]), limit)
        invariant ReadsWell(State(), paragraphs[..i], limit)
      {
        ghost var before := State();
        var n := CountUnits(paragraphs[i]);
        if n <= limit {
          AddKeeps(before, paragraphs[i], blank, limit);
          Add(paragraphs[i], blank);
        } else {
          AddLines(paragraphs[i]);
        }
        OneMoreParagraph(old(State()), paragraphs, i, limit);
        SaysMore(paragraphs, i, limit);
        Associate(old(Said(State())), ChopAll(AllFields(paragraphs[..i]), limit), ChopAll(Fields(paragraphs[i]), limit));
        ReadsMore(before, State(), paragraphs, i, limit);
      }
      assert paragraphs[..|paragraphs|] == paragraphs;
    }
  }

  /** What holds once the first i lines of a paragraph are in. */
  ghost predicate LinesIn(start: Draft, d: Draft, lines: seq<string>, i: nat, limit: nat) {
    && i <= |lines|
    && Good(d, limit) && Extends(start, d) && Unbroken(d, lines[..i], limit)
    && Said(d) == Said(start) + ChopAll(AllFields(lines[..i]), limit)
    && d == AddedLines(start, lines[..i], limit)
  }

  lemma LineBreaksAreBlank()
    ensures Blank("\n\n") && Blank("\n") && Blank(" ")
  {
  }

  lemma LinesStart(d: Draft, lines: seq<string>, limit: nat)
    requires Good(d, limit)
    ensures LinesIn(d, d, lines, 0, limit)
  {
    NothingAdded(d, "", limit);
    NoneYet(d, lines, limit);
    ExtendsItself(d);
    assert lines[..0] == [];
    hide Good, Extends, Said, Unbroken, ChopAll, AllFields;
    assert Said(d) + [] == Said(d);
  }

  lemma LinesAreGood(start: Draft, d: Draft, lines: seq<string>, i: nat, limit: nat)
    requires LinesIn(start, d, lines, i, limit)
    ensures Good(d, limit)
  {
  }

  lemma LongLine(start: Draft, d: Draft, e: Draft, lines: seq<string>, i: nat, sep: string, limit: nat)
    requires LinesIn(start, d, lines, i, limit) && i < |lines| && Units(lines[i]) > limit
    requires sep == (if i == 0 then "\n\n" else "\n") && e == AddedWords(d, Fields(lines[i]), sep, limit)
    requires Good(e, limit) && Extends(d, e) && Said(e) == Said(d) + ChopAll(Fields(lines[i]), limit)
    ensures LinesIn(start, e, lines, i + 1, limit)
  {
    hide Good, Extends, Said, Unbroken, ChopAll, AllFields, Fields, Units, AddedWords, AddedLines, Holds, Trim;
    OneMoreLine(start, lines, i, limit);
    SaysMore(lines, i, limit);
    Associate(Said(start), ChopAll(AllFields(lines[..i]), limit), ChopAll(Fields(lines[i]), limit));
    ExtendsOn(start, d, e);
    UnbrokenMore(d, e, lines, i, limit);
  }

  lemma FittingLine(start: Draft, d: Draft, lines: seq<string>, i: nat, sep: string, limit: nat)
    requires LinesIn(start, d, lines, i, limit) && i < |lines| && Units(lines[i]) <= limit
    requires sep == (if i == 0 then "\n\n" else "\n")
    ensures LinesIn(start, Added(d, lines[i], sep, limit), lines, i + 1, limit)
  {
    assert Blank(sep);
    hide Good, Extends, Said, Unbroken, ChopAll, AllFields, Fields, Units, Added, AddedLines, Holds, Trim, Blank;
    var e := Added(d, lines[i], sep, limit);
    AddKeeps(d, lines[i], sep, limit);
    OneMoreLine(start, lines, i, limit);
    SaysMore(lines, i, limit);
    Associate(Said(start), ChopAll(AllFields(lines[..i]), limit), ChopAll(Fields(lines[i]), limit));
    ExtendsOn(start, d, e);
    UnbrokenMore(d, e, lines, i, limit);
  }

  lemma LinesEnd(start: Draft, d: Draft, lines: seq<string>, limit: nat)
    requires LinesIn(start, d, lines, |lines|, limit)
    ensures Good(d, limit) && Extends(start, d) && Unbroken(d, lines, limit)
    ensures Said(d) == Said(start) + ChopAll(AllFields(lines), limit) && d == AddedLines(start, lines, limit)
  {
    assert lines[..|lines|] == lines;
    hide Good, Extends, Said, Unbroken, ChopAll, AllFields, AddedLines;
  }

  lemma NoneYet(d: Draft, parts: seq<string>, limit: nat)
    ensures ChopAll(AllFields(parts[..0]), limit) == [] && Unbroken(d, parts[..0], limit)
    ensures ReadsWell(d, parts[..0], limit)
  {
  }

  lemma LinesAreCuttable(s: string, sep: string, limit: int)
    requires Cuttable(s, limit) && sep != ""
    ensures forall i :: 0 <= i < |SplitOn(s, sep)| ==> Cuttable(SplitOn(s, sep)[i], limit)
  {
    forall i | 0 <= i < |SplitOn(s, sep)| ensures Cuttable(SplitOn(s, sep)[i], limit) {
      SplitPartInside(s, sep, i);
      InsideIsSmaller(s, SplitOn(s, sep)[i]);
    }
  }

  lemma FieldsAreCuttable(line: string, limit: nat)
    requires Cuttable(line, limit)
    ensures forall w :: w in Fields(line) ==> IsWord(w) && Cuttable(w, limit)
  {
    FieldsAreWords(line);
    FieldsUseTheText(line);
  }

  lemma WordSays(word: string, limit: nat)
    requires IsWord(word) && Units(word) <= limit
    ensures ChopAll(Fields(word), limit) == Chop(word, limit)
  {
    OneWord(word);
    assert [word][..0] == [];
  }

  lemma ChopOneMore(words: seq<string>, i: nat, limit: nat)
    requires i < |words|
    ensures ChopAll(words[..i + 1], limit) == ChopAll(words[..i], limit) + Chop(words[i], limit)
  {
    assert words[..i + 1][..i] == words[..i];
  }

  lemma SaysMore(parts: seq<string>, i: nat, limit: nat)
    requires i < |parts|
    ensures ChopAll(AllFields(parts[..i + 1]), limit)
         == ChopAll(AllFields(parts[..i]), limit) + ChopAll(Fields(parts[i]), limit)
  {
    assert parts[..i + 1][..i] == parts[..i];
    ChopAllConcat(AllFields(parts[..i]), Fields(parts[i]), limit);
  }

  // ----- splitting a reply -----

  lemma EmptyDraft(limit: nat)
    ensures Good(Draft([], ""), limit) && Said(Draft([], "")) == []
  {
    NoFields();
  }

  lemma NothingToSay(limit: nat)
    ensures AllFields([]) == ChopAll(Fields(""), limit)
    ensures ReadsWell(Draft([], ""), SplitOn("", "\n\n"), limit)
  {
    NoFields();
  }

  lemma InsideInside(a: string, b: string, c: string)
    requires Contains(a, b) && Contains(b, c)
    ensures Contains(a, c)
  {
    var i: nat :| At(a, i, b);
    assert a == a[..i] + b + a[i + |b|..];
    ContainsInside(a[..i], b, a[i + |b|..], c);
  }

  lemma WholeReply(t: string, limit: nat)
    requires Units(t) <= limit
    ensures AllFields([t]) == ChopAll(Fields(t), limit)
    ensures ReadsWell(Draft([t], ""), SplitOn(t, "\n\n"), limit)
  {
    PieceAdds([], t);
    assert [] + [t] == [t] && AllFields([]) == [];
    FieldsAreWords(t);
    ShortWordsStay(Fields(t), limit);
    var paragraphs := SplitOn(t, "\n\n");
    forall i | 0 <= i < |paragraphs|
      ensures Units(paragraphs[i]) <= limit && Holds(Draft([t], ""), Trim(paragraphs[i]))
    {
      SplitPartInside(t, "\n\n", i);
      InsideIsSmaller(t, paragraphs[i]);
      TrimIsInside(paragraphs[i]);
      InsideInside(t, paragraphs[i], Trim(paragraphs[i]));
      assert [t][0] == t;
    }
  }

  lemma LastFlush(d: Draft, paragraphs: seq<string>, limit: nat)
    requires Good(d, limit) && ReadsWell(d, paragraphs, limit)
    ensures var out := Flushed(d).out;
            && AllFields(out) == Said(d)
            && ReadsWell(Draft(out, ""), paragraphs, limit)
            && forall i :: 0 <= i < |out| ==> Trimmed(out[i]) && Units(out[i]) <= limit
  {
    var e := Flushed(d);
    assert e == Draft(e.out, "");
    FlushKeeps(d, limit);
    NoFields();
    hide Flushed, Fields, AllFields, Units, Trim, Unbroken, Extends;
    assert AllFields(e.out) + [] == AllFields(e.out);
    UnbrokenStays(d, e, paragraphs, limit);
    forall i | 0 <= i < |paragraphs| && Units(paragraphs[i]) > limit
      ensures Unbroken(e, SplitOn(paragraphs[i], "\n"), limit)
    {
      UnbrokenStays(d, e, SplitOn(paragraphs[i], "\n"), limit);
    }
  }

  /**
   Split, for every text and limit it comes to an end on: a limit of one unit never gets
   past a character of two.

   The pieces are non-empty, trimmed and within the limit; their words in order are the
   words of the text, of which only those longer than the limit are cut; a text that fits
   is sent whole; and no paragraph that fits, nor a line that fits of one that does not, is
   broken.
   */
  method SplitReply(text: string, limit: int) returns (pieces: seq<string>)
    requires limit == 1 ==> Cuttable(text, limit)
    ensures limit <= 0 ==> pieces == []
    ensures forall i :: 0 <= i < |pieces| ==> Trimmed(pieces[i]) && Units(pieces[i]) <= limit
    ensures limit > 0 ==> AllFields(pieces) == ChopAll(Fields(text), limit)
    ensures limit > 0 && Trim(text) != "" && Units(Trim(text)) <= limit ==> pieces == [Trim(text)]
    ensures limit > 0 ==> ReadsWell(Draft(pieces, ""), SplitOn(Trim(text), "\n\n"), limit)
    ensures pieces == Pieces(text, limit)
  {
    TrimKeeps(text);
    TrimIsInside(text);
    InsideIsSmaller(text, Trim(text));
    var trimmed := Trim(text);
    if trimmed == "" || limit <= 0 {
      if limit > 0 {
        NothingToSay(limit);
      }
      return [];
    }
    var n := CountUnits(trimmed);
    if n <= limit {
      WholeReply(trimmed, limit);
      return [trimmed];
    }
    var paragraphs := SplitOn(trimmed, "\n\n");
    LinesAreCuttable(trimmed, "\n\n", limit);
    assert Blank("\n\n");
    SplitKeepsFields(trimmed, "\n\n");
    var splitter := new Splitter(limit);
    EmptyDraft(limit);
    hide *;
    splitter.AddParagraphs(paragraphs);
    ghost var before := splitter.State();
    LastFlush(before, paragraphs, limit);
    splitter.Flush();
    pieces := splitter.out;
  }
}
