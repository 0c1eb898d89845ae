/**
 The bytes a posting request is fingerprinted by. Whatever SHA-256 does with them,
 two requests give it the same bytes exactly when they mean the same transaction.
 */
module Fingerprint {
  import Sorting
  import opened Common
  import Ledger

  type Byte = b: int | 0 <= b < 256

  datatype Line = Line(account: int, asset: int, amount: int)

  /** A request as the database sees it: integer ids and byte strings. */
  datatype Plain = Plain(org: int, kind: seq<Byte>, ref: seq<Byte>, at: int, lines: seq<Line>)

  const WORD := 0x1_0000_0000_0000_0000

  predicate WordSized(p: Plain) {
    && FitsInt64(p.org) && FitsInt64(p.at)
    && |p.kind| < WORD && |p.ref| < WORD && |p.lines| <= MAX_INT64
    && LinesFit(p.lines)
  }

  predicate LinesFit(lines: seq<Line>) {
    forall i :: 0 <= i < |lines| ==>
      FitsInt64(lines[i].account) && FitsInt64(lines[i].asset) && FitsInt64(lines[i].amount)
  }

  // ----- words and strings -----

  function Pow256(k: nat): nat {
    if k == 0 then 1 else 256 * Pow256(k - 1)
  }

  /** The k low bytes of n, most significant first. */
  function BigEndian(n: nat, k: nat): (s: seq<Byte>)
    ensures |s| == k
  {
    if k == 0 then [] else BigEndian(n / 256, k - 1) + [n % 256]
  }

  function Decode(s: seq<Byte>): nat {
    if s == [] then 0 else 256 * Decode(s[..|s| - 1]) + s[|s| - 1]
  }

  lemma {:induction false} DecodeInverts(n: nat, k: nat)
    requires n < Pow256(k)
    ensures Decode(BigEndian(n, k)) == n
  {
    if k > 0 {
      DecodeInverts(n / 256, k - 1);
      assert BigEndian(n, k)[..k - 1] == BigEndian(n / 256, k - 1);
    }
  }

  /** writeInt: an int64 reinterpreted as unsigned, big-endian. */
  function Word(v: int): (s: seq<Byte>)
    ensures |s| == 8
  {
    BigEndian(v % WORD, 8)
  }

  lemma EightBytes()
    ensures Pow256(8) == WORD
  {
    assert Pow256(1) == 256 && Pow256(2) == 0x1_0000 && Pow256(3) == 0x100_0000 && Pow256(4) == 0x1_0000_0000;
    assert Pow256(5) == 0x100_0000_0000 && Pow256(6) == 0x1_0000_0000_0000 && Pow256(7) == 0x100_0000_0000_0000;
  }

  lemma WordInjective(v: int, w: int)
    requires FitsInt64(v) || 0 <= v < WORD
    requires (FitsInt64(v) && FitsInt64(w)) || (0 <= v < WORD && 0 <= w < WORD)
    ensures Word(v) == Word(w) <==> v == w
  {
    hide BigEndian, Decode, Pow256;
    EightBytes();
    DecodeInverts(v % WORD, 8);
    DecodeInverts(w % WORD, 8);
  }

  /** writeString: the length, then the bytes. */
  function Text(s: seq<Byte>): seq<Byte> {
    Word(|s|) + s
  }

  /** Two encodings that agree, agree field by field. */
  lemma WordThen(v: int, w: int, x: seq<Byte>, y: seq<Byte>)
    requires (FitsInt64(v) && FitsInt64(w)) || (0 <= v < WORD && 0 <= w < WORD)
    ensures Word(v) + x == Word(w) + y <==> v == w && x == y
  {
    if Word(v) + x == Word(w) + y {
      assert (Word(v) + x)[..8] == Word(v) && (Word(w) + y)[..8] == Word(w);
      assert (Word(v) + x)[8..] == x && (Word(w) + y)[8..] == y;
      WordInjective(v, w);
    }
  }

  lemma TextThen(s: seq<Byte>, t: seq<Byte>, x: seq<Byte>, y: seq<Byte>)
    requires |s| < WORD && |t| < WORD
    ensures Text(s) + x == Text(t) + y <==> s == t && x == y
  {
    hide Word;
    if Text(s) + x == Text(t) + y {
      assert Text(s) + x == Word(|s|) + (s + x);
      assert Text(t) + y == Word(|t|) + (t + y);
      WordThen(|s|, |t|, s + x, t + y);
      assert (s + x)[..|s|] == s && (t + y)[..|t|] == t;
      assert (s + x)[|s|..] == x && (t + y)[|t|..] == y;
    }
  }

  // ----- sorting -----

  /** Ordered by account, then asset, then amount. */
  predicate AtMost(a: Line, b: Line) {
    if a.account != b.account then a.account < b.account
    else if a.asset != b.asset then a.asset < b.asset
    else a.amount <= b.amount
  }

  lemma LinesAreOrdered()
    ensures Sorting.TotalOrder(AtMost) && Sorting.Antisymmetric(AtMost)
  {
  }

  /** What sort.Slice is called for: the lines in order. */
  function Sort(s: seq<Line>): seq<Line> {
    Sorting.Arranged(s, AtMost)
  }

  lemma SortDecides(s: seq<Line>, t: seq<Line>)
    ensures Sort(s) == Sort(t) <==> multiset(s) == multiset(t)
  {
    LinesAreOrdered();
    Sorting.ArrangedDecides(s, t, AtMost);
  }

  lemma SortKeeps(s: seq<Line>)
    ensures |Sort(s)| == |s| && (LinesFit(s) ==> LinesFit(Sort(s)))
  {
    LinesAreOrdered();
    Sorting.ArrangedIsOrdered(s, AtMost);
    assert |multiset(Sort(s))| == |Sort(s)| && |multiset(s)| == |s|;
    if LinesFit(s) {
      forall i | 0 <= i < |Sort(s)|
        ensures FitsInt64(Sort(s)[i].account) && FitsInt64(Sort(s)[i].asset) && FitsInt64(Sort(s)[i].amount)
      {
        assert Sort(s)[i] in multiset(Sort(s));
        assert Sort(s)[i] in s;
      }
    }
  }

  // ----- the encoding -----

  function EncodeLine(l: Line): seq<Byte> {
    Word(l.account) + Word(l.asset) + Word(l.amount)
  }

  function EncodeLines(lines: seq<Line>): seq<Byte> {
    if lines == [] then [] else EncodeLines(lines[..|lines| - 1]) + EncodeLine(lines[|lines| - 1])
  }

  /** The bytes hashed, in the order they are written. */
  function Encode(p: Plain): seq<Byte> {
    var lines := Sort(p.lines);
    Word(p.org) + Text(p.kind) + Text(p.ref) + Word(p.at) + Word(|lines|) + EncodeLines(lines)
  }

  lemma LineInjective(l: Line, m: Line)
    requires LinesFit([l]) && LinesFit([m])
    ensures EncodeLine(l) == EncodeLine(m) <==> l == m
  {
    assert [l][0] == l && [m][0] == m;
    hide Word;
    if EncodeLine(l) == EncodeLine(m) {
      assert EncodeLine(l) == Word(l.account) + (Word(l.asset) + Word(l.amount));
      assert EncodeLine(m) == Word(m.account) + (Word(m.asset) + Word(m.amount));
      WordThen(l.account, m.account, Word(l.asset) + Word(l.amount), Word(m.asset) + Word(m.amount));
      WordThen(l.asset, m.asset, Word(l.amount), Word(m.amount));
      WordInjective(l.amount, m.amount);
    }
  }

  lemma {:induction false} LinesInjective(s: seq<Line>, t: seq<Line>)
    requires LinesFit(s) && LinesFit(t) && |s| == |t|
    ensures EncodeLines(s) == EncodeLines(t) <==> s == t
  {
    hide EncodeLine;
    if s != [] && EncodeLines(s) == EncodeLines(t) {
      var n := |s| - 1;
      LineLength(s[n]);
      LineLength(t[n]);
      var x, y := EncodeLines(s[..n]), EncodeLines(t[..n]);
      var whole := EncodeLines(s);
      assert |x| == |y|;
      assert whole[..|x|] == x && whole[..|y|] == y;
      assert whole[|x|..] == EncodeLine(s[n]) && whole[|y|..] == EncodeLine(t[n]);
      LinesInjective(s[..n], t[..n]);
      LineInjective(s[n], t[n]);
      assert s == s[..n] + [s[n]] && t == t[..n] + [t[n]];
    }
  }

  lemma LineLength(l: Line)
    ensures |EncodeLine(l)| == 24
  {
  }

  /** Replay identity: the hashed bytes agree if and only if org, kind, reference, time
      and the multiset of lines all agree. */
  lemma EncodingDecides(p: Plain, q: Plain)
    requires WordSized(p) && WordSized(q)
    ensures Encode(p) == Encode(q) <==>
            p.org == q.org && p.kind == q.kind && p.ref == q.ref && p.at == q.at
            && multiset(p.lines) == multiset(q.lines)
  {
    var ps, qs := Sort(p.lines), Sort(q.lines);
    SortDecides(p.lines, q.lines);
    SortKeeps(p.lines);
    SortKeeps(q.lines);
    hide Word, Text, EncodeLines, Sort;
    if Encode(p) == Encode(q) {
      var p5, q5 := EncodeLines(ps), EncodeLines(qs);
      var p4, q4 := Word(|ps|) + p5, Word(|qs|) + q5;
      var p3, q3 := Word(p.at) + p4, Word(q.at) + q4;
      var p2, q2 := Text(p.ref) + p3, Text(q.ref) + q3;
      var p1, q1 := Text(p.kind) + p2, Text(q.kind) + q2;
      assert Encode(p) == Word(p.org) + p1;
      assert Encode(q) == Word(q.org) + q1;
      WordThen(p.org, q.org, p1, q1);
      TextThen(p.kind, q.kind, p2, q2);
      TextThen(p.ref, q.ref, p3, q3);
      WordThen(p.at, q.at, p4, q4);
      WordThen(|ps|, |qs|, p5, q5);
      LinesInjective(ps, qs);
    }
  }

  // ----- the ledger's own requests -----

  /** How the database names what the ledger model names by content. */
  datatype Names = Names(account: Ledger.Account -> int, asset: Ledger.Asset -> int, bytes: string -> seq<Byte>)

  ghost predicate OneToOne(names: Names) {
    && (forall a, b: Ledger.Account :: names.account(a) == names.account(b) ==> a == b)
    && (forall a, b: Ledger.Asset :: names.asset(a) == names.asset(b) ==> a == b)
    && (forall s, t: string :: names.bytes(s) == names.bytes(t) ==> s == t)
  }

  function LineOf(names: Names, p: Ledger.Posting): Line {
    Line(names.account(p.account), names.asset(p.asset), p.amount)
  }

  function LinesOf(names: Names, ps: seq<Ledger.Posting>): (lines: seq<Line>)
    ensures |lines| == |ps|
  {
    if ps == [] then [] else LinesOf(names, ps[..|ps| - 1]) + [LineOf(names, ps[|ps| - 1])]
  }

  function PlainOf(names: Names, r: Ledger.Request): Plain
    requires r.at.At?
  {
    Plain(r.org, names.bytes(r.kind), names.bytes(r.ref), r.at.nanos, LinesOf(names, r.postings))
  }

  lemma LineOfInjective(names: Names, p: Ledger.Posting, q: Ledger.Posting)
    requires OneToOne(names)
    ensures LineOf(names, p) == LineOf(names, q) <==> p == q
  {
  }

  lemma {:induction false} LinesCount(names: Names, ps: seq<Ledger.Posting>, p: Ledger.Posting)
    requires OneToOne(names)
    ensures multiset(LinesOf(names, ps))[LineOf(names, p)] == multiset(ps)[p]
  {
    hide OneToOne;
    if ps != [] {
      var init, last := ps[..|ps| - 1], ps[|ps| - 1];
      LinesCount(names, init, p);
      LineOfInjective(names, p, last);
      assert ps == init + [last];
    }
  }

  lemma {:induction false} LinesComeFrom(names: Names, ps: seq<Ledger.Posting>, l: Line) returns (p: Ledger.Posting)
    requires l in LinesOf(names, ps)
    ensures p in ps && l == LineOf(names, p)
  {
    var init, last := ps[..|ps| - 1], ps[|ps| - 1];
    if l == LineOf(names, last) {
      p := last;
    } else {
      p := LinesComeFrom(names, init, l);
    }
  }

  lemma LinesDecide(names: Names, ps: seq<Ledger.Posting>, qs: seq<Ledger.Posting>)
    requires OneToOne(names)
    ensures multiset(LinesOf(names, ps)) == multiset(LinesOf(names, qs)) <==> multiset(ps) == multiset(qs)
  {
    var m, n := multiset(LinesOf(names, ps)), multiset(LinesOf(names, qs));
    hide OneToOne, LineOf;
    if m == n {
      forall p ensures multiset(ps)[p] == multiset(qs)[p] {
        LinesCount(names, ps, p);
        LinesCount(names, qs, p);
      }
    }
    if multiset(ps) == multiset(qs) {
      forall l: Line ensures m[l] == n[l] {
        if l in LinesOf(names, ps) {
          var p := LinesComeFrom(names, ps, l);
          LinesCount(names, ps, p);
          LinesCount(names, qs, p);
        } else if l in LinesOf(names, qs) {
          var p := LinesComeFrom(names, qs, l);
          LinesCount(names, ps, p);
          LinesCount(names, qs, p);
        }
      }
    }
  }

  /** The fingerprint stands for the content: for any one-to-one naming of accounts, assets
      and strings, two requests hash the same bytes exactly when the ledger takes them for
      the same transaction. */
  lemma FingerprintIsContent(names: Names, r: Ledger.Request, q: Ledger.Request)
    requires OneToOne(names) && r.at.At? && q.at.At?
    requires WordSized(PlainOf(names, r)) && WordSized(PlainOf(names, q))
    ensures Encode(PlainOf(names, r)) == Encode(PlainOf(names, q)) <==> Ledger.ContentOf(r) == Ledger.ContentOf(q)
  {
    EncodingDecides(PlainOf(names, r), PlainOf(names, q));
    LinesDecide(names, r.postings, q.postings);
    hide Encode, WordSized, LinesOf;
  }

  /** The running hash input, written field by field and line by line. */
  method WriteFingerprint(p: Plain) returns (bytes: seq<Byte>)
    ensures bytes == Encode(p)
  {
    LinesAreOrdered();
    hide Word, Text, Sorting.TotalOrder, Sorting.Antisymmetric, Sorting.Ordered, Sorting.Arranged, AtMost;
    var lines := Sorting.Sort(p.lines, AtMost);
    bytes := Word(p.org);
    bytes := bytes + Text(p.kind);
    bytes := bytes + Text(p.ref);
    bytes := bytes + Word(p.at);
    bytes := bytes + Word(|lines|);
    ghost var header := bytes;
    for i := 0 to |lines|
      invariant bytes == header + EncodeLines(lines[..i])
    {
      var l := lines[i];
      assert lines[..i + 1][..i] == lines[..i];
      var before := bytes;
      bytes := bytes + Word(l.account);
      bytes := bytes + Word(l.asset);
      bytes := bytes + Word(l.amount);
      assert bytes == before + EncodeLine(l);
      assert header + EncodeLines(lines[..i]) + EncodeLine(l) == header + (EncodeLines(lines[..i]) + EncodeLine(l));
    }
    assert lines[..|lines|] == lines;
  }
}
