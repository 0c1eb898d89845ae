/**
 The canonical text of a description, and a reader that gives the description back.

 A Go string is a string of bytes; here each byte is a character, and since only four
 ASCII characters are ever escaped nothing depends on how the others are encoded.
 */
module Canonical {
  import opened Common
  import opened Decimal
  import opened Splitting

  datatype Field = Field(caption: string, kind: string, value: string)

  datatype Op = Op(index: int, kind: string, source: string, summary: string, fields: seq<Field>)

  datatype Description = Description(
    kind: string, network: string, hash: string, source: string, sequence: string, fee: string,
    minTime: string, maxTime: string, memoType: string, memo: string, operations: seq<Op>)

  const VERSION := "stelfin-tx-description-1"

  // ----- escaping -----

  function EscapeChar(c: char): string {
    if c == '\\' then "\\\\"
    else if c == '\n' then "\\n"
    else if c == '\r' then "\\r"
    else if c == '\t' then "\\t"
    else [c]
  }

  function Escape(s: string): string {
    if s == [] then [] else EscapeChar(s[0]) + Escape(s[1..])
  }

  /** Reads escaped text; a stray or unfinished escape is refused. */
  function Unescape(s: string): Option<string> {
    if s == [] then Some([])
    else if s[0] != '\\' then
      var rest := Unescape(s[1..]);
      if rest.None? then None else Some([s[0]] + rest.value)
    else if |s| == 1 then None
    else
      var rest := Unescape(s[2..]);
      if rest.None? then None
      else if s[1] == '\\' then Some(['\\'] + rest.value)
      else if s[1] == 'n' then Some(['\n'] + rest.value)
      else if s[1] == 'r' then Some(['\r'] + rest.value)
      else if s[1] == 't' then Some(['\t'] + rest.value)
      else None
  }

  lemma UnescapeChar(c: char, rest: string)
    requires Unescape(rest).Some?
    ensures Unescape(EscapeChar(c) + rest) == Some([c] + Unescape(rest).value)
  {
    var s := EscapeChar(c) + rest;
    if |EscapeChar(c)| == 2 {
      assert s[2..] == rest;
    } else {
      assert s[1..] == rest;
    }
  }

  lemma {:induction false} UnescapeInverts(s: string)
    ensures Unescape(Escape(s)) == Some(s)
  {
    if s != [] {
      UnescapeInverts(s[1..]);
      UnescapeChar(s[0], Escape(s[1..]));
      assert [s[0]] + s[1..] == s;
    }
  }

  /** Escaped text never breaks a line or a column. */
  lemma {:induction false} EscapedIsFlat(s: string)
    ensures '\n' !in Escape(s) && '\t' !in Escape(s) && '\r' !in Escape(s)
  {
    if s != [] {
      EscapedIsFlat(s[1..]);
    }
  }

  method EscapeText(s: string) returns (r: string)
    ensures r == Escape(s)
  {
    r := [];
    for i := 0 to |s|
      invariant r + Escape(s[i..]) == Escape(s)
    {
      assert s[i..][0] == s[i] && s[i..][1..] == s[i + 1..];
      assert r + (EscapeChar(s[i]) + Escape(s[i + 1..])) == r + EscapeChar(s[i]) + Escape(s[i + 1..]);
      r := r + EscapeChar(s[i]);
    }
    assert r + [] == r;
  }

  // ----- lines -----

  type Line = ps: seq<string> | |ps| > 0 witness [""]

  function EscapeAll(ps: seq<string>): (qs: seq<string>)
    ensures |qs| == |ps|
    ensures forall i :: 0 <= i < |ps| ==> qs[i] == Escape(ps[i])
  {
    seq(|ps|, i requires 0 <= i < |ps| => Escape(ps[i]))
  }

  function RenderLine(l: Line): string {
    Join(EscapeAll(l), '\t')
  }

  function Render(ls: seq<Line>): string {
    if ls == [] then [] else RenderLine(ls[0]) + "\n" + Render(ls[1..])
  }

  function UnescapeAll(ps: seq<string>): Option<seq<string>> {
    if ps == [] then Some([]) else
      var first, rest := Unescape(ps[0]), UnescapeAll(ps[1..]);
      if first.None? || rest.None? then None else Some([first.value] + rest.value)
  }

  function ReadLines(rows: seq<string>): Option<seq<seq<string>>> {
    if rows == [] then Some([]) else
      var first, rest := UnescapeAll(Split(rows[0], '\t')), ReadLines(rows[1..]);
      if first.None? || rest.None? then None else Some([first.value] + rest.value)
  }

  /** The lines of a text in which every line is ended. */
  function ReadText(text: string): Option<seq<seq<string>>> {
    var rows := Split(text, '\n');
    if rows[|rows| - 1] != "" then None else ReadLines(rows[..|rows| - 1])
  }

  lemma {:induction false} UnescapeAllInverts(ps: seq<string>)
    ensures UnescapeAll(EscapeAll(ps)) == Some(ps)
  {
    if ps != [] {
      assert EscapeAll(ps)[1..] == EscapeAll(ps[1..]);
      UnescapeInverts(ps[0]);
      UnescapeAllInverts(ps[1..]);
      assert [ps[0]] + ps[1..] == ps;
    }
  }

  lemma {:induction false} JoinIsFlat(f: seq<string>, sep: char, c: char)
    requires |f| > 0 && c != sep && forall i :: 0 <= i < |f| ==> c !in f[i]
    ensures c !in Join(f, sep)
  {
    if |f| > 1 {
      JoinIsFlat(f[1..], sep, c);
    }
  }

  lemma LineReadsBack(l: Line)
    ensures UnescapeAll(Split(RenderLine(l), '\t')) == Some(l) && '\n' !in RenderLine(l)
  {
    forall i | 0 <= i < |l| ensures '\t' !in EscapeAll(l)[i] && '\n' !in EscapeAll(l)[i] {
      EscapedIsFlat(l[i]);
    }
    SplitInvertsJoin(EscapeAll(l), '\t');
    JoinIsFlat(EscapeAll(l), '\t', '\n');
    UnescapeAllInverts(l);
  }

  function Rows(ls: seq<Line>): seq<string> {
    if ls == [] then [] else [RenderLine(ls[0])] + Rows(ls[1..])
  }

  lemma {:induction false} RowsOfRender(ls: seq<Line>)
    ensures Split(Render(ls), '\n') == Rows(ls) + [""]
  {
    if ls != [] {
      RowsOfRender(ls[1..]);
      LineReadsBack(ls[0]);
      hide RenderLine, Split;
      OnePart(RenderLine(ls[0]), '\n');
      SplitConcat(RenderLine(ls[0]), '\n', Render(ls[1..]));
      assert [RenderLine(ls[0])] + (Rows(ls[1..]) + [""]) == [RenderLine(ls[0])] + Rows(ls[1..]) + [""];
    }
  }

  lemma {:induction false} RowsReadBack(ls: seq<Line>)
    ensures ReadLines(Rows(ls)) == Some(ls)
  {
    if ls != [] {
      LineReadsBack(ls[0]);
      RowsReadBack(ls[1..]);
      hide RenderLine, Split, UnescapeAll;
      assert Rows(ls)[1..] == Rows(ls[1..]);
      assert [ls[0]] + ls[1..] == ls;
    }
  }

  /** Any list of lines, with anything at all in their columns, survives being written. */
  lemma TextReadsBack(ls: seq<Line>)
    ensures ReadText(Render(ls)) == Some(ls)
  {
    RowsOfRender(ls);
    RowsReadBack(ls);
    hide Split, Rows, ReadLines;
    var rows := Rows(ls) + [""];
    assert rows[|rows| - 1] == "" && rows[..|rows| - 1] == Rows(ls);
  }

  lemma {:induction false} RenderConcat(xs: seq<Line>, ys: seq<Line>)
    ensures Render(xs + ys) == Render(xs) + Render(ys)
  {
    if xs == [] {
      assert xs + ys == ys;
    } else {
      assert (xs + ys)[1..] == xs[1..] + ys;
      RenderConcat(xs[1..], ys);
      var first := RenderLine(xs[0]) + "\n";
      assert first + (Render(xs[1..]) + Render(ys)) == first + Render(xs[1..]) + Render(ys);
    }
  }

  // ----- the format -----

  function FieldLine(index: int, f: Field): Line {
    ["field", Itoa(index), f.caption, f.kind, f.value]
  }

  function FieldLines(index: int, fs: seq<Field>): seq<Line> {
    if fs == [] then [] else [FieldLine(index, fs[0])] + FieldLines(index, fs[1..])
  }

  function OpLine(op: Op): Line {
    ["op", Itoa(op.index), op.kind, op.source]
  }

  function OpsLines(ops: seq<Op>): seq<Line> {
    if ops == [] then [] else [OpLine(ops[0])] + FieldLines(ops[0].index, ops[0].fields) + OpsLines(ops[1..])
  }

  function HeaderLines(d: Description): seq<Line> {
    [[VERSION], ["kind", d.kind], ["network", d.network], ["source", d.source], ["sequence", d.sequence],
     ["fee", d.fee], ["min_time", d.minTime], ["max_time", d.maxTime], ["memo", d.memoType, d.memo],
     ["operations", Itoa(|d.operations|)]]
  }

  function Lines(d: Description): seq<Line> {
    HeaderLines(d) + OpsLines(d.operations) + [["hash", d.hash]]
  }

  /** The bytes both implementations must produce. */
  function CanonicalText(d: Description): string {
    Render(Lines(d))
  }

  // ----- reading it back -----

  /** The lines at the front that are fields of one operation, by its number, and what follows
      them. */
  function ReadFields(number: string, ls: seq<seq<string>>): (r: (seq<Field>, seq<seq<string>>))
    ensures |r.1| <= |ls|
  {
    if ls != [] && |ls[0]| == 5 && ls[0][0] == "field" && ls[0][1] == number then
      var (fs, rest) := ReadFields(number, ls[1..]);
      ([Field(ls[0][2], ls[0][3], ls[0][4])] + fs, rest)
    else ([], ls)
  }

  function ReadOps(ls: seq<seq<string>>): Option<(seq<Op>, string)>
    decreases |ls|
  {
    if ls == [] then None
    else if |ls[0]| == 2 && ls[0][0] == "hash" && |ls| == 1 then Some(([], ls[0][1]))
    else if |ls[0]| == 4 && ls[0][0] == "op" && Atoi(ls[0][1]).0 then
      var (fs, rest) := ReadFields(ls[0][1], ls[1..]);
      var others := ReadOps(rest);
      if others.None? then None else
        Some(([Op(Atoi(ls[0][1]).1, ls[0][2], ls[0][3], "", fs)] + others.value.0, others.value.1))
    else None
  }

  predicate Pair(l: seq<string>, tag: string) {
    |l| == 2 && l[0] == tag
  }

  /** A reader for the whole format, which also counts the operations and holds each field to
      its own. The summary of an operation is not in it. */
  function ReadDescription(ls: seq<seq<string>>): Option<Description> {
    if |ls| > 10 && ls[0] == ["stelfin-tx-description-1"]
       && Pair(ls[1], "kind") && Pair(ls[2], "network") && Pair(ls[3], "source")
       && Pair(ls[4], "sequence") && Pair(ls[5], "fee") && Pair(ls[6], "min_time") && Pair(ls[7], "max_time")
       && |ls[8]| == 3 && ls[8][0] == "memo" && Pair(ls[9], "operations")
    then
      var tail := ReadOps(ls[10..]);
      if tail.None? || ls[9][1] != Itoa(|tail.value.0|) then None else
        Some(Description(ls[1][1], ls[2][1], tail.value.1, ls[3][1], ls[4][1], ls[5][1], ls[6][1], ls[7][1],
                         ls[8][1], ls[8][2], tail.value.0))
    else None
  }

  function Read(text: string): Option<Description> {
    var ls := ReadText(text);
    if ls.None? then None else ReadDescription(ls.value)
  }

  function Erase(op: Op): Op {
    op.(summary := "")
  }

  function EraseAll(ops: seq<Op>): seq<Op> {
    if ops == [] then [] else [Erase(ops[0])] + EraseAll(ops[1..])
  }

  /** A description without its summaries, which are prose and not part of the form. */
  function Bare(d: Description): Description {
    d.(operations := EraseAll(d.operations))
  }

  lemma {:induction false} FieldsReadBack(index: int, fs: seq<Field>, rest: seq<Line>)
    requires rest == [] || rest[0][0] != "field"
    ensures ReadFields(Itoa(index), FieldLines(index, fs) + rest) == (fs, rest)
  {
    hide Itoa, FieldLine, ReadFields;
    if fs == [] {
      assert FieldLines(index, fs) + rest == rest;
      NoFieldsHere(Itoa(index), rest);
    } else {
      FieldsReadBack(index, fs[1..], rest);
      var others := FieldLines(index, fs[1..]) + rest;
      assert FieldLines(index, fs) + rest == [FieldLine(index, fs[0])] + others;
      FieldReadsBack(index, fs[0], others);
      assert [fs[0]] + fs[1..] == fs;
    }
  }

  lemma NoFieldsHere(number: string, rest: seq<Line>)
    requires rest == [] || rest[0][0] != "field"
    ensures ReadFields(number, rest) == ([], rest)
  {
  }

  lemma FieldReadsBack(index: int, f: Field, others: seq<Line>)
    ensures var r := ReadFields(Itoa(index), others);
            ReadFields(Itoa(index), [FieldLine(index, f)] + others) == ([f] + r.0, r.1)
  {
    var l := FieldLine(index, f);
    assert |l| == 5 && l[0] == "field" && l[1] == Itoa(index) && l[2] == f.caption && l[3] == f.kind && l[4] == f.value;
    hide FieldLine;
    assert ([l] + others)[1..] == others;
  }

  lemma TagsDiffer()
    ensures "op" != "field" && "hash" != "field" && "hash" != "op"
  {
    assert |"op"| == 2 && |"field"| == 5 && |"hash"| == 4;
  }

  lemma {:induction false} OpsReadBack(ops: seq<Op>, hash: string)
    ensures ReadOps(OpsLines(ops) + [["hash", hash]]) == Some((EraseAll(ops), hash))
  {
    hide ReadOps, ReadFields, OpLine, FieldLines, Itoa;
    var end: seq<Line> := [["hash", hash]];
    if ops == [] {
      assert OpsLines(ops) + end == end;
      HashReadsBack(hash);
    } else {
      OpsReadBack(ops[1..], hash);
      var op, rest := ops[0], OpsLines(ops[1..]) + end;
      assert OpsLines(ops) + end == [OpLine(op)] + (FieldLines(op.index, op.fields) + rest);
      FirstTag(ops[1..], hash);
      FieldsReadBack(op.index, op.fields, rest);
      OpReadsBack(op, FieldLines(op.index, op.fields) + rest);
    }
  }

  lemma HashReadsBack(hash: string)
    ensures ReadOps([["hash", hash]]) == Some(([], hash))
  {
  }

  lemma OpReadsBack(op: Op, ls: seq<Line>)
    requires ReadFields(Itoa(op.index), ls).0 == op.fields && ReadOps(ReadFields(Itoa(op.index), ls).1).Some?
    ensures var others := ReadOps(ReadFields(Itoa(op.index), ls).1).value;
            ReadOps([OpLine(op)] + ls) == Some(([Erase(op)] + others.0, others.1))
  {
    TagsDiffer();
    AtoiInverts(op.index);
    var l := OpLine(op);
    assert |l| == 4 && l[0] == "op" && l[1] == Itoa(op.index) && l[2] == op.kind && l[3] == op.source;
    hide OpLine, Itoa, Atoi, ReadFields;
    assert ([l] + ls)[1..] == ls;
  }

  lemma FirstTag(ops: seq<Op>, hash: string)
    ensures var rest := OpsLines(ops) + [["hash", hash]]; rest != [] && rest[0][0] != "field"
  {
    TagsDiffer();
    if ops != [] {
      assert (OpsLines(ops) + [["hash", hash]])[0] == OpLine(ops[0]);
    }
  }

  lemma {:induction false} EraseCounts(ops: seq<Op>)
    ensures |EraseAll(ops)| == |ops|
  {
    if ops != [] {
      EraseCounts(ops[1..]);
    }
  }

  /** Nothing is lost: every description, with any text in any field and any number of
      operations and fields, is read back from its canonical text. */
  lemma CanonicalReadsBack(d: Description)
    ensures Read(CanonicalText(d)) == Some(Bare(d))
  {
    var ls := Lines(d);
    TextReadsBack(ls);
    OpsReadBack(d.operations, d.hash);
    EraseCounts(d.operations);
    hide Itoa, Render, ReadText, OpsLines, ReadOps, EraseAll;
    var tail: seq<Line> := OpsLines(d.operations) + [["hash", d.hash]];
    assert ls == HeaderLines(d) + tail;
    assert ls[10..] == tail;
  }

  /** So two descriptions with the same bytes agree on everything but the summaries. */
  lemma CanonicalIsUnambiguous(d: Description, e: Description)
    ensures CanonicalText(d) == CanonicalText(e) <==> Bare(d) == Bare(e)
  {
    CanonicalReadsBack(d);
    CanonicalReadsBack(e);
    if Bare(d) == Bare(e) {
      SameLines(d, e);
    }
    hide *;
  }

  lemma SameLines(d: Description, e: Description)
    requires Bare(d) == Bare(e)
    ensures CanonicalText(d) == CanonicalText(e)
  {
    SummariesDoNotShow(d.operations, e.operations);
    hide EraseAll, OpsLines, Render;
  }

  lemma {:induction false} SummariesDoNotShow(xs: seq<Op>, ys: seq<Op>)
    requires EraseAll(xs) == EraseAll(ys)
    ensures OpsLines(xs) == OpsLines(ys) && |xs| == |ys|
    decreases |xs|
  {
    if xs != [] {
      assert EraseAll(xs)[0] == Erase(xs[0]);
      assert EraseAll(xs)[1..] == EraseAll(xs[1..]);
      if ys != [] {
        assert EraseAll(ys)[0] == Erase(ys[0]);
        assert EraseAll(ys)[1..] == EraseAll(ys[1..]);
        SummariesDoNotShow(xs[1..], ys[1..]);
      }
    }
  }

  // ----- the writer -----

  /** The line closure: parts escaped, tabs between them, a newline after. */
  method WriteLine(b: string, parts: Line) returns (r: string)
    ensures r == b + Render([parts])
  {
    r := b;
    for i := 0 to |parts|
      invariant i == 0 ==> r == b
      invariant i > 0 ==> r == b + Join(EscapeAll(parts[..i]), '\t')
    {
      if i > 0 {
        r := r + "\t";
      }
      var e := EscapeText(parts[i]);
      r := r + e;
      JoinOneMore(parts, i);
    }
    assert parts[..|parts|] == parts;
    r := r + "\n";
    assert [parts][1..] == [];
    assert Render([parts]) == RenderLine(parts) + "\n" + [];
  }

  lemma JoinOneMore(parts: Line, i: nat)
    requires i < |parts|
    ensures Join(EscapeAll(parts[..i + 1]), '\t') ==
            if i == 0 then Escape(parts[0]) else Join(EscapeAll(parts[..i]), '\t') + "\t" + Escape(parts[i])
  {
    if i > 0 {
      assert EscapeAll(parts[..i + 1]) == EscapeAll(parts[..i]) + [Escape(parts[i])];
      JoinAppend(EscapeAll(parts[..i]), Escape(parts[i]), '\t');
    }
  }

  lemma {:induction false} JoinAppend(f: seq<string>, s: string, sep: char)
    requires |f| > 0
    ensures Join(f + [s], sep) == Join(f, sep) + [sep] + s
  {
    if |f| == 1 {
      assert (f + [s])[1..] == [s];
    } else {
      assert (f + [s])[1..] == f[1..] + [s];
      JoinAppend(f[1..], s, sep);
      assert f[0] + [sep] + (Join(f[1..], sep) + [sep] + s) == f[0] + [sep] + Join(f[1..], sep) + [sep] + s;
    }
  }

  method WriteAll(b: string, ls: seq<Line>) returns (r: string)
    ensures r == b + Render(ls)
  {
    r := b;
    hide RenderLine;
    for i := 0 to |ls|
      invariant r == b + Render(ls[..i])
    {
      assert ls[..i + 1] == ls[..i] + [ls[i]];
      RenderConcat(ls[..i], [ls[i]]);
      r := WriteLine(r, ls[i]);
      assert b + Render(ls[..i]) + Render([ls[i]]) == b + (Render(ls[..i]) + Render([ls[i]]));
    }
    assert ls[..|ls|] == ls;
  }

  method WriteFields(b: string, op: Op) returns (r: string)
    ensures r == b + Render(FieldLines(op.index, op.fields))
  {
    r := b;
    NoFields(op.index);
    hide *;
    for j := 0 to |op.fields|
      invariant r + Render(FieldLines(op.index, op.fields[j..])) == b + Render(FieldLines(op.index, op.fields))
    {
      FirstField(op, j);
      var l := FieldLine(op.index, op.fields[j]);
      Associate(r, Render([l]), Render(FieldLines(op.index, op.fields[j + 1..])));
      r := WriteLine(r, l);
    }
    assert op.fields[|op.fields|..] == [];
    assert r + [] == r;
  }

  lemma Associate(a: string, b: string, c: string)
    ensures a + (b + c) == a + b + c
  {
  }

  /** Each operation, followed by its fields. */
  method WriteOps(b: string, ops: seq<Op>) returns (r: string)
    ensures r == b + Render(OpsLines(ops))
  {
    r := b;
    assert Render(OpsLines([])) == [];
    hide *;
    for i := 0 to |ops|
      invariant r + Render(OpsLines(ops[i..])) == b + Render(OpsLines(ops))
    {
      FirstOp(ops, i);
      ghost var head, fields := Render([OpLine(ops[i])]), Render(FieldLines(ops[i].index, ops[i].fields));
      Associate(r, head + fields, Render(OpsLines(ops[i + 1..])));
      Associate(r, head, fields);
      r := WriteLine(r, OpLine(ops[i]));
      r := WriteFields(r, ops[i]);
    }
    assert ops[|ops|..] == [];
    assert r + [] == r;
  }

  lemma NoFields(index: int)
    ensures Render(FieldLines(index, [])) == []
  {
  }

  lemma FirstField(op: Op, j: nat)
    requires j < |op.fields|
    ensures Render(FieldLines(op.index, op.fields[j..])) ==
            Render([FieldLine(op.index, op.fields[j])]) + Render(FieldLines(op.index, op.fields[j + 1..]))
  {
    assert op.fields[j..][0] == op.fields[j] && op.fields[j..][1..] == op.fields[j + 1..];
    RenderConcat([FieldLine(op.index, op.fields[j])], FieldLines(op.index, op.fields[j + 1..]));
  }

  lemma FirstOp(ops: seq<Op>, i: nat)
    requires i < |ops|
    ensures Render(OpsLines(ops[i..])) == Render([OpLine(ops[i])]) + Render(FieldLines(ops[i].index, ops[i].fields))
                                          + Render(OpsLines(ops[i + 1..]))
  {
    assert ops[i..][0] == ops[i] && ops[i..][1..] == ops[i + 1..];
    hide Render;
    RenderConcat([OpLine(ops[i])], FieldLines(ops[i].index, ops[i].fields));
    RenderConcat([OpLine(ops[i])] + FieldLines(ops[i].index, ops[i].fields), OpsLines(ops[i + 1..]));
  }

  /** Canonical: the header, each operation with its fields, and the hash last. */
  method WriteCanonical(d: Description) returns (text: string)
    ensures text == CanonicalText(d)
  {
    hide HeaderLines, OpsLines, Render;
    text := WriteAll("", HeaderLines(d));
    text := WriteOps(text, d.operations);
    text := WriteLine(text, ["hash", d.hash]);
    RenderConcat(HeaderLines(d), OpsLines(d.operations));
    RenderConcat(HeaderLines(d) + OpsLines(d.operations), [["hash", d.hash]]);
  }
}
