/**
 Text as a reader sees it: words between white space, lengths in UTF-16 code units
 (section 2.1 of RFC 2781), trimming, and cutting at a separator.

 A character is one Unicode scalar value.
 */
module Words {

  /** White space as Unicode defines it. */
  predicate IsSpace(c: char) {
    var n := c as int;
    || 0x09 <= n <= 0x0D || n == 0x20 || n == 0x85 || n == 0xA0 || n == 0x1680 || 0x2000 <= n <= 0x200A
    || n == 0x2028 || n == 0x2029 || n == 0x202F || n == 0x205F || n == 0x3000
  }

  predicate Blank(s: string) {
    forall i :: 0 <= i < |s| ==> IsSpace(s[i])
  }

  predicate IsWord(s: string) {
    s != "" && forall i :: 0 <= i < |s| ==> !IsSpace(s[i])
  }

  predicate Trimmed(s: string) {
    s != "" && !IsSpace(s[0]) && !IsSpace(s[|s| - 1])
  }

  // ----- length -----

  function UnitsOf(c: char): nat {
    if c as int >= 0x10000 then 2 else 1
  }

  function Units(s: string): nat {
    if s == "" then 0 else Units(s[..|s| - 1]) + UnitsOf(s[|s| - 1])
  }

  lemma {:induction false} UnitsConcat(a: string, b: string)
    ensures Units(a + b) == Units(a) + Units(b)
  {
    if b == "" {
      assert a + b == a;
    } else {
      assert (a + b)[..|a + b| - 1] == a + b[..|b| - 1];
      UnitsConcat(a, b[..|b| - 1]);
    }
  }

  /** A part is no longer than the whole. */
  lemma UnitsWithin(a: string, b: string, c: string)
    ensures Units(b) <= Units(a + b + c)
  {
    UnitsConcat(a, b);
    UnitsConcat(a + b, c);
  }

  method CountUnits(s: string) returns (n: nat)
    ensures n == Units(s)
  {
    n := 0;
    for i := 0 to |s|
      invariant n == Units(s[..i])
    {
      assert s[..i + 1][..i] == s[..i];
      if s[i] as int >= 0x10000 {
        n := n + 2;
      } else {
        n := n + 1;
      }
    }
    assert s[..|s|] == s;
  }

  // ----- words -----

  /** One more character in front: a space ends the first part, anything else lengthens it. */
  function Front(c: char, f: seq<string>): (g: seq<string>)
    requires |f| > 0
    ensures |g| > 0
  {
    if IsSpace(c) then [""] + f else [[c] + f[0]] + f[1..]
  }

  function Parts(s: string): (f: seq<string>)
    ensures |f| > 0
  {
    if s == "" then [""] else Front(s[0], Parts(s[1..]))
  }

  function NonEmpty(f: seq<string>): seq<string> {
    if f == [] then [] else (if f[0] == "" then [] else [f[0]]) + NonEmpty(f[1..])
  }

  /** The words of a text: what stands between runs of white space. */
  function Fields(s: string): seq<string> {
    NonEmpty(Parts(s))
  }

  lemma {:induction false} NonEmptyConcat(f: seq<string>, g: seq<string>)
    ensures NonEmpty(f + g) == NonEmpty(f) + NonEmpty(g)
  {
    if f == [] {
      assert f + g == g;
    } else {
      assert (f + g)[1..] == f[1..] + g;
      NonEmptyConcat(f[1..], g);
    }
  }

  lemma FrontConcat(c: char, f: seq<string>, g: seq<string>)
    requires |f| > 0
    ensures Front(c, f + g) == Front(c, f) + g
  {
    if !IsSpace(c) {
      assert (f + g)[1..] == f[1..] + g;
    }
  }

  lemma {:induction false} PartsConcat(a: string, c: char, b: string)
    requires IsSpace(c)
    ensures Parts(a + [c] + b) == Parts(a) + Parts(b)
  {
    var whole := a + [c] + b;
    if a == "" {
      assert whole[0] == c && whole[1..] == b;
    } else {
      assert whole[0] == a[0] && whole[1..] == a[1..] + [c] + b;
      PartsConcat(a[1..], c, b);
      FrontConcat(a[0], Parts(a[1..]), Parts(b));
    }
  }

  lemma FieldsAroundSpace(a: string, c: char, b: string)
    requires IsSpace(c)
    ensures Fields(a + [c] + b) == Fields(a) + Fields(b)
  {
    PartsConcat(a, c, b);
    NonEmptyConcat(Parts(a), Parts(b));
  }

  lemma NoFields()
    ensures Fields("") == []
  {
  }

  /** White space between two texts only separates them. */
  lemma {:induction false} FieldsAroundBlank(a: string, sep: string, b: string)
    requires Blank(sep) && sep != ""
    ensures Fields(a + sep + b) == Fields(a) + Fields(b)
    decreases |sep|
  {
    NoFields();
    hide Fields;
    if |sep| == 1 {
      assert sep == [sep[0]];
      FieldsAroundSpace(a, sep[0], b);
    } else {
      assert a + sep + b == a + [sep[0]] + (sep[1..] + b);
      FieldsAroundSpace(a, sep[0], sep[1..] + b);
      FieldsAroundBlank("", sep[1..], b);
      assert "" + sep[1..] + b == sep[1..] + b;
    }
  }

  lemma {:induction false} OneWord(s: string)
    requires IsWord(s)
    ensures Fields(s) == [s]
  {
    WordIsOnePart(s);
    assert [s][1..] == [];
    assert NonEmpty([s]) == [s] + NonEmpty([]);
  }

  lemma {:induction false} WordIsOnePart(s: string)
    requires forall i :: 0 <= i < |s| ==> !IsSpace(s[i])
    ensures Parts(s) == [s]
  {
    if s != "" {
      WordIsOnePart(s[1..]);
      assert [s[0]] + s[1..] == s;
    }
  }

  /** Every field is a word, and no longer than the text. */
  lemma {:induction false} FieldsAreWords(s: string)
    ensures forall w :: w in Fields(s) ==> IsWord(w) && Units(w) <= Units(s)
  {
    PartsHaveNoSpace(s);
    NonEmptyKeeps(Parts(s));
    forall w | w in Fields(s) ensures IsWord(w) && Units(w) <= Units(s) {
      assert w in Parts(s) && w != "";
    }
  }

  lemma {:induction false} NonEmptyKeeps(f: seq<string>)
    ensures forall w :: w in NonEmpty(f) <==> w in f && w != ""
  {
    if f != [] {
      NonEmptyKeeps(f[1..]);
    }
  }

  lemma {:induction false} PartsHaveNoSpace(s: string)
    ensures forall w, i :: w in Parts(s) && 0 <= i < |w| ==> !IsSpace(w[i])
    ensures forall w :: w in Parts(s) ==> Units(w) <= Units(s)
    ensures Units(Parts(s)[0]) <= Units(s)
  {
    if s != "" {
      var f := Parts(s[1..]);
      PartsHaveNoSpace(s[1..]);
      assert [s[0]] + s[1..] == s;
      UnitsConcat([s[0]], s[1..]);
      UnitsConcat([s[0]], f[0]);
      forall w | w in Parts(s) ensures (forall i :: 0 <= i < |w| ==> !IsSpace(w[i])) && Units(w) <= Units(s) {
        if w !in f && w != "" {
          assert w == [s[0]] + f[0] && !IsSpace(s[0]);
          assert f[0] in f;
        }
      }
    }
  }

  // ----- trimming -----

  function TrimLeft(s: string): string {
    if s != "" && IsSpace(s[0]) then TrimLeft(s[1..]) else s
  }

  function TrimRight(s: string): string {
    if s != "" && IsSpace(s[|s| - 1]) then TrimRight(s[..|s| - 1]) else s
  }

  function Trim(s: string): string {
    TrimRight(TrimLeft(s))
  }

  lemma {:induction false} TrimLeftWords(s: string)
    ensures Fields(TrimLeft(s)) == Fields(s) && Units(TrimLeft(s)) <= Units(s)
    ensures TrimLeft(s) == "" || !IsSpace(TrimLeft(s)[0])
  {
    if s != "" && IsSpace(s[0]) {
      TrimLeftWords(s[1..]);
      assert s == "" + [s[0]] + s[1..];
      FieldsAroundSpace("", s[0], s[1..]);
      UnitsConcat([s[0]], s[1..]);
      assert [s[0]] + s[1..] == s;
      NoFields();
    }
  }

  lemma {:induction false} TrimRightWords(s: string)
    ensures Fields(TrimRight(s)) == Fields(s) && Units(TrimRight(s)) <= Units(s)
    ensures TrimRight(s) == "" || !IsSpace(TrimRight(s)[|TrimRight(s)| - 1])
    ensures TrimRight(s) != "" ==> TrimRight(s)[0] == s[0]
  {
    if s != "" && IsSpace(s[|s| - 1]) {
      var init, c := s[..|s| - 1], s[|s| - 1];
      TrimRightWords(init);
      assert s == init + [c] + "";
      FieldsAroundSpace(init, c, "");
      NoFields();
    }
  }

  /** Trimming loses no word and lengthens nothing. */
  lemma TrimKeeps(s: string)
    ensures Fields(Trim(s)) == Fields(s) && Units(Trim(s)) <= Units(s)
    ensures Trim(s) == "" || Trimmed(Trim(s))
  {
    TrimLeftWords(s);
    TrimRightWords(TrimLeft(s));
  }

  lemma {:induction false} TrimLeftOf(pre: string, x: string)
    requires Blank(pre) && (x == "" || !IsSpace(x[0]))
    ensures TrimLeft(pre + x) == x
  {
    if pre == "" {
      assert pre + x == x;
    } else {
      assert (pre + x)[0] == pre[0] && (pre + x)[1..] == pre[1..] + x;
      TrimLeftOf(pre[1..], x);
    }
  }

  lemma {:induction false} TrimRightOf(x: string, post: string)
    requires Blank(post) && (x == "" || !IsSpace(x[|x| - 1]))
    ensures TrimRight(x + post) == x
  {
    if post == "" {
      assert x + post == x;
    } else {
      var all := x + post;
      assert all[|all| - 1] == post[|post| - 1] && all[..|all| - 1] == x + post[..|post| - 1];
      TrimRightOf(x, post[..|post| - 1]);
    }
  }

  /** Trimming takes the white space off both ends and nothing else. */
  lemma TrimOf(pre: string, x: string, post: string)
    requires Blank(pre) && Blank(post) && Trimmed(x)
    ensures Trim(pre + x + post) == x
  {
    assert pre + x + post == pre + (x + post);
    assert (x + post)[0] == x[0];
    TrimLeftOf(pre, x + post);
    TrimRightOf(x, post);
  }

  lemma {:induction false} TrimLeftParts(s: string) returns (pre: string)
    ensures Blank(pre) && s == pre + TrimLeft(s)
  {
    if s != "" && IsSpace(s[0]) {
      var rest := TrimLeftParts(s[1..]);
      pre := [s[0]] + rest;
      assert s == [s[0]] + s[1..];
    } else {
      pre := "";
    }
  }

  lemma {:induction false} TrimRightParts(s: string) returns (post: string)
    ensures Blank(post) && s == TrimRight(s) + post
  {
    if s != "" && IsSpace(s[|s| - 1]) {
      var rest := TrimRightParts(s[..|s| - 1]);
      post := rest + [s[|s| - 1]];
      assert s == s[..|s| - 1] + [s[|s| - 1]];
    } else {
      post := "";
    }
  }

  lemma TrimParts(s: string) returns (pre: string, post: string)
    ensures Blank(pre) && Blank(post) && s == pre + Trim(s) + post
  {
    pre := TrimLeftParts(s);
    post := TrimRightParts(TrimLeft(s));
    assert pre + (Trim(s) + post) == pre + Trim(s) + post;
  }

  // ----- one text inside another -----

  predicate At(big: string, i: nat, small: string) {
    i + |small| <= |big| && big[i..i + |small|] == small
  }

  ghost predicate Contains(big: string, small: string) {
    exists i: nat :: At(big, i, small)
  }

  lemma ContainsWhole(s: string)
    ensures Contains(s, s)
  {
    assert At(s, 0, s);
  }

  lemma ContainsInside(a: string, s: string, b: string, t: string)
    requires Contains(s, t)
    ensures Contains(a + s + b, t)
  {
    var i: nat :| At(s, i, t);
    var big := a + s + b;
    assert big[|a| + i..|a| + i + |t|] == s[i..i + |t|];
    assert At(big, |a| + i, t);
  }

  lemma {:induction false} TrimLeftHolds(s: string, t: string)
    requires Contains(s, t) && Trimmed(t)
    ensures Contains(TrimLeft(s), t)
  {
    if s != "" && IsSpace(s[0]) {
      var i: nat :| At(s, i, t);
      assert s[i] == t[0];
      assert s[1..][i - 1..i - 1 + |t|] == t;
      assert At(s[1..], i - 1, t);
      TrimLeftHolds(s[1..], t);
    }
  }

  lemma {:induction false} TrimRightHolds(s: string, t: string)
    requires Contains(s, t) && Trimmed(t)
    ensures Contains(TrimRight(s), t)
  {
    if s != "" && IsSpace(s[|s| - 1]) {
      var i: nat :| At(s, i, t);
      assert s[i + |t| - 1] == t[|t| - 1];
      assert s[..|s| - 1][i..i + |t|] == t;
      assert At(s[..|s| - 1], i, t);
      TrimRightHolds(s[..|s| - 1], t);
    }
  }

  /** What stands inside a text still does once the text is trimmed. */
  lemma TrimHolds(s: string, t: string)
    requires Contains(s, t) && Trimmed(t)
    ensures Contains(Trim(s), t)
  {
    TrimLeftHolds(s, t);
    TrimRightHolds(TrimLeft(s), t);
  }

  lemma TrimIsInside(s: string)
    ensures Contains(s, Trim(s))
  {
    TrimLeftIsSuffix(s);
    TrimRightIsPrefix(TrimLeft(s));
    var l, t := TrimLeft(s), Trim(s);
    assert s[|s| - |l|..|s| - |l| + |t|] == l[..|t|];
    assert At(s, |s| - |l|, t);
  }

  lemma {:induction false} TrimLeftIsSuffix(s: string)
    ensures |TrimLeft(s)| <= |s| && s[|s| - |TrimLeft(s)|..] == TrimLeft(s)
  {
    if s != "" && IsSpace(s[0]) {
      TrimLeftIsSuffix(s[1..]);
    }
  }

  lemma {:induction false} TrimRightIsPrefix(s: string)
    ensures |TrimRight(s)| <= |s| && s[..|TrimRight(s)|] == TrimRight(s)
  {
    if s != "" && IsSpace(s[|s| - 1]) {
      TrimRightIsPrefix(s[..|s| - 1]);
    }
  }

  // ----- cutting at a separator -----

  /** The leftmost, non-overlapping cuts at a separator. */
  function SplitOn(s: string, sep: string): (f: seq<string>)
    requires sep != ""
    ensures |f| > 0
  {
    if |s| < |sep| then [s]
    else if s[..|sep|] == sep then [""] + SplitOn(s[|sep|..], sep)
    else
      var f := SplitOn(s[1..], sep);
      [[s[0]] + f[0]] + f[1..]
  }

  function JoinOn(f: seq<string>, sep: string): string
    requires |f| > 0
  {
    if |f| == 1 then f[0] else f[0] + sep + JoinOn(f[1..], sep)
  }

  lemma {:induction false} JoinInvertsSplitOn(s: string, sep: string)
    requires sep != ""
    ensures JoinOn(SplitOn(s, sep), sep) == s
    decreases |s|
  {
    if |s| >= |sep| {
      if s[..|sep|] == sep {
        var f := SplitOn(s[|sep|..], sep);
        JoinInvertsSplitOn(s[|sep|..], sep);
        assert ([""] + f)[1..] == f;
        assert "" + sep + s[|sep|..] == s;
      } else {
        var f := SplitOn(s[1..], sep);
        JoinInvertsSplitOn(s[1..], sep);
        JoinLengthened(s[0], f, sep);
        assert [s[0]] + s[1..] == s;
      }
    }
  }

  lemma JoinLengthened(c: char, f: seq<string>, sep: string)
    requires |f| > 0
    ensures JoinOn([[c] + f[0]] + f[1..], sep) == [c] + JoinOn(f, sep)
  {
    var g := [[c] + f[0]] + f[1..];
    assert g[1..] == f[1..];
    if |f| > 1 {
      assert ([c] + f[0]) + sep + JoinOn(f[1..], sep) == [c] + (f[0] + sep + JoinOn(f[1..], sep));
    }
  }

  lemma {:induction false} FirstPartIsPrefix(s: string, sep: string)
    requires sep != ""
    ensures SplitOn(s, sep)[0] <= s
    decreases |s|
  {
    if |s| >= |sep| && s[..|sep|] != sep {
      FirstPartIsPrefix(s[1..], sep);
      assert s == [s[0]] + s[1..];
    }
  }

  lemma FirstPartGrows(s: string, sep: string)
    requires sep != "" && |s| >= |sep| && s[..|sep|] != sep
    ensures SplitOn(s, sep)[0] == [s[0]] + SplitOn(s[1..], sep)[0]
  {
  }

  lemma NotAtFront(c: char, x: string, s: string, sep: string, i: nat)
    requires [c] + x <= s && sep != "" && |s| >= |sep| && s[..|sep|] != sep && At([c] + x, i, sep)
    ensures i > 0 && At(x, i - 1, sep)
  {
    var first := [c] + x;
    assert |first| >= |sep| ==> first[..|sep|] == s[..|sep|];
    assert first[i..i + |sep|] == x[i - 1..i - 1 + |sep|];
  }

  lemma FirstPartLater(s: string, sep: string)
    requires sep != "" && |s| >= |sep| && s[..|sep|] != sep
    requires Contains(SplitOn(s, sep)[0], sep)
    ensures Contains(SplitOn(s[1..], sep)[0], sep)
  {
    FirstPartIsPrefix(s, sep);
    FirstPartGrows(s, sep);
    hide SplitOn, At;
    var later := SplitOn(s[1..], sep)[0];
    var i: nat :| At([s[0]] + later, i, sep);
    NotAtFront(s[0], later, s, sep, i);
  }

  /** No part has the separator left in it. */
  lemma {:induction false} PartsHaveNoSeparator(s: string, sep: string)
    requires sep != ""
    ensures forall p :: p in SplitOn(s, sep) ==> !Contains(p, sep)
    decreases |s|
  {
    if |s| >= |sep| {
      if s[..|sep|] == sep {
        PartsHaveNoSeparator(s[|sep|..], sep);
        NotInNothing(sep);
      } else {
        PartsHaveNoSeparator(s[1..], sep);
        var f := SplitOn(s[1..], sep);
        assert f[0] in f;
        if Contains(SplitOn(s, sep)[0], sep) {
          FirstPartLater(s, sep);
        }
        assert forall p :: p in SplitOn(s, sep) ==> p == SplitOn(s, sep)[0] || p in f;
      }
    }
  }

  lemma NotInNothing(sep: string)
    requires sep != ""
    ensures !Contains("", sep)
  {
  }

  /** The words of several texts, in order. */
  function AllFields(f: seq<string>): seq<string> {
    if f == [] then [] else AllFields(f[..|f| - 1]) + Fields(f[|f| - 1])
  }

  lemma {:induction false} AllFieldsConcat(f: seq<string>, g: seq<string>)
    ensures AllFields(f + g) == AllFields(f) + AllFields(g)
  {
    hide Fields;
    if g == [] {
      assert f + g == f;
    } else {
      var init, last := g[..|g| - 1], g[|g| - 1];
      assert (f + g)[..|f + g| - 1] == f + init && (f + g)[|f + g| - 1] == last;
      AllFieldsConcat(f, init);
      assert AllFields(f) + (AllFields(init) + Fields(last)) == AllFields(f) + AllFields(init) + Fields(last);
    }
  }

  lemma {:induction false} JoinedFields(f: seq<string>, sep: string)
    requires |f| > 0 && Blank(sep) && sep != ""
    ensures Fields(JoinOn(f, sep)) == AllFields(f)
  {
    hide Fields;
    if |f| == 1 {
      assert f[..0] == [];
    } else {
      JoinedFields(f[1..], sep);
      FieldsAroundBlank(f[0], sep, JoinOn(f[1..], sep));
      assert f == [f[0]] + f[1..];
      AllFieldsConcat([f[0]], f[1..]);
      assert [f[0]][..0] == [];
    }
  }

  /** Cutting at white space loses no word. */
  lemma SplitKeepsFields(s: string, sep: string)
    requires Blank(sep) && sep != ""
    ensures AllFields(SplitOn(s, sep)) == Fields(s)
  {
    JoinInvertsSplitOn(s, sep);
    JoinedFields(SplitOn(s, sep), sep);
  }

  lemma {:induction false} PartInside(f: seq<string>, sep: string, i: nat)
    requires i < |f|
    ensures Contains(JoinOn(f, sep), f[i])
  {
    if |f| == 1 {
      ContainsWhole(f[0]);
    } else {
      var rest := JoinOn(f[1..], sep);
      if i == 0 {
        ContainsWhole(f[0]);
        ContainsInside("", f[0], sep + rest, f[0]);
        assert "" + f[0] + (sep + rest) == f[0] + sep + rest;
      } else {
        PartInside(f[1..], sep, i - 1);
        ContainsInside(f[0] + sep, rest, "", f[i]);
        assert f[0] + sep + rest + "" == f[0] + sep + rest;
      }
    }
  }

  /** Every part of a text that was cut stands in the text. */
  lemma SplitPartInside(s: string, sep: string, i: nat)
    requires sep != "" && i < |SplitOn(s, sep)|
    ensures Contains(s, SplitOn(s, sep)[i])
  {
    JoinInvertsSplitOn(s, sep);
    PartInside(SplitOn(s, sep), sep, i);
  }

  lemma InsideIsSmaller(s: string, t: string)
    requires Contains(s, t)
    ensures Units(t) <= Units(s) && forall c :: c in t ==> c in s
  {
    var i: nat :| At(s, i, t);
    assert s == s[..i] + t + s[i + |t|..];
    UnitsWithin(s[..i], t, s[i + |t|..]);
  }

  lemma {:induction false} PartsUseTheText(s: string)
    ensures forall w, c :: w in Parts(s) && c in w ==> c in s
  {
    if s != "" {
      var f := Parts(s[1..]);
      PartsUseTheText(s[1..]);
      forall w, c | w in Parts(s) && c in w ensures c in s {
        if w !in f && w != "" {
          assert w == [s[0]] + f[0] && f[0] in f;
        }
      }
    }
  }

  lemma FieldsUseTheText(s: string)
    ensures forall w, c :: w in Fields(s) && c in w ==> c in s
  {
    PartsUseTheText(s);
    NonEmptyKeeps(Parts(s));
  }
}
