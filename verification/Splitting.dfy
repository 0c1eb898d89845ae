/** Text cut at every occurrence of a separator, and put back together. */
module Splitting {

  /** One more character in front: it ends the first part or lengthens it. */
  function Push(c: char, sep: char, f: seq<string>): (g: seq<string>)
    requires |f| > 0
    ensures |g| > 0
  {
    if c == sep then [""] + f else [[c] + f[0]] + f[1..]
  }

  function Split(s: string, sep: char): (f: seq<string>)
    ensures |f| > 0
  {
    if s == [] then [""] else Push(s[0], sep, Split(s[1..], sep))
  }

  function Join(f: seq<string>, sep: char): string
    requires |f| > 0
  {
    if |f| == 1 then f[0] else f[0] + [sep] + Join(f[1..], sep)
  }

  lemma {:induction false} JoinPush(c: char, sep: char, f: seq<string>)
    requires |f| > 0
    ensures Join(Push(c, sep, f), sep) == [c] + Join(f, sep)
  {
    var g := Push(c, sep, f);
    if c == sep {
      assert g[0] == "" && g[1..] == f && |g| > 1;
      assert Join(g, sep) == "" + [sep] + Join(f, sep);
      assert "" + [sep] + Join(f, sep) == [sep] + Join(f, sep);
    } else {
      assert g[0] == [c] + f[0] && g[1..] == f[1..] && |g| == |f|;
      if |f| > 1 {
        var rest := Join(f[1..], sep);
        assert Join(g, sep) == ([c] + f[0]) + [sep] + rest;
        assert Join(f, sep) == f[0] + [sep] + rest;
        assert ([c] + f[0]) + [sep] + rest == [c] + (f[0] + [sep] + rest);
      }
    }
  }

  lemma {:induction false} JoinInvertsSplit(s: string, sep: char)
    ensures Join(Split(s, sep), sep) == s
  {
    if s != [] {
      JoinInvertsSplit(s[1..], sep);
      JoinPush(s[0], sep, Split(s[1..], sep));
      assert [s[0]] + s[1..] == s;
    }
  }

  lemma {:induction false} PushConcat(c: char, sep: char, f: seq<string>, g: seq<string>)
    requires |f| > 0
    ensures Push(c, sep, f + g) == Push(c, sep, f) + g
  {
    if c != sep {
      assert (f + g)[1..] == f[1..] + g;
    }
  }

  lemma PushSeparator(sep: char, f: seq<string>)
    requires |f| > 0
    ensures Push(sep, sep, f) == [""] + f
  {
  }

  /** Cutting two texts joined by a separator is cutting each. */
  lemma {:induction false} SplitConcat(a: string, sep: char, b: string)
    ensures Split(a + [sep] + b, sep) == Split(a, sep) + Split(b, sep)
  {
    hide Push;
    var whole := a + [sep] + b;
    if a == [] {
      assert whole[0] == sep && whole[1..] == b;
      PushSeparator(sep, Split(b, sep));
    } else {
      assert whole[0] == a[0];
      assert whole[1..] == a[1..] + [sep] + b;
      SplitConcat(a[1..], sep, b);
      PushConcat(a[0], sep, Split(a[1..], sep), Split(b, sep));
    }
  }

  lemma {:induction false} OnePart(s: string, sep: char)
    requires sep !in s
    ensures Split(s, sep) == [s]
  {
    if s != [] {
      OnePart(s[1..], sep);
      assert [s[0]] + s[1..] == s;
    }
  }

  /** What was joined from parts without separators in them is cut into those parts. */
  lemma {:induction false} SplitInvertsJoin(f: seq<string>, sep: char)
    requires |f| > 0 && forall i :: 0 <= i < |f| ==> sep !in f[i]
    ensures Split(Join(f, sep), sep) == f
  {
    OnePart(f[0], sep);
    if |f| > 1 {
      SplitInvertsJoin(f[1..], sep);
      SplitConcat(f[0], sep, Join(f[1..], sep));
      assert [f[0]] + f[1..] == f;
    }
  }
}
