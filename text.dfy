/**
 * String helpers with the semantics of the JavaScript operations the
 * serialiser is built from: `Array.prototype.join`, splitting a text into
 * its lines, and counting characters and pattern occurrences.
 */
module Text {

  /** `xs.join(sep)`: the items in order, with `sep` between neighbours. */
  function Join(sep: string, xs: seq<string>): string
  {
    if |xs| == 0 then ""
    else if |xs| == 1 then xs[0]
    else xs[0] + sep + Join(sep, xs[1..])
  }

  /** The items joined by single newlines: the text whose lines are `ls`. */
  function JoinLines(ls: seq<string>): string
  {
    Join("\n", ls)
  }

  /** Number of occurrences of the character `c` in `s`. */
  function CountChar(c: char, s: string): (n: nat)
    ensures n <= |s|
  {
    if s == [] then 0 else (if s[0] == c then 1 else 0) + CountChar(c, s[1..])
  }

  /**
   * `s` cut at every occurrence of `c`, as `s.split(c)` does; never empty.
   * The serialiser never splits; this is how the properties read a rendered
   * text back as its lines.
   */
  function Split(c: char, s: string): (r: seq<string>)
    ensures |r| > 0
  {
    if s == [] then [""]
    else
      var rest := Split(c, s[1..]);
      if s[0] == c then [""] + rest
      else [[s[0]] + rest[0]] + rest[1..]
  }

  /**
   * Number of positions at which the non-empty pattern `p` occurs in `s`
   * (overlapping occurrences each count).
   */
  function Occurrences(p: string, s: string): nat
    requires |p| > 0
  {
    if |s| < |p| then 0
    else (if s[..|p|] == p then 1 else 0) + Occurrences(p, s[1..])
  }

  /** Number of lines of `ls` equal to `m`. */
  function CountLine(m: string, ls: seq<string>): (n: nat)
    ensures n <= |ls|
    ensures n == 0 <==> m !in ls
  {
    if ls == [] then 0 else (if ls[0] == m then 1 else 0) + CountLine(m, ls[1..])
  }

  /** Number of lines of `ls`, other than the first and the last, equal to `m`. */
  function InteriorCount(m: string, ls: seq<string>): nat
  {
    if |ls| < 3 then 0 else (if ls[1] == m then 1 else 0) + InteriorCount(m, ls[1..])
  }

  // ---------------------------------------------------------------- Join

  /** Joining two non-empty lists puts exactly one separator between them. */
  lemma {:induction false} JoinAppend(sep: string, a: seq<string>, b: seq<string>)
    requires |a| > 0 && |b| > 0
    ensures Join(sep, a + b) == Join(sep, a) + sep + Join(sep, b)
  {
    if |a| == 1 {
      assert (a + b)[1..] == b;
    } else {
      assert (a + b)[1..] == a[1..] + b;
      JoinAppend(sep, a[1..], b);
    }
  }

  /** One step of `Join` from the front. */
  lemma JoinCons(sep: string, x: string, xs: seq<string>)
    requires |xs| > 0
    ensures Join(sep, [x] + xs) == x + sep + Join(sep, xs)
  {
    assert ([x] + xs)[1..] == xs;
  }

  /** A non-empty join begins with its first item. */
  lemma {:induction false} JoinStartsWithFirst(sep: string, xs: seq<string>)
    requires |xs| > 0
    ensures |xs[0]| <= |Join(sep, xs)| && Join(sep, xs)[..|xs[0]|] == xs[0]
  {
    if |xs| > 1 {
      assert Join(sep, xs) == xs[0] + (sep + Join(sep, xs[1..]));
    }
  }

  /** A join contains a character only if a separator or an item does. */
  lemma {:induction false} JoinAvoidsChar(c: char, sep: string, xs: seq<string>)
    requires c !in sep
    requires forall i :: 0 <= i < |xs| ==> c !in xs[i]
    ensures c !in Join(sep, xs)
  {
    if |xs| > 1 {
      JoinAvoidsChar(c, sep, xs[1..]);
    }
  }

  // ------------------------------------------------------------ CountChar

  /** `c` is counted zero times exactly when it does not occur. */
  lemma {:induction false} CountCharZero(c: char, s: string)
    ensures CountChar(c, s) == 0 <==> c !in s
  {
    if s != [] {
      CountCharZero(c, s[1..]);
      assert s == [s[0]] + s[1..];
    }
  }

  lemma {:induction false} CountCharAppend(c: char, a: string, b: string)
    ensures CountChar(c, a + b) == CountChar(c, a) + CountChar(c, b)
  {
    if a != [] {
      assert (a + b)[0] == a[0];
      assert (a + b)[1..] == a[1..] + b;
      CountCharAppend(c, a[1..], b);
    } else {
      assert a + b == b;
    }
  }

  /**
   * When no item contains `c` and the separator contains it once, `c`
   * occurs in the join exactly once between each two neighbouring items.
   */
  lemma {:induction false} CountCharJoin(c: char, sep: string, xs: seq<string>)
    requires |xs| > 0
    requires CountChar(c, sep) == 1
    requires forall i :: 0 <= i < |xs| ==> c !in xs[i]
    ensures CountChar(c, Join(sep, xs)) == |xs| - 1
  {
    CountCharZero(c, xs[0]);
    if |xs| > 1 {
      var rest := Join(sep, xs[1..]);
      CountCharJoin(c, sep, xs[1..]);
      CountCharAppend(c, xs[0], sep + rest);
      CountCharAppend(c, sep, rest);
      assert Join(sep, xs) == xs[0] + (sep + rest);
    }
  }

  // ---------------------------------------------------------------- Split

  lemma {:induction false} SplitWithout(c: char, x: string)
    requires c !in x
    ensures Split(c, x) == [x]
  {
    if x != [] {
      SplitWithout(c, x[1..]);
      assert [x[0]] + x[1..] == x;
    }
  }

  lemma {:induction false} SplitAtFirst(c: char, x: string, t: string)
    requires c !in x
    ensures Split(c, x + [c] + t) == [x] + Split(c, t)
  {
    var s := x + [c] + t;
    if x == [] {
      assert s[1..] == t;
    } else {
      assert s[1..] == x[1..] + [c] + t;
      SplitAtFirst(c, x[1..], t);
      assert [x[0]] + x[1..] == x;
    }
  }

  /** Splitting undoes joining, when no item contains the separator character. */
  lemma {:induction false} SplitJoin(c: char, xs: seq<string>)
    requires |xs| > 0
    requires forall i :: 0 <= i < |xs| ==> c !in xs[i]
    ensures Split(c, Join([c], xs)) == xs
  {
    if |xs| == 1 {
      SplitWithout(c, xs[0]);
    } else {
      SplitAtFirst(c, xs[0], Join([c], xs[1..]));
      SplitJoin(c, xs[1..]);
      assert [xs[0]] + xs[1..] == xs;
    }
  }

  // ---------------------------------------------------------- Occurrences

  /** A pattern that begins with a newline cannot begin inside a newline-free prefix. */
  lemma {:induction false} OccurrencesSkipLine(p: string, l: string, t: string)
    requires |p| > 0 && p[0] == '\n'
    requires '\n' !in l
    ensures Occurrences(p, l + t) == Occurrences(p, t)
  {
    if l != [] {
      var s := l + t;
      assert s[0] == l[0];
      if |s| >= |p| {
        assert s[..|p|][0] != p[0];
        assert s[1..] == l[1..] + t;
        OccurrencesSkipLine(p, l[1..], t);
      } else {
        assert |t| < |p|;
      }
    } else {
      assert l + t == t;
    }
  }

  /** The joined lines `ls` begin with the line `m` and a newline exactly when `ls[0] == m` is not the last line. */
  lemma StartsWithLine(m: string, ls: seq<string>)
    requires |ls| > 0
    requires '\n' !in m
    requires forall i :: 0 <= i < |ls| ==> '\n' !in ls[i]
    ensures (|JoinLines(ls)| >= |m| + 1 && JoinLines(ls)[..|m| + 1] == m + "\n")
        <==> (|ls| >= 2 && ls[0] == m)
  {
    var r := JoinLines(ls);
    var k := |ls[0]|;
    assert (m + "\n")[|m|] == '\n';
    if |ls| == 1 {
      if |r| >= |m| + 1 {
        assert r[|m|] in ls[0];
        assert r[..|m| + 1][|m|] != (m + "\n")[|m|];
      }
    } else {
      assert r == ls[0] + "\n" + JoinLines(ls[1..]);
      if ls[0] == m {
        assert r[..|m| + 1] == m + "\n";
      } else if |r| >= |m| + 1 {
        if k > |m| {
          assert r[|m|] == ls[0][|m|];
          assert r[|m|] in ls[0];
          assert r[..|m| + 1][|m|] != (m + "\n")[|m|];
        } else if k < |m| {
          assert r[k] == '\n';
          assert m[k] in m;
          assert r[..|m| + 1][k] != (m + "\n")[k];
        } else {
          assert r[..k] == ls[0];
          assert r[..|m| + 1][..k] != (m + "\n")[..k];
        }
      }
    }
  }

  /**
   * In newline-free lines joined by newlines, the pattern `"\n" + m + "\n"`
   * occurs exactly once for every interior line equal to `m`.
   */
  lemma {:induction false} OccurrencesInLines(m: string, ls: seq<string>)
    requires |ls| > 0
    requires '\n' !in m
    requires forall i :: 0 <= i < |ls| ==> '\n' !in ls[i]
    ensures Occurrences("\n" + m + "\n", JoinLines(ls)) == InteriorCount(m, ls)
  {
    var p := "\n" + m + "\n";
    if |ls| == 1 {
      OccurrencesSkipLine(p, ls[0], "");
      assert ls[0] + "" == ls[0];
    } else {
      var rest := JoinLines(ls[1..]);
      var t := "\n" + rest;
      assert JoinLines(ls) == ls[0] + t;
      OccurrencesSkipLine(p, ls[0], t);
      OccurrencesInLines(m, ls[1..]);
      StartsWithLine(m, ls[1..]);
      assert t[1..] == rest;
      if |t| >= |p| {
        assert (t[..|p|] == p) <==> (rest[..|m| + 1] == m + "\n");
      }
    }
  }

  // ------------------------------------------------------------ CountLine

  lemma {:induction false} CountLineAppend(m: string, a: seq<string>, b: seq<string>)
    ensures CountLine(m, a + b) == CountLine(m, a) + CountLine(m, b)
  {
    if a != [] {
      assert (a + b)[0] == a[0];
      assert (a + b)[1..] == a[1..] + b;
      CountLineAppend(m, a[1..], b);
    } else {
      assert a + b == b;
    }
  }

  /** The interior count is the count over the lines strictly between the first and the last. */
  lemma {:induction false} InteriorCountIsCount(m: string, ls: seq<string>)
    requires |ls| >= 2
    ensures InteriorCount(m, ls) == CountLine(m, ls[1..|ls| - 1])
  {
    if |ls| > 2 {
      InteriorCountIsCount(m, ls[1..]);
      assert ls[1..][1..|ls| - 2] == ls[2..|ls| - 1];
      assert ls[1..|ls| - 1] == [ls[1]] + ls[2..|ls| - 1];
    }
  }

  /** With neither end line equal to `m`, every line equal to `m` is interior. */
  lemma InteriorCountWithPlainEnds(m: string, ls: seq<string>)
    requires |ls| >= 2
    requires ls[0] != m && ls[|ls| - 1] != m
    ensures InteriorCount(m, ls) == CountLine(m, ls)
  {
    InteriorCountIsCount(m, ls);
    assert ls == [ls[0]] + ls[1..|ls| - 1] + [ls[|ls| - 1]];
    CountLineAppend(m, [ls[0]] + ls[1..|ls| - 1], [ls[|ls| - 1]]);
    CountLineAppend(m, [ls[0]], ls[1..|ls| - 1]);
  }
}
