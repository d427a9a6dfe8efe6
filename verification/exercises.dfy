/** The exercise-name normaliser `clean`: `s.trim().replace(/\s+/g, " ")`. */
module Exercises {

  /** The characters `trim()` removes and `\s` matches: WhiteSpace and LineTerminator
      of ECMA-262 (sections 12.2 and 12.3), the Unicode "Zs" category spelled out. */
  predicate IsWs(c: char)
    ensures c == ' ' || '\t' <= c <= '\r' ==> IsWs(c)
    ensures '!' <= c <= '~' ==> !IsWs(c)
  {
    || c == '\t' || c == '\U{000B}' || c == '\U{000C}' || c == ' ' || c == '\U{00A0}' || c == '\U{FEFF}'
    || c == '\U{1680}' || ('\U{2000}' <= c <= '\U{200A}') || c == '\U{202F}' || c == '\U{205F}' || c == '\U{3000}'
    || c == '\n' || c == '\r' || c == '\U{2028}' || c == '\U{2029}'
  }

  /** The characters of `s` that are not white space, in order. */
  function NonWs(s: string): string
  {
    if s == [] then [] else (if IsWs(s[0]) then [] else [s[0]]) + NonWs(s[1..])
  }

  /** Drops the leading white space: the first half of `trim()`, and the skipping of
      one match of `\s+`. */
  function TrimStart(s: string): (r: string)
    ensures |r| <= |s| && r == s[|s| - |r|..]
    ensures forall i :: 0 <= i < |s| - |r| ==> IsWs(s[i])
    ensures r == [] || !IsWs(r[0])
  {
    if s != [] && IsWs(s[0]) then TrimStart(s[1..]) else s
  }

  /** Drops the trailing white space: the second half of `trim()`. */
  function TrimEnd(s: string): (r: string)
    ensures |r| <= |s| && r == s[..|r|]
    ensures forall i :: |r| <= i < |s| ==> IsWs(s[i])
    ensures r == [] || !IsWs(r[|r| - 1])
  {
    if s != [] && IsWs(s[|s| - 1]) then TrimEnd(s[..|s| - 1]) else s
  }

  /** `trim()`: the white space at both ends goes, every other character stays. */
  function Trim(s: string): (r: string)
    ensures |r| <= |s|
    ensures r == [] || (!IsWs(r[0]) && !IsWs(r[|r| - 1]))
    ensures NonWs(r) == NonWs(s)
  {
    TrimStartKeepsNonWs(s);
    TrimEndKeepsNonWs(TrimStart(s));
    TrimEnd(TrimStart(s))
  }

  /** No white space other than single spaces. */
  ghost predicate SingleSpaced(s: string)
  {
    && (forall i :: 0 <= i < |s| && IsWs(s[i]) ==> s[i] == ' ')
    && (forall i, j :: 0 <= i < j < |s| && j == i + 1 ==> !(IsWs(s[i]) && IsWs(s[j])))
  }

  /** A character in front of a single-spaced string keeps it single-spaced when it
      is a word character, or a space followed by a word character. */
  lemma SingleSpacedCons(c: char, r: string)
    requires SingleSpaced(r)
    requires IsWs(c) ==> c == ' ' && (r == [] || !IsWs(r[0]))
    ensures SingleSpaced([c] + r)
  {
    var x := [c] + r;
    assert forall i :: 1 <= i < |x| ==> x[i] == r[i - 1];
  }

  /** `replace(/\s+/g, " ")`: every maximal run of white space becomes one space. */
  function Collapse(s: string): (r: string)
    ensures |r| <= |s|
    ensures SingleSpaced(r)
    ensures r == [] <==> s == []
    ensures r != [] ==> (IsWs(r[0]) <==> IsWs(s[0]))
    ensures r != [] ==> (IsWs(r[|r| - 1]) <==> IsWs(s[|s| - 1]))
    decreases |s|
  {
    if s == [] then []
    else if IsWs(s[0]) then
      SingleSpacedCons(' ', Collapse(TrimStart(s[1..])));
      [' '] + Collapse(TrimStart(s[1..]))
    else
      SingleSpacedCons(s[0], Collapse(s[1..]));
      [s[0]] + Collapse(s[1..])
  }

  /** `clean`. */
  function Clean(s: string): (r: string)
    ensures |r| <= |s|
    ensures SingleSpaced(r)
    ensures r == [] || (!IsWs(r[0]) && !IsWs(r[|r| - 1]))
  {
    Collapse(Trim(s))
  }

  /** Filtering white space distributes over concatenation. */
  lemma {:induction false} NonWsAppend(a: string, b: string)
    ensures NonWs(a + b) == NonWs(a) + NonWs(b)
    decreases |a|
  {
    if a != [] {
      assert (a + b)[1..] == a[1..] + b;
      NonWsAppend(a[1..], b);
    } else {
      assert a + b == b;
    }
  }

  /** A string has no non-white-space character exactly when it is all white space. */
  lemma {:induction false} NonWsEmpty(s: string)
    ensures NonWs(s) == [] <==> forall i :: 0 <= i < |s| ==> IsWs(s[i])
    decreases |s|
  {
    if s != [] {
      NonWsEmpty(s[1..]);
      assert forall i :: 1 <= i < |s| ==> s[1..][i - 1] == s[i];
    }
  }

  /** Trimming the front removes white space only. */
  lemma TrimStartKeepsNonWs(s: string)
    ensures NonWs(TrimStart(s)) == NonWs(s)
  {
  }

  /** Trimming the back removes white space only. */
  lemma TrimEndKeepsNonWs(s: string)
    ensures NonWs(TrimEnd(s)) == NonWs(s)
  {
    var r := TrimEnd(s);
    var w := s[|r|..];
    assert s == r + w;
    NonWsAppend(r, w);
    assert forall i :: 0 <= i < |w| ==> w[i] == s[|r| + i];
    NonWsEmpty(w);
  }

  /** Collapsing runs of white space removes white space only. */
  lemma {:induction false} CollapseKeepsNonWs(s: string)
    ensures NonWs(Collapse(s)) == NonWs(s)
    decreases |s|
  {
    if s != [] {
      if IsWs(s[0]) {
        var t := TrimStart(s[1..]);
        CollapseKeepsNonWs(t);
        TrimStartKeepsNonWs(s[1..]);
        NonWsAppend([' '], Collapse(t));
      } else {
        CollapseKeepsNonWs(s[1..]);
        NonWsAppend([s[0]], Collapse(s[1..]));
      }
    }
  }

  /** The non-white-space characters of a name survive `clean` unchanged and in order. */
  lemma CleanKeepsNonWs(s: string)
    ensures NonWs(Clean(s)) == NonWs(s)
  {
    CollapseKeepsNonWs(Trim(s));
    TrimEndKeepsNonWs(TrimStart(s));
    TrimStartKeepsNonWs(s);
  }

  /** `clean` yields the empty string exactly for an empty or all-white-space input. */
  lemma CleanEmpty(s: string)
    ensures Clean(s) == [] <==> forall i :: 0 <= i < |s| ==> IsWs(s[i])
  {
  }

  /** Dropping the first character keeps a string single-spaced. */
  lemma SingleSpacedTail(s: string)
    requires s != [] && SingleSpaced(s)
    ensures SingleSpaced(s[1..])
  {
    assert forall i :: 0 <= i < |s| - 1 ==> s[1..][i] == s[i + 1];
  }

  /** A single-spaced string is its own collapse. */
  lemma {:induction false} CollapseSingleSpaced(s: string)
    requires SingleSpaced(s)
    ensures Collapse(s) == s
    decreases |s|
  {
    if s != [] {
      var c, rest := s[0], s[1..];
      SingleSpacedTail(s);
      CollapseSingleSpaced(rest);
      SplitFirst(s, []);
      if IsWs(c) {
        assert rest == [] || !IsWs(rest[0]);
        CollapseSpace(c, rest);
      } else {
        CollapseWord(c, rest);
      }
    }
  }

  /** Cleaning a cleaned name changes nothing. */
  lemma CleanIdempotent(s: string)
    ensures Clean(Clean(s)) == Clean(s)
  {
    var c := Clean(s);
    assert TrimStart(c) == c;
    assert TrimEnd(c) == c;
    CollapseSingleSpaced(c);
  }

  // The small sequence identities below (DropFirstAppend, DropLastAppend, Regroup,
  // SplitFirst, AllWsJoin, RegroupJoin) are stated as lemmas of their own so that
  // proving them never happens next to unfoldings of the recursive Collapse and
  // TrimStart/TrimEnd: the proofs that use them only call them.

  /** Dropping the first character of `x + y` drops it from `x`. */
  lemma DropFirstAppend(x: string, y: string)
    requires x != []
    ensures (x + y)[1..] == x[1..] + y
  {
  }

  /** Dropping the last character of `x + y` drops it from `y`. */
  lemma DropLastAppend(x: string, y: string)
    requires y != []
    ensures (x + y)[..|x + y| - 1] == x + y[..|y| - 1]
  {
  }

  /** Leading white space of `w + b` is all of `w` when `b` starts with a non-white-space character. */
  lemma {:induction false} TrimStartOverWs(w: string, b: string)
    requires forall i :: 0 <= i < |w| ==> IsWs(w[i])
    requires b == [] || !IsWs(b[0])
    ensures TrimStart(w + b) == b
    decreases |w|
  {
    if w == [] {
      assert w + b == b;
    } else {
      DropFirstAppend(w, b);
      TrimStartOverWs(w[1..], b);
    }
  }

  /** Trimming the front of `x + y` stops inside `x` when `x` holds a non-white-space character. */
  lemma {:induction false} TrimStartAppend(x: string, y: string)
    requires TrimStart(x) != []
    ensures TrimStart(x + y) == TrimStart(x) + y
    decreases |x|
  {
    if IsWs(x[0]) {
      DropFirstAppend(x, y);
      TrimStartAppend(x[1..], y);
    }
  }

  /** Trimming the back of `x + y` stops inside `y` when `y` holds a non-white-space character. */
  lemma {:induction false} TrimEndAppend(x: string, y: string)
    requires TrimEnd(y) != []
    ensures TrimEnd(x + y) == x + TrimEnd(y)
    decreases |y|
  {
    if IsWs(y[|y| - 1]) {
      DropLastAppend(x, y);
      TrimEndAppend(x, y[..|y| - 1]);
    }
  }

  /** One step of `Collapse` on a non-white-space character. */
  lemma CollapseWord(c: char, x: string)
    requires !IsWs(c)
    ensures Collapse([c] + x) == [c] + Collapse(x)
  {
    DropFirstAppend([c], x);
  }

  /** A white-space run in front of a word collapses to one space. */
  lemma CollapseRun(w: string, b: string)
    requires w != [] && forall i :: 0 <= i < |w| ==> IsWs(w[i])
    requires b == [] || !IsWs(b[0])
    ensures Collapse(w + b) == " " + Collapse(b)
  {
    DropFirstAppend(w, b);
    TrimStartOverWs(w[1..], b);
  }

  /** One step of `Collapse` on a white-space character. */
  lemma CollapseSpace(c: char, x: string)
    requires IsWs(c)
    ensures Collapse([c] + x) == " " + Collapse(TrimStart(x))
  {
    DropFirstAppend([c], x);
  }

  /** Regrouping a concatenation of three strings. */
  lemma Regroup(a: string, b: string, c: string)
    ensures a + b + c == a + (b + c)
  {
  }

  /** Splitting off the first character of `x` in `x + y`. */
  lemma SplitFirst(x: string, y: string)
    requires x != []
    ensures x == [x[0]] + x[1..] && x + y == [x[0]] + (x[1..] + y)
  {
  }

  /** Trimming the front of a string that ends with a word keeps that last character. */
  lemma TrimStartKeepsLast(s: string)
    requires s != [] && !IsWs(s[|s| - 1])
    ensures TrimStart(s) != [] && TrimStart(s)[|TrimStart(s)| - 1] == s[|s| - 1]
  {
  }

  /** The step of `CollapseAppend` past a non-white-space first character. */
  lemma CollapseAppendWord(x: string, y: string)
    requires x != [] && !IsWs(x[0]) && !IsWs(x[|x| - 1])
    ensures Collapse(x + y) == Collapse(x) + Collapse(y)
    decreases |x|, 0
  {
    var c, rest := x[0], x[1..];
    assert rest == [] || rest[|rest| - 1] == x[|x| - 1];
    CollapseAppend(rest, y);
    SplitFirst(x, y);
    CollapseWord(c, rest + y);
    CollapseWord(c, rest);
    Regroup([c], Collapse(rest), Collapse(y));
  }

  /** The step of `CollapseAppend` past a leading white-space run, which stops inside `x`. */
  lemma CollapseAppendSpace(x: string, y: string)
    requires x != [] && IsWs(x[0]) && !IsWs(x[|x| - 1])
    ensures Collapse(x + y) == Collapse(x) + Collapse(y)
    decreases |x|, 0
  {
    var c, rest := x[0], x[1..];
    var t := TrimStart(rest);
    TrimStartKeepsLast(rest);
    CollapseAppend(t, y);
    SplitFirst(x, y);
    TrimStartAppend(rest, y);
    CollapseSpace(c, rest + y);
    CollapseSpace(c, rest);
    Regroup(" ", Collapse(t), Collapse(y));
  }

  /** No white-space run crosses the end of a string that ends with a word, so the
      string and what follows it collapse separately. */
  lemma {:induction false} CollapseAppend(x: string, y: string)
    requires x == [] || !IsWs(x[|x| - 1])
    ensures Collapse(x + y) == Collapse(x) + Collapse(y)
    decreases |x|, 1
  {
    if x == [] {
      assert x + y == y;
    } else if !IsWs(x[0]) {
      CollapseAppendWord(x, y);
    } else {
      CollapseAppendSpace(x, y);
    }
  }

  /** A white-space run between two words collapses to exactly one space. */
  lemma CollapseJoin(a: string, w: string, b: string)
    requires a != [] && !IsWs(a[|a| - 1])
    requires w != [] && forall i :: 0 <= i < |w| ==> IsWs(w[i])
    requires b != [] && !IsWs(b[0])
    ensures Collapse(a + w + b) == Collapse(a) + " " + Collapse(b)
  {
    Regroup(a, w, b);
    CollapseAppend(a, w + b);
    CollapseRun(w, b);
    Regroup(Collapse(a), " ", Collapse(b));
  }

  /** Trailing white space of `b + w` is all of `w` when `b` ends with a non-white-space character. */
  lemma {:induction false} TrimEndOverWs(b: string, w: string)
    requires forall i :: 0 <= i < |w| ==> IsWs(w[i])
    requires b == [] || !IsWs(b[|b| - 1])
    ensures TrimEnd(b + w) == b
    decreases |w|
  {
    if w == [] {
      assert b + w == b;
    } else {
      DropLastAppend(b, w);
      TrimEndOverWs(b, w[..|w| - 1]);
    }
  }

  /** A string is its leading white-space run followed by `TrimStart` of it. */
  lemma TrimStartSplit(s: string) returns (lead: string)
    ensures s == lead + TrimStart(s)
    ensures forall i :: 0 <= i < |lead| ==> IsWs(lead[i])
  {
    lead := s[..|s| - |TrimStart(s)|];
  }

  /** A string is `TrimEnd` of it followed by its trailing white-space run. */
  lemma TrimEndSplit(s: string) returns (trail: string)
    ensures s == TrimEnd(s) + trail
    ensures forall i :: 0 <= i < |trail| ==> IsWs(trail[i])
  {
    trail := s[|TrimEnd(s)|..];
    assert forall i :: 0 <= i < |trail| ==> trail[i] == s[|TrimEnd(s)| + i];
  }

  /** A string holding a word is its leading run, its trimmed core, and its trailing run. */
  lemma TrimSplit(s: string) returns (lead: string, trail: string)
    requires NonWs(s) != []
    ensures s == lead + Trim(s) + trail
    ensures forall i :: 0 <= i < |lead| ==> IsWs(lead[i])
    ensures forall i :: 0 <= i < |trail| ==> IsWs(trail[i])
    ensures Trim(s) != [] && !IsWs(Trim(s)[0]) && !IsWs(Trim(s)[|Trim(s)| - 1])
  {
    var st := TrimStart(s);
    assert Trim(s) != [] by {
      TrimStartKeepsNonWs(s);
      TrimEndKeepsNonWs(st);
    }
    lead := TrimStartSplit(s);
    trail := TrimEndSplit(st);
    Regroup(lead, Trim(s), trail);
  }

  /** Concatenations of white-space runs are white-space runs. */
  lemma AllWsJoin(x: string, y: string, z: string)
    requires forall i :: 0 <= i < |x| ==> IsWs(x[i])
    requires forall i :: 0 <= i < |y| ==> IsWs(y[i])
    requires forall i :: 0 <= i < |z| ==> IsWs(z[i])
    ensures forall i :: 0 <= i < |x + y + z| ==> IsWs((x + y + z)[i])
  {
  }

  /** The regrouping of the pieces of two trimmed words and the run between them. */
  lemma RegroupJoin(la: string, ta: string, ra: string, w: string, lb: string, tb: string, rb: string)
    ensures la + ta + ra + w + (lb + tb + rb) == la + (ta + (ra + w + lb) + tb + rb)
  {
  }

  /** Trimming two words separated by white space leaves both words trimmed, with one
      white-space run between them: a's trailing, the separator, and b's leading run. */
  lemma TrimJoin(a: string, w: string, b: string) returns (run: string)
    requires NonWs(a) != [] && NonWs(b) != []
    requires w != [] && forall i :: 0 <= i < |w| ==> IsWs(w[i])
    ensures run != [] && forall i :: 0 <= i < |run| ==> IsWs(run[i])
    ensures Trim(a) != [] && !IsWs(Trim(a)[|Trim(a)| - 1])
    ensures Trim(b) != [] && !IsWs(Trim(b)[0])
    ensures Trim(a + w + b) == Trim(a) + run + Trim(b)
  {
    var la, ra := TrimSplit(a);
    var lb, rb := TrimSplit(b);
    var ta, tb := Trim(a), Trim(b);
    run := ra + w + lb;
    AllWsJoin(ra, w, lb);
    RegroupJoin(la, ta, ra, w, lb, tb, rb);
    var mid := ta + run + tb;
    assert (mid + rb)[0] == ta[0] && mid[|mid| - 1] == tb[|tb| - 1];
    TrimStartOverWs(la, mid + rb);
    TrimEndOverWs(mid, rb);
  }

  /** Two words separated by white space are cleaned separately and joined by one space:
      this is what keeps "Bench  Press" two words. */
  lemma CleanJoin(a: string, w: string, b: string)
    requires NonWs(a) != [] && NonWs(b) != []
    requires w != [] && forall i :: 0 <= i < |w| ==> IsWs(w[i])
    ensures Clean(a + w + b) == Clean(a) + " " + Clean(b)
  {
    var run := TrimJoin(a, w, b);
    CollapseJoin(Trim(a), run, Trim(b));
  }

  /** A name without white space is already clean. */
  lemma CleanWithoutWs(s: string)
    requires forall i :: 0 <= i < |s| ==> !IsWs(s[i])
    ensures Clean(s) == s
  {
    assert TrimStart(s) == s;
    assert TrimEnd(s) == s;
    CollapseSingleSpaced(s);
  }
}
