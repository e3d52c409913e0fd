/** What `preprocess_text` guarantees about its output, and when it is a no-op. */
module CleaningProperties {
  import opened Chars
  import opened Table
  import opened TextCleaning

  // ---------------------------------------------------------------------------
  // Whitespace collapsing
  // ---------------------------------------------------------------------------

  /** A collapsed string starts with a space exactly when the input starts with whitespace. */
  lemma CollapseHead(cc: CharClasses, s: string)
    requires cc.isSpace(' ')
    requires s != []
    ensures Collapse(cc, s) != []
    ensures Collapse(cc, s)[0] == ' ' <==> cc.isSpace(s[0])
    ensures !cc.isSpace(s[0]) ==> Collapse(cc, s)[0] == s[0]
  {
  }

  /** Collapsing never leaves two adjacent spaces. */
  lemma {:induction false} CollapseNoDoubleSpace(cc: CharClasses, s: string)
    requires cc.isSpace(' ')
    ensures NoDoubleSpace(Collapse(cc, s))
    decreases |s|
  {
    if s == [] {
    } else if cc.isSpace(s[0]) {
      var t := TrimLeft(cc, s[1..]);
      CollapseNoDoubleSpace(cc, t);
      if t != [] {
        CollapseHead(cc, t);
      }
    } else {
      CollapseNoDoubleSpace(cc, s[1..]);
      if s[1..] != [] {
        CollapseHead(cc, s[1..]);
      }
    }
  }

  /** A string whose only whitespace is single plain spaces is left alone by collapsing. */
  lemma {:induction false} CollapseFixed(cc: CharClasses, s: string)
    requires cc.isSpace(' ')
    requires forall i :: 0 <= i < |s| ==> cc.isSpace(s[i]) ==> s[i] == ' '
    requires NoDoubleSpace(s)
    ensures Collapse(cc, s) == s
    decreases |s|
  {
    if s == [] {
    } else {
      CollapseFixed(cc, s[1..]);
      if cc.isSpace(s[0]) {
        if |s| > 1 {
          assert s[1] != ' ';
          assert !cc.isSpace(s[1]);
        }
        assert TrimLeft(cc, s[1..]) == s[1..];
      }
    }
  }

  /** Collapsing keeps a non-whitespace last character in last position. */
  lemma {:induction false} CollapseLast(cc: CharClasses, s: string)
    requires s != [] && !cc.isSpace(s[|s| - 1])
    ensures Collapse(cc, s) != []
    ensures Collapse(cc, s)[|Collapse(cc, s)| - 1] == s[|s| - 1]
    decreases |s|
  {
    if cc.isSpace(s[0]) {
      var t := TrimLeft(cc, s[1..]);
      assert |s| > 1;
      assert s[1..][|s| - 2] == s[|s| - 1];
      assert t != [];
      assert t[|t| - 1] == s[|s| - 1];
      CollapseLast(cc, t);
    } else if |s| > 1 {
      CollapseLast(cc, s[1..]);
    }
  }

  lemma {:induction false} NonSpaceConcat(cc: CharClasses, a: string, b: string)
    ensures NonSpaceChars(cc, a + b) == NonSpaceChars(cc, a) + NonSpaceChars(cc, b)
    decreases |a|
  {
    if a == [] {
      assert a + b == b;
    } else {
      assert (a + b)[1..] == a[1..] + b;
      NonSpaceConcat(cc, a[1..], b);
    }
  }

  lemma {:induction false} NonSpaceTrimLeft(cc: CharClasses, s: string)
    ensures NonSpaceChars(cc, TrimLeft(cc, s)) == NonSpaceChars(cc, s)
    decreases |s|
  {
    if |s| > 0 && cc.isSpace(s[0]) {
      NonSpaceTrimLeft(cc, s[1..]);
    }
  }

  /** Collapsing changes only whitespace: the non-whitespace characters are kept, in order. */
  lemma {:induction false} CollapseKeepsContent(cc: CharClasses, s: string)
    requires cc.isSpace(' ')
    ensures NonSpaceChars(cc, Collapse(cc, s)) == NonSpaceChars(cc, s)
    decreases |s|
  {
    if s == [] {
    } else if cc.isSpace(s[0]) {
      var t := TrimLeft(cc, s[1..]);
      CollapseKeepsContent(cc, t);
      NonSpaceTrimLeft(cc, s[1..]);
      NonSpaceConcat(cc, [' '], Collapse(cc, t));
    } else {
      CollapseKeepsContent(cc, s[1..]);
      NonSpaceConcat(cc, [s[0]], Collapse(cc, s[1..]));
    }
  }

  /** Leading whitespace followed by a non-whitespace start is trimmed exactly. */
  lemma {:induction false} TrimLeftSpaceRun(cc: CharClasses, w: string, b: string)
    requires AllSpace(cc, w)
    requires b == [] || !cc.isSpace(b[0])
    ensures TrimLeft(cc, w + b) == b
    decreases |w|
  {
    if w == [] {
      assert w + b == b;
    } else {
      assert (w + b)[1..] == w[1..] + b;
      TrimLeftSpaceRun(cc, w[1..], b);
    }
  }

  /** A string ending in non-whitespace keeps that last character through `TrimLeft`. */
  lemma {:induction false} TrimLeftKeepsLast(cc: CharClasses, x: string)
    requires x != [] && !cc.isSpace(x[|x| - 1])
    ensures TrimLeft(cc, x) != []
    ensures TrimLeft(cc, x)[|TrimLeft(cc, x)| - 1] == x[|x| - 1]
    decreases |x|
  {
    if cc.isSpace(x[0]) {
      assert x[1..][|x| - 2] == x[|x| - 1];
      TrimLeftKeepsLast(cc, x[1..]);
    }
  }

  /** Once `TrimLeft` stops inside `x`, whatever follows `x` is kept as it is. */
  lemma {:induction false} TrimLeftConcat(cc: CharClasses, x: string, y: string)
    requires TrimLeft(cc, x) != []
    ensures TrimLeft(cc, x + y) == TrimLeft(cc, x) + y
    decreases |x|
  {
    if cc.isSpace(x[0]) {
      assert (x + y)[1..] == x[1..] + y;
      TrimLeftConcat(cc, x[1..], y);
    }
  }

  /**
    A maximal whitespace run `w` between `a` and `b` becomes exactly one plain space,
    whatever its length and whichever whitespace characters it holds.
  */
  lemma {:induction false} CollapseRun(cc: CharClasses, a: string, w: string, b: string)
    requires w != [] && AllSpace(cc, w)
    requires a == [] || !cc.isSpace(a[|a| - 1])
    requires b == [] || !cc.isSpace(b[0])
    ensures Collapse(cc, a + w + b) == Collapse(cc, a) + " " + Collapse(cc, b)
    decreases |a|, 1
  {
    if a == [] {
      assert a + w + b == w + b;
      CollapseRunAtStart(cc, w, b);
    } else if !cc.isSpace(a[0]) {
      CollapseRunWordFirst(cc, a, w, b);
    } else {
      CollapseRunSpaceFirst(cc, a, w, b);
    }
  }

  /** `CollapseRun` when `a` starts with a non-whitespace character. */
  lemma {:induction false} CollapseRunWordFirst(cc: CharClasses, a: string, w: string, b: string)
    requires w != [] && AllSpace(cc, w)
    requires a != [] && !cc.isSpace(a[0]) && !cc.isSpace(a[|a| - 1])
    requires b == [] || !cc.isSpace(b[0])
    ensures Collapse(cc, a + w + b) == Collapse(cc, a) + " " + Collapse(cc, b)
    decreases |a|, 0
  {
    var c, x := a[0], a[1..];
    SplitHead(a, w + b);
    Regroup(a, w, b);
    if |a| > 1 {
      assert x[|x| - 1] == a[|a| - 1];
    }
    CollapseRun(cc, x, w, b);
    Regroup(x, w, b);
    CollapseRunAfterWord(cc, c, x, w + b, b);
  }

  /** `CollapseRun` when `a` starts with whitespace. */
  lemma {:induction false} CollapseRunSpaceFirst(cc: CharClasses, a: string, w: string, b: string)
    requires w != [] && AllSpace(cc, w)
    requires a != [] && cc.isSpace(a[0]) && !cc.isSpace(a[|a| - 1])
    requires b == [] || !cc.isSpace(b[0])
    ensures Collapse(cc, a + w + b) == Collapse(cc, a) + " " + Collapse(cc, b)
    decreases |a|, 0
  {
    var c, x := a[0], a[1..];
    SplitHead(a, w + b);
    Regroup(a, w, b);
    assert x != [] && x[|x| - 1] == a[|a| - 1];
    TrimLeftKeepsLast(cc, x);
    var a' := TrimLeft(cc, x);
    CollapseRun(cc, a', w, b);
    Regroup(a', w, b);
    CollapseRunAfterSpace(cc, c, x, w + b, b);
  }

  lemma CollapseRunAtStart(cc: CharClasses, w: string, b: string)
    requires w != [] && AllSpace(cc, w)
    requires b == [] || !cc.isSpace(b[0])
    ensures Collapse(cc, w + b) == " " + Collapse(cc, b)
  {
    assert (w + b)[1..] == w[1..] + b;
    TrimLeftSpaceRun(cc, w[1..], b);
  }

  /** `Collapse` on a string that starts with a non-whitespace character. */
  lemma CollapseConsWord(cc: CharClasses, c: char, t: string)
    requires !cc.isSpace(c)
    ensures Collapse(cc, [c] + t) == [c] + Collapse(cc, t)
  {
    assert ([c] + t)[1..] == t;
  }

  /** `Collapse` on a string that starts with a whitespace character. */
  lemma CollapseConsSpace(cc: CharClasses, c: char, t: string)
    requires cc.isSpace(c)
    ensures Collapse(cc, [c] + t) == [' '] + Collapse(cc, TrimLeft(cc, t))
  {
    assert ([c] + t)[1..] == t;
  }

  lemma Regroup(p: string, q: string, r: string)
    ensures p + q + r == p + (q + r)
  {
  }

  lemma SplitHead(a: string, u: string)
    requires a != []
    ensures a == [a[0]] + a[1..] && a + u == [a[0]] + (a[1..] + u)
  {
  }

  /** The step of `CollapseRun` past a leading non-whitespace character `c`. */
  lemma CollapseRunAfterWord(cc: CharClasses, c: char, x: string, u: string, b: string)
    requires !cc.isSpace(c)
    requires Collapse(cc, x + u) == Collapse(cc, x) + " " + Collapse(cc, b)
    ensures Collapse(cc, [c] + (x + u)) == Collapse(cc, [c] + x) + " " + Collapse(cc, b)
  {
    CollapseConsWord(cc, c, x + u);
    CollapseConsWord(cc, c, x);
    Regroup([c] + Collapse(cc, x), " ", Collapse(cc, b));
    Regroup([c], Collapse(cc, x), " " + Collapse(cc, b));
    Regroup(Collapse(cc, x), " ", Collapse(cc, b));
  }

  /** The step of `CollapseRun` past a leading whitespace character `c`. */
  lemma CollapseRunAfterSpace(cc: CharClasses, c: char, x: string, u: string, b: string)
    requires cc.isSpace(c) && TrimLeft(cc, x) != []
    requires Collapse(cc, TrimLeft(cc, x) + u) == Collapse(cc, TrimLeft(cc, x)) + " " + Collapse(cc, b)
    ensures Collapse(cc, [c] + (x + u)) == Collapse(cc, [c] + x) + " " + Collapse(cc, b)
  {
    CollapseConsSpace(cc, c, x + u);
    CollapseConsSpace(cc, c, x);
    TrimLeftConcat(cc, x, u);
    Regroup([' '] + Collapse(cc, TrimLeft(cc, x)), " ", Collapse(cc, b));
    Regroup([' '], Collapse(cc, TrimLeft(cc, x)), " " + Collapse(cc, b));
    Regroup(Collapse(cc, TrimLeft(cc, x)), " ", Collapse(cc, b));
  }

  // ---------------------------------------------------------------------------
  // Deletion and stripping
  // ---------------------------------------------------------------------------

  lemma {:induction false} RemoveDisallowedConcat(cc: CharClasses, a: string, b: string)
    ensures RemoveDisallowed(cc, a + b) == RemoveDisallowed(cc, a) + RemoveDisallowed(cc, b)
    decreases |a|
  {
    if a == [] {
      assert a + b == b;
    } else {
      SplitHead(a, b);
      RemoveDisallowedConcat(cc, a[1..], b);
      RemoveDisallowedCons(cc, a[0], a[1..] + b);
      RemoveDisallowedCons(cc, a[0], a[1..]);
      Regroup(if Allowed(cc, a[0]) then [a[0]] else [], RemoveDisallowed(cc, a[1..]), RemoveDisallowed(cc, b));
    }
  }

  /** Deletion on a string with a known first character. */
  lemma RemoveDisallowedCons(cc: CharClasses, c: char, t: string)
    ensures RemoveDisallowed(cc, [c] + t) == (if Allowed(cc, c) then [c] else []) + RemoveDisallowed(cc, t)
  {
    assert ([c] + t)[1..] == t;
  }

  /** Leading whitespace survives deletion but contributes no non-whitespace character. */
  lemma {:induction false} TrimLeftKeepsContent(cc: CharClasses, s: string)
    ensures NonSpaceChars(cc, RemoveDisallowed(cc, TrimLeft(cc, s)))
         == NonSpaceChars(cc, RemoveDisallowed(cc, s))
    decreases |s|
  {
    if |s| > 0 && cc.isSpace(s[0]) {
      TrimLeftKeepsContent(cc, s[1..]);
      assert RemoveDisallowed(cc, s) == [s[0]] + RemoveDisallowed(cc, s[1..]);
      NonSpaceConcat(cc, [s[0]], RemoveDisallowed(cc, s[1..]));
    }
  }

  /** Trailing whitespace survives deletion but contributes no non-whitespace character. */
  lemma {:induction false} TrimRightKeepsContent(cc: CharClasses, s: string)
    ensures NonSpaceChars(cc, RemoveDisallowed(cc, TrimRight(cc, s)))
         == NonSpaceChars(cc, RemoveDisallowed(cc, s))
    decreases |s|
  {
    if |s| > 0 && cc.isSpace(s[|s| - 1]) {
      var init, last := s[..|s| - 1], [s[|s| - 1]];
      assert s == init + last;
      assert TrimRight(cc, s) == TrimRight(cc, init);
      TrimRightKeepsContent(cc, init);
      RemoveDisallowedConcat(cc, init, last);
      assert RemoveDisallowed(cc, last) == last;
      assert NonSpaceChars(cc, last) == [];
      NonSpaceConcat(cc, RemoveDisallowed(cc, init), last);
    }
  }

  /** Stripping removes only whitespace, so after deletion the non-whitespace content is unchanged. */
  lemma StripKeepsContent(cc: CharClasses, s: string)
    ensures NonSpaceChars(cc, RemoveDisallowed(cc, Strip(cc, s)))
         == NonSpaceChars(cc, RemoveDisallowed(cc, s))
  {
    TrimLeftKeepsContent(cc, s);
    TrimRightKeepsContent(cc, TrimLeft(cc, s));
  }

  lemma SliceAllowed(cc: CharClasses, s: string, lo: int, hi: int)
    requires AllAllowed(cc, s)
    requires 0 <= lo <= hi <= |s|
    ensures AllAllowed(cc, s[lo..hi])
  {
    forall i | 0 <= i < hi - lo ensures Allowed(cc, s[lo..hi][i]) {
      assert s[lo..hi][i] == s[lo + i];
    }
  }

  /** Stripping keeps only characters of the input. */
  lemma StripAllowed(cc: CharClasses, s: string)
    requires AllAllowed(cc, s)
    ensures AllAllowed(cc, Strip(cc, s))
  {
    var t := TrimLeft(cc, s);
    assert t == s[|s| - |t|..|s|];
    SliceAllowed(cc, s, |s| - |t|, |s|);
    var r := TrimRight(cc, t);
    assert r == t[0..|r|];
    SliceAllowed(cc, t, 0, |r|);
    assert Strip(cc, s) == r;
  }

  // ---------------------------------------------------------------------------
  // preprocess_text
  // ---------------------------------------------------------------------------

  /** No two consecutive spaces in the output. */
  lemma CleanNoDoubleSpace(cc: CharClasses, cell: Cell)
    requires cc.Valid()
    ensures NoDoubleSpace(PreprocessText(cc, cell))
  {
    if cell.Text? {
      CollapseNoDoubleSpace(cc, RemoveDisallowed(cc, Strip(cc, cell.text)));
    }
  }

  /**
    Two cleaned words separated by any run of whitespace come out joined by exactly one
    plain space: a tab or a newline between them is replaced, never deleted.
  */
  lemma PreprocessJoinsRunWithOneSpace(cc: CharClasses, a: string, w: string, b: string)
    requires a != [] && NoSpaceAtEnds(cc, a) && AllAllowed(cc, a)
    requires b != [] && NoSpaceAtEnds(cc, b) && AllAllowed(cc, b)
    requires w != [] && AllSpace(cc, w)
    ensures PreprocessText(cc, Text(a + w + b))
         == PreprocessText(cc, Text(a)) + " " + PreprocessText(cc, Text(b))
  {
    JoinedIsTrimmedAndAllowed(cc, a, w, b);
    CleanOfTrimmedAllowed(cc, a + w + b);
    CleanOfTrimmedAllowed(cc, a);
    CleanOfTrimmedAllowed(cc, b);
    CollapseRun(cc, a, w, b);
  }

  /** On trimmed text without disallowed characters, cleaning is just the run substitution. */
  lemma CleanOfTrimmedAllowed(cc: CharClasses, s: string)
    requires s != [] && NoSpaceAtEnds(cc, s) && AllAllowed(cc, s)
    ensures PreprocessText(cc, Text(s)) == Collapse(cc, s)
  {
    assert Strip(cc, s) == s;
    assert RemoveDisallowed(cc, s) == s;
  }

  lemma JoinedIsTrimmedAndAllowed(cc: CharClasses, a: string, w: string, b: string)
    requires a != [] && !cc.isSpace(a[0]) && AllAllowed(cc, a)
    requires b != [] && !cc.isSpace(b[|b| - 1]) && AllAllowed(cc, b)
    requires AllSpace(cc, w)
    ensures var s := a + w + b;
      s != [] && NoSpaceAtEnds(cc, s) && AllAllowed(cc, s)
  {
    var s := a + w + b;
    assert s[0] == a[0] && s[|s| - 1] == b[|b| - 1];
    forall i | 0 <= i < |s| ensures Allowed(cc, s[i]) {
      if i < |a| {
        assert s[i] == a[i];
      } else if i < |a| + |w| {
        assert s[i] == w[i - |a|];
      } else {
        assert s[i] == b[i - |a| - |w|];
      }
    }
  }

  /** No tab, newline or other whitespace besides the plain space survives. */
  lemma CleanHasNoOtherWhitespace(cc: CharClasses, cell: Cell)
    requires cc.Valid()
    ensures var r := PreprocessText(cc, cell);
      forall i :: 0 <= i < |r| ==> cc.isSpace(r[i]) ==> r[i] == ' '
    ensures '\n' !in PreprocessText(cc, cell) && '\t' !in PreprocessText(cc, cell)
  {
    var r := PreprocessText(cc, cell);
    assert forall i :: 0 <= i < |r| ==> CleanChar(cc, r[i]);
  }

  /**
    The content of the output: its non-whitespace characters are exactly the allowed
    non-whitespace characters of the input, in their original order.
  */
  lemma CleanKeepsAllowedContent(cc: CharClasses, s: string)
    requires cc.Valid()
    ensures NonSpaceChars(cc, PreprocessText(cc, Text(s)))
         == NonSpaceChars(cc, RemoveDisallowed(cc, s))
  {
    CollapseKeepsContent(cc, RemoveDisallowed(cc, Strip(cc, s)));
    StripKeepsContent(cc, s);
  }

  /** Collapsing allowed text without leading or trailing whitespace gives a canonical string. */
  lemma CollapseCanonical(cc: CharClasses, t: string)
    requires cc.Valid()
    requires AllAllowed(cc, t)
    requires NoSpaceAtEnds(cc, t)
    ensures Canonical(cc, Collapse(cc, t))
  {
    CollapseNoDoubleSpace(cc, t);
    if t != [] {
      CollapseHead(cc, t);
      CollapseLast(cc, t);
    }
  }

  /** Text made only of allowed characters comes out canonical. */
  lemma CleanOfAllowedIsCanonical(cc: CharClasses, s: string)
    requires cc.Valid()
    requires AllAllowed(cc, s)
    ensures Canonical(cc, PreprocessText(cc, Text(s)))
  {
    var t := Strip(cc, s);
    StripAllowed(cc, s);
    assert RemoveDisallowed(cc, t) == t;
    CollapseCanonical(cc, t);
  }

  /**
    The inputs returned unchanged are exactly the canonical strings: allowed characters,
    single plain spaces as the only whitespace, nothing leading or trailing.
  */
  lemma CleanFixedPointIff(cc: CharClasses, s: string)
    requires cc.Valid()
    ensures PreprocessText(cc, Text(s)) == s <==> Canonical(cc, s)
  {
    if Canonical(cc, s) {
      assert AllAllowed(cc, s) by {
        forall i | 0 <= i < |s| ensures Allowed(cc, s[i]) {
          assert CleanChar(cc, s[i]);
        }
      }
      if s != [] {
        assert !cc.isSpace(s[0]) && !cc.isSpace(s[|s| - 1]) by {
          assert CleanChar(cc, s[0]) && CleanChar(cc, s[|s| - 1]);
        }
      }
      assert Strip(cc, s) == s;
      assert RemoveDisallowed(cc, s) == s;
      assert forall i :: 0 <= i < |s| ==> cc.isSpace(s[i]) ==> s[i] == ' ' by {
        forall i | 0 <= i < |s| ensures cc.isSpace(s[i]) ==> s[i] == ' ' {
          assert CleanChar(cc, s[i]);
        }
      }
      CollapseFixed(cc, s);
    }
    if PreprocessText(cc, Text(s)) == s {
      assert AllAllowed(cc, s) by {
        forall i | 0 <= i < |s| ensures Allowed(cc, s[i]) {
          assert CleanChar(cc, s[i]);
        }
      }
      CleanOfAllowedIsCanonical(cc, s);
    }
  }

  /** On text with no disallowed character, cleaning is idempotent. */
  lemma CleanIdempotentOnAllowed(cc: CharClasses, s: string)
    requires cc.Valid()
    requires AllAllowed(cc, s)
    ensures PreprocessText(cc, Text(PreprocessText(cc, Text(s)))) == PreprocessText(cc, Text(s))
  {
    CleanOfAllowedIsCanonical(cc, s);
    CleanFixedPointIff(cc, PreprocessText(cc, Text(s)));
  }

  /** In general a second pass may still change the text, but a third pass never does. */
  lemma CleanThirdPassIsSecond(cc: CharClasses, s: string)
    requires cc.Valid()
    ensures var twice := PreprocessText(cc, Text(PreprocessText(cc, Text(s))));
      PreprocessText(cc, Text(twice)) == twice
  {
    var once := PreprocessText(cc, Text(s));
    assert AllAllowed(cc, once) by {
      forall i | 0 <= i < |once| ensures Allowed(cc, once[i]) {
        assert CleanChar(cc, once[i]);
      }
    }
    CleanIdempotentOnAllowed(cc, once);
  }

  /**
    Cleaning is not idempotent: stripping runs before deletion, so "@ a" becomes " a",
    and cleaning that again strips the space.
  */
  lemma CleanNotIdempotent(cc: CharClasses)
    requires cc.Valid()
    requires !Allowed(cc, '@') && cc.isWord('a') && !cc.isSpace('a')
    ensures PreprocessText(cc, Text("@ a")) == " a"
    ensures PreprocessText(cc, Text(" a")) == "a"
  {
    CleanAtSignExample(cc);
    CleanLeadingSpaceExample(cc);
  }

  lemma CleanAtSignExample(cc: CharClasses)
    requires cc.Valid()
    requires !Allowed(cc, '@') && cc.isWord('a') && !cc.isSpace('a')
    ensures PreprocessText(cc, Text("@ a")) == " a"
  {
    StripAtSignExample(cc);
    RemoveAtSignExample(cc);
    CollapseExample(cc);
  }

  lemma StripAtSignExample(cc: CharClasses)
    requires !cc.isSpace('@') && !cc.isSpace('a')
    ensures Strip(cc, "@ a") == "@ a"
  {
    var s := "@ a";
    assert !cc.isSpace(s[0]) && !cc.isSpace(s[|s| - 1]);
  }

  lemma RemoveAtSignExample(cc: CharClasses)
    requires cc.Valid()
    requires !Allowed(cc, '@') && cc.isWord('a')
    ensures RemoveDisallowed(cc, "@ a") == " a"
  {
    var s := "@ a";
    assert s[1..] == " a";
    assert RemoveDisallowed(cc, " a") == " a" by {
      assert AllAllowed(cc, " a");
    }
  }

  lemma CollapseExample(cc: CharClasses)
    requires cc.Valid()
    requires !cc.isSpace('a')
    ensures Collapse(cc, " a") == " a"
  {
    var u, v := " a", "a";
    assert u[0] == ' ' && u[1..] == v;
    assert v[0] == 'a' && v[1..] == [];
    assert TrimLeft(cc, v) == v;
    assert Collapse(cc, []) == [];
    assert Collapse(cc, v) == [v[0]] + Collapse(cc, v[1..]);
    assert Collapse(cc, v) == v;
    assert Collapse(cc, u) == [' '] + Collapse(cc, TrimLeft(cc, u[1..]));
  }

  lemma CleanLeadingSpaceExample(cc: CharClasses)
    requires cc.Valid()
    requires cc.isWord('a') && !cc.isSpace('a')
    ensures PreprocessText(cc, Text(" a")) == "a"
  {
    var u := " a";
    assert Strip(cc, u) == "a" by {
      assert u[1..] == "a";
      assert TrimLeft(cc, u) == "a";
    }
    assert RemoveDisallowed(cc, "a") == "a";
    assert Collapse(cc, "a") == "a";
  }
}
