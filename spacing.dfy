/** The whitespace clean-up at the end of `Query::build`:
    `trim(str_replace(['   ', '  '], ' ', $query))`. PHP applies the two replacements one
    after the other, each over the whole text, so a run of spaces is not always collapsed
    to one: a run of five spaces becomes three after the first pass and two after the
    second. */
module Spacing {
  import opened Text

  /** `k` spaces. */
  function Spaces(k: nat): (s: string)
    ensures |s| == k
    ensures forall i :: 0 <= i < k ==> s[i] == ' '
  {
    seq(k, _ => ' ')
  }

  predicate AllSpaces(gap: string)
  {
    forall i :: 0 <= i < |gap| ==> gap[i] == ' '
  }

  /** `str_replace(['   ', '  '], ' ', raw)`: two whole-text passes, one per needle. */
  function Squeeze(raw: string): string
  {
    ReplaceAll(ReplaceAll(raw, "   ", " "), "  ", " ")
  }

  /** `trim(str_replace(['   ', '  '], ' ', raw))`. */
  function Normalize(raw: string): string
  {
    Trim(Squeeze(raw))
  }

  /** The length a run of `k` spaces has after one pass that replaces `n` spaces by one. */
  function Shrink(k: nat, n: nat): nat
    requires n > 0
    decreases k
  {
    if k < n then k else 1 + Shrink(k - n, n)
  }

  /** The length a run of `k` spaces, between two non-blank characters, has after the
      clean-up. */
  function Collapse(k: nat): nat
  {
    Shrink(Shrink(k, 3), 2)
  }

  predicate NoDoubleSpace(w: string)
  {
    forall i :: 0 <= i < |w| - 1 ==> !(w[i] == ' ' && w[i + 1] == ' ')
  }

  /** A fragment that the clean-up leaves alone: non-empty, no blank at either end and no
      two adjacent spaces inside. */
  predicate Clean(w: string)
  {
    |w| > 0 && w[0] !in Blank && w[|w| - 1] !in Blank && NoDoubleSpace(w)
  }

  // ---------------------------------------------------------------------------
  // What the clean-up does

  /** A run of spaces after a clean fragment shrinks to `Collapse` of its length, whatever
      comes after it, as long as that starts with a non-space. */
  lemma SqueezeStep(w: string, gap: string, t: string)
    requires Clean(w) && AllSpaces(gap) && |t| > 0 && t[0] != ' '
    ensures Squeeze(w + gap + t) == w + Spaces(Collapse(|gap|)) + Squeeze(t)
  {
    var t1 := ReplaceAll(t, "   ", " ");
    var m := Shrink(|gap|, 3);
    SpaceNeedles();
    ReplaceAllFront(t, "   ", " ");
    calc {
      ReplaceAll(w + gap + t, Spaces(3), " ");
    == { Assoc(w, gap, t); }
      ReplaceAll(w + (gap + t), Spaces(3), " ");
    == { PiecePass(w, gap + t, 3); }
      w + ReplaceAll(gap + t, Spaces(3), " ");
    == { assert gap == Spaces(|gap|); GapPass(|gap|, t, 3); }
      w + (Spaces(m) + t1);
    }
    calc {
      ReplaceAll(w + (Spaces(m) + t1), Spaces(2), " ");
    == { PiecePass(w, Spaces(m) + t1, 2); }
      w + ReplaceAll(Spaces(m) + t1, Spaces(2), " ");
    == { GapPass(m, t1, 2); }
      w + (Spaces(Collapse(|gap|)) + Squeeze(t));
    == { Assoc(w, Spaces(Collapse(|gap|)), Squeeze(t)); }
      w + Spaces(Collapse(|gap|)) + Squeeze(t);
    }
  }

  /** The two needles of the clean-up, as runs of spaces. */
  lemma SpaceNeedles()
    ensures Spaces(3) == "   " && Spaces(2) == "  "
  {
  }

  /** One more space in front of a run. */
  lemma SpacesCons(m: nat)
    ensures " " + Spaces(m) == Spaces(m + 1)
  {
  }

  /** A trailing run of spaces after a clean fragment shrinks to `Collapse` of its length. */
  lemma SqueezeLast(w: string, gap: string)
    requires Clean(w) && AllSpaces(gap)
    ensures Squeeze(w + gap) == w + Spaces(Collapse(|gap|))
  {
    assert gap == Spaces(|gap|);
    assert Spaces(3) == "   " && Spaces(2) == "  ";
    PiecePass(w, gap, 3);
    SpacesPass(|gap|, 3);
    var m := Shrink(|gap|, 3);
    PiecePass(w, Spaces(m), 2);
    SpacesPass(m, 2);
  }

  /** `SqueezeStep` inside a text already cleaned up to `p`. */
  lemma SqueezeStepAfter(p: string, w: string, gap: string, t: string)
    requires Clean(w) && AllSpaces(gap) && |t| > 0 && t[0] != ' '
    ensures p + Squeeze(w + gap + t) == p + w + Spaces(Collapse(|gap|)) + Squeeze(t)
  {
    SqueezeStep(w, gap, t);
  }

  /** A run of one to four spaces after a clean fragment, inside a text already cleaned
      up to `p`, becomes one space. */
  lemma SqueezeSingle(p: string, w: string, gap: string, t: string)
    requires Clean(w) && AllSpaces(gap) && 1 <= |gap| <= 4 && |t| > 0 && t[0] != ' '
    ensures p + Squeeze(w + gap + t) == p + w + " " + Squeeze(t)
  {
    SqueezeStepAfter(p, w, gap, t);
    CollapseShortRuns(|gap|);
    assert Spaces(1) == " ";
  }

  /** The same for a run at the end of the text. */
  lemma SqueezeSingleLast(p: string, w: string, gap: string)
    requires Clean(w) && AllSpaces(gap) && 1 <= |gap| <= 4
    ensures p + Squeeze(w + gap) == p + w + " "
  {
    SqueezeLast(w, gap);
    CollapseShortRuns(|gap|);
    assert Spaces(1) == " ";
  }

  /** A clean fragment passes through both replacement passes unchanged. */
  lemma SqueezeClean(w: string)
    requires Clean(w)
    ensures Squeeze(w) == w
  {
    SqueezeLast(w, "");
    assert w + "" == w;
  }

  /** Trim removes a trailing run of spaces, and nothing else, from a text with non-blank
      ends. */
  lemma TrimTrailing(x: string, k: nat)
    requires |x| > 0 && x[0] !in Blank && x[|x| - 1] !in Blank
    ensures Trim(x + Spaces(k)) == x
  {
    RTrimSuffix(x, Spaces(k), Blank);
    assert LTrim(x + Spaces(k), Blank) == x + Spaces(k);
  }

  /** Runs of one to four spaces become one space. */
  lemma CollapseShortRuns(k: nat)
    requires 1 <= k <= 4
    ensures Collapse(k) == 1
  {
  }

  /** A run of five spaces becomes two: the clean-up is not a full collapse. */
  lemma FiveSpacesLeaveTwo(a: string, b: string)
    requires Clean(a) && Clean(b)
    ensures Normalize(a + "     " + b) == a + "  " + b
  {
    SqueezeStep(a, "     ", b);
    SqueezeClean(b);
    assert Collapse(5) == 2;
    assert Spaces(2) == "  ";
    TrimClean(a + "  " + b);
  }

  /** A clean text is its own normal form. */
  lemma NormalizeClean(w: string)
    requires Clean(w)
    ensures Normalize(w) == w
  {
    SqueezeClean(w);
    TrimClean(w);
  }

  /** The clean-up neither adds nor removes `?` placeholders. */
  lemma NormalizeCount(raw: string)
    ensures Count(Normalize(raw), '?') == Count(raw, '?')
  {
    assert Spaces(3) == "   ";
    assert Spaces(2) == "  ";
    assert Spaces(1) == " ";
    CountNone(Spaces(3), '?');
    CountNone(Spaces(2), '?');
    CountNone(Spaces(1), '?');
    var p1 := ReplaceAll(raw, "   ", " ");
    CountReplaceAll(raw, "   ", " ", '?');
    CountReplaceAll(p1, "  ", " ", '?');
    TrimCount(ReplaceAll(p1, "  ", " "), '?');
  }

  // ---------------------------------------------------------------------------
  // Building clean fragments

  lemma CleanWord(w: string)
    requires |w| > 0 && ' ' !in w && w[0] !in Blank && w[|w| - 1] !in Blank
    ensures Clean(w)
  {
  }

  /** Two clean fragments joined by one space form a clean fragment. */
  lemma CleanJoin(a: string, b: string)
    requires Clean(a) && Clean(b)
    ensures Clean(a + " " + b)
  {
    var s := a + " " + b;
    forall i | 0 <= i < |s| - 1
      ensures !(s[i] == ' ' && s[i + 1] == ' ')
    {
      if i < |a| - 1 {
        assert s[i] == a[i] && s[i + 1] == a[i + 1];
      } else if i == |a| - 1 {
        assert s[i] == a[|a| - 1];
      } else if i == |a| {
        assert s[i + 1] == b[0];
      } else {
        assert s[i] == b[i - |a| - 1] && s[i + 1] == b[i - |a|];
      }
    }
  }

  /** A keyword prefix such as `FROM ` keeps a clean fragment clean. */
  lemma CleanPrefix(k: string, t: string)
    requires |k| > 0 && k[0] !in Blank && NoDoubleSpace(k) && Clean(t)
    ensures Clean(k + t)
  {
    var s := k + t;
    forall i | 0 <= i < |s| - 1
      ensures !(s[i] == ' ' && s[i + 1] == ' ')
    {
      if i < |k| - 1 {
        assert s[i] == k[i] && s[i + 1] == k[i + 1];
      } else if i == |k| - 1 {
        assert s[i + 1] == t[0];
      } else {
        assert s[i] == t[i - |k|] && s[i + 1] == t[i - |k| + 1];
      }
    }
  }

  /** Two clean fragments glued by a keyword padded with single spaces, such as
      ` WHERE `, form a clean fragment. */
  lemma CleanGlue(a: string, m: string, b: string)
    requires Clean(a) && Clean(b) && |m| > 0 && NoDoubleSpace(m)
    ensures Clean(a + m + b)
  {
    var s := a + m;
    forall i | 0 <= i < |s| - 1
      ensures !(s[i] == ' ' && s[i + 1] == ' ')
    {
      if i < |a| - 1 {
        assert s[i] == a[i] && s[i + 1] == a[i + 1];
      } else if i == |a| - 1 {
        assert s[i] == a[|a| - 1];
      } else {
        assert s[i] == m[i - |a|] && s[i + 1] == m[i - |a| + 1];
      }
    }
    assert s[0] == a[0];
    CleanPrefix(s, b);
  }

  // ---------------------------------------------------------------------------
  // One replacement pass

  lemma {:induction false} SpacesPass(k: nat, n: nat)
    requires n > 0
    ensures ReplaceAll(Spaces(k), Spaces(n), " ") == Spaces(Shrink(k, n))
    decreases k
  {
    if k >= n {
      assert Spaces(k)[..n] == Spaces(n);
      assert Spaces(k)[n..] == Spaces(k - n);
      SpacesPass(k - n, n);
      assert " " + Spaces(Shrink(k - n, n)) == Spaces(Shrink(k, n));
    }
  }

  lemma {:induction false} NoDoubleSpaceNoRun(w: string, n: nat)
    requires NoDoubleSpace(w) && n >= 2
    ensures !Contains(w, Spaces(n))
    decreases |w|
  {
    if |w| >= n {
      if w[0] != ' ' {
        assert w[..n][0] != Spaces(n)[0];
      } else {
        assert w[..n][1] != Spaces(n)[1];
      }
      assert NoDoubleSpace(w[1..]) by {
        forall i | 0 <= i < |w[1..]| - 1
          ensures !(w[1..][i] == ' ' && w[1..][i + 1] == ' ')
        {
          assert w[1..][i] == w[i + 1] && w[1..][i + 1] == w[i + 2];
        }
      }
      NoDoubleSpaceNoRun(w[1..], n);
    }
  }

  /** A run of spaces followed by a non-space: the run shrinks on its own. */
  lemma {:induction false} GapPass(g: nat, b: string, n: nat)
    requires n > 0 && |b| > 0 && b[0] != ' '
    ensures ReplaceAll(Spaces(g) + b, Spaces(n), " ")
         == Spaces(Shrink(g, n)) + ReplaceAll(b, Spaces(n), " ")
    decreases g
  {
    if g == 0 {
      NoGap(b, n);
    } else if g >= n {
      GapPass(g - n, b, n);
      GapPassMatch(g, b, n);
    } else {
      GapPass(g - 1, b, n);
      GapPassShort(g, b, n);
    }
  }

  lemma NoGap(b: string, n: nat)
    requires n > 0
    ensures ReplaceAll(Spaces(0) + b, Spaces(n), " ") == Spaces(Shrink(0, n)) + ReplaceAll(b, Spaces(n), " ")
  {
    assert Spaces(0) + b == b;
  }

  /** The step of `GapPass` where the run still holds a whole needle. */
  lemma GapPassMatch(g: nat, b: string, n: nat)
    requires n > 0 && g >= n
    requires ReplaceAll(Spaces(g - n) + b, Spaces(n), " ")
          == Spaces(Shrink(g - n, n)) + ReplaceAll(b, Spaces(n), " ")
    ensures ReplaceAll(Spaces(g) + b, Spaces(n), " ")
         == Spaces(Shrink(g, n)) + ReplaceAll(b, Spaces(n), " ")
  {
    var m := Shrink(g - n, n);
    GapMatch(g, b, n);
    Assoc(" ", Spaces(m), ReplaceAll(b, Spaces(n), " "));
    SpacesCons(m);
  }

  /** The step of `GapPass` where the run is shorter than the needle. */
  lemma GapPassShort(g: nat, b: string, n: nat)
    requires 0 < g < n && |b| > 0 && b[0] != ' '
    requires ReplaceAll(Spaces(g - 1) + b, Spaces(n), " ")
          == Spaces(Shrink(g - 1, n)) + ReplaceAll(b, Spaces(n), " ")
    ensures ReplaceAll(Spaces(g) + b, Spaces(n), " ")
         == Spaces(Shrink(g, n)) + ReplaceAll(b, Spaces(n), " ")
  {
    GapNoMatch(g, b, n);
    Assoc(" ", Spaces(g - 1), ReplaceAll(b, Spaces(n), " "));
    SpacesCons(g - 1);
  }

  lemma GapMatch(g: nat, b: string, n: nat)
    requires n > 0 && g >= n
    ensures ReplaceAll(Spaces(g) + b, Spaces(n), " ")
         == " " + ReplaceAll(Spaces(g - n) + b, Spaces(n), " ")
  {
    var s := Spaces(g) + b;
    assert s[..n] == Spaces(n);
    assert s[n..] == Spaces(g - n) + b;
  }

  lemma GapNoMatch(g: nat, b: string, n: nat)
    requires 0 < g < n && |b| > 0 && b[0] != ' '
    ensures ReplaceAll(Spaces(g) + b, Spaces(n), " ")
         == " " + ReplaceAll(Spaces(g - 1) + b, Spaces(n), " ")
  {
    var s := Spaces(g) + b;
    var d := Spaces(n);
    assert s[1..] == Spaces(g - 1) + b;
    if |s| >= n {
      assert s[..n][g] != d[g];
    }
  }

  /** A clean fragment passes through a replacement pass unchanged and stops the pass
      from reaching across it. */
  lemma PiecePass(w: string, t: string, n: nat)
    requires Clean(w) && n >= 2
    ensures ReplaceAll(w + t, Spaces(n), " ") == w + ReplaceAll(t, Spaces(n), " ")
  {
    var d := Spaces(n);
    assert w[|w| - 1] != ' ';
    NoDoubleSpaceNoRun(w, n);
    ReplaceAllAbsent(w, d, " ");
    ReplaceAllConcat(w, t, d, " ");
  }

  /** A first character that does not start the needle stays first. */
  lemma ReplaceAllFront(t: string, d: string, r: string)
    requires |d| > 0 && |t| > 0 && t[0] != d[0]
    ensures |ReplaceAll(t, d, r)| > 0 && ReplaceAll(t, d, r)[0] == t[0]
  {
    if |t| >= |d| {
      assert t[..|d|][0] != d[0];
    }
  }
}
