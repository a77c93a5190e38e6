/**
 * Tokens separated by spaces inside a line of text: what trimming and
 * whitespace collapsing keep of a token that has no whitespace of its own.
 */
module Tokens {
  import opened Strings


  /** A token without whitespace. */
  predicate Solid(t: string) {
    t != [] && forall i :: 0 <= i < |t| ==> !IsWhitespace(t[i])
  }

  /** A token that starts at `i` and ends at `i + |t|`, with a space or the text's end on either side. */
  predicate StandsAlone(s: string, i: nat, t: string) {
    && i + |t| <= |s| && s[i..i + |t|] == t
    && (i == 0 || s[i - 1] == ' ')
    && (i + |t| == |s| || s[i + |t|] == ' ')
  }

  /** A slice holding `a + b` holds `a` and then `b`. */
  lemma SliceSplit(s: string, i: nat, a: string, b: string)
    requires i + |a| + |b| <= |s| && s[i..i + |a| + |b|] == a + b
    ensures s[i..i + |a|] == a && s[i + |a|..i + |a| + |b|] == b
  {
    assert s[i..i + |a|] == s[i..i + |a| + |b|][..|a|];
    assert s[i + |a|..i + |a| + |b|] == s[i..i + |a| + |b|][|a|..];
  }

  lemma {:induction false} CollapseSolid(t: string)
    requires forall i :: 0 <= i < |t| ==> !IsWhitespace(t[i])
    ensures CollapseWhitespace(t) == t
  {
    if t != [] {
      CollapseSolid(t[1..]);
    }
  }

  lemma TrimIsBothEnds(x: string)
    ensures Trim(x) == TrimEnd(TrimStart(x))
  {
  }

  lemma TrimStartBeforeToken(a: string, t: string, b: string)
    requires t != [] && !IsWhitespace(t[0])
    ensures TrimStart(a + t + b) == TrimStart(a) + t + b
  {
    ConcatAssociative(a, t, b);
    TrimStartAppend(a, t + b);
    ConcatAssociative(TrimStart(a), t, b);
  }

  /** Trimming around a solid token keeps it whole. */
  lemma TrimAround(a: string, t: string, b: string)
    requires Solid(t)
    ensures Trim(a + t + b) == TrimStart(a) + t + TrimEnd(b)
  {
    TrimIsBothEnds(a + t + b);
    TrimStartBeforeToken(a, t, b);
    LastOfConcat(TrimStart(a), t);
    TrimEndPrepend(TrimStart(a) + t, b);
  }

  /** What is left of text that ends with a space still ends with one. */
  lemma TrimStartKeepsLast(a: string)
    requires a == [] || a[|a| - 1] == ' '
    ensures TrimStart(a) == [] || TrimStart(a)[|TrimStart(a)| - 1] == ' '
  {
    var a' := TrimStart(a);
    TrimStartSuffix(a);
    if a' != [] {
      assert a' == a[|a| - |a'|..];
      assert a'[|a'| - 1] == a[|a| - 1];
    }
  }

  /** What is left of text that starts with a space still starts with one. */
  lemma TrimEndKeepsFirst(b: string)
    requires b == [] || b[0] == ' '
    ensures TrimEnd(b) == [] || TrimEnd(b)[0] == ' '
  {
  }

  /** The trimmed neighbours still end and start with a space. */
  lemma TrimmedNeighbours(a: string, t: string, b: string)
    requires a == [] || a[|a| - 1] == ' '
    requires b == [] || b[0] == ' '
    ensures StandsAlone(TrimStart(a) + t + TrimEnd(b), |TrimStart(a)|, t)
  {
    TrimStartKeepsLast(a);
    TrimEndKeepsFirst(b);
    SpacedToken(TrimStart(a), t, TrimEnd(b));
  }

  /** Collapsing after a solid token: the token, then the collapsed rest. */
  lemma CollapseTokenThen(t: string, r: string)
    requires Solid(t)
    ensures CollapseWhitespace(t + r) == t + CollapseWhitespace(r)
  {
    CollapseAppendAfterWord(t, r);
    CollapseSolid(t);
  }

  lemma SpacedToken(a: string, t: string, b: string)
    requires a == [] || a[|a| - 1] == ' '
    requires b == [] || b[0] == ' '
    ensures StandsAlone(a + t + b, |a|, t)
  {
    var f := a + t + b;
    assert f[|a|..|a| + |t|] == t;
    if a != [] {
      assert f[|a| - 1] == a[|a| - 1];
    }
    if b != [] {
      assert f[|a| + |t|] == b[0];
    }
  }

  lemma SpaceBeforeToken(t: string, r: string)
    requires Solid(t)
    ensures CollapseWhitespace(" " + (t + r)) == " " + t + CollapseWhitespace(r)
  {
    CollapseWhitespaceHead(" ", t + r);
    assert TrimStart(" ") == [];
    assert TrimStart(" ") + (t + r) == t + r;
    CollapseTokenThen(t, r);
    ConcatAssociative(" ", t, CollapseWhitespace(r));
  }

  /** A word, a space and a solid token: collapsing keeps the token after one space. */
  lemma CollapseWordSpaceToken(w: string, t: string, r: string)
    requires w != [] && !IsWhitespace(w[|w| - 1])
    requires Solid(t)
    ensures CollapseWhitespace(w + (" " + (t + r))) == (CollapseWhitespace(w) + " ") + t + CollapseWhitespace(r)
  {
    CollapseAppendAfterWord(w, " " + (t + r));
    SpaceBeforeToken(t, r);
    ConcatAssociative(CollapseWhitespace(w), " " + t, CollapseWhitespace(r));
    ConcatAssociative(CollapseWhitespace(w), " ", t);
  }

  /** Collapsing text that starts with a space starts with a space. */
  lemma CollapseKeepsSpace(r: string)
    requires r == [] || r[0] == ' '
    ensures CollapseWhitespace(r) == [] || CollapseWhitespace(r)[0] == ' '
  {
  }

  /**
   * A solid token between a trimmed word and text that starts with a space:
   * after collapsing and trimming it stands alone.
   */
  lemma TokenAfterWord(w: string, t: string, r: string)
    requires w != [] && !IsWhitespace(w[|w| - 1])
    requires Solid(t)
    requires r == [] || r[0] == ' '
    ensures StandsAlone(Trim(CollapseWhitespace(w + (" " + (t + r)))), |TrimStart(CollapseWhitespace(w) + " ")|, t)
  {
    var a, b := CollapseWhitespace(w) + " ", CollapseWhitespace(r);
    CollapseWordSpaceToken(w, t, r);
    CollapseKeepsSpace(r);
    TrimAround(a, t, b);
    TrimmedNeighbours(a, t, b);
  }

  /** A solid token that starts the text, followed by text that starts with a space. */
  lemma TokenFirst(t: string, r: string)
    requires Solid(t)
    requires r == [] || r[0] == ' '
    ensures StandsAlone(Trim(CollapseWhitespace(t + r)), 0, t)
  {
    var b := CollapseWhitespace(r);
    CollapseTokenThen(t, r);
    CollapseKeepsSpace(r);
    EmptyBefore(t, b);
    TrimAround([], t, b);
    TrimmedNeighbours([], t, b);
  }

  lemma EmptyBefore(t: string, b: string)
    ensures t + b == [] + t + b && TrimStart([]) == []
  {
  }
}
