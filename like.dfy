/**
 * PostgreSQL's LIKE and ILIKE pattern matching, as the device search uses it:
 * '%' matches any run of characters, '_' any single character, and a
 * backslash (the default escape character) makes the next character literal.
 * ILIKE compares after folding case; the fold modelled is ASCII only.
 */
module Like {

  function Lower(c: char): char {
    if 'A' <= c <= 'Z' then ((c as int) + 32) as char else c
  }

  function LowerStr(s: string): (r: string)
    ensures |r| == |s|
    ensures forall i :: 0 <= i < |s| ==> r[i] == Lower(s[i])
  {
    seq(|s|, i requires 0 <= i < |s| => Lower(s[i]))
  }

  predicate IsPatternChar(c: char) {
    c == '%' || c == '_' || c == '\\'
  }

  /** q has no character LIKE would read as a wildcard or an escape. */
  predicate Literal(q: string) {
    forall i :: 0 <= i < |q| ==> !IsPatternChar(q[i])
  }

  /** s LIKE p. A pattern that ends in a lone escape matches nothing. */
  predicate Matches(s: string, p: string)
    decreases |p|, |s|
  {
    if p == [] then s == []
    else if p[0] == '%' then Matches(s, p[1..]) || (s != [] && Matches(s[1..], p))
    else if p[0] == '_' then s != [] && Matches(s[1..], p[1..])
    else if p[0] == '\\' then |p| > 1 && s != [] && s[0] == p[1] && Matches(s[1..], p[2..])
    else s != [] && s[0] == p[0] && Matches(s[1..], p[1..])
  }

  /** s ILIKE p. */
  predicate ILike(s: string, p: string) {
    Matches(LowerStr(s), LowerStr(p))
  }

  /** q occurs in s starting at position k. */
  predicate OccursAt(s: string, q: string, k: int) {
    0 <= k <= |s| - |q| && s[k..k + |q|] == q
  }

  /** q occurs in s as a contiguous piece. */
  predicate Contains(s: string, q: string) {
    exists k :: 0 <= k <= |s| && OccursAt(s, q, k)
  }

  /** A lone '%' matches every string. */
  lemma {:induction false} PercentMatchesAll(s: string)
    ensures Matches(s, "%")
    decreases |s|
  {
    if s != [] {
      PercentMatchesAll(s[1..]);
    }
  }

  /** q followed by '%' matches exactly the strings that start with q. */
  lemma {:induction false} PrefixPattern(s: string, q: string)
    requires Literal(q)
    ensures Matches(s, q + "%") <==> |q| <= |s| && s[..|q|] == q
    decreases |q|
  {
    if q == [] {
      assert q + "%" == "%";
      PercentMatchesAll(s);
    } else {
      assert (q + "%")[1..] == q[1..] + "%";
      if s != [] {
        assert Literal(q[1..]) by {
          forall i | 0 <= i < |q[1..]| ensures !IsPatternChar(q[1..][i]) {
            assert q[1..][i] == q[i + 1];
          }
        }
        PrefixPattern(s[1..], q[1..]);
        if |q| <= |s| {
          assert s[..|q|] == [s[0]] + s[1..][..|q| - 1];
          assert q == [q[0]] + q[1..];
        }
      }
    }
  }

  /** '%' followed by p matches s exactly when p matches some suffix of s. */
  lemma {:induction false} LeadingPercent(s: string, p: string)
    ensures Matches(s, "%" + p) <==> exists k :: 0 <= k <= |s| && Matches(s[k..], p)
    decreases |s|
  {
    assert ("%" + p)[1..] == p;
    if s == [] {
      if Matches(s, "%" + p) {
        assert s[0..] == s;
      }
    } else {
      LeadingPercent(s[1..], p);
      if Matches(s, "%" + p) {
        if !Matches(s, p) {
          var k :| 0 <= k <= |s[1..]| && Matches(s[1..][k..], p);
          assert s[k + 1..] == s[1..][k..];
        } else {
          assert s[0..] == s;
        }
      }
      if exists k :: 0 <= k <= |s| && Matches(s[k..], p) {
        var k :| 0 <= k <= |s| && Matches(s[k..], p);
        if k > 0 {
          assert s[1..][k - 1..] == s[k..];
        } else {
          assert s[0..] == s;
        }
      }
    }
  }

  /** For a literal search term q, s LIKE '%q%' is substring containment. */
  lemma SubstringPattern(s: string, q: string)
    requires Literal(q)
    ensures Matches(s, "%" + q + "%") <==> Contains(s, q)
  {
    assert "%" + q + "%" == "%" + (q + "%");
    LeadingPercent(s, q + "%");
    if Matches(s, "%" + q + "%") {
      var k :| 0 <= k <= |s| && Matches(s[k..], q + "%");
      PrefixPattern(s[k..], q);
      assert s[k..][..|q|] == s[k..k + |q|];
      assert OccursAt(s, q, k);
    }
    if Contains(s, q) {
      var k :| 0 <= k <= |s| && OccursAt(s, q, k);
      PrefixPattern(s[k..], q);
      assert s[k..][..|q|] == s[k..k + |q|];
    }
  }

  /** Case folding leaves the pattern characters alone. */
  lemma LowerKeepsLiteral(q: string)
    requires Literal(q)
    ensures Literal(LowerStr(q))
  {
  }

  /**
   * For a literal search term q, s ILIKE '%q%' is case-insensitive
   * substring containment.
   */
  lemma SubstringPatternIgnoringCase(s: string, q: string)
    requires Literal(q)
    ensures ILike(s, "%" + q + "%") <==> Contains(LowerStr(s), LowerStr(q))
  {
    assert LowerStr("%" + q + "%") == "%" + LowerStr(q) + "%";
    LowerKeepsLiteral(q);
    SubstringPattern(LowerStr(s), LowerStr(q));
  }

  /** A search term "_" is a wildcard: it finds every non-empty string. */
  lemma UnderscoreFindsAnyNonEmpty(s: string)
    requires s != []
    ensures ILike(s, "%" + "_" + "%")
  {
    var t := LowerStr(s);
    assert LowerStr("%" + "_" + "%") == "%_%";
    PercentMatchesAll(t[1..]);
    assert Matches(t[1..], "%");
    assert "%_%"[1..] == "_%";
    assert Matches(t, "_%");
  }
}
