/** String search as JavaScript's `String.prototype.includes` performs it: case-sensitive,
    character by character. */
module Text {

  /** `p` occurs in `s` starting at index `i`. */
  ghost predicate OccursAt(s: string, p: string, i: int)
  {
    0 <= i && i + |p| <= |s| && s[i..i + |p|] == p
  }

  /** `s.includes(p)`: tries every start position from the left. */
  predicate Includes(s: string, p: string)
    decreases |s|
  {
    if |p| > |s| then false
    else s[..|p|] == p || (|s| > 0 && Includes(s[1..], p))
  }

  /** `Includes` agrees with the declarative definition: some occurrence exists. */
  lemma {:induction false} IncludesIff(s: string, p: string)
    ensures Includes(s, p) <==> exists i :: OccursAt(s, p, i)
    decreases |s|
  {
    if |p| > |s| {
    } else if s[..|p|] == p {
      assert OccursAt(s, p, 0);
    } else if |s| > 0 {
      IncludesIff(s[1..], p);
      if Includes(s[1..], p) {
        var i :| OccursAt(s[1..], p, i);
        assert s[1..][i..i + |p|] == s[i + 1..i + 1 + |p|];
        assert OccursAt(s, p, i + 1);
      }
      forall i | OccursAt(s, p, i) && i > 0 ensures OccursAt(s[1..], p, i - 1) {
        assert s[1..][i - 1..i - 1 + |p|] == s[i..i + |p|];
      }
    }
  }

  /** Every string includes itself. */
  lemma IncludesSelf(s: string)
    ensures Includes(s, s)
  {
    assert s[..|s|] == s;
  }

  /** The empty string includes no non-empty pattern. */
  lemma EmptyIncludesNothing(p: string)
    requires p != ""
    ensures !Includes("", p)
  {
  }

  /** If `m` includes `p`, and `p` includes `q`, then `m` includes `q`. */
  lemma IncludesTransitive(m: string, p: string, q: string)
    requires Includes(m, p) && Includes(p, q)
    ensures Includes(m, q)
  {
    IncludesIff(m, p);
    IncludesIff(p, q);
    var i :| OccursAt(m, p, i);
    var j :| OccursAt(p, q, j);
    assert forall k | 0 <= k < |q| :: q[k] == p[j + k] == m[i + j + k];
    assert m[i + j..i + j + |q|] == q;
    assert OccursAt(m, q, i + j);
    IncludesIff(m, q);
  }

  /** A string built around `p` includes `p`. */
  lemma IncludesMiddle(a: string, p: string, b: string)
    ensures Includes(a + p + b, p)
  {
    assert (a + p + b)[|a|..|a| + |p|] == p;
    assert OccursAt(a + p + b, p, |a|);
    IncludesIff(a + p + b, p);
  }

  /** A string that lacks the first character of a non-empty pattern does not include it. */
  lemma FirstCharAbsent(s: string, p: string)
    requires p != [] && p[0] !in s
    ensures !Includes(s, p)
  {
    IncludesIff(s, p);
  }

  /** Text added on either side keeps an occurrence. */
  lemma IncludesExtend(a: string, s: string, b: string, p: string)
    requires Includes(s, p)
    ensures Includes(a + s, p) && Includes(s + b, p)
  {
    IncludesIff(s, p);
    var i :| OccursAt(s, p, i);
    assert (a + s)[|a| + i..|a| + i + |p|] == s[i..i + |p|];
    assert OccursAt(a + s, p, |a| + i);
    assert (s + b)[i..i + |p|] == s[i..i + |p|];
    assert OccursAt(s + b, p, i);
    IncludesIff(a + s, p);
    IncludesIff(s + b, p);
  }
}
