/** Text written to standard output: infix search, line joining and the
    facts about them that the dispatcher's properties rest on. */
module Text {

  /** `sub` occurs somewhere in `s` as a contiguous run of characters. */
  ghost predicate Contains(s: string, sub: string) {
    exists i :: OccursAt(s, sub, i)
  }

  /** `sub` occurs in `s` starting at index `i`. */
  predicate OccursAt(s: string, sub: string, i: int) {
    0 <= i && i + |sub| <= |s| && s[i..i + |sub|] == sub
  }

  /** `s` begins with `prefix`. */
  predicate StartsWith(s: string, prefix: string) {
    |prefix| <= |s| && s[..|prefix|] == prefix
  }

  /** `s` finishes with `suffix`. */
  predicate EndsWith(s: string, suffix: string) {
    |suffix| <= |s| && s[|s| - |suffix|..] == suffix
  }

  /** Each string in `ls` followed by a newline, in order: the text of one
      `print` per element, or the body of a multi-line literal. */
  function Unlines(ls: seq<string>): string {
    if ls == [] then "" else ls[0] + "\n" + Unlines(ls[1..])
  }

  /** An occurrence checked one character at a time. */
  lemma OccursAtEach(s: string, sub: string, i: int)
    requires 0 <= i && i + |sub| <= |s|
    requires forall k :: 0 <= k < |sub| ==> s[i + k] == sub[k]
    ensures OccursAt(s, sub, i) && Contains(s, sub)
  {
    assert s[i..i + |sub|] == sub;
    assert OccursAt(s, sub, i);
  }

  /** The text before a join occurs in the result. */
  lemma ContainsLeft(a: string, b: string)
    ensures Contains(a + b, a)
  {
    assert (a + b)[..|a|] == a;
    assert OccursAt(a + b, a, 0);
  }

  /** Text found before a join is still found after it. */
  lemma ContainsLeftOf(a: string, b: string, sub: string)
    requires Contains(a, sub)
    ensures Contains(a + b, sub)
  {
    var i :| OccursAt(a, sub, i);
    assert (a + b)[i..i + |sub|] == a[i..i + |sub|];
    assert OccursAt(a + b, sub, i);
  }

  /** Text found after a join is still found, shifted by what precedes it. */
  lemma ContainsRightOf(a: string, b: string, sub: string)
    requires Contains(b, sub)
    ensures Contains(a + b, sub)
  {
    var i :| OccursAt(b, sub, i);
    assert (a + b)[|a| + i..|a| + i + |sub|] == b[i..i + |sub|];
    assert OccursAt(a + b, sub, |a| + i);
  }

  /** Containment is transitive. */
  lemma ContainsTransitive(s: string, t: string, u: string)
    requires Contains(s, t) && Contains(t, u)
    ensures Contains(s, u)
  {
    var i :| OccursAt(s, t, i);
    var j :| OccursAt(t, u, j);
    forall k | 0 <= k < |u|
      ensures s[i + j + k] == u[k]
    {
      assert s[i..i + |t|][j + k] == t[j..j + |u|][k];
    }
    assert s[i + j..i + j + |u|] == u;
    assert OccursAt(s, u, i + j);
  }

  /** Every line of a joined block occurs in the block. */
  lemma {:induction false} UnlinesContainsLine(ls: seq<string>, k: int)
    requires 0 <= k < |ls|
    ensures Contains(Unlines(ls), ls[k])
  {
    if k == 0 {
      ContainsLeft(ls[0], "\n");
      ContainsLeftOf(ls[0] + "\n", Unlines(ls[1..]), ls[0]);
    } else {
      UnlinesContainsLine(ls[1..], k - 1);
      ContainsRightOf(ls[0] + "\n", Unlines(ls[1..]), ls[k]);
    }
  }

  /** Adding a line at the end of a block adds its text and one newline. */
  lemma {:induction false} UnlinesSnoc(ls: seq<string>, last: string)
    ensures Unlines(ls + [last]) == Unlines(ls) + last + "\n"
  {
    if ls != [] {
      assert (ls + [last])[1..] == ls[1..] + [last];
      UnlinesSnoc(ls[1..], last);
    }
  }

  /** Adding a line at the front of a block puts its text and one newline first. */
  lemma UnlinesCons(first: string, ls: seq<string>)
    ensures Unlines([first] + ls) == first + "\n" + Unlines(ls)
  {
    assert ([first] + ls)[1..] == ls;
  }
}
