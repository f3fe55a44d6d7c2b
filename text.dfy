/** The string search behind `String.prototype.replace` with a string
    pattern, which removes the first occurrence only. */
module Text {

  /** `pat` occurs in `s` starting at index `i`. */
  predicate OccursAt(s: string, pat: string, i: int)
  {
    0 <= i && i + |pat| <= |s| && s[i..i + |pat|] == pat
  }

  /** Occurrences in `s[1..]` are those in `s` shifted down by one. */
  lemma OccursInTail(s: string, pat: string)
    requires s != []
    ensures forall j {:trigger OccursAt(s, pat, j)} ::
      1 <= j ==> (OccursAt(s, pat, j) <==> OccursAt(s[1..], pat, j - 1))
  {
  }

  /** `s.indexOf(pat)`: the first index at which `pat` occurs, or -1. */
  function IndexOf(s: string, pat: string): (r: int)
    ensures -1 <= r
    ensures r >= 0 ==> OccursAt(s, pat, r)
    ensures r >= 0 ==> forall j :: 0 <= j < r ==> !OccursAt(s, pat, j)
    ensures r < 0 ==> forall j :: !OccursAt(s, pat, j)
    decreases |s|
  {
    if |s| < |pat| then -1
    else if s[..|pat|] == pat then 0
    else
      assert s != [];
      OccursInTail(s, pat);
      var k := IndexOf(s[1..], pat);
      assert !OccursAt(s, pat, 0);
      if k < 0 then -1 else k + 1
  }

  /** An occurrence with none before it is the one `IndexOf` finds. */
  lemma IndexOfFirst(s: string, pat: string, i: int)
    requires OccursAt(s, pat, i)
    requires forall j :: 0 <= j < i ==> !OccursAt(s, pat, j)
    ensures IndexOf(s, pat) == i
  {
  }

  /** `s.replace(pat, "")`. */
  function RemoveFirst(s: string, pat: string): (r: string)
    ensures (forall j :: !OccursAt(s, pat, j)) ==> r == s
    ensures (exists j :: OccursAt(s, pat, j)) ==> |r| + |pat| == |s|
  {
    var i := IndexOf(s, pat);
    if i < 0 then s else s[..i] + s[i + |pat|..]
  }

  /** The cut is made at the first occurrence, wherever it lies. */
  lemma RemoveFirstAt(s: string, pat: string, i: int)
    requires OccursAt(s, pat, i)
    requires forall j :: 0 <= j < i ==> !OccursAt(s, pat, j)
    ensures RemoveFirst(s, pat) == s[..i] + s[i + |pat|..]
  {
  }

  /** When `base` holds no ".sol" of its own, `base + ".sol" + rest` loses
      exactly the ".sol" that follows `base`, whatever `rest` holds. */
  lemma {:induction false} RemoveSolAfter(base: string, rest: string)
    requires forall j :: !OccursAt(base, ".sol", j)
    ensures RemoveFirst(base + ".sol" + rest, ".sol") == base + rest
  {
    var s := base + ".sol" + rest;
    assert s[|base|..|base| + 4] == ".sol";
    forall j | 0 <= j < |base| ensures !OccursAt(s, ".sol", j) {
      if j + 4 <= |base| {
        assert s[j..j + 4] == base[j..j + 4];
        assert !OccursAt(base, ".sol", j);
      } else {
        var k := |base| - j;
        assert 1 <= k <= 3;
        assert s[j..j + 4][k] == s[|base|] == '.';
        assert ".sol"[k] != '.';
      }
    }
    RemoveFirstAt(s, ".sol", |base|);
    assert s[..|base|] == base;
    assert s[|base| + 4..] == rest;
  }
}
