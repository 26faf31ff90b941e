/** The two string operations the forecast formatter relies on: the date key of a
    timestamp (`dt_txt.split(' ')[0]`) and substring search (`needle in haystack`). */
module Text {

  /** `t` occurs in `s` starting at index `i`. */
  predicate OccursAt(s: string, t: string, i: int)
  {
    0 <= i && i + |t| <= |s| && s[i..i + |t|] == t
  }

  /** Python's `t in s` for strings: some window of `s` equals `t`. */
  function Contains(s: string, t: string): (b: bool)
    ensures b <==> exists i :: OccursAt(s, t, i)
    decreases |s|
  {
    if |t| > |s| then
      assert forall i :: !OccursAt(s, t, i);
      false
    else if s[..|t|] == t then
      assert OccursAt(s, t, 0);
      true
    else
      var rest := Contains(s[1..], t);
      ShiftOccurrence(s, t);
      assert !OccursAt(s, t, 0);
      assert (exists i :: OccursAt(s, t, i)) ==> exists i :: OccursAt(s[1..], t, i) by {
        if j :| OccursAt(s, t, j) {
          assert OccursAt(s[1..], t, j - 1);
        }
      }
      rest
  }

  /** An occurrence in `s[1..]` is an occurrence in `s` one place later, and every
      occurrence in `s` other than at 0 arises this way. */
  lemma ShiftOccurrence(s: string, t: string)
    requires |s| > 0
    ensures forall i :: 0 <= i ==> (OccursAt(s[1..], t, i) <==> OccursAt(s, t, i + 1))
  {
    forall i | 0 <= i
      ensures OccursAt(s[1..], t, i) <==> OccursAt(s, t, i + 1)
    {
      if 0 <= i && i + |t| <= |s[1..]| {
        assert s[1..][i..i + |t|] == s[i + 1..i + 1 + |t|];
      }
    }
  }

  /** The part of `s` before its first space, or all of `s` when it has none:
      `s.split(' ')[0]`. The three clauses pin the result down (see DateKeyUnique). */
  function DateKey(s: string): (k: string)
    ensures k <= s
    ensures ' ' !in k
    ensures |k| < |s| ==> s[|k|] == ' '
  {
    if |s| == 0 || s[0] == ' ' then "" else [s[0]] + DateKey(s[1..])
  }

  /** Any prefix of `s` free of spaces and followed by a space or the end of `s` is its date key. */
  lemma DateKeyUnique(s: string, k: string)
    requires k <= s
    requires ' ' !in k
    requires |k| < |s| ==> s[|k|] == ' '
    ensures DateKey(s) == k
  {
  }

  /** A timestamp written `date + " " + time` with a space-free date has that date as its key. */
  lemma DateKeyOfTimestamp(date: string, time: string)
    requires ' ' !in date
    ensures DateKey(date + " " + time) == date
  {
    var s := date + " " + time;
    assert s[|date|] == ' ';
    assert date <= s;
    DateKeyUnique(s, date);
  }
}
