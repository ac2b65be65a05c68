/**
  How many elements of a sequence, or entries of a table, pass a test.
 */
module Counting {

  /** How many elements of s pass f. */
  function CountIf<T>(s: seq<T>, f: T -> bool): nat {
    if |s| == 0 then 0 else CountIf(s[..|s| - 1], f) + (if f(s[|s| - 1]) then 1 else 0)
  }

  lemma CountAppend<T>(s: seq<T>, x: T, f: T -> bool)
    ensures CountIf(s + [x], f) == CountIf(s, f) + (if f(x) then 1 else 0)
  {
    assert (s + [x])[..|s|] == s;
  }

  lemma {:induction false} CountUpdate<T>(s: seq<T>, i: nat, x: T, f: T -> bool)
    requires i < |s|
    ensures CountIf(s[i := x], f) + (if f(s[i]) then 1 else 0) == CountIf(s, f) + (if f(x) then 1 else 0)
  {
    var init := s[..|s| - 1];
    if i == |s| - 1 {
      assert s[i := x][..|s| - 1] == init;
    } else {
      CountUpdate(init, i, x, f);
      assert s[i := x][..|s| - 1] == init[i := x];
    }
  }

  lemma {:induction false} CountNone<T>(s: seq<T>, f: T -> bool)
    requires forall i :: 0 <= i < |s| ==> !f(s[i])
    ensures CountIf(s, f) == 0
  {
    if |s| > 0 {
      CountNone(s[..|s| - 1], f);
    }
  }

  /** The keys whose rows pass f. */
  function Matching<K, V>(rows: map<K, V>, f: V -> bool): set<K> {
    set k | k in rows && f(rows[k])
  }

  lemma Without<K>(s: set<K>, k: K)
    ensures |s - {k}| + (if k in s then 1 else 0) == |s|
  {
    if k in s {
      assert s == s - {k} + {k};
    } else {
      assert s == s - {k};
    }
  }

  lemma Matches<K, V>(rows: map<K, V>, f: V -> bool, k: K)
    ensures k in Matching(rows, f) <==> k in rows && f(rows[k])
  {
  }

  lemma OtherMatches<K, V>(rows: map<K, V>, k: K, row: V, f: V -> bool)
    ensures Matching(rows[k := row], f) - {k} == Matching(rows, f) - {k}
  {
    var before, after := Matching(rows, f) - {k}, Matching(rows[k := row], f) - {k};
    forall i: K ensures i in before <==> i in after {
      Matches(rows, f, i);
      Matches(rows[k := row], f, i);
    }
  }

  lemma MatchingUpdate<K, V>(rows: map<K, V>, k: K, row: V, f: V -> bool)
    ensures |Matching(rows[k := row], f)| + (if k in rows && f(rows[k]) then 1 else 0)
         == |Matching(rows, f)| + (if f(row) then 1 else 0)
  {
    OtherMatches(rows, k, row, f);
    Without(Matching(rows, f), k);
    Without(Matching(rows[k := row], f), k);
    Matches(rows, f, k);
    Matches(rows[k := row], f, k);
    hide Matching;
  }
}
