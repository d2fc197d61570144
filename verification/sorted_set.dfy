/** The Redis sorted set behind a user's conversation list, as a sequence of
    (member, score) entries kept in descending score order with each member
    once. ZADD moves an existing member to its new score; among equal scores
    the newest entry comes first. */
module SortedSet {

  datatype Entry = Entry(member: string, score: int)

  type ZSet = seq<Entry>

  predicate SortedDesc(z: ZSet) {
    forall i, j | 0 <= i < j < |z| :: z[i].score >= z[j].score
  }

  predicate DistinctMembers(z: ZSet) {
    forall i, j | 0 <= i < j < |z| :: z[i].member != z[j].member
  }

  /** What every stored set satisfies. */
  predicate Valid(z: ZSet) {
    SortedDesc(z) && DistinctMembers(z)
  }

  predicate HasMember(z: ZSet, m: string) {
    exists i | 0 <= i < |z| :: z[i].member == m
  }

  /** ZREM: drop the member, keep everything else in order. */
  function Remove(z: ZSet, m: string): (r: ZSet)
    ensures !HasMember(r, m)
    ensures forall e | e in r :: e in z && e.member != m
    ensures forall e | e in z && e.member != m :: e in r
    ensures |r| <= |z|
  {
    if |z| == 0 then []
    else if z[0].member == m then Remove(z[1..], m)
    else [z[0]] + Remove(z[1..], m)
  }

  /** In a sorted set the first entry's score bounds all the others. */
  lemma FirstIsHighest(z: ZSet)
    requires |z| > 0 && SortedDesc(z)
    ensures SortedDesc(z[1..])
    ensures forall x | x in z[1..] :: x.score <= z[0].score
  {
    var tail := z[1..];
    forall x | x in tail
      ensures x.score <= z[0].score
    {
      var i :| 0 <= i < |tail| && tail[i] == x;
      assert z[i + 1] == x;
    }
  }

  /** In a set with distinct members the first member occurs nowhere else. */
  lemma FirstIsUnique(z: ZSet)
    requires |z| > 0 && DistinctMembers(z)
    ensures DistinctMembers(z[1..])
    ensures forall x | x in z[1..] :: x.member != z[0].member
  {
    var tail := z[1..];
    forall i, j | 0 <= i < j < |tail|
      ensures tail[i].member != tail[j].member
    {
      assert tail[i] == z[i + 1] && tail[j] == z[j + 1];
    }
    forall x | x in tail
      ensures x.member != z[0].member
    {
      var i :| 0 <= i < |tail| && tail[i] == x;
      assert z[i + 1] == x;
    }
  }

  /** An entry scored at least as high as a sorted rest can go in front. */
  lemma ConsSorted(h: Entry, rest: ZSet)
    requires SortedDesc(rest) && forall x | x in rest :: x.score <= h.score
    ensures SortedDesc([h] + rest)
  {
    var r := [h] + rest;
    forall i, j | 0 <= i < j < |r|
      ensures r[i].score >= r[j].score
    {
      if i == 0 {
        assert r[j] in rest;
      } else {
        assert r[i] == rest[i - 1] && r[j] == rest[j - 1];
      }
    }
  }

  /** An entry whose member the rest lacks can go in front. */
  lemma ConsDistinct(h: Entry, rest: ZSet)
    requires DistinctMembers(rest) && forall x | x in rest :: x.member != h.member
    ensures DistinctMembers([h] + rest)
  {
    var r := [h] + rest;
    forall i, j | 0 <= i < j < |r|
      ensures r[i].member != r[j].member
    {
      if i == 0 {
        assert r[j] in rest;
      } else {
        assert r[i] == rest[i - 1] && r[j] == rest[j - 1];
      }
    }
  }

  /** ZREM keeps a set valid: what remains is still in order, once each. */
  lemma {:induction false} RemoveValid(z: ZSet, m: string)
    ensures Valid(z) ==> Valid(Remove(z, m))
  {
    if |z| > 0 && Valid(z) {
      FirstIsHighest(z);
      FirstIsUnique(z);
      RemoveValid(z[1..], m);
      if z[0].member != m {
        var rest := Remove(z[1..], m);
        ConsSorted(z[0], rest);
        ConsDistinct(z[0], rest);
      }
    }
  }

  /** Insert an entry before the first one whose score is not above it. */
  function Insert(z: ZSet, e: Entry): (r: ZSet)
    ensures |r| == |z| + 1
    ensures forall x | x in r :: x in z || x == e
    ensures e in r && forall x | x in z :: x in r
  {
    if |z| == 0 then [e]
    else if z[0].score <= e.score then [e] + z
    else
      assert forall x | x in z[1..] :: x in z;
      [z[0]] + Insert(z[1..], e)
  }

  lemma {:induction false} InsertSorted(z: ZSet, e: Entry)
    requires SortedDesc(z)
    ensures SortedDesc(Insert(z, e))
  {
    if |z| > 0 {
      if z[0].score > e.score {
        FirstIsHighest(z);
        InsertSorted(z[1..], e);
        ConsSorted(z[0], Insert(z[1..], e));
      } else {
        ConsSorted(e, z);
      }
    }
  }

  lemma {:induction false} InsertDistinct(z: ZSet, e: Entry)
    requires DistinctMembers(z) && !HasMember(z, e.member)
    ensures DistinctMembers(Insert(z, e))
  {
    if |z| > 0 {
      assert z[0] in z;
      if z[0].score > e.score {
        FirstIsUnique(z);
        assert forall i | 0 <= i < |z[1..]| :: z[1..][i] == z[i + 1];
        InsertDistinct(z[1..], e);
        ConsDistinct(z[0], Insert(z[1..], e));
      } else {
        forall x | x in z
          ensures x.member != e.member
        {
          var i :| 0 <= i < |z| && z[i] == x;
        }
        ConsDistinct(e, z);
      }
    }
  }

  /** ZADD: the member ends up once, with the new score, in sorted
      position; every other member keeps its entry. */
  function Add(z: ZSet, m: string, score: int): (r: ZSet)
    ensures Valid(z) ==> Valid(r)
    ensures Entry(m, score) in r
    ensures forall e | e in r && e.member == m :: e.score == score
    ensures forall e | e in z && e.member != m :: e in r
    ensures forall e | e in r :: e in z || e == Entry(m, score)
  {
    var kept := Remove(z, m);
    RemoveValid(z, m);
    if Valid(z) then
      InsertSorted(kept, Entry(m, score));
      InsertDistinct(kept, Entry(m, score));
      Insert(kept, Entry(m, score))
    else
      Insert(kept, Entry(m, score))
  }

  /** The members in stored (descending score) order. */
  function Members(z: ZSet): (ms: seq<string>)
    ensures |ms| == |z|
    ensures forall i | 0 <= i < |z| :: ms[i] == z[i].member
  {
    if |z| == 0 then [] else [z[0].member] + Members(z[1..])
  }

  /** ZREVRANGE with Redis's index rules: negative indices count from the
      end, the stop index is clamped to the last entry, and an empty range
      gives nothing. */
  function RevRange(z: ZSet, start: int, stop: int): (ms: seq<string>)
    ensures |ms| <= |z|
    ensures forall m | m in ms :: m in Members(z)
    ensures 0 <= start && start <= stop ==> ms == Members(z)[if start < |z| then start else |z|..if stop < |z| then stop + 1 else |z|]
  {
    var n := |z|;
    var s0 := if start < 0 then n + start else start;
    var e0 := if stop < 0 then n + stop else stop;
    var s := if s0 < 0 then 0 else s0;
    if s > e0 || s >= n then []
    else
      var e := if e0 >= n then n - 1 else e0;
      Members(z)[s..e + 1]
  }

  /** A range from 0 to `limit - 1`, for a positive `limit`, is the `limit`
      highest-scored members (all of them when there are fewer), highest
      first. */
  lemma TopRange(z: ZSet, limit: int)
    requires Valid(z) && limit >= 1
    ensures var ms := RevRange(z, 0, limit - 1);
            && |ms| == (if limit < |z| then limit else |z|)
            && ms == Members(z)[..|ms|]
            && forall i, j | 0 <= i < j < |ms| :: z[i].score >= z[j].score
  {
  }
}
