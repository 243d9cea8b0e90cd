/** The dashboard's figures: how many problems the user has and the five newest. */
module ManageProblems {
  import opened Domain

  /** Newest first: creation instants never increase along the sequence. */
  ghost predicate NewestFirst(s: seq<Problem>)
  {
    forall i, j :: 0 <= i < j < |s| ==> s[i].createdAt >= s[j].createdAt
  }

  /** No problem in `s` was created after the instant `c`. */
  ghost predicate NoNewerThan(s: seq<Problem>, c: int)
  {
    forall j :: 0 <= j < |s| ==> s[j].createdAt <= c
  }

  /** The bound depends only on which problems there are. */
  lemma NoNewerPermutes(s: seq<Problem>, t: seq<Problem>, c: int)
    requires NoNewerThan(s, c)
    requires multiset(s) == multiset(t)
    ensures NoNewerThan(t, c)
  {
    forall j | 0 <= j < |t| ensures t[j].createdAt <= c {
      assert t[j] in multiset(s);
      var k :| 0 <= k < |s| && s[k] == t[j];
    }
  }

  /** A problem no older than everything in a newest-first sequence can lead it. */
  lemma PrependNewest(p: Problem, s: seq<Problem>)
    requires NewestFirst(s)
    requires NoNewerThan(s, p.createdAt)
    ensures NewestFirst([p] + s)
  {
  }

  /** Places `p` before the first problem created no later than it. */
  function InsertByAge(p: Problem, s: seq<Problem>): (r: seq<Problem>)
    requires NewestFirst(s)
    ensures NewestFirst(r)
    ensures multiset(r) == multiset(s) + multiset{p}
  {
    if s == [] || s[0].createdAt <= p.createdAt then
      PrependNewest(p, s);
      [p] + s
    else
      var rest := InsertByAge(p, s[1..]);
      assert s == [s[0]] + s[1..];
      assert NoNewerThan(s[1..] + [p], s[0].createdAt);
      NoNewerPermutes(s[1..] + [p], rest, s[0].createdAt);
      PrependNewest(s[0], rest);
      [s[0]] + rest
  }

  /** The comparator `(a, b) => b.created_at - a.created_at`: an insertion sort that
      keeps equal instants in their original order. */
  function SortNewestFirst(s: seq<Problem>): (r: seq<Problem>)
    ensures NewestFirst(r)
    ensures multiset(r) == multiset(s)
  {
    if s == [] then []
    else
      assert s == [s[0]] + s[1..];
      InsertByAge(s[0], SortNewestFirst(s[1..]))
  }

  /** `totalProblems`. */
  function TotalProblems(userProblems: seq<Problem>): nat
  {
    |userProblems|
  }

  /** `recentProblems`: a sorted copy, cut to its first five. */
  function RecentProblems(userProblems: seq<Problem>): seq<Problem>
  {
    var sorted := SortNewestFirst(userProblems);
    if |sorted| <= 5 then sorted else sorted[..5]
  }

  /** A prefix of a newest-first sequence is newest-first, is part of it, and holds
      no problem older than one left out. */
  lemma PrefixOfNewestFirst(s: seq<Problem>, k: nat)
    requires NewestFirst(s) && k <= |s|
    ensures NewestFirst(s[..k])
    ensures multiset(s[..k]) <= multiset(s)
    ensures forall p, q :: p in s && p !in s[..k] && q in s[..k] ==> p.createdAt <= q.createdAt
  {
    assert s == s[..k] + s[k..];
    assert multiset(s) == multiset(s[..k]) + multiset(s[k..]);
    forall p, q | p in s && p !in s[..k] && q in s[..k] ensures p.createdAt <= q.createdAt {
      var j :| 0 <= j < |s| && s[j] == p;
      var i :| 0 <= i < k && s[..k][i] == q;
      assert j >= k;
    }
  }

  /** The recent list holds min(5, total) of the user's problems, newest first, and no
      problem left out of it is newer than one in it; with five or fewer problems it
      holds all of them. */
  lemma RecentProblemsSpec(userProblems: seq<Problem>)
    ensures |RecentProblems(userProblems)| == if TotalProblems(userProblems) <= 5 then TotalProblems(userProblems) else 5
    ensures NewestFirst(RecentProblems(userProblems))
    ensures multiset(RecentProblems(userProblems)) <= multiset(userProblems)
    ensures TotalProblems(userProblems) <= 5 ==> multiset(RecentProblems(userProblems)) == multiset(userProblems)
    ensures forall p, q :: p in userProblems && p !in RecentProblems(userProblems) && q in RecentProblems(userProblems) ==>
              p.createdAt <= q.createdAt
  {
    var sorted := SortNewestFirst(userProblems);
    assert |sorted| == |multiset(sorted)| == |userProblems|;
    forall p | p in userProblems ensures p in sorted {
      assert p in multiset(sorted);
    }
    if |sorted| > 5 {
      PrefixOfNewestFirst(sorted, 5);
    }
  }
}
