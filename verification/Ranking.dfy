/** The (priority, arrival) order behind sort, max and min in the scheduler. */
module Ranking {
  import opened Util
  import opened BlockManagerSpec
  import opened RequestSpec
  import opened SchedulerSpec

  ghost predicate Known(reqs: map<Id, Req>, ids: seq<Id>) {
    forall id :: id in ids ==> id in reqs
  }

  ghost predicate Sorted(reqs: map<Id, Req>, ids: seq<Id>)
    requires Known(reqs, ids)
  {
    forall i, j :: 0 <= i < j < |ids| ==> !Outranks(reqs[ids[j]], reqs[ids[i]])
  }

  lemma {:induction false} InsertSorted(reqs: map<Id, Req>, x: Id, ids: seq<Id>)
    requires x in reqs && Known(reqs, ids) && Sorted(reqs, ids)
    ensures Sorted(reqs, Insert(reqs, x, ids))
  {
    if ids != [] {
      var rest := ids[1..];
      assert ids[0] in ids;
      assert Known(reqs, rest) by { forall id | id in rest ensures id in reqs { assert id in ids; } }
      if Outranks(reqs[ids[0]], reqs[x]) {
        assert Sorted(reqs, rest) by {
          forall i, j | 0 <= i < j < |rest| ensures !Outranks(reqs[rest[j]], reqs[rest[i]]) {
            assert rest[j] == ids[j + 1] && rest[i] == ids[i + 1];
          }
        }
        InsertSorted(reqs, x, rest);
        var r := Insert(reqs, x, rest);
        forall j | 0 <= j < |r| ensures !Outranks(reqs[r[j]], reqs[ids[0]]) {
          assert r[j] in r;
          if r[j] != x {
            var k :| 0 <= k < |rest| && rest[k] == r[j];
            assert ids[k + 1] == r[j];
          }
        }
      } else {
        forall j | 0 <= j < |ids| ensures !Outranks(reqs[ids[j]], reqs[x]) {
          assert ids[j] in ids;
          if j > 0 { assert !Outranks(reqs[ids[j]], reqs[ids[0]]); }
        }
      }
    }
  }

  /** sort() puts the queue in rank order, keeping every request. */
  lemma {:induction false} SortSorted(reqs: map<Id, Req>, ids: seq<Id>)
    requires Known(reqs, ids)
    ensures Sorted(reqs, Sort(reqs, ids)) && multiset(Sort(reqs, ids)) == multiset(ids)
  {
    if ids != [] {
      assert ids[0] in ids;
      assert forall id :: id in ids[1..] ==> id in ids;
      SortSorted(reqs, ids[1..]);
      InsertSorted(reqs, ids[0], Sort(reqs, ids[1..]));
    }
  }

  /** max() returns a request nobody in the list outranks. */
  lemma {:induction false} TopIsGreatest(reqs: map<Id, Req>, ids: seq<Id>)
    requires ids != [] && Known(reqs, ids)
    ensures Top(reqs, ids) in ids && forall id :: id in ids ==> !Outranks(reqs[id], reqs[Top(reqs, ids)])
  {
    if |ids| > 1 {
      var rest := ids[1..];
      assert ids == [ids[0]] + rest;
      assert forall id :: id in rest ==> id in ids;
      TopIsGreatest(reqs, rest);
    }
  }

  /** min() returns a request that outranks nobody in the list. */
  lemma {:induction false} LowestIsLeast(reqs: map<Id, Req>, ids: seq<Id>)
    requires ids != [] && Known(reqs, ids)
    ensures Lowest(reqs, ids) in ids && forall id :: id in ids ==> !Outranks(reqs[Lowest(reqs, ids)], reqs[id])
    ensures MinPriority(reqs, ids) == reqs[Lowest(reqs, ids)].priority
  {
    if |ids| > 1 {
      var rest := ids[1..];
      assert ids == [ids[0]] + rest;
      assert forall id :: id in rest ==> id in ids;
      LowestIsLeast(reqs, rest);
    }
  }

  lemma DistinctByMultiset(s: seq<Id>, t: seq<Id>)
    requires multiset(s) == multiset(t) && Distinct(s)
    ensures Distinct(t)
  {
    forall i, j | 0 <= i < j < |t| ensures t[i] != t[j] {
      if t[i] == t[j] {
        TwiceCounted(t, i, j);
        OnceCounted(s, t[i]);
      }
    }
  }

  lemma TwiceCounted(t: seq<Id>, i: nat, j: nat)
    requires i < j < |t| && t[i] == t[j]
    ensures multiset(t)[t[i]] >= 2
  {
    assert t == t[..j] + [t[j]] + t[j + 1..];
    assert t[..j][i] == t[i];
    assert t[i] in t[..j];
    assert multiset(t) == multiset(t[..j]) + multiset{t[j]} + multiset(t[j + 1..]);
  }

  lemma {:induction false} OnceCounted(s: seq<Id>, x: Id)
    requires Distinct(s)
    ensures multiset(s)[x] <= 1
  {
    if s != [] {
      var t := s[1..];
      assert s == [s[0]] + t;
      assert Distinct(t) && s[0] !in t by {
        forall i, j | 0 <= i < j < |t| ensures t[i] != t[j] { assert t[i] == s[i + 1] && t[j] == s[j + 1]; }
        forall i | 0 <= i < |t| ensures t[i] != s[0] { assert t[i] == s[i + 1]; }
      }
      OnceCounted(t, x);
      assert multiset(s) == multiset{s[0]} + multiset(t);
    }
  }
}
