/** `order_by(Notification.created_at.desc())`: notifications newest first.
    The database leaves the order of equal timestamps open; this ordering
    keeps table order among them, and no property below depends on that. */
module Feed {
  import opened Base
  import opened Models

  ghost predicate NewestFirst(s: seq<Notification>) {
    forall i, j :: 0 <= i < j < |s| ==> s[i].createdAt >= s[j].createdAt
  }

  /** Puts `n` before the first notification no newer than it. */
  function Insert(n: Notification, s: seq<Notification>): (r: seq<Notification>)
    ensures multiset(r) == multiset(s) + multiset{n}
    ensures |r| == |s| + 1
    ensures forall x :: x in r <==> x == n || x in s
  {
    if |s| == 0 then [n]
    else if n.createdAt >= s[0].createdAt then [n] + s
    else
      assert s == [s[0]] + s[1..];
      [s[0]] + Insert(n, s[1..])
  }

  /** Inserting into a newest-first list keeps it newest first. */
  lemma {:induction false} InsertKeepsOrder(n: Notification, s: seq<Notification>)
    requires NewestFirst(s)
    ensures NewestFirst(Insert(n, s))
  {
    var r := Insert(n, s);
    if |s| == 0 {
    } else if n.createdAt >= s[0].createdAt {
      assert r == [n] + s;
      forall i, j | 0 <= i < j < |r|
        ensures r[i].createdAt >= r[j].createdAt
      {
        if i > 0 {
          assert r[i] == s[i - 1] && r[j] == s[j - 1];
        } else {
          assert r[j] == s[j - 1];
        }
      }
    } else {
      var rest := Insert(n, s[1..]);
      assert r == [s[0]] + rest;
      assert NewestFirst(s[1..]) by {
        forall i, j | 0 <= i < j < |s[1..]|
          ensures s[1..][i].createdAt >= s[1..][j].createdAt
        {
          assert s[1..][i] == s[i + 1] && s[1..][j] == s[j + 1];
        }
      }
      InsertKeepsOrder(n, s[1..]);
      forall i, j | 0 <= i < j < |r|
        ensures r[i].createdAt >= r[j].createdAt
      {
        if i == 0 {
          assert r[j] == rest[j - 1];
          assert r[j] in rest;
          if r[j] != n {
            assert r[j] in s[1..];
            var k :| 0 <= k < |s[1..]| && s[1..][k] == r[j];
            assert s[k + 1] == r[j];
          }
        } else {
          assert r[i] == rest[i - 1] && r[j] == rest[j - 1];
        }
      }
    }
  }

  /** The notifications of `s`, newest first. */
  function SortNewestFirst(s: seq<Notification>): (r: seq<Notification>)
    ensures multiset(r) == multiset(s)
    ensures |r| == |s|
  {
    if |s| == 0 then []
    else
      assert s == [s[0]] + s[1..];
      var r := Insert(s[0], SortNewestFirst(s[1..]));
      assert |r| == |multiset(r)|;
      r
  }

  lemma {:induction false} SortIsNewestFirst(s: seq<Notification>)
    ensures NewestFirst(SortNewestFirst(s))
  {
    if |s| > 0 {
      SortIsNewestFirst(s[1..]);
      InsertKeepsOrder(s[0], SortNewestFirst(s[1..]));
    }
  }

  lemma PrefixKeepsOrder(s: seq<Notification>, k: nat)
    requires NewestFirst(s)
    requires k <= |s|
    ensures NewestFirst(s[..k])
  {
    forall i, j | 0 <= i < j < k
      ensures s[..k][i].createdAt >= s[..k][j].createdAt
    {
      assert s[..k][i] == s[i] && s[..k][j] == s[j];
    }
  }

  /** Of a newest-first list, the first `k` entries are at least as new as
      every entry left out. */
  lemma PrefixIsNewest(s: seq<Notification>, k: nat, n: Notification)
    requires NewestFirst(s)
    requires k <= |s|
    requires n in s && n !in s[..k]
    ensures forall i :: 0 <= i < k ==> s[i].createdAt >= n.createdAt
  {
    var j :| 0 <= j < |s| && s[j] == n;
  }
}
