/** Python's `max(..., key=...)` and stable `sorted(..., reverse=True)` over a
    row of numeric keys, stated on positions so that ties can be spoken of:
    the first maximal position wins `max`, and equal keys keep their order in
    a stable sort. */
module Ranking {

  /** Position `i` comes before position `j` in a stable descending sort. */
  predicate Precedes(keys: seq<real>, i: nat, j: nat)
    requires i < |keys| && j < |keys|
  {
    keys[i] > keys[j] || (keys[i] == keys[j] && i < j)
  }

  predicate InRange(keys: seq<real>, r: seq<nat>) {
    forall a :: 0 <= a < |r| ==> r[a] < |keys|
  }

  /** `r` lists positions of `keys` in stable descending order of key. */
  predicate Ranked(keys: seq<real>, r: seq<nat>) {
    InRange(keys, r) && forall a, b :: 0 <= a < b < |r| ==> Precedes(keys, r[a], r[b])
  }

  /** The first position holding the largest key: `max(range(n), key=keys.__getitem__)`. */
  function ArgMax(keys: seq<real>): (k: nat)
    requires |keys| > 0
    ensures k < |keys|
    ensures forall j :: 0 <= j < |keys| ==> keys[j] <= keys[k]
    ensures forall j :: 0 <= j < k ==> keys[j] < keys[k]
  {
    if |keys| == 1 then 0
    else
      var k := ArgMax(keys[..|keys| - 1]);
      if keys[|keys| - 1] > keys[k] then |keys| - 1 else k
  }

  /** Place position `i` into a stably ranked list, scanning from the front. */
  function Insert(keys: seq<real>, r: seq<nat>, i: nat): (r': seq<nat>)
    requires InRange(keys, r) && i < |keys|
    ensures |r'| == |r| + 1
    ensures forall x :: x in r' <==> x in r || x == i
    ensures InRange(keys, r')
    decreases |r|
  {
    if |r| == 0 then [i]
    else if Precedes(keys, i, r[0]) then [i] + r
    else [r[0]] + Insert(keys, r[1..], i)
  }

  lemma {:induction false} InsertRanked(keys: seq<real>, r: seq<nat>, i: nat)
    requires Ranked(keys, r) && i < |keys| && i !in r
    ensures Ranked(keys, Insert(keys, r, i))
    decreases |r|
  {
    if |r| > 0 && !Precedes(keys, i, r[0]) {
      assert Ranked(keys, r[1..]) by {
        forall a, b | 0 <= a < b < |r[1..]| ensures Precedes(keys, r[1..][a], r[1..][b]) {
          assert r[1..][a] == r[a + 1] && r[1..][b] == r[b + 1];
        }
      }
      InsertRanked(keys, r[1..], i);
      var tail := Insert(keys, r[1..], i);
      assert Precedes(keys, r[0], i);
      forall x | x in tail ensures Precedes(keys, r[0], x) {
        if x != i {
          var b :| 0 <= b < |r[1..]| && r[1..][b] == x;
          assert r[b + 1] == x;
        }
      }
      var res := [r[0]] + tail;
      forall a, b | 0 <= a < b < |res| ensures Precedes(keys, res[a], res[b]) {
        if a == 0 {
          assert res[b] in tail;
        } else {
          assert res[a] == tail[a - 1] && res[b] == tail[b - 1];
        }
      }
    } else if |r| > 0 {
      var res := [i] + r;
      forall b | 0 < b < |res| ensures Precedes(keys, i, res[b]) {
        assert res[b] == r[b - 1];
        if b > 1 {
          assert Precedes(keys, r[0], r[b - 1]);
        }
      }
      forall a, b | 0 <= a < b < |res| ensures Precedes(keys, res[a], res[b]) {
        if a > 0 {
          assert res[a] == r[a - 1] && res[b] == r[b - 1];
        }
      }
    }
  }

  /** Positions `0 .. n-1` stably ranked by descending key. */
  function RankPrefix(keys: seq<real>, n: nat): (r: seq<nat>)
    requires n <= |keys|
    ensures |r| == n
    ensures forall x: nat :: x in r <==> x < n
    ensures InRange(keys, r)
    decreases n
  {
    if n == 0 then [] else Insert(keys, RankPrefix(keys, n - 1), n - 1)
  }

  lemma {:induction false} RankPrefixRanked(keys: seq<real>, n: nat)
    requires n <= |keys|
    ensures Ranked(keys, RankPrefix(keys, n))
    decreases n
  {
    if n > 0 {
      RankPrefixRanked(keys, n - 1);
      InsertRanked(keys, RankPrefix(keys, n - 1), n - 1);
    }
  }

  /** The order in which a stable descending sort visits the positions of `keys`. */
  function Rank(keys: seq<real>): (r: seq<nat>)
    ensures |r| == |keys|
    ensures forall x: nat :: x in r <==> x < |keys|
    ensures Ranked(keys, r)
  {
    RankPrefixRanked(keys, |keys|);
    RankPrefix(keys, |keys|)
  }

  /** The head of a ranked list comes before every other position in it. */
  lemma RankedHead(keys: seq<real>, r: seq<nat>, x: nat)
    requires Ranked(keys, r) && x in r
    ensures r[0] == x || Precedes(keys, r[0], x)
  {
    var a :| 0 <= a < |r| && r[a] == x;
    if a > 0 {
      assert Precedes(keys, r[0], r[a]);
    }
  }

  /** The tail of a ranked list is ranked. */
  lemma RankedTail(keys: seq<real>, r: seq<nat>)
    requires Ranked(keys, r) && |r| > 0
    ensures Ranked(keys, r[1..])
  {
    forall a, b | 0 <= a < b < |r[1..]| ensures Precedes(keys, r[1..][a], r[1..][b]) {
      assert r[1..][a] == r[a + 1] && r[1..][b] == r[b + 1];
    }
  }

  /** A stably ranked list has no position twice. */
  lemma RankedDistinct(keys: seq<real>, r: seq<nat>)
    requires Ranked(keys, r)
    ensures forall a, b :: 0 <= a < b < |r| ==> r[a] != r[b]
  {
  }

  /** Two lists ranking the same positions are the same list: the stable
      order is determined by the keys alone. */
  lemma {:induction false} RankedUnique(keys: seq<real>, r1: seq<nat>, r2: seq<nat>)
    requires Ranked(keys, r1) && Ranked(keys, r2)
    requires |r1| == |r2| && forall x :: x in r1 <==> x in r2
    ensures r1 == r2
    decreases |r1|
  {
    if |r1| > 0 {
      assert r1[0] in r2;
      assert r2[0] in r1;
      assert r1[0] == r2[0];
      assert Ranked(keys, r1[1..]) by {
        forall a, b | 0 <= a < b < |r1[1..]| ensures Precedes(keys, r1[1..][a], r1[1..][b]) {
          assert r1[1..][a] == r1[a + 1] && r1[1..][b] == r1[b + 1];
        }
      }
      assert Ranked(keys, r2[1..]) by {
        forall a, b | 0 <= a < b < |r2[1..]| ensures Precedes(keys, r2[1..][a], r2[1..][b]) {
          assert r2[1..][a] == r2[a + 1] && r2[1..][b] == r2[b + 1];
        }
      }
      forall x ensures x in r1[1..] <==> x in r2[1..] {
        if x in r1[1..] {
          var a :| 0 <= a < |r1[1..]| && r1[1..][a] == x;
          assert x != r1[0] by { assert Precedes(keys, r1[0], r1[a + 1]); }
          assert x in r2;
        }
        if x in r2[1..] {
          var b :| 0 <= b < |r2[1..]| && r2[1..][b] == x;
          assert x != r2[0] by { assert Precedes(keys, r2[0], r2[b + 1]); }
          assert x in r1;
        }
      }
      RankedUnique(keys, r1[1..], r2[1..]);
    }
  }
}
