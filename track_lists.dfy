/** What the audio code of both editors and both exported pages does to its `audioTracks`
    array regardless of the record a track is: `sort` by ascending `playOrder`, the
    neighbour swap of two orders, and `findIndex`/`splice` by id. `order` and `key` read a
    track's `playOrder` and `id`. */
module TrackLists {
  import opened Common

  /** `s` is in ascending order of `order`. */
  predicate SortedBy<T>(s: seq<T>, order: T -> int)
  {
    forall i, j :: 0 <= i < j < |s| ==> order(s[i]) <= order(s[j])
  }

  /** Puts `x` in front of the first element of `s` whose order is not smaller. */
  function InsertByOrder<T>(x: T, s: seq<T>, order: T -> int): seq<T>
  {
    if |s| == 0 || order(x) <= order(s[0]) then [x] + s
    else [s[0]] + InsertByOrder(x, s[1..], order)
  }

  /** `array.sort((a, b) => a.playOrder - b.playOrder)`, a stable sort, written as an
      insertion sort. */
  function SortByOrder<T>(s: seq<T>, order: T -> int): seq<T>
  {
    if |s| == 0 then [] else InsertByOrder(s[0], SortByOrder(s[1..], order), order)
  }

  lemma {:induction false} InsertByOrderSpec<T>(x: T, s: seq<T>, order: T -> int)
    requires SortedBy(s, order)
    ensures SortedBy(InsertByOrder(x, s, order), order)
    ensures multiset(InsertByOrder(x, s, order)) == multiset(s) + multiset{x}
  {
    InsertByOrderSorted(x, s, order);
    InsertByOrderPermutes(x, s, order);
  }

  lemma {:induction false} InsertByOrderPermutes<T>(x: T, s: seq<T>, order: T -> int)
    ensures multiset(InsertByOrder(x, s, order)) == multiset(s) + multiset{x}
  {
    if |s| > 0 && order(s[0]) < order(x) {
      InsertByOrderPermutes(x, s[1..], order);
      assert s == [s[0]] + s[1..];
    }
  }

  lemma {:induction false} InsertByOrderSorted<T>(x: T, s: seq<T>, order: T -> int)
    requires SortedBy(s, order)
    ensures SortedBy(InsertByOrder(x, s, order), order)
    ensures forall y :: y in InsertByOrder(x, s, order) ==> y == x || y in s
  {
    if |s| == 0 || order(x) <= order(s[0]) {
      var r := [x] + s;
      forall i, j | 0 <= i < j < |r|
        ensures order(r[i]) <= order(r[j])
      {
        if i == 0 {
          assert order(s[0]) <= order(s[j - 1]);
        } else {
          assert r[i] == s[i - 1] && r[j] == s[j - 1];
        }
      }
    } else {
      var rest := InsertByOrder(x, s[1..], order);
      assert SortedBy(s[1..], order);
      InsertByOrderSorted(x, s[1..], order);
      var r := [s[0]] + rest;
      forall i, j | 0 <= i < j < |r|
        ensures order(r[i]) <= order(r[j])
      {
        assert r[j] == rest[j - 1];
        if i == 0 {
          assert rest[j - 1] in rest;
          if rest[j - 1] != x {
            var k :| 0 <= k < |s[1..]| && s[1..][k] == rest[j - 1];
            assert s[k + 1] == r[j];
          }
        } else {
          assert r[i] == rest[i - 1];
        }
      }
      forall y | y in r ensures y == x || y in s {
        if y != s[0] {
          assert y in rest;
          assert y in s[1..] ==> y in s;
        }
      }
    }
  }

  /** The sorted array is in ascending order and holds the same tracks. */
  lemma {:induction false} SortByOrderSpec<T>(s: seq<T>, order: T -> int)
    ensures |SortByOrder(s, order)| == |s|
    ensures SortedBy(SortByOrder(s, order), order)
    ensures multiset(SortByOrder(s, order)) == multiset(s)
  {
    if |s| > 0 {
      SortByOrderSpec(s[1..], order);
      InsertByOrderSpec(s[0], SortByOrder(s[1..], order), order);
      assert s == [s[0]] + s[1..];
      assert |SortByOrder(s, order)| == |multiset(SortByOrder(s, order))|;
    }
  }

  /** Sorting an array that is already in order leaves it as it is. */
  lemma {:induction false} SortedIsKept<T>(s: seq<T>, order: T -> int)
    requires SortedBy(s, order)
    ensures SortByOrder(s, order) == s
  {
    if |s| > 0 {
      assert SortedBy(s[1..], order);
      SortedIsKept(s[1..], order);
      assert s == [s[0]] + s[1..];
    }
  }

  /** One field of every track, in array order (`tracks.map(f)`). */
  function Mapped<T, U>(s: seq<T>, f: T -> U): (r: seq<U>)
    ensures |r| == |s| && forall i :: 0 <= i < |s| ==> r[i] == f(s[i])
  {
    seq(|s|, i requires 0 <= i < |s| => f(s[i]))
  }

  /** Giving the track at `i` the order of the one at `j` and the other way round keeps the
      multiset of orders. */
  lemma SwapKeepsOrders<T>(s: seq<T>, i: nat, j: nat, a: T, b: T, order: T -> int)
    requires i < |s| && j < |s| && i != j
    requires order(a) == order(s[j]) && order(b) == order(s[i])
    ensures multiset(Mapped(s[i := a][j := b], order)) == multiset(Mapped(s, order))
  {
    var os := Mapped(s, order);
    var swapped := Mapped(s[i := a][j := b], order);
    assert swapped == os[i := os[j]][j := os[i]];
  }

  /** The mapped fields of a sequence with one more track at its end. */
  lemma MappedAppend<T, U>(s: seq<T>, x: T, f: T -> U)
    ensures Mapped(s + [x], f) == Mapped(s, f) + [f(x)]
  {
    var all, front := Mapped(s + [x], f), Mapped(s, f);
    forall q | 0 <= q < |all| ensures all[q] == (front + [f(x)])[q] {
      if q < |s| {
        assert (s + [x])[q] == s[q];
      }
    }
  }

  /** The mapped fields of a sequence with the track at `k` removed. */
  lemma MappedRemoveAt<T, U>(s: seq<T>, k: nat, f: T -> U)
    requires k < |s|
    ensures Mapped(RemoveAt(s, k), f) == RemoveAt(Mapped(s, f), k)
  {
    var left, whole := Mapped(RemoveAt(s, k), f), Mapped(s, f);
    forall q | 0 <= q < |left| ensures left[q] == RemoveAt(whole, k)[q] {
      if q < k {
        assert RemoveAt(s, k)[q] == s[q];
      } else {
        assert RemoveAt(s, k)[q] == s[q + 1];
      }
    }
  }

  /** Tracks that are a permutation of each other have the same multiset of any field. */
  lemma {:induction false} PermutedMapped<T, U>(s: seq<T>, s': seq<T>, f: T -> U)
    requires multiset(s) == multiset(s')
    ensures multiset(Mapped(s, f)) == multiset(Mapped(s', f))
  {
    if |s| == 0 {
      assert |s'| == |multiset(s')|;
      assert Mapped(s, f) == [] && Mapped(s', f) == [];
    } else {
      var n := |s| - 1;
      var x := s[n];
      assert s == s[..n] + [x];
      assert x in multiset(s');
      var k :| 0 <= k < |s'| && s'[k] == x;
      var rest := RemoveAt(s', k);
      assert multiset(s) == multiset(s[..n]) + multiset{x};
      assert multiset(rest) + multiset{x} == multiset(s');
      assert multiset(rest) == multiset(s') - multiset{x};
      assert multiset(s[..n]) == multiset(s) - multiset{x};
      PermutedMapped(s[..n], rest, f);
      MappedAppend(s[..n], x, f);
      MappedRemoveAt(s', k, f);
    }
  }

  /** The `find` predicate of a lookup by play order. */
  function OrderIs<T>(order: T -> int, o: int): T -> bool
  {
    (t: T) => order(t) == o
  }

  /** `Math.max(...audioTracks.map(t => t.playOrder))` of a non-empty array. */
  function MaxOrder<T>(s: seq<T>, order: T -> int): (r: int)
    requires |s| > 0
    ensures forall k :: 0 <= k < |s| ==> order(s[k]) <= r
    ensures exists k :: 0 <= k < |s| && order(s[k]) == r
  {
    if |s| == 1 then order(s[0])
    else
      var m := MaxOrder(s[..|s| - 1], order);
      assert forall k :: 0 <= k < |s| - 1 ==> s[..|s| - 1][k] == s[k];
      if order(s[|s| - 1]) > m then order(s[|s| - 1]) else m
  }

  /** `withOrder(t, o)` is track `t` with its `playOrder` set to `o`. */
  ghost predicate OrderSetter<T(!new)>(order: T -> int, withOrder: (T, int) -> T)
  {
    forall t, o :: order(withOrder(t, o)) == o
  }

  /** The two tracks `moveTrackUp(id)` retags: the first track with the id, at `i`, and the
      first track holding the order just below it, at `j`; `UpPairSpec` says when there is
      none. */
  function UpPair<T>(s: seq<T>, key: T -> string, order: T -> int, id: string): (r: Option<(nat, nat)>)
    ensures r.Some? ==> r.value.0 < |s| && r.value.1 < |s| && order(s[r.value.1]) == order(s[r.value.0]) - 1
  {
    match FindFirst(s, KeyIs(key, id))
    case None => None
    case Some(i) =>
      var o := order(s[i]);
      if o <= 1 then None
      else
        match FindFirst(s, OrderIs(order, o - 1))
        case None => None
        case Some(j) =>
          assert OrderIs(order, o - 1)(s[j]);
          Some((i, j))
  }

  /** The pair is the first track with the id and the first one holding the order just below
      its own; there is none when the id is absent, the track's order is 1 or below, or no
      track holds the order below. */
  lemma UpPairSpec<T>(s: seq<T>, key: T -> string, order: T -> int, id: string)
    ensures var r := UpPair(s, key, order, id);
            r.Some? ==> var i, j := r.value.0, r.value.1;
              && key(s[i]) == id && order(s[i]) > 1
              && (forall k :: 0 <= k < i ==> key(s[k]) != id)
              && (forall k :: 0 <= k < j ==> order(s[k]) != order(s[i]) - 1)
    ensures UpPair(s, key, order, id).None? <==>
              match FindFirst(s, KeyIs(key, id))
              case None => true
              case Some(i) => order(s[i]) <= 1 || forall k :: 0 <= k < |s| ==> order(s[k]) != order(s[i]) - 1
  {
    match FindFirst(s, KeyIs(key, id))
    case None =>
    case Some(i) =>
      var o := order(s[i]);
      assert KeyIs(key, id)(s[i]);
      assert forall k :: 0 <= k < i ==> !KeyIs(key, id)(s[k]);
      if o > 1 {
        match FindFirst(s, OrderIs(order, o - 1))
        case None =>
          assert forall k :: 0 <= k < |s| ==> !OrderIs(order, o - 1)(s[k]);
        case Some(j) =>
          assert forall k :: 0 <= k < j ==> !OrderIs(order, o - 1)(s[k]);
      }
  }

  /** The two tracks `moveTrackDown(id)` retags: the first track with the id, at `i`, and
      the first track holding the order just above it, at `j`; `DownPairSpec` says when
      there is none. */
  function DownPair<T>(s: seq<T>, key: T -> string, order: T -> int, id: string): (r: Option<(nat, nat)>)
    ensures r.Some? ==> r.value.0 < |s| && r.value.1 < |s| && order(s[r.value.1]) == order(s[r.value.0]) + 1
  {
    match FindFirst(s, KeyIs(key, id))
    case None => None
    case Some(i) =>
      var o := order(s[i]);
      if o >= MaxOrder(s, order) then None
      else
        match FindFirst(s, OrderIs(order, o + 1))
        case None => None
        case Some(j) =>
          assert OrderIs(order, o + 1)(s[j]);
          Some((i, j))
  }

  /** The pair is the first track with the id and the first one holding the order just above
      its own; there is none when the id is absent, the track already holds the largest
      order, or no track holds the order above. */
  lemma DownPairSpec<T>(s: seq<T>, key: T -> string, order: T -> int, id: string)
    ensures var r := DownPair(s, key, order, id);
            r.Some? ==> var i, j := r.value.0, r.value.1;
              && key(s[i]) == id && order(s[i]) < MaxOrder(s, order)
              && (forall k :: 0 <= k < i ==> key(s[k]) != id)
              && (forall k :: 0 <= k < j ==> order(s[k]) != order(s[i]) + 1)
    ensures DownPair(s, key, order, id).None? <==>
              match FindFirst(s, KeyIs(key, id))
              case None => true
              case Some(i) => order(s[i]) >= MaxOrder(s, order)
                              || forall k :: 0 <= k < |s| ==> order(s[k]) != order(s[i]) + 1
  {
    DownPairFound(s, key, order, id);
    DownPairAbsent(s, key, order, id);
  }

  lemma DownPairFound<T>(s: seq<T>, key: T -> string, order: T -> int, id: string)
    ensures var r := DownPair(s, key, order, id);
            r.Some? ==> var i, j := r.value.0, r.value.1;
              && key(s[i]) == id && order(s[i]) < MaxOrder(s, order)
              && (forall k :: 0 <= k < i ==> key(s[k]) != id)
              && (forall k :: 0 <= k < j ==> order(s[k]) != order(s[i]) + 1)
  {
    match FindFirst(s, KeyIs(key, id))
    case None =>
    case Some(i) =>
      var o := order(s[i]);
      assert KeyIs(key, id)(s[i]);
      assert forall k :: 0 <= k < i ==> !KeyIs(key, id)(s[k]);
      if o < MaxOrder(s, order) {
        match FindFirst(s, OrderIs(order, o + 1))
        case None =>
          assert forall k :: 0 <= k < |s| ==> !OrderIs(order, o + 1)(s[k]);
        case Some(j) =>
          assert forall k :: 0 <= k < j ==> !OrderIs(order, o + 1)(s[k]);
      }
  }

  lemma DownPairAbsent<T>(s: seq<T>, key: T -> string, order: T -> int, id: string)
    ensures DownPair(s, key, order, id).None? <==>
              match FindFirst(s, KeyIs(key, id))
              case None => true
              case Some(i) => order(s[i]) >= MaxOrder(s, order)
                              || forall k :: 0 <= k < |s| ==> order(s[k]) != order(s[i]) + 1
  {
    match FindFirst(s, KeyIs(key, id))
    case None =>
    case Some(i) =>
      var o := order(s[i]);
      assert KeyIs(key, id)(s[i]);
      assert forall k :: 0 <= k < i ==> !KeyIs(key, id)(s[k]);
      if o < MaxOrder(s, order) {
        match FindFirst(s, OrderIs(order, o + 1))
        case None =>
          assert forall k :: 0 <= k < |s| ==> !OrderIs(order, o + 1)(s[k]);
        case Some(j) =>
          assert forall k :: 0 <= k < j ==> !OrderIs(order, o + 1)(s[k]);
      }
  }

  /** The tracks with the one at `i` given order `oi` and the one at `j` given order `oj`. */
  function Retagged<T>(s: seq<T>, i: nat, j: nat, oi: int, oj: int, withOrder: (T, int) -> T): (r: seq<T>)
    requires i < |s| && j < |s| && i != j
    ensures |r| == |s| && r[i] == withOrder(s[i], oi) && r[j] == withOrder(s[j], oj)
    ensures forall k :: 0 <= k < |s| && k != i && k != j ==> r[k] == s[k]
  {
    s[j := withOrder(s[j], oj)][i := withOrder(s[i], oi)]
  }

  /** The tracks after `moveTrackUp(id)` and the `reorderAudioDisplay` it calls: the track
      at `i` has its order lowered by one, the one at `j` raised by one, and the array is
      sorted again; nothing happens when there is no such pair. */
  function MovedUp<T>(s: seq<T>, key: T -> string, order: T -> int, withOrder: (T, int) -> T,
                      id: string): seq<T>
  {
    match UpPair(s, key, order, id)
    case None => s
    case Some(p) => SortByOrder(Retagged(s, p.0, p.1, order(s[p.0]) - 1, order(s[p.1]) + 1, withOrder), order)
  }

  /** The tracks after `moveTrackDown(id)` and the `reorderAudioDisplay` it calls: the
      track at `i` has its order raised by one, the one at `j` lowered by one, and the array
      is sorted again; nothing happens when there is no such pair. */
  function MovedDown<T>(s: seq<T>, key: T -> string, order: T -> int, withOrder: (T, int) -> T,
                        id: string): seq<T>
  {
    match DownPair(s, key, order, id)
    case None => s
    case Some(p) => SortByOrder(Retagged(s, p.0, p.1, order(s[p.0]) + 1, order(s[p.1]) - 1, withOrder), order)
  }

  /** `MovedUp` once its pair is known. */
  lemma MovedUpIs<T>(s: seq<T>, key: T -> string, order: T -> int, withOrder: (T, int) -> T, id: string,
                     i: nat, j: nat, oi: int, oj: int)
    requires UpPair(s, key, order, id) == Some((i, j))
    requires oi == order(s[i]) - 1 && oj == order(s[j]) + 1
    ensures MovedUp(s, key, order, withOrder, id) == SortByOrder(Retagged(s, i, j, oi, oj, withOrder), order)
  {
  }

  /** `MovedDown` once its pair is known. */
  lemma MovedDownIs<T>(s: seq<T>, key: T -> string, order: T -> int, withOrder: (T, int) -> T, id: string,
                     i: nat, j: nat, oi: int, oj: int)
    requires DownPair(s, key, order, id) == Some((i, j))
    requires oi == order(s[i]) + 1 && oj == order(s[j]) - 1
    ensures MovedDown(s, key, order, withOrder, id) == SortByOrder(Retagged(s, i, j, oi, oj, withOrder), order)
  {
  }

  /** The tracks at `i` and `j` exchanged their orders. */
  function Exchanged<T>(s: seq<T>, i: nat, j: nat, order: T -> int, withOrder: (T, int) -> T): seq<T>
    requires i < |s| && j < |s| && i != j
  {
    Retagged(s, i, j, order(s[j]), order(s[i]), withOrder)
  }

  /** `r` is `s` sorted after the tracks at `i` and `j` exchanged their orders: it is in
      order and holds exactly the retagged pair and every other track of `s`. */
  ghost predicate Swapped<T>(s: seq<T>, i: nat, j: nat, r: seq<T>, order: T -> int, withOrder: (T, int) -> T)
  {
    && i < |s| && j < |s| && i != j
    && SortedBy(r, order)
    && multiset(r) == multiset(Exchanged(s, i, j, order, withOrder))
  }

  /** Exchanging the orders of the tracks at `i` and `j` and sorting keeps the multiset of
      orders, holds both retagged tracks and every other track, and is sorted. */
  lemma SwapAndSort<T(!new)>(s: seq<T>, i: nat, j: nat, order: T -> int, withOrder: (T, int) -> T)
    requires OrderSetter(order, withOrder)
    requires i < |s| && j < |s| && i != j
    ensures var r := SortByOrder(Exchanged(s, i, j, order, withOrder), order);
            && |r| == |s| && Swapped(s, i, j, r, order, withOrder)
            && multiset(Mapped(r, order)) == multiset(Mapped(s, order))
  {
    var swapped := Exchanged(s, i, j, order, withOrder);
    var r := SortByOrder(swapped, order);
    SortByOrderSpec(swapped, order);
    assert swapped == s[i := swapped[i]][j := swapped[j]];
    SwapKeepsOrders(s, i, j, swapped[i], swapped[j], order);
    PermutedMapped(r, swapped, order);
  }

  /** `moveTrackUp`: the track with the id and the one holding the order just below it swap
      orders and the array comes out sorted, holding every other track unchanged; without
      such a pair nothing changes. Either way the multiset of orders is kept. */
  lemma MoveUpSpec<T(!new)>(s: seq<T>, key: T -> string, order: T -> int, withOrder: (T, int) -> T, id: string)
    requires OrderSetter(order, withOrder)
    ensures var r := MovedUp(s, key, order, withOrder, id);
            && |r| == |s|
            && multiset(Mapped(r, order)) == multiset(Mapped(s, order))
            && match UpPair(s, key, order, id)
               case None => r == s
               case Some(p) => Swapped(s, p.0, p.1, r, order, withOrder)
  {
    var pair := UpPair(s, key, order, id);
    if pair.Some? {
      var i, j := pair.value.0, pair.value.1;
      MovedUpIs(s, key, order, withOrder, id, i, j, order(s[j]), order(s[i]));
      SwapAndSort(s, i, j, order, withOrder);
    }
  }

  /** `moveTrackDown`: the track with the id and the one holding the order just above it
      swap orders and the array comes out sorted, holding every other track unchanged;
      without such a pair nothing changes. Either way the multiset of orders is kept. */
  lemma MoveDownSpec<T(!new)>(s: seq<T>, key: T -> string, order: T -> int, withOrder: (T, int) -> T, id: string)
    requires OrderSetter(order, withOrder)
    ensures var r := MovedDown(s, key, order, withOrder, id);
            && |r| == |s|
            && multiset(Mapped(r, order)) == multiset(Mapped(s, order))
            && match DownPair(s, key, order, id)
               case None => r == s
               case Some(p) => Swapped(s, p.0, p.1, r, order, withOrder)
  {
    var pair := DownPair(s, key, order, id);
    if pair.Some? {
      var i, j := pair.value.0, pair.value.1;
      MovedDownIs(s, key, order, withOrder, id, i, j, order(s[j]), order(s[i]));
      SwapAndSort(s, i, j, order, withOrder);
    }
  }

  /** The `findIndex` predicate of a lookup by id. */
  function KeyIs<T>(key: T -> string, id: string): T -> bool
  {
    (t: T) => key(t) == id
  }

  /** Track ids are pairwise different. */
  predicate DistinctKeys<T>(s: seq<T>, key: T -> string)
  {
    forall i, j :: 0 <= i < j < |s| ==> key(s[i]) != key(s[j])
  }

  /** With pairwise different ids, `splice` at the index `findIndex` finds removes exactly
      the track carrying the id, and an absent id removes nothing. */
  lemma DeleteRemovesExactlyKey<T>(s: seq<T>, key: T -> string, id: string)
    requires DistinctKeys(s, key)
    ensures match FindFirst(s, KeyIs(key, id))
            case None => forall t :: t in s ==> key(t) != id
            case Some(i) =>
              var rest := RemoveAt(s, i);
              && DistinctKeys(rest, key)
              && forall t :: t in rest <==> t in s && key(t) != id
  {
    match FindFirst(s, KeyIs(key, id))
    case None =>
      forall t | t in s ensures key(t) != id {
        var j :| 0 <= j < |s| && s[j] == t;
        assert !KeyIs(key, id)(s[j]);
      }
    case Some(i) =>
      var rest := RemoveAt(s, i);
      assert key(s[i]) == id by { assert KeyIs(key, id)(s[i]); }
      forall t ensures t in rest <==> t in s && key(t) != id {
        if t in rest {
          var j :| 0 <= j < |rest| && rest[j] == t;
          if j < i {
            assert t == s[j];
          } else {
            assert t == s[j + 1];
          }
        }
        if t in s && key(t) != id {
          var j :| 0 <= j < |s| && s[j] == t;
          if j < i {
            assert rest[j] == t;
          } else {
            assert j != i;
            assert rest[j - 1] == t;
          }
        }
      }
      forall a, b | 0 <= a < b < |rest| ensures key(rest[a]) != key(rest[b]) {
        var a', b' := if a < i then a else a + 1, if b < i then b else b + 1;
        assert rest[a] == s[a'] && rest[b] == s[b'];
      }
  }
}
