/** The Hall of Faith: the stored users sorted by points, highest first, with
    a 1-based rank per position and the medal, Trainer and "you" flags. */
module Leaderboard {
  import opened Types

  /** Points never increase along the board. */
  predicate SortedByPoints(s: seq<User>)
  {
    forall i, j :: 0 <= i < j < |s| ==> s[i].points >= s[j].points
  }

  /** The users holding exactly `p` points, in the order they appear in `s`. */
  function Tied(s: seq<User>, p: int): (r: seq<User>)
    ensures forall x :: x in r <==> x in s && x.points == p
  {
    if s == [] then []
    else if s[0].points == p then [s[0]] + Tied(s[1..], p)
    else Tied(s[1..], p)
  }

  /** `r` lists every group of equal-points users exactly as `s` does: the
      same users, in the same relative order. */
  ghost predicate SameTies(r: seq<User>, s: seq<User>)
  {
    forall p :: Tied(r, p) == Tied(s, p)
  }

  lemma {:induction false} TiedConcat(a: seq<User>, b: seq<User>, p: int)
    ensures Tied(a + b, p) == Tied(a, p) + Tied(b, p)
  {
    if a == [] {
      assert a + b == b;
    } else {
      assert (a + b)[1..] == a[1..] + b;
      TiedConcat(a[1..], b, p);
    }
  }

  /** Swapping two neighbours with different points keeps every tie group. */
  lemma SwapKeepsTies(s: seq<User>, j: int)
    requires 0 < j < |s| && s[j - 1].points != s[j].points
    ensures SameTies(s[j - 1 := s[j]][j := s[j - 1]], s)
  {
    var t := s[j - 1 := s[j]][j := s[j - 1]];
    var front, back := s[..j - 1], s[j + 1..];
    assert s == front + [s[j - 1], s[j]] + back;
    assert t == front + [s[j], s[j - 1]] + back;
    forall p ensures Tied(t, p) == Tied(s, p) {
      TiedConcat(front + [s[j - 1], s[j]], back, p);
      TiedConcat(front, [s[j - 1], s[j]], p);
      TiedConcat(front + [s[j], s[j - 1]], back, p);
      TiedConcat(front, [s[j], s[j - 1]], p);
      assert [s[j - 1], s[j]][1..] == [s[j]];
      assert [s[j], s[j - 1]][1..] == [s[j - 1]];
    }
  }

  /** `parsed.sort((a, b) => b.points - a.points)` in place, by insertion.
      Only a strictly smaller neighbour is ever passed, so equal-points users
      keep their stored order, as the stable sort the language requires does. */
  method SortByPoints(a: array<User>)
    modifies a
    ensures SortedByPoints(a[..])
    ensures SameTies(a[..], old(a[..]))
  {
    var i := 0;
    while i < a.Length
      invariant 0 <= i <= a.Length
      invariant forall k, l :: 0 <= k < l < i ==> a[k].points >= a[l].points
      invariant SameTies(a[..], old(a[..]))
    {
      SinkInto(a, i);
      i := i + 1;
    }
  }

  /** Moves `a[i]` left past every neighbour with fewer points, so that the
      sorted prefix grows by one. */
  method SinkInto(a: array<User>, i: int)
    requires 0 <= i < a.Length
    requires forall k, l :: 0 <= k < l < i ==> a[k].points >= a[l].points
    modifies a
    ensures forall k, l :: 0 <= k < l <= i ==> a[k].points >= a[l].points
    ensures SameTies(a[..], old(a[..]))
  {
    var j := i;
    while 0 < j && a[j - 1].points < a[j].points
      invariant 0 <= j <= i
      invariant forall k, l :: 0 <= k < l <= i && k != j && l != j ==> a[k].points >= a[l].points
      invariant forall l :: j < l <= i ==> a[j].points > a[l].points
      invariant SameTies(a[..], old(a[..]))
    {
      ghost var s := a[..];
      SwapKeepsTies(s, j);
      a[j - 1], a[j] := a[j], a[j - 1];
      assert a[..] == s[j - 1 := s[j]][j := s[j - 1]];
      j := j - 1;
    }
  }

  /** A user occurs in `s` as often as in its own tie group. */
  lemma {:induction false} CountInTies(s: seq<User>, x: User)
    ensures multiset(s)[x] == multiset(Tied(s, x.points))[x]
  {
    if s != [] {
      CountInTies(s[1..], x);
      assert s == [s[0]] + s[1..];
    }
  }

  /** Same tie groups means the same users: the board is a permutation of the
      stored collection. */
  lemma SameTiesPermutation(r: seq<User>, s: seq<User>)
    requires SameTies(r, s)
    ensures multiset(r) == multiset(s)
  {
    forall x ensures multiset(r)[x] == multiset(s)[x] {
      CountInTies(r, x);
      CountInTies(s, x);
    }
  }

  /** Only the empty sequence has the tie groups of the empty sequence. */
  lemma NoTiesEmpty(r: seq<User>)
    requires SameTies(r, [])
    ensures r == []
  {
    SameTiesPermutation(r, []);
    assert |multiset(r)| == 0;
  }

  /** Both orderings start with the same user: the first of the highest tie group. */
  lemma HeadsAgree(r1: seq<User>, r2: seq<User>)
    requires r1 != [] && r2 != []
    requires SortedByPoints(r1) && SortedByPoints(r2) && SameTies(r1, r2)
    ensures r1[0] == r2[0]
  {
    var p1, p2 := r1[0].points, r2[0].points;
    assert r2[0] in Tied(r1, p2);
    assert r1[0] in Tied(r2, p1);
    assert p1 == p2;
    assert Tied(r1, p1) == Tied(r2, p1);
    assert Tied(r1, p1)[0] == r1[0] && Tied(r2, p1)[0] == r2[0];
  }

  /** Dropping a common first user keeps the tie groups equal. */
  lemma TailTies(r1: seq<User>, r2: seq<User>)
    requires r1 != [] && r2 != [] && r1[0] == r2[0] && SameTies(r1, r2)
    ensures SameTies(r1[1..], r2[1..])
  {
    forall q ensures Tied(r1[1..], q) == Tied(r2[1..], q) {
      assert Tied(r1, q) == Tied(r2, q);
      if q == r1[0].points {
        assert Tied(r1, q) == [r1[0]] + Tied(r1[1..], q);
        assert Tied(r2, q) == [r2[0]] + Tied(r2[1..], q);
        assert Tied(r1[1..], q) == Tied(r1, q)[1..];
        assert Tied(r2[1..], q) == Tied(r2, q)[1..];
      } else {
        assert Tied(r1, q) == Tied(r1[1..], q);
        assert Tied(r2, q) == Tied(r2[1..], q);
      }
    }
  }

  /** Two orderings sorted by points with the same tie groups are equal: the
      board is determined by the stored collection alone. */
  lemma {:induction false} SortedTiesUnique(r1: seq<User>, r2: seq<User>)
    requires SortedByPoints(r1) && SortedByPoints(r2) && SameTies(r1, r2)
    ensures r1 == r2
    decreases |r1|
  {
    if r2 == [] {
      NoTiesEmpty(r1);
    } else if r1 == [] {
      assert SameTies(r2, r1);
      NoTiesEmpty(r2);
    } else {
      HeadsAgree(r1, r2);
      TailTies(r1, r2);
      SortedTiesUnique(r1[1..], r2[1..]);
      assert r1 == [r1[0]] + r1[1..];
      assert r2 == [r2[0]] + r2[1..];
    }
  }

  /** The list the board shows, as the effect computes it: the stored users
      sorted when the users key holds a value (even an empty collection);
      otherwise the viewing user alone; with neither, the list is left as it
      was. */
  method LoadUsers(saved: Option<seq<User>>, currentUser: Option<User>, previous: seq<User>)
    returns (users: seq<User>)
    ensures saved.Some? ==> SortedByPoints(users) && SameTies(users, saved.value)
    ensures saved.Some? ==> multiset(users) == multiset(saved.value)
    ensures saved.None? && currentUser.Some? ==> users == [currentUser.value]
    ensures saved.None? && currentUser.None? ==> users == previous
  {
    if saved.Some? {
      var parsed := new User[|saved.value|](i requires 0 <= i < |saved.value| => saved.value[i]);
      assert parsed[..] == saved.value;
      SortByPoints(parsed);
      users := parsed[..];
      SameTiesPermutation(users, saved.value);
    } else if currentUser.Some? {
      users := [currentUser.value];
    } else {
      users := previous;
    }
  }

  /** One row of the board. */
  datatype Entry = Entry(user: User, rank: int, isCurrentUser: bool, isTrainer: bool, hasMedal: bool)

  /** The row for the user at position `idx`. */
  function EntryAt(user: User, idx: nat, currentUser: Option<User>): (e: Entry)
    ensures e.user == user && e.rank == idx + 1
    ensures e.hasMedal <==> idx < 3
    ensures e.isTrainer <==> user.role == Trainer
    ensures e.isCurrentUser <==> currentUser.Some? && user.id == currentUser.value.id
  {
    var rank := idx + 1;
    Entry(user, rank,
          currentUser.Some? && user.id == currentUser.value.id,
          user.role == Trainer,
          rank <= 3)
  }

  /** The rows of the board, one per user, in board order. */
  function Entries(users: seq<User>, currentUser: Option<User>): (r: seq<Entry>)
    ensures |r| == |users|
    ensures forall i :: 0 <= i < |r| ==>
      && r[i].user == users[i]
      && r[i].rank == i + 1
      && (r[i].hasMedal <==> i < 3)
      && (r[i].isTrainer <==> users[i].role == Trainer)
      && (r[i].isCurrentUser <==> currentUser.Some? && users[i].id == currentUser.value.id)
  {
    seq(|users|, i requires 0 <= i < |users| => EntryAt(users[i], i, currentUser))
  }

  /** The empty-state message shows exactly when there is no row. */
  function ShowsEmptyState(users: seq<User>): (empty: bool)
    ensures empty <==> Entries(users, None) == []
    ensures !empty ==> Entries(users, None)[0].rank == 1 && Entries(users, None)[0].hasMedal
  {
    |users| == 0
  }

  /** A stored but empty users collection gives an empty board. */
  lemma EmptyCollectionEmptyBoard(users: seq<User>)
    requires SameTies(users, [])
    ensures ShowsEmptyState(users)
  {
    NoTiesEmpty(users);
  }

  /** Users with 50, 50 and 30 points, stored in that order, are ranked 1, 2
      and 3 in that order: the tie keeps the stored order. */
  lemma TieKeepsStoredOrder(a: User, b: User, c: User, board: seq<User>)
    requires a.points == 50 && b.points == 50 && c.points == 30
    requires SortedByPoints(board) && SameTies(board, [a, b, c])
    ensures board == [a, b, c]
    ensures Entries(board, None)[0].rank == 1 && Entries(board, None)[0].user == a
    ensures Entries(board, None)[1].rank == 2 && Entries(board, None)[1].user == b
    ensures Entries(board, None)[2].rank == 3 && Entries(board, None)[2].user == c
  {
    SortedTiesUnique(board, [a, b, c]);
  }
}
