/** Removal by identifier, the `filter(x => x.id !== id)` every delete
    operation and the notification timeout use. */
module Lists {

  /** The elements of `s` whose identifier (given by `key`) differs from `id`,
      in their original order. */
  function Without<T(==,!new)>(s: seq<T>, id: string, key: T -> string): (r: seq<T>)
    ensures |r| <= |s|
    ensures forall x :: x in r <==> x in s && key(x) != id
  {
    if s == [] then []
    else if key(s[0]) != id then [s[0]] + Without(s[1..], id, key)
    else Without(s[1..], id, key)
  }

  /** Filtering distributes over concatenation, so the kept elements stay in
      the order they had. */
  lemma {:induction false} WithoutConcat<T(!new)>(a: seq<T>, b: seq<T>, id: string, key: T -> string)
    ensures Without(a + b, id, key) == Without(a, id, key) + Without(b, id, key)
  {
    if a == [] {
      assert a + b == b;
    } else {
      assert (a + b)[0] == a[0];
      assert (a + b)[1..] == a[1..] + b;
      WithoutConcat(a[1..], b, id, key);
    }
  }

  /** Removing an identifier nobody carries changes nothing. */
  lemma {:induction false} WithoutAbsent<T(!new)>(s: seq<T>, id: string, key: T -> string)
    requires forall i :: 0 <= i < |s| ==> key(s[i]) != id
    ensures Without(s, id, key) == s
  {
    if s != [] {
      WithoutAbsent(s[1..], id, key);
      assert [s[0]] + s[1..] == s;
    }
  }

  /** Exactly the elements carrying `id` go: the length drops by their number. */
  function CountId<T>(s: seq<T>, id: string, key: T -> string): nat
  {
    if s == [] then 0 else (if key(s[0]) == id then 1 else 0) + CountId(s[1..], id, key)
  }

  lemma {:induction false} WithoutLength<T(!new)>(s: seq<T>, id: string, key: T -> string)
    ensures |Without(s, id, key)| == |s| - CountId(s, id, key)
  {
    if s != [] {
      WithoutLength(s[1..], id, key);
    }
  }

  /** Removing the same identifier twice is the same as removing it once. */
  lemma {:induction false} WithoutIdempotent<T(!new)>(s: seq<T>, id: string, key: T -> string)
    ensures Without(Without(s, id, key), id, key) == Without(s, id, key)
  {
    var r := Without(s, id, key);
    forall i | 0 <= i < |r| ensures key(r[i]) != id {
      assert r[i] in r;
    }
    WithoutAbsent(r, id, key);
  }
}
