/** The byte-wise order of texts, and the library sort by a text key. */
module TextOrder {
  import opened Bytes

  predicate TextLess(a: Text, b: Text) {
    b != [] && (a == [] || a[0] < b[0] || (a[0] == b[0] && TextLess(a[1..], b[1..])))
  }

  lemma {:induction false} LessIsTotal(a: Text, b: Text)
    ensures TextLess(a, b) || TextLess(b, a) || a == b
    ensures !(TextLess(a, b) && TextLess(b, a)) && !TextLess(a, a)
    decreases |a|
  {
    if a != [] && b != [] {
      LessIsTotal(a[1..], b[1..]);
      LessIsTotal(a[1..], a[1..]);
      assert a == [a[0]] + a[1..] && b == [b[0]] + b[1..];
    } else if a != [] {
      LessIsTotal(a[1..], a[1..]);
    }
  }

  lemma {:induction false} LessIsTransitive(a: Text, b: Text, c: Text)
    requires TextLess(a, b) && TextLess(b, c)
    ensures TextLess(a, c)
    decreases |a|
  {
    if a != [] && a[0] == b[0] && b[0] == c[0] { LessIsTransitive(a[1..], b[1..], c[1..]); }
  }

  lemma NotLessIsTransitive(a: Text, b: Text, c: Text)
    requires !TextLess(a, b) && !TextLess(b, c)
    ensures !TextLess(a, c)
  {
    hide TextLess;
    LessIsTotal(a, b);
    LessIsTotal(b, c);
    if TextLess(a, c) && TextLess(c, b) { LessIsTransitive(a, c, b); }
  }

  /** At the first place where the texts differ, or where the first one ends. */
  predicate LessAt(a: Text, b: Text, k: nat) {
    k <= |a| && k < |b| && a[..k] == b[..k] && (k == |a| || a[k] < b[k])
  }

  lemma LessAtNext(a: Text, b: Text, k: nat)
    requires a != [] && b != [] && a[0] == b[0]
    ensures LessAt(a, b, k + 1) <==> LessAt(a[1..], b[1..], k)
  {
    if k < |a| && k + 1 < |b| {
      assert a[..k + 1] == [a[0]] + a[1..][..k] && b[..k + 1] == [b[0]] + b[1..][..k];
      assert a[1..][..k] == a[..k + 1][1..] && b[1..][..k] == b[..k + 1][1..];
    }
  }

  lemma {:induction false} LessIff(a: Text, b: Text)
    ensures TextLess(a, b) <==> exists k :: LessAt(a, b, k)
    decreases |a|
  {
    if b == [] {
    } else if a == [] || a[0] < b[0] {
      assert LessAt(a, b, 0);
    } else if a[0] == b[0] {
      LessIff(a[1..], b[1..]);
      forall k: nat ensures LessAt(a, b, k + 1) <==> LessAt(a[1..], b[1..], k) { LessAtNext(a, b, k); }
      forall k: nat | LessAt(a, b, k) ensures LessAt(a[1..], b[1..], k - 1) { LessAtNext(a, b, k - 1); }
      forall k: nat | LessAt(a[1..], b[1..], k) ensures LessAt(a, b, k + 1) { }
    } else {
      forall k: nat ensures !LessAt(a, b, k) {
        if k > 0 && k <= |a| && k < |b| { assert a[..k][0] == a[0] && b[..k][0] == b[0]; }
      }
    }
  }

  // ---- sorting ------------------------------------------------------------------------------------------------

  function Insert<T>(key: T -> Text, x: T, sorted: seq<T>): (r: seq<T>)
    ensures multiset(r) == multiset(sorted) + multiset{x}
    decreases |sorted|
  {
    if sorted == [] || !TextLess(key(sorted[0]), key(x)) then [x] + sorted
    else
      assert sorted == [sorted[0]] + sorted[1..];
      [sorted[0]] + Insert(key, x, sorted[1..])
  }

  function SortBy<T>(key: T -> Text, xs: seq<T>): (r: seq<T>)
    ensures multiset(r) == multiset(xs)
    decreases |xs|
  {
    if xs == [] then []
    else
      assert xs == [xs[0]] + xs[1..];
      Insert(key, xs[0], SortBy(key, xs[1..]))
  }

  predicate Ordered<T>(key: T -> Text, xs: seq<T>) {
    forall i, j :: 0 <= i < j < |xs| ==> !TextLess(key(xs[j]), key(xs[i]))
  }

  lemma {:induction false} InsertKeepsOrder<T>(key: T -> Text, x: T, sorted: seq<T>)
    requires Ordered(key, sorted)
    ensures Ordered(key, Insert(key, x, sorted))
    decreases |sorted|
  {
    hide TextLess;
    if sorted == [] {
    } else if !TextLess(key(sorted[0]), key(x)) {
      forall j | 0 < j < |sorted| ensures !TextLess(key(sorted[j]), key(x)) {
        NotLessIsTransitive(key(sorted[j]), key(sorted[0]), key(x));
      }
    } else {
      InsertKeepsOrder(key, x, sorted[1..]);
      var rest := Insert(key, x, sorted[1..]);
      LessIsTotal(key(sorted[0]), key(x));
      forall j | 0 <= j < |rest| ensures !TextLess(key(rest[j]), key(sorted[0])) {
        assert rest[j] in multiset(rest);
        assert rest[j] == x || rest[j] in sorted[1..];
      }
    }
  }

  lemma {:induction false} SortOrders<T>(key: T -> Text, xs: seq<T>)
    ensures Ordered(key, SortBy(key, xs))
    decreases |xs|
  {
    hide Insert, Ordered;
    if xs == [] {
      NothingIsOrdered(key);
    } else {
      SortOrders(key, xs[1..]);
      InsertKeepsOrder(key, xs[0], SortBy(key, xs[1..]));
    }
  }

  lemma NothingIsOrdered<T>(key: T -> Text)
    ensures Ordered(key, [])
  {
  }
}
