// Shared vocabulary: optional values, JavaScript's undefined/null distinction,
// the signed-in user, and two sequence helpers used by several modules.
module Common {

  datatype Option<+T> = None | Some(value: T)

  /** The value an async call resolves to, or the message of the Error it throws. */
  datatype Result<+T> = Ok(value: T) | Failure(message: string)

  /** A JavaScript property that may be undefined, null, or hold a value. */
  datatype Field<+T> = Undefined | Null | Value(value: T)

  /** The identity the authentication provider hands to the pages (only what they read). */
  datatype User = User(uid: string, displayName: Option<string>, email: Option<string>, photoURL: Option<string>)

  /** `opt || fallback` on an optional string: undefined, null and "" all fall back. */
  function OrElse(opt: Option<string>, fallback: string): (r: string)
    ensures opt.Some? && opt.value != "" ==> r == opt.value
    ensures opt.None? || opt.value == "" ==> r == fallback
  {
    if opt.Some? && opt.value != "" then opt.value else fallback
  }

  /** `if (localStorage.getItem(key))`: a value is stored under the key and it is not "". */
  predicate IsSet(items: map<string, string>, key: string)
  {
    key in items && items[key] != ""
  }

  /** The browser's localStorage: string keys to string values. */
  class LocalStorage {
    var items: map<string, string>

    constructor (items: map<string, string>)
      ensures this.items == items
    {
      this.items := items;
    }

    method SetItem(key: string, value: string)
      modifies this
      ensures items == old(items)[key := value]
    {
      items := items[key := value];
    }
  }

  /** `xs.filter(y => y !== x)` */
  function Without<T(==)>(xs: seq<T>, x: T): (r: seq<T>)
    ensures x !in r
    ensures forall i :: 0 <= i < |r| ==> r[i] in xs
    ensures forall i :: 0 <= i < |xs| && xs[i] != x ==> xs[i] in r
    ensures |r| <= |xs|
  {
    if xs == [] then []
    else if xs[0] == x then Without(xs[1..], x)
    else [xs[0]] + Without(xs[1..], x)
  }

  /** `xs.filter(keep).map(f)`: the images of the kept elements, in order. */
  function FilterMap<T, U>(xs: seq<T>, keep: T -> bool, f: T -> U): (r: seq<U>)
    ensures |r| <= |xs|
    ensures forall x :: x in xs && keep(x) ==> f(x) in r
    ensures forall y :: y in r ==> exists x :: x in xs && keep(x) && y == f(x)
  {
    if xs == [] then []
    else
      var init := xs[..|xs| - 1];
      var x := xs[|xs| - 1];
      var rest := FilterMap(init, keep, f);
      assert forall y :: y in xs ==> y in init || y == x;
      assert forall y :: y in init ==> y in xs;
      if keep(x) then rest + [f(x)] else rest
  }

  /** The filter keeps order: filtering two pieces laid end to end is filtering each piece in turn. */
  lemma {:induction false} FilterMapAppend<T, U>(a: seq<T>, b: seq<T>, keep: T -> bool, f: T -> U)
    ensures FilterMap(a + b, keep, f) == FilterMap(a, keep, f) + FilterMap(b, keep, f)
    decreases |b|
  {
    if b == [] {
      assert a + b == a;
    } else {
      var init := b[..|b| - 1];
      var y := b[|b| - 1];
      assert (a + b)[..|a + b| - 1] == a + init;
      assert (a + b)[|a + b| - 1] == y;
      FilterMapAppend(a, init, keep, f);
      if keep(y) {
        AppendAssoc(FilterMap(a, keep, f), FilterMap(init, keep, f), [f(y)]);
      }
    }
  }

  /** One element: its image exactly when it is kept. */
  lemma FilterMapSingle<T, U>(x: T, keep: T -> bool, f: T -> U)
    ensures FilterMap([x], keep, f) == if keep(x) then [f(x)] else []
  {
    assert [x][..0] == [];
  }

  /** When every element is kept, FilterMap is a plain map. */
  lemma {:induction false} FilterMapKeepsAll<T, U>(xs: seq<T>, keep: T -> bool, f: T -> U)
    requires forall i :: 0 <= i < |xs| ==> keep(xs[i])
    ensures |FilterMap(xs, keep, f)| == |xs|
    ensures forall i :: 0 <= i < |xs| ==> FilterMap(xs, keep, f)[i] == f(xs[i])
  {
    if xs != [] {
      var n := |xs| - 1;
      FilterMapKeepsAll(xs[..n], keep, f);
      assert FilterMap(xs, keep, f) == FilterMap(xs[..n], keep, f) + [f(xs[n])];
    }
  }

  /** Filtering out an element that does not occur changes nothing. */
  lemma {:induction false} WithoutAbsent<T>(xs: seq<T>, x: T)
    requires x !in xs
    ensures Without(xs, x) == xs
  {
    if xs != [] {
      WithoutAbsent(xs[1..], x);
    }
  }

  /** Filtering distributes over concatenation. */
  lemma {:induction false} WithoutConcat<T>(xs: seq<T>, ys: seq<T>, x: T)
    ensures Without(xs + ys, x) == Without(xs, x) + Without(ys, x)
  {
    if xs == [] {
      assert xs + ys == ys;
    } else {
      assert (xs + ys)[1..] == xs[1..] + ys;
      WithoutConcat(xs[1..], ys, x);
    }
  }

  /** Removing the only occurrence of x shortens the sequence by exactly one. */
  lemma {:induction false} WithoutSingle<T>(xs: seq<T>, x: T, k: nat)
    requires k < |xs| && xs[k] == x
    requires forall i :: 0 <= i < |xs| && i != k ==> xs[i] != x
    ensures |Without(xs, x)| == |xs| - 1
  {
    if k == 0 {
      assert x !in xs[1..];
      WithoutAbsent(xs[1..], x);
    } else {
      WithoutSingle(xs[1..], x, k - 1);
    }
  }

  /** The elements of xs occur in ys in the same relative order. */
  predicate Subsequence<T(==)>(xs: seq<T>, ys: seq<T>)
    decreases |ys|
  {
    if xs == [] then true
    else if ys == [] then false
    else if xs[0] == ys[0] then Subsequence(xs[1..], ys[1..])
    else Subsequence(xs, ys[1..])
  }

  /** No value occurs twice. */
  predicate NoDuplicates<T(==)>(xs: seq<T>)
  {
    forall i, j :: 0 <= i < j < |xs| ==> xs[i] != xs[j]
  }

  // Facts about joined sequences, stated once for any element type so that
  // proofs about long sequences of concrete values need not rediscover them.

  lemma AppendAssoc<T>(a: seq<T>, b: seq<T>, c: seq<T>)
    ensures a + b + c == a + (b + c)
  {
  }

  lemma SliceOfFront<T>(a: seq<T>, b: seq<T>, lo: nat, hi: nat)
    requires lo <= hi <= |a|
    ensures (a + b)[lo..hi] == a[lo..hi]
  {
  }

  lemma SliceOfSlice<T>(s: seq<T>, k: nat, m: nat)
    requires k + m <= |s|
    ensures s[k..][..m] == s[k..k + m]
  {
  }

  lemma SuffixOfSuffix<T>(s: seq<T>, k: nat, m: nat)
    requires k + m <= |s|
    ensures s[k..][m..] == s[k + m..]
  {
  }

  lemma SliceOfBack<T>(a: seq<T>, b: seq<T>, lo: nat, hi: nat)
    requires lo <= hi <= |b|
    ensures (a + b)[|a| + lo..|a| + hi] == b[lo..hi]
  {
  }
}
