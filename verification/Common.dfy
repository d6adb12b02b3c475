/** Small shared vocabulary: optional values, bytes and the widths of the
    machine integers that the relay's arithmetic can reach. */
module Common {

  datatype Option<+T> = None | Some(value: T)

  type Byte = b: int | 0 <= b < 256 witness 0

  const U64_MAX: nat := 0xFFFF_FFFF_FFFF_FFFF

  type U64 = x: int | 0 <= x <= 0xFFFF_FFFF_FFFF_FFFF witness 0

  function Min(a: int, b: int): int {
    if a <= b then a else b
  }

  function Max(a: int, b: int): int {
    if a <= b then b else a
  }

  /** A sequence that names every member of a set once: the iteration order of
      a hash table, which the code leaves open and the model takes as input. */
  ghost predicate Lists<T(!new)>(order: seq<T>, members: set<T>) {
    && (forall i, j :: 0 <= i < j < |order| ==> order[i] != order[j])
    && (forall x :: x in members <==> x in order)
  }

  /** Visit a hash table's entries in some order. */
  method Enumerate<T(==, !new)>(members: set<T>) returns (order: seq<T>)
    ensures Lists(order, members)
  {
    var left := members;
    order := [];
    while left != {}
      invariant left <= members
      invariant forall x :: x in members <==> x in left || x in order
      invariant forall x :: x in order ==> x !in left
      invariant forall i, j :: 0 <= i < j < |order| ==> order[i] != order[j]
      decreases |left|
    {
      var x :| x in left;
      left := left - {x};
      order := order + [x];
    }
  }

  lemma Assoc<T>(a: seq<T>, b: seq<T>, c: seq<T>)
    ensures a + b + c == a + (b + c)
  {
  }

  lemma MultipleApart(k: int, d: int)
    requires k > 0
    ensures d >= 1 ==> k * d >= k
    ensures d <= -1 ==> k * d <= -k
  {
  }

  /** A quotient and remainder that fit are the quotient and remainder. */
  lemma DivisionIs(n: int, k: int, q: int, r: int)
    requires 0 <= r < k && n == k * q + r
    ensures n / k == q && n % k == r
  {
    assert k * (q - n / k) == n % k - r;
    MultipleApart(k, q - n / k);
  }
}
