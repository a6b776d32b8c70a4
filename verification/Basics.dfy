/** Shared vocabulary: optional values, results, bytes and concatenation. */
module Basics {

  datatype Option<+T> = None | Some(value: T)

  datatype Result<+T, +E> = Ok(value: T) | Err(error: E)

  type byte = x: int | 0 <= x < 256

  /** The elements of all the parts, in order. */
  function Flatten<T>(parts: seq<seq<T>>): seq<T> {
    if parts == [] then [] else parts[0] + Flatten(parts[1..])
  }

  lemma {:induction false} FlattenAppend<T>(a: seq<seq<T>>, b: seq<seq<T>>)
    ensures Flatten(a + b) == Flatten(a) + Flatten(b)
  {
    if a == [] {
      assert a + b == b;
    } else {
      FlattenAppend(a[1..], b);
      assert (a + b)[0] == a[0] && (a + b)[1..] == a[1..] + b;
      Joined(a[0], Flatten(a[1..]), Flatten(b));
    }
  }

  lemma FlattenSnoc<T>(a: seq<seq<T>>, last: seq<T>)
    ensures Flatten(a + [last]) == Flatten(a) + last
  {
    FlattenAppend(a, [last]);
    assert [last][1..] == [];
  }

  lemma Joined<T>(a: seq<T>, b: seq<T>, c: seq<T>)
    ensures a + b + c == a + (b + c)
  {
  }

  /** The items that belong to one owner, in order. */
  function Select<T, O(==)>(items: seq<T>, owners: seq<O>, owner: O): (r: seq<T>)
    requires |items| == |owners|
    decreases |items|
  {
    if items == [] then []
    else
      var n := |items| - 1;
      Select(items[..n], owners[..n], owner) + (if owners[n] == owner then [items[n]] else [])
  }

  lemma SelectSnoc<T, O>(items: seq<T>, owners: seq<O>, item: T, origin: O, owner: O)
    requires |items| == |owners|
    ensures Select(items + [item], owners + [origin], owner)
      == Select(items, owners, owner) + (if origin == owner then [item] else [])
  {
    assert (items + [item])[..|items|] == items && (owners + [origin])[..|items|] == owners;
  }

  lemma {:induction false} SelectAppend<T, O>(items: seq<T>, owners: seq<O>, more: seq<T>, origin: O, owner: O)
    requires |items| == |owners|
    ensures Select(items + more, owners + Repeat(origin, |more|), owner)
         == Select(items, owners, owner) + (if origin == owner then more else [])
    decreases |more|
  {
    if more == [] {
      assert items + more == items && owners + Repeat(origin, 0) == owners;
    } else {
      var n := |more| - 1;
      SelectAppend(items, owners, more[..n], origin, owner);
      SelectSnoc(items + more[..n], owners + Repeat(origin, n), more[n], origin, owner);
      assert items + more == items + more[..n] + [more[n]];
      assert owners + Repeat(origin, |more|) == owners + Repeat(origin, n) + [origin];
    }
  }

  lemma {:induction false} SelectConcat<T, O>(a: seq<T>, x: seq<O>, b: seq<T>, y: seq<O>, owner: O)
    requires |a| == |x| && |b| == |y|
    ensures Select(a + b, x + y, owner) == Select(a, x, owner) + Select(b, y, owner)
    decreases |b|
  {
    if b == [] {
      assert a + b == a && x + y == x;
    } else {
      var n := |b| - 1;
      SelectConcat(a, x, b[..n], y[..n], owner);
      SelectSnoc(a + b[..n], x + y[..n], b[n], y[n], owner);
      assert a + b == a + b[..n] + [b[n]] && x + y == x + y[..n] + [y[n]];
    }
  }

  function Repeat<T>(x: T, n: nat): seq<T> {
    seq(n, i => x)
  }
}
