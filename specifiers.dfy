/**
 * Specifiers: the values a caller hands to `series`, `parallel` and `load`,
 * and the array flattening that `Parallel` applies to them (loader.js `flatten`).
 */
module Specifiers {

  /** The JavaScript values the loader distinguishes when resolving a specifier. */
  datatype Spec =
    | Text(s: string)            // a string, handed to the loader plugins
    | Callable(fn: nat)          // a function value, identified by an opaque id
    | List(items: seq<Spec>)     // an array: a nested parallel group
    | TaskRef(uid: nat)          // a Task object itself
    | GroupRef(uid: nat)         // a Series or Parallel handle carrying its task's uid
    | Opaque(tag: nat)           // any other value (number, plain object, null, ...)

  /** No element of `xs` is an array. */
  predicate Flat(xs: seq<Spec>) {
    forall i :: 0 <= i < |xs| ==> !xs[i].List?
  }

  /**
   * `arr.reduce((acc, val) => acc.concat(isArray(val) ? flatten(val) : val), [])`,
   * written as the left fold it is: `acc` is the accumulator of the reduce.
   */
  function Reduce(xs: seq<Spec>, acc: seq<Spec>): seq<Spec>
  {
    if xs == [] then acc
    else Reduce(xs[1..], acc + (if xs[0].List? then Reduce(xs[0].items, []) else [xs[0]]))
  }

  function Flatten(xs: seq<Spec>): seq<Spec>
  {
    Reduce(xs, [])
  }

  /** The accumulator of the fold only ever gets appended to. */
  lemma {:induction false} ReduceFromAcc(xs: seq<Spec>, acc: seq<Spec>)
    ensures Reduce(xs, acc) == acc + Flatten(xs)
  {
    if xs != [] {
      var piece := if xs[0].List? then Reduce(xs[0].items, []) else [xs[0]];
      assert [] + piece == piece;
      calc {
        Reduce(xs, acc);
        Reduce(xs[1..], acc + piece);
        { ReduceFromAcc(xs[1..], acc + piece); }
        (acc + piece) + Flatten(xs[1..]);
        acc + (piece + Flatten(xs[1..]));
        { ReduceFromAcc(xs[1..], piece); }
        acc + Reduce(xs[1..], piece);
        acc + Flatten(xs);
      }
    }
  }

  /** Flattening one element at the front: its own flattening, then the rest. */
  lemma FlattenCons(x: Spec, xs: seq<Spec>)
    ensures Flatten([x] + xs) == (if x.List? then Flatten(x.items) else [x]) + Flatten(xs)
  {
    var piece := if x.List? then Flatten(x.items) else [x];
    assert ([x] + xs)[1..] == xs;
    ReduceFromAcc(xs, [] + piece);
    assert [] + piece == piece;
  }

  /** The result of `flatten` contains no arrays, however deeply the input nests. */
  lemma {:induction false} FlattenIsFlat(xs: seq<Spec>)
    ensures Flat(Flatten(xs))
  {
    if xs != [] {
      assert xs == [xs[0]] + xs[1..];
      FlattenCons(xs[0], xs[1..]);
      FlattenIsFlat(xs[1..]);
      if xs[0].List? {
        FlattenIsFlat(xs[0].items);
      }
    }
  }

  /** An input without arrays is returned unchanged, element for element and in order. */
  lemma {:induction false} FlattenKeepsFlat(xs: seq<Spec>)
    requires Flat(xs)
    ensures Flatten(xs) == xs
  {
    if xs != [] {
      assert xs == [xs[0]] + xs[1..];
      FlattenCons(xs[0], xs[1..]);
      FlattenKeepsFlat(xs[1..]);
    }
  }

  /** Flattening distributes over concatenation: the order of the leaves is kept. */
  lemma {:induction false} FlattenAppend(xs: seq<Spec>, ys: seq<Spec>)
    ensures Flatten(xs + ys) == Flatten(xs) + Flatten(ys)
  {
    ReduceFromAcc(ys, Flatten(xs));
    ReduceFromAcc(xs, []);
    assert Flatten(xs + ys) == Reduce(ys, Reduce(xs, [])) by {
      ReduceSplit(xs, ys, []);
    }
  }

  lemma {:induction false} ReduceSplit(xs: seq<Spec>, ys: seq<Spec>, acc: seq<Spec>)
    ensures Reduce(xs + ys, acc) == Reduce(ys, Reduce(xs, acc))
  {
    if xs != [] {
      assert (xs + ys)[0] == xs[0];
      assert (xs + ys)[1..] == xs[1..] + ys;
      var piece := if xs[0].List? then Reduce(xs[0].items, []) else [xs[0]];
      ReduceSplit(xs[1..], ys, acc + piece);
    } else {
      assert xs + ys == ys;
    }
  }

  /** Flattening twice is flattening once. */
  lemma FlattenIdempotent(xs: seq<Spec>)
    ensures Flatten(Flatten(xs)) == Flatten(xs)
  {
    FlattenIsFlat(xs);
    FlattenKeepsFlat(Flatten(xs));
  }
}
