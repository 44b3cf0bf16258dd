/** Three-way comparisons: when they order their type, and how they lift to sequences. */
module Orders {

  function Sign(n: int): (r: int)
    ensures -1 <= r <= 1
    ensures (r < 0 <==> n < 0) && (r > 0 <==> n > 0)
  {
    if n < 0 then -1 else if n > 0 then 1 else 0
  }

  function CompareInt(x: int, y: int): int {
    Sign(x - y)
  }

  ghost predicate Coherent<T>(cmp: (T, T) -> int, x: T, y: T, z: T) {
    && -1 <= cmp(x, y) <= 1
    && cmp(x, x) == 0
    && cmp(x, y) == -cmp(y, x)
    && (cmp(x, y) <= 0 && cmp(y, z) <= 0 ==> cmp(x, z) <= 0)
    && (cmp(x, y) <= 0 && cmp(y, z) <= 0 && cmp(x, z) == 0 ==> cmp(x, y) == 0 && cmp(y, z) == 0)
  }

  /** Reflexive, antisymmetric in sign, total and transitive, with ties forming an equivalence. */
  ghost predicate TotalPreorder<T(!new)>(cmp: (T, T) -> int) {
    forall x, y, z :: Coherent(cmp, x, y, z)
  }

  /** Lexicographic order over an element order; a proper prefix comes first. */
  function Lex<T>(cmp: (T, T) -> int, xs: seq<T>, ys: seq<T>): int {
    if xs == [] then (if ys == [] then 0 else -1)
    else if ys == [] then 1
    else if cmp(xs[0], ys[0]) != 0 then cmp(xs[0], ys[0])
    else Lex(cmp, xs[1..], ys[1..])
  }

  /** Lexicographic order inherits every law of the element order. */
  lemma {:induction false} LexCoherent<T(!new)>(cmp: (T, T) -> int, xs: seq<T>, ys: seq<T>, zs: seq<T>)
    requires TotalPreorder(cmp)
    ensures -1 <= Lex(cmp, xs, ys) <= 1
    ensures Lex(cmp, xs, xs) == 0
    ensures Lex(cmp, xs, ys) == -Lex(cmp, ys, xs)
    ensures Lex(cmp, xs, ys) <= 0 && Lex(cmp, ys, zs) <= 0 ==> Lex(cmp, xs, zs) <= 0
    ensures Lex(cmp, xs, ys) <= 0 && Lex(cmp, ys, zs) <= 0 && Lex(cmp, xs, zs) == 0
      ==> Lex(cmp, xs, ys) == 0 && Lex(cmp, ys, zs) == 0
    decreases |xs| + |ys| + |zs|
  {
    var tail := (s: seq<T>) => if s == [] then s else s[1..];
    if xs != [] || ys != [] || zs != [] {
      LexCoherent(cmp, tail(xs), tail(ys), tail(zs));
    }
    if xs != [] && ys != [] {
      assert Coherent(cmp, xs[0], ys[0], xs[0]);
    }
    if xs != [] {
      assert Coherent(cmp, xs[0], xs[0], xs[0]);
    }
    if xs != [] && ys != [] && zs != [] {
      assert Coherent(cmp, xs[0], ys[0], zs[0]);
      assert Coherent(cmp, ys[0], zs[0], xs[0]);
    }
  }
}
