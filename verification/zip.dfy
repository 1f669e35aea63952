/**
 Python's built-in `zip` over two and three iterables: it pairs elements
 position by position and stops as soon as the shortest input is exhausted.
 */
module Zip {

  function Min(a: nat, b: nat): (m: nat)
    ensures m <= a && m <= b && (m == a || m == b)
  {
    if a <= b then a else b
  }

  function Min3(a: nat, b: nat, c: nat): (m: nat)
    ensures m <= a && m <= b && m <= c && (m == a || m == b || m == c)
  {
    Min(Min(a, b), c)
  }

  /** `list(zip(xs, ys))` */
  function Zip2<A, B>(xs: seq<A>, ys: seq<B>): (r: seq<(A, B)>)
    ensures |r| == Min(|xs|, |ys|)
    ensures forall i :: 0 <= i < |r| ==> r[i] == (xs[i], ys[i])
    decreases |xs|
  {
    if xs == [] || ys == [] then []
    else [(xs[0], ys[0])] + Zip2(xs[1..], ys[1..])
  }

  /** `list(zip(xs, ys, zs))` */
  function Zip3<A, B, C>(xs: seq<A>, ys: seq<B>, zs: seq<C>): (r: seq<(A, B, C)>)
    ensures |r| == Min3(|xs|, |ys|, |zs|)
    ensures forall i :: 0 <= i < |r| ==> r[i] == (xs[i], ys[i], zs[i])
    decreases |xs|
  {
    if xs == [] || ys == [] || zs == [] then []
    else [(xs[0], ys[0], zs[0])] + Zip3(xs[1..], ys[1..], zs[1..])
  }

  /** The first components of a list of pairs. */
  function Firsts<A, B>(ps: seq<(A, B)>): (r: seq<A>)
    ensures |r| == |ps|
    ensures forall i :: 0 <= i < |r| ==> r[i] == ps[i].0
  {
    seq(|ps|, i requires 0 <= i < |ps| => ps[i].0)
  }

  /** The second components of a list of pairs. */
  function Seconds<A, B>(ps: seq<(A, B)>): (r: seq<B>)
    ensures |r| == |ps|
    ensures forall i :: 0 <= i < |r| ==> r[i] == ps[i].1
  {
    seq(|ps|, i requires 0 <= i < |ps| => ps[i].1)
  }

  /** Unzipping undoes zipping; with unequal lengths only the common prefix survives. */
  lemma Zip2Unzip<A, B>(xs: seq<A>, ys: seq<B>)
    ensures Firsts(Zip2(xs, ys)) == xs[..Min(|xs|, |ys|)]
    ensures Seconds(Zip2(xs, ys)) == ys[..Min(|xs|, |ys|)]
    ensures |xs| == |ys| ==> Firsts(Zip2(xs, ys)) == xs && Seconds(Zip2(xs, ys)) == ys
  {
  }

  /** Zipping only ever looks at the common prefix of its inputs. */
  lemma {:induction false} Zip3Truncate<A, B, C>(xs: seq<A>, ys: seq<B>, zs: seq<C>, n: nat)
    requires Min3(|xs|, |ys|, |zs|) <= n
    ensures Zip3(xs, ys, zs) == Zip3(xs[..Min(n, |xs|)], ys[..Min(n, |ys|)], zs[..Min(n, |zs|)])
  {
  }
}
