/** Sums of natural-number weights over a finite set and over a bag. */
module Sums {

  ghost function Sum<K>(keys: set<K>, g: K -> nat): nat {
    if keys == {} then 0
    else
      var k :| k in keys;
      g(k) + Sum(keys - {k}, g)
  }

  /** The sum does not depend on the order in which keys are taken out. */
  lemma {:induction false} TakeOut<K>(keys: set<K>, g: K -> nat, k: K)
    requires k in keys
    ensures Sum(keys, g) == g(k) + Sum(keys - {k}, g)
  {
    var x :| x in keys && Sum(keys, g) == g(x) + Sum(keys - {x}, g);
    if x != k {
      TakeOut(keys - {x}, g, k);
      TakeOut(keys - {k}, g, x);
      assert keys - {x} - {k} == keys - {k} - {x};
    }
  }

  /** Where every weight is at most another, apart from an allowance of c on some keys, so is the sum. */
  lemma {:induction false} AtMost<K>(keys: set<K>, g: K -> nat, h: K -> nat, more: set<K>, c: nat)
    requires forall k :: k in keys ==> g(k) <= h(k) + (if k in more then c else 0)
    ensures Sum(keys, g) <= Sum(keys, h) + Times(c, |more|)
  {
    if keys != {} {
      var k :| k in keys;
      TakeOut(keys, g, k);
      TakeOut(keys, h, k);
      AtMost(keys - {k}, g, h, more - {k}, c);
    }
  }

  /** c added up n times. */
  function Times(c: nat, n: nat): nat { if n == 0 then 0 else c + Times(c, n - 1) }

  /** Where only the weight of k may rise, the sum rises by no more. */
  lemma ChangeOne<K>(keys: set<K>, g: K -> nat, h: K -> nat, k: K)
    requires k in keys && forall j :: j in keys && j != k ==> g(j) <= h(j)
    ensures Sum(keys, g) + h(k) <= Sum(keys, h) + g(k)
  {
    TakeOut(keys, g, k);
    TakeOut(keys, h, k);
    AtMost(keys - {k}, g, h, {}, 0);
  }

  /** A sum is at least the weight of any one key. */
  lemma AtLeastOne<K>(keys: set<K>, g: K -> nat, k: K)
    requires k in keys
    ensures g(k) <= Sum(keys, g)
  {
    TakeOut(keys, g, k);
  }

  lemma {:induction false} AllZero<K>(keys: set<K>, g: K -> nat)
    requires forall k :: k in keys ==> g(k) == 0
    ensures Sum(keys, g) == 0
  {
    if keys != {} {
      var k :| k in keys;
      TakeOut(keys, g, k);
      AllZero(keys - {k}, g);
    }
  }

  lemma {:induction false} AllOne<K>(keys: set<K>, g: K -> nat)
    requires forall k :: k in keys ==> g(k) == 1
    ensures Sum(keys, g) == |keys|
  {
    if keys != {} {
      var k :| k in keys;
      TakeOut(keys, g, k);
      AllOne(keys - {k}, g);
    }
  }

  lemma {:induction false} AtMostOneEach<K>(keys: set<K>, g: K -> nat)
    requires forall k :: k in keys ==> g(k) <= 1
    ensures Sum(keys, g) <= |keys|
  {
    if keys != {} {
      var k :| k in keys;
      TakeOut(keys, g, k);
      AtMostOneEach(keys - {k}, g);
    }
  }

  // ------------------------------------------------------------------ bags

  ghost function Total<T>(bag: multiset<T>, f: T -> nat): nat
    decreases |bag|
  {
    if bag == multiset{} then 0
    else
      var x :| x in bag;
      f(x) + Total(bag - multiset{x}, f)
  }

  lemma Swap<T>(bag: multiset<T>, x: T, y: T)
    requires x in bag && y in bag && x != y
    ensures x in bag - multiset{y} && y in bag - multiset{x}
    ensures bag - multiset{x} - multiset{y} == bag - multiset{y} - multiset{x}
  {
  }

  lemma {:induction false} TotalTakeOut<T>(bag: multiset<T>, f: T -> nat, x: T)
    requires x in bag
    ensures Total(bag, f) == f(x) + Total(bag - multiset{x}, f)
    decreases |bag|
  {
    var y :| y in bag && Total(bag, f) == f(y) + Total(bag - multiset{y}, f);
    hide Total;
    if x != y {
      Swap(bag, x, y);
      TotalTakeOut(bag - multiset{y}, f, x);
      TotalTakeOut(bag - multiset{x}, f, y);
    }
  }

  lemma TotalAdd<T>(bag: multiset<T>, f: T -> nat, x: T)
    ensures Total(bag + multiset{x}, f) == Total(bag, f) + f(x)
  {
    TotalTakeOut(bag + multiset{x}, f, x);
    assert bag + multiset{x} - multiset{x} == bag;
  }
}
