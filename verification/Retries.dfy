// retry (internal/app/app.go): up to n attempts at a function that may fail.

module Retries {
  import opened Families
  import opened Hosts

  function Retry<S>(fn: S -> (S, bool), s: S, n: nat): (S, bool)
    requires n > 0
    decreases n
  {
    var (s1, ok) := fn(s);
    if ok || n == 1 then (s1, ok) else Retry(fn, s1, n - 1)
  }

  // ---- What one attempt does to one item or forwarding file ----

  function Removed(before: World, after: World, x: Item): bool {
    x in before.items && x !in after.items
  }

  // From l, fn makes one attempt to delete x and fails if that does.
  ghost predicate DeletesFrom(fn: Log -> (Log, bool), l: Log, x: Item) {
    var (l', ok) := fn(l);
    && Attempts(l'.trace, Delete(x)) == Attempts(l.trace, Delete(x)) + [Removed(l.world, l'.world, x)]
    && (x in l'.world.items ==> x in l.world.items)
    && (ok ==> Removed(l.world, l'.world, x))
  }

  ghost predicate Deletes(fn: Log -> (Log, bool), x: Item) {
    forall l: Log :: DeletesFrom(fn, l, x)
  }

  ghost predicate SparesFrom(fn: Log -> (Log, bool), l: Log, x: Item) {
    var (l', _) := fn(l);
    && Attempts(l'.trace, Delete(x)) == Attempts(l.trace, Delete(x))
    && (x in l'.world.items <==> x in l.world.items)
  }

  ghost predicate Spares(fn: Log -> (Log, bool), x: Item) {
    forall l: Log :: SparesFrom(fn, l, x)
  }

  // From l, fn writes 0 once to an owed file and fails if that does.
  ghost predicate WritesFrom(fn: Log -> (Log, bool), l: Log, f: Family, owed: bool) {
    var (l', ok) := fn(l);
    && l'.world.listening == l.world.listening
    && if owed then
         exists b :: Wrote(l, l', f, b) && (ok ==> b)
       else
         Attempts(l'.trace, WriteFwd(f, 0)) == Attempts(l.trace, WriteFwd(f, 0)) && Fwd(l'.world, f) == Fwd(l.world, f)
  }

  predicate Wrote(l: Log, l': Log, f: Family, b: bool) {
    && Attempts(l'.trace, WriteFwd(f, 0)) == Attempts(l.trace, WriteFwd(f, 0)) + [b]
    && Fwd(l'.world, f) == (if b then 0 else Fwd(l.world, f))
  }

  ghost predicate Writes(fn: Log -> (Log, bool), f: Family, owed: bool) {
    forall l: Log :: WritesFrom(fn, l, f, owed)
  }

  // ---- What the retry does ----

  // The delete outcomes of x over the attempts.
  function Outcomes(fn: Log -> (Log, bool), l: Log, n: nat, x: Item): seq<bool>
    requires n > 0
    decreases n
  {
    var (l1, ok) := fn(l);
    [Removed(l.world, l1.world, x)] + if ok || n == 1 then [] else Outcomes(fn, l1, n - 1, x)
  }

  // n failures.
  function Fails(n: nat): (s: seq<bool>)
    ensures |s| == n && forall i :: 0 <= i < n ==> !s[i]
  {
    if n == 0 then [] else [false] + Fails(n - 1)
  }

  lemma {:induction false} FailsOnly(s: seq<bool>)
    requires true !in s
    ensures s == Fails(|s|)
  {
    forall i | 0 <= i < |s| ensures s[i] == Fails(|s|)[i] {
      assert s[i] in s;
    }
  }

  // Once absent, an item stays absent and every attempt at it fails.
  lemma {:induction false} AbsentItemFails(fn: Log -> (Log, bool), l: Log, n: nat, x: Item)
    requires n > 0 && Deletes(fn, x) && x !in l.world.items
    ensures !Retry(fn, l, n).1
    ensures x !in Retry(fn, l, n).0.world.items
    ensures Outcomes(fn, l, n, x) == Fails(n)
    decreases n
  {
    assert DeletesFrom(fn, l, x);
    if n > 1 {
      AbsentItemFails(fn, fn(l).0, n - 1, x);
    }
  }

  lemma {:induction false} FirstOrRest(b: bool, rest: seq<bool>)
    ensures true in [b] + rest <==> b || true in rest
  {
    assert ([b] + rest)[0] == b;
    if true in rest {
      var i :| 0 <= i < |rest| && rest[i];
      assert ([b] + rest)[i + 1];
    }
  }

  lemma {:induction false} Regroup(a: seq<bool>, b: bool, c: seq<bool>)
    ensures a + [b] + c == a + ([b] + c)
  {
  }

  // The history records exactly these outcomes.
  lemma {:induction false} RetryAttempts(fn: Log -> (Log, bool), l: Log, n: nat, x: Item)
    requires n > 0 && Deletes(fn, x)
    ensures Attempts(Retry(fn, l, n).0.trace, Delete(x)) == Attempts(l.trace, Delete(x)) + Outcomes(fn, l, n, x)
    decreases n
  {
    var (l1, ok) := fn(l);
    assert DeletesFrom(fn, l, x);
    if !ok && n > 1 {
      RetryAttempts(fn, l1, n - 1, x);
      Regroup(Attempts(l.trace, Delete(x)), Removed(l.world, l1.world, x), Outcomes(fn, l1, n - 1, x));
    }
  }

  // An item survives a retry exactly when every attempt at it failed, and a
  // retry that gives up has made all n.
  lemma {:induction false} RetryItem(fn: Log -> (Log, bool), l: Log, n: nat, x: Item)
    requires n > 0 && Deletes(fn, x)
    ensures var (l', ok) := Retry(fn, l, n); var d := Outcomes(fn, l, n, x);
      && (x in l'.world.items <==> x in l.world.items && true !in d)
      && (!ok ==> |d| == n)
      && (ok ==> x !in l'.world.items)
    decreases n
  {
    var (l1, ok) := fn(l);
    assert DeletesFrom(fn, l, x);
    if !ok && n > 1 {
      RetryItem(fn, l1, n - 1, x);
      FirstOrRest(Removed(l.world, l1.world, x), Outcomes(fn, l1, n - 1, x));
    }
  }

  // Convergence: a retry that returns nil after k attempts removed the item in
  // the last one and in no earlier one.
  lemma {:induction false} RetryConverges(fn: Log -> (Log, bool), l: Log, n: nat, x: Item)
    requires n > 0 && Deletes(fn, x) && Retry(fn, l, n).1
    ensures var d := Outcomes(fn, l, n, x); d == Fails(|d| - 1) + [true]
    decreases n
  {
    var (l1, ok) := fn(l);
    assert DeletesFrom(fn, l, x);
    if ok {
      assert Fails(0) == [];
    } else {
      if x !in l1.world.items {
        AbsentItemFails(fn, l1, n - 1, x);
      }
      RetryConverges(fn, l1, n - 1, x);
    }
  }

  // An attempt that removes something and still fails makes every later one fail.
  lemma {:induction false} PartialAttemptIsFinal(fn: Log -> (Log, bool), l: Log, n: nat, x: Item)
    requires n > 0 && Deletes(fn, x)
    requires !fn(l).1 && Removed(l.world, fn(l).0.world, x)
    ensures !Retry(fn, l, n).1
  {
    if n > 1 {
      AbsentItemFails(fn, fn(l).0, n - 1, x);
    }
  }

  lemma {:induction false} RetrySpares(fn: Log -> (Log, bool), l: Log, n: nat, x: Item)
    requires n > 0 && Spares(fn, x)
    ensures var l' := Retry(fn, l, n).0;
      && Attempts(l'.trace, Delete(x)) == Attempts(l.trace, Delete(x))
      && (x in l'.world.items <==> x in l.world.items)
    decreases n
  {
    var (l1, ok) := fn(l);
    assert SparesFrom(fn, l, x);
    if !ok && n > 1 {
      RetrySpares(fn, l1, n - 1, x);
    }
  }

  // The writes of 0 to an owed file: it holds 0 afterwards if one succeeded and
  // is unchanged otherwise; a nil result means one did.
  lemma {:induction false} RetryWrites(fn: Log -> (Log, bool), l: Log, n: nat, f: Family, owed: bool)
    returns (d: seq<bool>)
    requires n > 0 && Writes(fn, f, owed)
    ensures var (l', ok) := Retry(fn, l, n);
      && Attempts(l'.trace, WriteFwd(f, 0)) == Attempts(l.trace, WriteFwd(f, 0)) + d
      && Fwd(l'.world, f) == (if true in d then 0 else Fwd(l.world, f))
      && l'.world.listening == l.world.listening
      && (if owed then d != [] && (ok ==> true in d) && (!ok ==> |d| == n) else d == [])
    decreases n
  {
    var (l1, ok) := fn(l);
    assert WritesFrom(fn, l, f, owed);
    if owed {
      var b :| Wrote(l, l1, f, b) && (ok ==> b);
      d := [b];
    } else {
      d := [];
    }
    if !ok && n > 1 {
      var rest := RetryWrites(fn, l1, n - 1, f, owed);
      d := d + rest;
    }
  }
}
