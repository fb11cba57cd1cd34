/** Strict total orders, and the one sorted sequence of a finite set: how a `BTreeMap` or a
    `BTreeSet` is iterated. */
module Ordering {
  import opened Core

  ghost predicate StrictTotal<T(!new)>(lt: (T, T) -> bool) {
    && (forall a :: !lt(a, a))
    && (forall a, b, c :: lt(a, b) && lt(b, c) ==> lt(a, c))
    && (forall a, b :: a == b || lt(a, b) || lt(b, a))
  }

  ghost predicate StrictlySorted<T(!new)>(s: seq<T>, lt: (T, T) -> bool) {
    forall i, j :: 0 <= i < j < |s| ==> lt(s[i], s[j])
  }

  /** `s` lists exactly the elements of `keys`, in increasing order. */
  ghost predicate Enumerates<T(!new)>(s: seq<T>, keys: set<T>, lt: (T, T) -> bool) {
    && StrictlySorted(s, lt)
    && (forall x :: x in s <==> x in keys)
  }

  ghost predicate IsLeast<T(!new)>(least: T, keys: set<T>, lt: (T, T) -> bool) {
    least in keys && forall x :: x in keys && x != least ==> lt(least, x)
  }

  lemma {:induction false} LeastExists<T(!new)>(keys: set<T>, lt: (T, T) -> bool)
    requires StrictTotal(lt)
    requires keys != {}
    ensures exists least :: IsLeast(least, keys, lt)
    decreases keys
  {
    var a :| a in keys;
    var rest := keys - {a};
    if rest == {} {
      assert keys == {a};
      assert IsLeast(a, keys, lt);
    } else {
      LeastExists(rest, lt);
      var b :| IsLeast(b, rest, lt);
      var least := if lt(a, b) then a else b;
      forall x | x in keys && x != least ensures lt(least, x) {
        if x != a && x != b { assert x in rest; }
      }
      assert IsLeast(least, keys, lt);
    }
  }

  ghost function Least<T(!new)>(keys: set<T>, lt: (T, T) -> bool): (least: T)
    requires StrictTotal(lt)
    requires keys != {}
    ensures IsLeast(least, keys, lt)
  {
    LeastExists(keys, lt);
    var least :| IsLeast(least, keys, lt);
    least
  }

  /** The elements of `keys` in increasing order. */
  ghost function Sorted<T(!new)>(keys: set<T>, lt: (T, T) -> bool): (s: seq<T>)
    requires StrictTotal(lt)
    ensures Enumerates(s, keys, lt)
    ensures |s| == |keys|
    decreases keys
  {
    if keys == {} then []
    else
      var least := Least(keys, lt);
      [least] + Sorted(keys - {least}, lt)
  }

  /** A sorted listing of a set is unique, so any loop that yields one yields `Sorted`. */
  lemma {:induction false} EnumerationUnique<T(!new)>(a: seq<T>, b: seq<T>, keys: set<T>, lt: (T, T) -> bool)
    requires StrictTotal(lt)
    requires Enumerates(a, keys, lt) && Enumerates(b, keys, lt)
    ensures a == b
    decreases |a|
  {
    assert a != [] ==> a[0] in b;
    assert b != [] ==> b[0] in a;
    if a != [] && b != [] {
      assert a[0] == b[0];
      var rest := keys - {a[0]};
      EnumeratesTail(a, keys, lt);
      EnumeratesTail(b, keys, lt);
      EnumerationUnique(a[1..], b[1..], rest, lt);
      assert a == [a[0]] + a[1..] && b == [b[0]] + b[1..];
    }
  }

  lemma EnumeratesTail<T(!new)>(a: seq<T>, keys: set<T>, lt: (T, T) -> bool)
    requires StrictTotal(lt)
    requires Enumerates(a, keys, lt) && a != []
    ensures Enumerates(a[1..], keys - {a[0]}, lt)
  {
    forall x ensures x in a[1..] <==> x in keys - {a[0]} {
      if x in a[1..] {
        var i :| 0 <= i < |a| - 1 && a[1..][i] == x;
        assert a[i + 1] == x && lt(a[0], a[i + 1]);
      }
      if x in keys - {a[0]} {
        var i :| 0 <= i < |a| && a[i] == x;
        assert a[1..][i - 1] == x;
      }
    }
  }

  /** Adding the largest key so far to the end keeps the listing sorted. */
  lemma EnumeratesAppend<T(!new)>(a: seq<T>, done: set<T>, x: T, lt: (T, T) -> bool)
    requires Enumerates(a, done, lt)
    requires forall y :: y in done ==> lt(y, x)
    ensures Enumerates(a + [x], done + {x}, lt)
  {
    forall i, j | 0 <= i < j < |a + [x]| ensures lt((a + [x])[i], (a + [x])[j]) {
      if j == |a| { assert a[i] in a; }
    }
  }

  /** A loop that takes the least of `rest` each time has listed the rest of `all` in order. */
  ghost predicate Drained<T(!new)>(listed: seq<T>, all: set<T>, rest: set<T>, lt: (T, T) -> bool) {
    && rest <= all
    && Enumerates(listed, all - rest, lt)
    && (forall k, j :: k in rest && j in all - rest ==> lt(j, k))
  }

  lemma DrainStep<T(!new)>(listed: seq<T>, all: set<T>, rest: set<T>, k: T, lt: (T, T) -> bool)
    requires Drained(listed, all, rest, lt) && IsLeast(k, rest, lt)
    ensures Drained(listed + [k], all, rest - {k}, lt)
  {
    EnumeratesAppend(listed, all - rest, k, lt);
    assert all - (rest - {k}) == all - rest + {k};
  }

  lemma DrainEnd<T(!new)>(listed: seq<T>, all: set<T>, lt: (T, T) -> bool)
    requires StrictTotal(lt)
    requires Drained(listed, all, {}, lt)
    ensures listed == Sorted(all, lt)
  {
    assert all - {} == all;
    EnumerationUnique(listed, Sorted(all, lt), all, lt);
  }

  /** Byte-wise lexicographic order: Rust's order on strings. */
  predicate TextLt(a: Text, b: Text) {
    b != [] && (a == [] || a[0] < b[0] || (a[0] == b[0] && TextLt(a[1..], b[1..])))
  }

  lemma {:induction false} TextLtIrreflexive(a: Text)
    ensures !TextLt(a, a)
  {
    if a != [] { TextLtIrreflexive(a[1..]); }
  }

  lemma {:induction false} TextLtTransitive(a: Text, b: Text, c: Text)
    requires TextLt(a, b) && TextLt(b, c)
    ensures TextLt(a, c)
  {
    if a != [] && a[0] == b[0] == c[0] {
      TextLtTransitive(a[1..], b[1..], c[1..]);
    }
  }

  lemma {:induction false} TextLtTotal(a: Text, b: Text)
    ensures a == b || TextLt(a, b) || TextLt(b, a)
  {
    if a != [] && b != [] && a[0] == b[0] {
      TextLtTotal(a[1..], b[1..]);
      assert a == [a[0]] + a[1..] && b == [b[0]] + b[1..];
    }
  }

  lemma TextLtStrictTotal()
    ensures StrictTotal(TextLt)
  {
    forall a: Text ensures !TextLt(a, a) { TextLtIrreflexive(a); }
    forall a: Text, b: Text, c: Text | TextLt(a, b) && TextLt(b, c) ensures TextLt(a, c) {
      TextLtTransitive(a, b, c);
    }
    forall a: Text, b: Text ensures a == b || TextLt(a, b) || TextLt(b, a) { TextLtTotal(a, b); }
  }

  /** A `(service, window)` pair, the key of one bucket. */
  datatype BucketKey = BucketKey(service: Text, window: Text)

  predicate KeyLt(a: BucketKey, b: BucketKey) {
    TextLt(a.service, b.service) || (a.service == b.service && TextLt(a.window, b.window))
  }

  lemma KeyLtStrictTotal()
    ensures StrictTotal(KeyLt)
  {
    TextLtStrictTotal();
    forall a: BucketKey ensures !KeyLt(a, a) {
      TextLtIrreflexive(a.service);
      TextLtIrreflexive(a.window);
    }
    forall a: BucketKey, b: BucketKey, c: BucketKey | KeyLt(a, b) && KeyLt(b, c) ensures KeyLt(a, c) {
      if TextLt(a.service, b.service) && TextLt(b.service, c.service) {
        TextLtTransitive(a.service, b.service, c.service);
      } else if a.service == b.service == c.service {
        TextLtTransitive(a.window, b.window, c.window);
      }
    }
    forall a: BucketKey, b: BucketKey ensures a == b || KeyLt(a, b) || KeyLt(b, a) {
      TextLtTotal(a.service, b.service);
      TextLtTotal(a.window, b.window);
    }
  }

  method LeastKey(keys: set<BucketKey>) returns (k: BucketKey)
    requires keys != {}
    ensures IsLeast(k, keys, KeyLt)
  {
    KeyLtStrictTotal();
    LeastExists(keys, KeyLt);
    ghost var least :| IsLeast(least, keys, KeyLt);
    assert least in keys && forall j | j in keys :: j == least || KeyLt(least, j);
    k :| k in keys && forall j | j in keys :: j == k || KeyLt(k, j);
  }

  method LeastText(keys: set<Text>) returns (k: Text)
    requires keys != {}
    ensures IsLeast(k, keys, TextLt)
  {
    TextLtStrictTotal();
    LeastExists(keys, TextLt);
    ghost var least :| IsLeast(least, keys, TextLt);
    assert least in keys && forall j | j in keys :: j == least || TextLt(least, j);
    k :| k in keys && forall j | j in keys :: j == k || TextLt(k, j);
  }

  /** `a` is a proper prefix of `b`, or smaller at the first byte where they differ. */
  ghost predicate DiffersAt(a: Text, b: Text, k: nat) {
    && k <= |a| && k < |b| && a[..k] == b[..k]
    && (k == |a| || a[k] < b[k])
  }

  lemma {:induction false} TextLtIsLexicographic(a: Text, b: Text)
    ensures TextLt(a, b) <==> exists k: nat :: DiffersAt(a, b, k)
  {
    if a != [] && b != [] && a[0] == b[0] {
      TextLtIsLexicographic(a[1..], b[1..]);
      if k: nat :| DiffersAt(a[1..], b[1..], k) {
        assert a[..k + 1] == [a[0]] + a[1..][..k] && b[..k + 1] == [b[0]] + b[1..][..k];
        assert DiffersAt(a, b, k + 1);
      }
      if k: nat :| DiffersAt(a, b, k) {
        assert k > 0 && a[1..][..k - 1] == a[..k][1..] && b[1..][..k - 1] == b[..k][1..];
        assert DiffersAt(a[1..], b[1..], k - 1);
      }
    } else if TextLt(a, b) {
      assert DiffersAt(a, b, 0);
    } else if k: nat :| DiffersAt(a, b, k) {
      if k > 0 { SameStart(a, b, k); }
    }
  }

  lemma SameStart(a: Text, b: Text, k: nat)
    requires DiffersAt(a, b, k) && k > 0
    ensures a[0] == b[0]
  {
    assert a[..k][0] == b[..k][0];
  }

  // ---- Picking from a list ----

  /** `kept` is what stands in `all` at the increasing positions `at`, and those are the wanted ones. */
  ghost predicate PicksAt<T(!new)>(kept: seq<T>, all: seq<T>, wanted: T -> bool, at: seq<nat>) {
    && |at| == |kept|
    && (forall i, j :: 0 <= i < j < |at| ==> at[i] < at[j])
    && (forall i :: 0 <= i < |at| ==> at[i] < |all| && kept[i] == all[at[i]])
    && (forall k :: 0 <= k < |all| ==> (wanted(all[k]) <==> k in at))
  }

  /** `kept` is exactly the wanted elements of `all`, as often as they occur there and in that order. */
  ghost predicate Picks<T(!new)>(kept: seq<T>, all: seq<T>, wanted: T -> bool) {
    exists at: seq<nat> :: PicksAt(kept, all, wanted, at)
  }

  lemma PicksNothing<T(!new)>(wanted: T -> bool)
    ensures Picks([], [], wanted)
  {
    assert PicksAt([], [], wanted, []);
  }

  lemma PicksSnoc<T(!new)>(kept: seq<T>, all: seq<T>, wanted: T -> bool, x: T)
    requires Picks(kept, all, wanted)
    ensures Picks(kept + if wanted(x) then [x] else [], all + [x], wanted)
  {
    hide PicksAt;
    var at: seq<nat> :| PicksAt(kept, all, wanted, at);
    if wanted(x) {
      PicksOneMore(kept, all, wanted, at, x);
    } else {
      assert kept + [] == kept;
      PicksNoMore(kept, all, wanted, at, x);
    }
  }

  lemma PicksOneMore<T(!new)>(kept: seq<T>, all: seq<T>, wanted: T -> bool, at: seq<nat>, x: T)
    requires PicksAt(kept, all, wanted, at) && wanted(x)
    ensures PicksAt(kept + [x], all + [x], wanted, at + [|all|])
  {
    var more, at' := all + [x], at + [|all|];
    forall k | 0 <= k < |more| ensures wanted(more[k]) <==> k in at' {
      if k < |all| { assert more[k] == all[k]; }
    }
  }

  lemma PicksNoMore<T(!new)>(kept: seq<T>, all: seq<T>, wanted: T -> bool, at: seq<nat>, x: T)
    requires PicksAt(kept, all, wanted, at) && !wanted(x)
    ensures PicksAt(kept, all + [x], wanted, at)
  {
    var more := all + [x];
    assert |all| !in at;
    forall k | 0 <= k < |more| ensures wanted(more[k]) <==> k in at {
      if k < |all| { assert more[k] == all[k]; }
    }
  }

  lemma PicksMember<T(!new)>(kept: seq<T>, all: seq<T>, wanted: T -> bool, x: T)
    requires Picks(kept, all, wanted)
    ensures x in kept <==> x in all && wanted(x)
  {
    var at: seq<nat> :| PicksAt(kept, all, wanted, at);
    if x in kept {
      var i :| 0 <= i < |kept| && kept[i] == x;
      assert at[i] in at;
    }
    if x in all && wanted(x) {
      var k :| 0 <= k < |all| && all[k] == x;
      var i :| 0 <= i < |at| && at[i] == k;
      assert kept[i] == x;
    }
  }

  lemma SamePicks<T(!new)>(kept: seq<T>, all: seq<T>, wanted: T -> bool, wanted': T -> bool)
    requires Picks(kept, all, wanted) && forall x :: wanted(x) <==> wanted'(x)
    ensures Picks(kept, all, wanted')
  {
    var at: seq<nat> :| PicksAt(kept, all, wanted, at);
    assert PicksAt(kept, all, wanted', at);
  }
}
