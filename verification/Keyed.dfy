/** The five things a change can do to a table, and their algebra.

    A replica keeps its rows in hash maps and in vectors. Both are keyed relations: a map has one value per
    key, a vector possibly several. `MapStep` and `VecStep` are what happens to the containers, `Step` is
    what happens to the relation; vectors are compared through their relation, that is, as sets. */
module Keyed {
  datatype Op<!K, !V> =
    | Skip
    | Replace(key: K, value: V)          // last writer wins
    | AddNew(key: K, value: V)           // first writer wins
    | DropKeys(isDeadKey: K -> bool)
    | DropValues(isDeadValue: V -> bool)

  function MapStep<K(!new), V(!new)>(m: map<K, V>, op: Op<K, V>): map<K, V> {
    match op
    case Skip => m
    case Replace(k, v) => m[k := v]
    case AddNew(k, v) => if k in m then m else m[k := v]
    case DropKeys(isDead) => map k | k in m && !isDead(k) :: m[k]
    case DropValues(isDead) => map k | k in m && !isDead(m[k]) :: m[k]
  }

  /** `Vec::retain`. */
  function Retain<V(!new)>(xs: seq<V>, keep: V -> bool): (r: seq<V>)
    ensures forall x :: x in r <==> x in xs && keep(x)
  {
    if xs == [] then [] else (if keep(xs[0]) then [xs[0]] else []) + Retain(xs[1..], keep)
  }

  lemma {:induction false} SameRetain<V(!new)>(xs: seq<V>, f: V -> bool, g: V -> bool)
    requires forall x :: x in xs ==> f(x) == g(x)
    ensures Retain(xs, f) == Retain(xs, g)
  {
    if xs != [] { SameRetain(xs[1..], f, g); }
  }

  lemma {:induction false} RetainAll<V(!new)>(xs: seq<V>, f: V -> bool)
    requires forall x :: x in xs ==> f(x)
    ensures Retain(xs, f) == xs
  {
    if xs != [] { RetainAll(xs[1..], f); }
  }

  lemma {:induction false} RetainOneMore<V(!new)>(xs: seq<V>, x: V, keep: V -> bool)
    ensures Retain(xs + [x], keep) == Retain(xs, keep) + if keep(x) then [x] else []
  {
    if xs == [] {
      assert [] + [x] == [x];
    } else {
      assert (xs + [x])[1..] == xs[1..] + [x];
      RetainOneMore(xs[1..], x, keep);
    }
  }

  lemma {:induction false} RetainConcat<V(!new)>(xs: seq<V>, ys: seq<V>, keep: V -> bool)
    ensures Retain(xs + ys, keep) == Retain(xs, keep) + Retain(ys, keep)
  {
    if xs == [] {
      assert [] + ys == ys;
    } else {
      assert (xs + ys)[1..] == xs[1..] + ys;
      RetainConcat(xs[1..], ys, keep);
    }
  }

  /** Retaining twice is retaining what passes both. */
  lemma {:induction false} RetainBoth<V(!new)>(xs: seq<V>, a: V -> bool, b: V -> bool, both: V -> bool)
    requires forall x :: both(x) == (a(x) && b(x))
    ensures Retain(Retain(xs, a), b) == Retain(xs, both)
    decreases |xs|
  {
    if xs != [] {
      var front, x := xs[..|xs| - 1], xs[|xs| - 1];
      assert xs == front + [x];
      RetainBoth(front, a, b, both);
      RetainOneMore(front, x, a);
      RetainOneMore(front, x, both);
      RetainOneMore(Retain(front, a), x, b);
      if !a(x) {
        assert Retain(xs, a) == Retain(front, a) && Retain(xs, both) == Retain(front, both);
      } else {
        assert Retain(xs, a) == Retain(front, a) + [x] && both(x) == b(x);
      }
    }
  }

  lemma {:induction false} RetainNone<V(!new)>(xs: seq<V>, f: V -> bool)
    requires forall x :: x in xs ==> !f(x)
    ensures Retain(xs, f) == []
  {
    if xs != [] { RetainNone(xs[1..], f); }
  }

  lemma RetainTake<V(!new)>(xs: seq<V>, keep: V -> bool, k: nat)
    requires k < |xs|
    ensures Retain(xs[..k + 1], keep) == (if keep(xs[0]) then [xs[0]] else []) + Retain(xs[1..][..k], keep)
  {
    assert xs[..k + 1][1..] == xs[1..][..k];
  }

  lemma TakeFront<V>(front: seq<V>, back: seq<V>, i: nat)
    requires |front| <= i < |front| + |back|
    ensures (front + back)[i] == back[i - |front|] && (front + back)[..i] == front + back[..i - |front|]
  {
  }

  /** Where a retained element came from, and what was retained before it. */
  lemma {:induction false} RetainAt<V(!new)>(xs: seq<V>, keep: V -> bool, i: nat) returns (j: nat)
    requires i < |Retain(xs, keep)|
    ensures j < |xs| && keep(xs[j]) && xs[j] == Retain(xs, keep)[i] && Retain(xs[..j], keep) == Retain(xs, keep)[..i]
  {
    var front := if keep(xs[0]) then [xs[0]] else [];
    if i < |front| {
      j := 0;
    } else {
      TakeFront(front, Retain(xs[1..], keep), i);
      var k := RetainAt(xs[1..], keep, i - |front|);
      RetainTake(xs, keep, k);
      j := k + 1;
    }
  }

  /** No two elements share a key. */
  ghost predicate DistinctBy<K(!new), V(!new)>(xs: seq<V>, keyOf: V -> K) {
    forall i, j :: 0 <= i < j < |xs| ==> keyOf(xs[i]) != keyOf(xs[j])
  }

  /** Dropping elements brings no two equal keys together. */
  lemma {:induction false} RetainDistinct<K(!new), V(!new)>(xs: seq<V>, keyOf: V -> K, keep: V -> bool)
    requires DistinctBy(xs, keyOf)
    ensures DistinctBy(Retain(xs, keep), keyOf)
  {
    if xs != [] {
      var rest := xs[1..];
      RetainDistinct(rest, keyOf, keep);
      var kept := Retain(rest, keep);
      forall j | 0 <= j < |kept| ensures keyOf(kept[j]) != keyOf(xs[0]) {
        assert kept[j] in kept;
        var k :| 0 <= k < |rest| && rest[k] == kept[j];
        assert xs[k + 1] == rest[k];
      }
    }
  }

  ghost predicate AscendsBy<V(!new)>(xs: seq<V>, numberOf: V -> nat) {
    forall i, j :: 0 <= i < j < |xs| ==> numberOf(xs[i]) < numberOf(xs[j])
  }

  /** Dropping elements keeps the rest in order. */
  lemma {:induction false} RetainAscends<V(!new)>(xs: seq<V>, numberOf: V -> nat, keep: V -> bool)
    requires AscendsBy(xs, numberOf)
    ensures AscendsBy(Retain(xs, keep), numberOf)
  {
    if xs != [] {
      var rest := xs[1..];
      RetainAscends(rest, numberOf, keep);
      var kept := Retain(rest, keep);
      forall j | 0 <= j < |kept| ensures numberOf(xs[0]) < numberOf(kept[j]) {
        assert kept[j] in kept;
        var k :| 0 <= k < |rest| && rest[k] == kept[j];
        assert xs[k + 1] == rest[k];
      }
    }
  }

  /** A step on a vector whose rows are keyed by `keyOf`: replacing retains the rest and appends. */
  function VecStep<K(!new, ==), V(!new)>(xs: seq<V>, keyOf: V -> K, op: Op<K, V>): seq<V> {
    match op
    case Skip => xs
    case Replace(k, v) => Retain(xs, (x: V) => keyOf(x) != k) + [v]
    case AddNew(k, v) => if exists i | 0 <= i < |xs| :: keyOf(xs[i]) == k then xs else xs + [v]
    case DropKeys(isDead) => Retain(xs, (x: V) => !isDead(keyOf(x)))
    case DropValues(isDead) => Retain(xs, (x: V) => !isDead(x))
  }

  ghost function MapRel<K(!new), V(!new)>(m: map<K, V>): set<(K, V)> {
    set k | k in m :: (k, m[k])
  }

  ghost function VecRel<K(!new), V(!new)>(xs: seq<V>, keyOf: V -> K): set<(K, V)> {
    set x | x in xs :: (keyOf(x), x)
  }

  ghost function Step<K(!new), V(!new)>(r: set<(K, V)>, op: Op<K, V>): set<(K, V)> {
    match op
    case Skip => r
    case Replace(k, v) => (set p | p in r && p.0 != k) + {(k, v)}
    case AddNew(k, v) => if exists p :: p in r && p.0 == k then r else r + {(k, v)}
    case DropKeys(isDead) => set p | p in r && !isDead(p.0)
    case DropValues(isDead) => set p | p in r && !isDead(p.1)
  }

  ghost function Run<K(!new), V(!new)>(r: set<(K, V)>, ops: seq<Op<K, V>>): set<(K, V)>
    decreases |ops|
  {
    if ops == [] then r else Step(Run(r, ops[..|ops| - 1]), ops[|ops| - 1])
  }

  /** The values standing at one key. */
  ghost function At<K(!new), V(!new)>(r: set<(K, V)>, k: K): set<V> {
    set p | p in r && p.0 == k :: p.1
  }

  ghost predicate IsDropped<V(!new)>(v: V, drops: seq<V -> bool>) {
    exists i :: 0 <= i < |drops| && drops[i](v)
  }

  ghost function Survivors<V(!new)>(vs: set<V>, drops: seq<V -> bool>): set<V> {
    set v | v in vs && !IsDropped(v, drops)
  }

  /** What a whole run does at one key, whatever stood there before. */
  datatype Effect<!V> =
    | Settle(values: set<V>)             // the outcome no longer depends on the start
    | Filter(drops: seq<V -> bool>)      // only removals of values
    | Default(value: V)                  // a value if there was none

  ghost function Outcome<V(!new)>(e: Effect<V>, before: set<V>): set<V> {
    match e
    case Settle(vs) => vs
    case Filter(drops) => Survivors(before, drops)
    case Default(v) => if before == {} then {v} else before
  }

  ghost predicate HasAddNew<K(!new), V(!new)>(ops: seq<Op<K, V>>) {
    exists i :: 0 <= i < |ops| && ops[i].AddNew?
  }

  ghost predicate HasDropValues<K(!new), V(!new)>(ops: seq<Op<K, V>>) {
    exists i :: 0 <= i < |ops| && ops[i].DropValues?
  }

  /** No first-writer step shares a table with a removal by value. */
  ghost predicate IsUniform<K(!new), V(!new)>(ops: seq<Op<K, V>>) {
    !(HasAddNew(ops) && HasDropValues(ops))
  }

  ghost function Extend<K(!new), V(!new)>(e: Effect<V>, op: Op<K, V>, k: K): Effect<V> {
    match op
    case Skip => e
    case Replace(key, v) => if key == k then Settle({v}) else e
    case AddNew(key, v) =>
      if key != k then e
      else if e.Settle? then Settle(if e.values == {} then {v} else e.values)
      else if e.Filter? then Default(v)
      else e
    case DropKeys(isDead) => if isDead(k) then Settle({}) else e
    case DropValues(isDead) =>
      if e.Settle? then Settle(Survivors(e.values, [isDead]))
      else if e.Filter? then Filter(e.drops + [isDead])
      else e
  }

  ghost function EffectOf<K(!new), V(!new)>(ops: seq<Op<K, V>>, k: K): Effect<V>
    decreases |ops|
  {
    if ops == [] then Filter([]) else Extend(EffectOf(ops[..|ops| - 1], k), ops[|ops| - 1], k)
  }

  ghost predicate Fits<K(!new), V(!new)>(e: Effect<V>, ops: seq<Op<K, V>>) {
    && (e.Default? ==> HasAddNew(ops))
    && (e.Filter? && e.drops != [] ==> HasDropValues(ops))
  }

  /** What happens to a map is the step on its relation. */
  lemma MapStepRel<K(!new), V(!new)>(m: map<K, V>, op: Op<K, V>)
    ensures MapRel(MapStep(m, op)) == Step(MapRel(m), op)
  {
    var m' := MapStep(m, op);
    forall p: (K, V) ensures p in MapRel(m') <==> p in Step(MapRel(m), op) {
      assert p in MapRel(m') <==> p.0 in m' && m'[p.0] == p.1;
      assert p in MapRel(m) <==> p.0 in m && m[p.0] == p.1;
      if op.AddNew? && op.key in m { assert (op.key, m[op.key]) in MapRel(m); }
    }
  }

  /** What happens to a vector is the step on its relation, as long as new rows carry their own key. */
  lemma VecStepRel<K(!new), V(!new)>(xs: seq<V>, keyOf: V -> K, op: Op<K, V>)
    requires op.Replace? || op.AddNew? ==> keyOf(op.value) == op.key
    ensures VecRel(VecStep(xs, keyOf, op), keyOf) == Step(VecRel(xs, keyOf), op)
  {
  }

  lemma MapRelDetermines<K(!new), V(!new)>(a: map<K, V>, b: map<K, V>)
    requires MapRel(a) == MapRel(b)
    ensures a == b
  {
    forall k ensures k in a <==> k in b {
      assert k in a <==> exists v :: (k, v) in MapRel(a) by { if k in a { assert (k, a[k]) in MapRel(a); } }
      assert k in b <==> exists v :: (k, v) in MapRel(b) by { if k in b { assert (k, b[k]) in MapRel(b); } }
    }
    forall k | k in a ensures a[k] == b[k] { assert (k, a[k]) in MapRel(a); }
  }

  lemma StepAt<K(!new), V(!new)>(r: set<(K, V)>, op: Op<K, V>, k: K)
    ensures At(Step(r, op), k) ==
      match op
      case Skip => At(r, k)
      case Replace(key, v) => if key == k then {v} else At(r, k)
      case AddNew(key, v) => if key == k && At(r, k) == {} then {v} else At(r, k)
      case DropKeys(isDead) => if isDead(k) then {} else At(r, k)
      case DropValues(isDead) => Survivors(At(r, k), [isDead])
  {
    match op
    case Skip =>
    case Replace(key, v) =>
      assert forall x :: x in At(Step(r, op), k) <==> (k, x) in Step(r, op);
    case AddNew(key, v) =>
      assert forall p :: p in r && p.0 == key ==> p.1 in At(r, key);
      assert forall x :: x in At(Step(r, op), k) <==> (k, x) in Step(r, op);
    case DropKeys(_) =>
    case DropValues(isDead) =>
      assert forall x: V :: IsDropped(x, [isDead]) <==> isDead(x) by {
        forall x: V | isDead(x) ensures IsDropped(x, [isDead]) { assert [isDead][0](x); }
      }
      assert forall x :: x in At(Step(r, op), k) <==> (k, x) in Step(r, op);
      assert forall x :: x in At(r, k) <==> (k, x) in r;
  }

  /** A run at one key is its effect: constant, a filter, or a default. */
  lemma {:induction false} RunAt<K(!new), V(!new)>(r: set<(K, V)>, ops: seq<Op<K, V>>, k: K)
    requires IsUniform(ops)
    ensures At(Run(r, ops), k) == Outcome(EffectOf(ops, k), At(r, k))
    ensures Fits(EffectOf(ops, k), ops)
    decreases |ops|
  {
    if ops == [] {
      assert Survivors(At(r, k), []) == At(r, k);
    } else {
      var front, last := ops[..|ops| - 1], ops[|ops| - 1];
      assert forall i :: 0 <= i < |front| ==> front[i] == ops[i];
      assert HasAddNew(front) ==> HasAddNew(ops);
      assert HasDropValues(front) ==> HasDropValues(ops);
      assert last.AddNew? ==> HasAddNew(ops);
      assert last.DropValues? ==> HasDropValues(ops);
      RunAt(r, front, k);
      StepAt(Run(r, front), last, k);
      var e := EffectOf(front, k);
      if last.DropValues? && e.Filter? {
        forall x: V
          ensures IsDropped(x, e.drops + [last.isDeadValue]) <==> IsDropped(x, e.drops) || last.isDeadValue(x)
        {
          DroppedSnoc(x, e.drops, last.isDeadValue);
        }
        assert forall x: V :: IsDropped(x, [last.isDeadValue]) <==> last.isDeadValue(x) by {
          forall x: V { DroppedSnoc(x, [], last.isDeadValue); }
        }
      }
      if last.AddNew? && e.Filter? && last.key == k {
        assert e.drops == [];
        assert Survivors(At(r, k), []) == At(r, k);
      }
    }
  }

  lemma DroppedSnoc<V(!new)>(x: V, drops: seq<V -> bool>, d: V -> bool)
    ensures IsDropped(x, drops + [d]) <==> IsDropped(x, drops) || d(x)
  {
    var all := drops + [d];
    if d(x) { assert all[|drops|](x); }
    if IsDropped(x, drops) {
      var i :| 0 <= i < |drops| && drops[i](x);
      assert all[i](x);
    }
  }

  lemma OutcomeTwice<V(!new)>(e: Effect<V>, before: set<V>)
    ensures Outcome(e, Outcome(e, before)) == Outcome(e, before)
  {
  }

  lemma SameAtEveryKey<K(!new), V(!new)>(a: set<(K, V)>, b: set<(K, V)>)
    requires forall k :: At(a, k) == At(b, k)
    ensures a == b
  {
    forall p ensures p in a <==> p in b {
      assert p in a <==> p.1 in At(a, p.0);
      assert p in b <==> p.1 in At(b, p.0);
    }
  }

  /** Running the same changes a second time changes nothing. */
  lemma RunTwice<K(!new), V(!new)>(r: set<(K, V)>, ops: seq<Op<K, V>>)
    requires IsUniform(ops)
    ensures Run(Run(r, ops), ops) == Run(r, ops)
  {
    forall k ensures At(Run(Run(r, ops), ops), k) == At(Run(r, ops), k) {
      RunAt(r, ops, k);
      RunAt(Run(r, ops), ops, k);
      OutcomeTwice(EffectOf(ops, k), At(r, k));
    }
    SameAtEveryKey(Run(Run(r, ops), ops), Run(r, ops));
  }
}
