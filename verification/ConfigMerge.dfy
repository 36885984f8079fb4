/** The deep merge of the generated build configuration: PHP arrays as ordered maps. */
module ConfigMerge {
  import opened Text

  datatype Key = IntKey(n: int) | StrKey(name: string)

  datatype Entry = Entry(key: Key, value: Value)

  datatype Value = Scalar(text: string) | Arr(entries: seq<Entry>)

  /** A PHP array holds each key once, at every depth. */
  ghost predicate WellFormed(v: Value) {
    v.Arr? ==>
      && Distinct(v.entries)
      && forall i :: 0 <= i < |v.entries| ==> WellFormed(v.entries[i].value)
  }

  ghost predicate Distinct(entries: seq<Entry>) {
    forall i, j :: 0 <= i < j < |entries| ==> entries[i].key != entries[j].key
  }

  predicate HasKey(entries: seq<Entry>, key: Key) {
    exists i :: 0 <= i < |entries| && entries[i].key == key
  }

  /** The position of a key, or the length when it is absent. */
  function IndexOf(entries: seq<Entry>, key: Key): (i: nat)
    ensures i <= |entries|
    ensures i < |entries| ==> entries[i].key == key
    ensures forall j :: 0 <= j < i ==> entries[j].key != key
    ensures i < |entries| <==> HasKey(entries, key)
  {
    if entries == [] then 0
    else if entries[0].key == key then 0
    else
      var r := IndexOf(entries[1..], key);
      assert forall j :: 0 < j < |entries| ==> entries[j] == entries[1..][j - 1];
      r + 1
  }

  /** The keys count up from 0 in order, which makes a PHP array a list. */
  predicate IsList(entries: seq<Entry>) {
    forall i :: 0 <= i < |entries| ==> entries[i].key == IntKey(i)
  }

  predicate IsAssoc(v: Value) {
    v.Arr? && v.entries != [] && !IsList(v.entries)
  }

  /** What an override puts at a key that the base has: both associative arrays are merged, anything else is
      replaced. */
  function Combine(base: Value, override: Value): Value
    decreases override, 2
  {
    if IsAssoc(base) && IsAssoc(override) then Merge(base, override) else override
  }

  /** The base's keys in their order with the overrides combined in, then the new keys in the overrides' order. */
  function Merge(base: Value, overrides: Value): Value
    requires base.Arr? && overrides.Arr?
    decreases overrides, 1
  {
    var a := base.entries;
    Arr(seq(|a|, i requires 0 <= i < |a| => Overridden(a[i], overrides)) + NewEntries(a, overrides.entries))
  }

  /** What becomes of one entry of the base. */
  function Overridden(entry: Entry, overrides: Value): (r: Entry)
    requires overrides.Arr?
    ensures r.key == entry.key
    decreases overrides, 0
  {
    var j := IndexOf(overrides.entries, entry.key);
    if j < |overrides.entries| then Entry(entry.key, Combine(entry.value, overrides.entries[j].value)) else entry
  }

  function NewEntries(a: seq<Entry>, b: seq<Entry>): seq<Entry> {
    if b == [] then []
    else NewEntries(a, b[..|b| - 1]) + (if HasKey(a, b[|b| - 1].key) then [] else [b[|b| - 1]])
  }

  /* The loop. */

  lemma {:induction false} NewEntriesFacts(a: seq<Entry>, b: seq<Entry>)
    ensures forall e :: e in NewEntries(a, b) <==> e in b && !HasKey(a, e.key)
  {
    if b != [] {
      NewEntriesFacts(a, b[..|b| - 1]);
      assert b == b[..|b| - 1] + [b[|b| - 1]];
    }
  }

  lemma IndexOfUnique(entries: seq<Entry>, i: nat)
    requires Distinct(entries) && i < |entries|
    ensures IndexOf(entries, entries[i].key) == i
  {
  }

  /** The position of a key among the merged entries: where the base has it, else among the new ones. */
  lemma MergedIndex(a: seq<Entry>, b: seq<Entry>, key: Key)
    ensures var out := Merge(Arr(a), Arr(b)).entries;
            && (HasKey(a, key) ==> IndexOf(out, key) == IndexOf(a, key))
            && (!HasKey(a, key) ==> (IndexOf(out, key) < |out| <==> HasKey(b, key)))
  {
    var out := Merge(Arr(a), Arr(b)).entries;
    NewEntriesFacts(a, b);
    assert forall i :: 0 <= i < |a| ==> out[i].key == a[i].key;
    if !HasKey(a, key) && HasKey(b, key) {
      var j :| 0 <= j < |b| && b[j].key == key;
      assert b[j] in NewEntries(a, b);
      var n :| 0 <= n < |NewEntries(a, b)| && NewEntries(a, b)[n] == b[j];
      assert out[|a| + n].key == key;
    }
    if !HasKey(a, key) && HasKey(out, key) {
      var i :| 0 <= i < |out| && out[i].key == key;
      assert out[i] == NewEntries(a, b)[i - |a|];
      assert out[i] in NewEntries(a, b);
    }
  }

  lemma PrefixIndex(b: seq<Entry>, i: nat, key: Key)
    requires Distinct(b) && i < |b|
    ensures b[i].key == key ==> IndexOf(b[..i], key) == i && IndexOf(b[..i + 1], key) == i
    ensures b[i].key != key ==>
              (IndexOf(b[..i], key) < i <==> IndexOf(b[..i + 1], key) < i + 1)
              && (IndexOf(b[..i], key) < i ==> IndexOf(b[..i + 1], key) == IndexOf(b[..i], key))
  {
    var before, after := IndexOf(b[..i], key), IndexOf(b[..i + 1], key);
    if b[i].key == key {
      assert forall k :: 0 <= k < i ==> b[..i + 1][k].key != key && b[..i][k].key != key;
      assert b[..i + 1][i].key == key;
    } else {
      if before < i { assert b[..i + 1][before] == b[before]; }
      if after < i + 1 { assert b[..i + 1][after] == b[after] == b[..i][after]; }
    }
  }

  /** One more override changes only the entry with its key. */
  lemma OverriddenStep(e: Entry, b: seq<Entry>, i: nat)
    requires Distinct(b) && i < |b|
    ensures e.key == b[i].key ==>
              && Overridden(e, Arr(b[..i])) == e
              && Overridden(e, Arr(b[..i + 1])) == Entry(e.key, Combine(e.value, b[i].value))
    ensures e.key != b[i].key ==> Overridden(e, Arr(b[..i + 1])) == Overridden(e, Arr(b[..i]))
  {
    PrefixIndex(b, i, e.key);
  }

  lemma NewEntriesStep(a: seq<Entry>, b: seq<Entry>, i: nat)
    requires i < |b|
    ensures NewEntries(a, b[..i + 1]) == NewEntries(a, b[..i]) + (if HasKey(a, b[i].key) then [] else [b[i]])
  {
    assert b[..i + 1][..i] == b[..i] && b[..i + 1][i] == b[i];
  }

  /** One more override updates one entry of the merged array, or appends one. */
  lemma MergeStep(a: seq<Entry>, b: seq<Entry>, i: nat)
    requires Distinct(a) && Distinct(b) && i < |b|
    ensures var out := Merge(Arr(a), Arr(b[..i])).entries;
            var p := IndexOf(out, b[i].key);
            && (p < |out| ==> p < |a| && out[p] == a[p])
            && Merge(Arr(a), Arr(b[..i + 1])).entries ==
              if p < |out| then out[p := Entry(b[i].key, Combine(out[p].value, b[i].value))] else out + [b[i]]
  {
    hide Combine, Overridden, NewEntries, IndexOf;
    var key := b[i].key;
    var out := Merge(Arr(a), Arr(b[..i])).entries;
    var next := Merge(Arr(a), Arr(b[..i + 1])).entries;
    NewEntriesStep(a, b, i);
    MergedIndex(a, b[..i], key);
    PrefixIndex(b, i, key);
    forall j | 0 <= j < |a|
      ensures next[j] == if a[j].key == key then Entry(key, Combine(out[j].value, b[i].value)) else out[j]
    {
      OverriddenStep(a[j], b, i);
    }
    if HasKey(a, key) {
      var p := IndexOf(a, key);
      OverriddenStep(a[p], b, i);
      assert next == out[p := Entry(key, Combine(out[p].value, b[i].value))];
    } else {
      assert next == out + [b[i]];
    }
  }

  /** The recursive loop: override keys one by one, in place when the base has the key and at the end otherwise. */
  method MergeRailpackConfig(base: Value, overrides: Value) returns (merged: Value)
    requires base.Arr? && overrides.Arr? && WellFormed(base) && WellFormed(overrides)
    ensures merged == Merge(base, overrides)
    decreases overrides
  {
    var a, b := base.entries, overrides.entries;
    var out := a;
    MergeEmpty(base);
    assert b[..0] == [];
    hide Merge, IndexOf, Distinct;
    for i := 0 to |b|
      invariant out == Merge(Arr(a), Arr(b[..i])).entries
    {
      var key, value := b[i].key, b[i].value;
      var p := IndexOf(out, key);
      MergeStep(a, b, i);
      if p < |out| && IsAssoc(out[p].value) && IsAssoc(value) {
        var child := MergeRailpackConfig(out[p].value, value);
        out := out[p := Entry(key, child)];
      } else if p < |out| {
        out := out[p := Entry(key, value)];
      } else {
        out := out + [Entry(key, value)];
      }
    }
    assert b[..|b|] == b;
    merged := Arr(out);
  }

  /* Laws. */

  lemma MergeEmpty(a: Value)
    requires a.Arr?
    ensures Merge(a, Arr([])) == a
  {
    assert Merge(a, Arr([])).entries == a.entries;
  }

  /** The base's keys stay a prefix of the merged keys, so merging two associative arrays never yields a list. */
  lemma MergeStaysAssoc(a: Value, b: Value)
    requires IsAssoc(a) && b.Arr?
    ensures |Merge(a, b).entries| >= |a.entries|
    ensures forall i :: 0 <= i < |a.entries| ==> Merge(a, b).entries[i].key == a.entries[i].key
    ensures IsAssoc(Merge(a, b))
  {
    var i :| 0 <= i < |a.entries| && a.entries[i].key != IntKey(i);
    assert Merge(a, b).entries[i].key != IntKey(i);
  }

  lemma NoNewEntries(a: seq<Entry>, b: seq<Entry>)
    requires forall e :: e in b ==> HasKey(a, e.key)
    ensures NewEntries(a, b) == []
  {
    NewEntriesFacts(a, b);
    assert forall i :: 0 <= i < |NewEntries(a, b)| ==> NewEntries(a, b)[i] in NewEntries(a, b);
  }

  lemma OverriddenAt(e: Entry, overrides: Value, n: nat)
    requires overrides.Arr? && Distinct(overrides.entries)
    requires n < |overrides.entries| && overrides.entries[n].key == e.key
    ensures Overridden(e, overrides) == Entry(e.key, Combine(e.value, overrides.entries[n].value))
  {
    IndexOfUnique(overrides.entries, n);
  }

  lemma {:induction false} MergeSelf(a: Value)
    requires a.Arr? && WellFormed(a)
    ensures Merge(a, a) == a
    decreases a, 0
  {
    var e, m := a.entries, Merge(a, a).entries;
    NoNewEntries(e, e);
    forall i | 0 <= i < |e| ensures m[i] == e[i] {
      OverriddenAt(e[i], a, i);
      CombineSelf(e[i].value);
    }
    assert m == e;
  }

  lemma {:induction false} CombineSelf(v: Value)
    requires WellFormed(v)
    ensures Combine(v, v) == v
    decreases v, 1
  {
    if IsAssoc(v) {
      MergeSelf(v);
    }
  }

  lemma {:induction false} CombineTwice(a: Value, b: Value)
    requires WellFormed(a) && WellFormed(b)
    ensures Combine(Combine(a, b), b) == Combine(a, b)
    decreases b, 2
  {
    if IsAssoc(a) && IsAssoc(b) {
      MergeStaysAssoc(a, b);
      MergeTwice(a, b);
    } else {
      CombineSelf(b);
    }
  }

  /** Applying the same overrides again changes nothing, at any depth. */
  lemma {:induction false} MergeTwice(a: Value, b: Value)
    requires a.Arr? && b.Arr? && WellFormed(a) && WellFormed(b)
    ensures Merge(Merge(a, b), b) == Merge(a, b)
    decreases b, 1
  {
    var m := Merge(a, b);
    NothingNewTwice(a, b);
    forall i | 0 <= i < |m.entries| ensures Overridden(m.entries[i], b) == m.entries[i] {
      if i < |a.entries| {
        OverriddenTwice(a.entries[i], b);
      } else {
        NewEntriesFacts(a.entries, b.entries);
        assert m.entries[i] in NewEntries(a.entries, b.entries);
        var n :| 0 <= n < |b.entries| && b.entries[n] == m.entries[i];
        OverriddenAt(m.entries[i], b, n);
        CombineSelf(b.entries[n].value);
      }
    }
    assert Merge(m, b).entries == m.entries;
  }

  lemma NothingNewTwice(a: Value, b: Value)
    requires a.Arr? && b.Arr?
    ensures NewEntries(Merge(a, b).entries, b.entries) == []
  {
    assert a == Arr(a.entries) && b == Arr(b.entries);
    forall x | x in b.entries ensures HasKey(Merge(a, b).entries, x.key) {
      MergedIndex(a.entries, b.entries, x.key);
    }
    NoNewEntries(Merge(a, b).entries, b.entries);
  }

  lemma {:induction false} OverriddenTwice(e: Entry, b: Value)
    requires b.Arr? && WellFormed(e.value) && WellFormed(b)
    ensures Overridden(Overridden(e, b), b) == Overridden(e, b)
    decreases b, 0
  {
    var j := IndexOf(b.entries, e.key);
    if j < |b.entries| {
      CombineTwice(e.value, b.entries[j].value);
    }
  }

  lemma {:induction false} NewEntriesDistinct(a: seq<Entry>, b: seq<Entry>)
    requires Distinct(b)
    ensures Distinct(NewEntries(a, b))
  {
    if b != [] {
      var n, before := |b| - 1, NewEntries(a, b[..|b| - 1]);
      NewEntriesDistinct(a, b[..n]);
      NewEntriesFacts(a, b[..n]);
      forall i | 0 <= i < |before| ensures before[i].key != b[n].key {
        assert before[i] in before;
        var j :| 0 <= j < n && b[..n][j] == before[i];
        assert b[j] == before[i];
      }
    }
  }

  /** Merging PHP arrays gives a PHP array: no key occurs twice, at any depth. */
  lemma {:induction false} MergeStaysWellFormed(a: Value, b: Value)
    requires a.Arr? && b.Arr? && WellFormed(a) && WellFormed(b)
    ensures WellFormed(Merge(a, b))
    decreases b, 1
  {
    var x, y, m := a.entries, b.entries, Merge(a, b).entries;
    NewEntriesDistinct(x, y);
    NewEntriesFacts(x, y);
    forall i, j | 0 <= i < j < |m| ensures m[i].key != m[j].key {
      if i < |x| && j >= |x| {
        assert m[j] in NewEntries(x, y);
        assert m[i].key == x[i].key && HasKey(x, x[i].key);
      }
    }
    forall i | 0 <= i < |m| ensures WellFormed(m[i].value) {
      if i < |x| {
        CombinedWellFormed(x[i], b);
      } else {
        assert m[i] in NewEntries(x, y);
      }
    }
  }

  lemma {:induction false} CombinedWellFormed(e: Entry, b: Value)
    requires WellFormed(e.value) && b.Arr? && WellFormed(b)
    ensures WellFormed(Overridden(e, b).value)
    decreases b, 0
  {
    var j := IndexOf(b.entries, e.key);
    if j < |b.entries| && IsAssoc(e.value) && IsAssoc(b.entries[j].value) {
      MergeStaysWellFormed(e.value, b.entries[j].value);
    }
  }

  /* Which side decides each path. */

  function Lookup(v: Value, path: seq<Key>): Option<Value>
    decreases |path|
  {
    if path == [] then Some(v)
    else if v.Scalar? then None
    else
      var i := IndexOf(v.entries, path[0]);
      if i == |v.entries| then None else Lookup(v.entries[i].value, path[1..])
  }

  datatype Side = FromBase | FromOverrides | FromBoth

  /** Follow the path while both sides hold an associative array there; the overrides decide as soon as they have the
      next key. */
  function Decides(base: Value, overrides: Value, path: seq<Key>): Side
    requires base.Arr? && overrides.Arr?
    decreases |path|
  {
    if path == [] then FromBoth
    else
      var i, j := IndexOf(base.entries, path[0]), IndexOf(overrides.entries, path[0]);
      if j == |overrides.entries| then FromBase
      else if i == |base.entries| then FromOverrides
      else
        var x, y := base.entries[i].value, overrides.entries[j].value;
        if IsAssoc(x) && IsAssoc(y) then Decides(x, y, path[1..]) else FromOverrides
  }

  lemma MergedChild(a: Value, b: Value, key: Key)
    requires a.Arr? && b.Arr? && WellFormed(b)
    ensures var m, i, j := Merge(a, b).entries, IndexOf(a.entries, key), IndexOf(b.entries, key);
            var p := IndexOf(m, key);
            && (p == |m| <==> i == |a.entries| && j == |b.entries|)
            && (p < |m| ==>
                  m[p].value == (if j == |b.entries| then a.entries[i].value
                                 else if i == |a.entries| then b.entries[j].value
                                 else Combine(a.entries[i].value, b.entries[j].value)))
  {
    var m, i, j := Merge(a, b).entries, IndexOf(a.entries, key), IndexOf(b.entries, key);
    MergedIndex(a.entries, b.entries, key);
    NewEntriesFacts(a.entries, b.entries);
    assert a == Arr(a.entries) && b == Arr(b.entries);
    var p := IndexOf(m, key);
    if p < |m| && i == |a.entries| {
      assert forall k :: 0 <= k < |a.entries| ==> m[k].key == a.entries[k].key && m[k].key != key;
      assert m[p] in NewEntries(a.entries, b.entries);
      var n :| 0 <= n < |b.entries| && b.entries[n] == m[p];
      IndexOfUnique(b.entries, n);
    }
  }

  /** At every path the merged configuration is what the deciding side says there. */
  lemma {:induction false} MergeByPath(a: Value, b: Value, path: seq<Key>)
    requires a.Arr? && b.Arr? && WellFormed(a) && WellFormed(b)
    ensures match Decides(a, b, path)
            case FromBase => Lookup(Merge(a, b), path) == Lookup(a, path)
            case FromOverrides => Lookup(Merge(a, b), path) == Lookup(b, path)
            case FromBoth =>
              match (Lookup(a, path), Lookup(b, path))
              case (Some(x), Some(y)) => x.Arr? && y.Arr? && Lookup(Merge(a, b), path) == Some(Merge(x, y))
              case (_, _) => false
    decreases |path|
  {
    if path != [] {
      MergedChild(a, b, path[0]);
      var i, j := IndexOf(a.entries, path[0]), IndexOf(b.entries, path[0]);
      if i < |a.entries| && j < |b.entries| {
        var x, y := a.entries[i].value, b.entries[j].value;
        if IsAssoc(x) && IsAssoc(y) {
          MergeByPath(x, y, path[1..]);
        }
      }
    }
  }

  /* Lists. */

  /** Keys that do not just count up, in an array that is not empty. */
  predicate Keyed(v: Value) {
    v.Arr? && exists i :: 0 <= i < |v.entries| && v.entries[i].key != IntKey(i)
  }

  /** At a key of both sides arrays with keys of their own are merged; a list, an empty array or a scalar on either side
      is replaced whole by the override. */
  lemma ListsAreReplaced(a: Value, b: Value, key: Key)
    requires a.Arr? && b.Arr? && WellFormed(a) && WellFormed(b)
    requires Lookup(a, [key]).Some? && Lookup(b, [key]).Some?
    ensures var x, y := Lookup(a, [key]).value, Lookup(b, [key]).value;
            Lookup(Merge(a, b), [key]) == Some(if Keyed(x) && Keyed(y) then Merge(x, y) else y)
  {
    MergedChild(a, b, key);
    assert [key][1..] == [];
    hide Merge, WellFormed;
  }
}
