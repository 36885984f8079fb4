/** The forward and backward ARG passes as they run, splicing one line collection in place. */
module DockerfilePasses {
  import opened Text
  import opened Dockerfile

  function Spliced(items: seq<string>, offset: nat, inserted: seq<string>): (r: seq<string>)
    requires offset <= |items|
    ensures |r| == |items| + |inserted|
  {
    items[..offset] + inserted + items[offset..]
  }

  /** The mutable collection of lines both passes edit. */
  class LineCollection {
    var items: seq<string>

    constructor (lines: seq<string>)
      ensures items == lines
    {
      items := lines;
    }

    /** Inserts lines at a position and removes none. */
    method Splice(offset: nat, inserted: seq<string>)
      requires offset <= |items|
      modifies this
      ensures items == Spliced(old(items), offset, inserted)
    {
      items := items[..offset] + inserted + items[offset..];
    }
  }

  /** The positions of the stages, in order. */
  ghost predicate AreFromIndices(test: FromTest, lines: seq<string>, indices: seq<nat>) {
    && (forall j, k :: 0 <= j < k < |indices| ==> indices[j] < indices[k])
    && (forall j :: 0 <= j < |indices| ==> indices[j] < |lines| && IsFrom(test, lines[indices[j]]))
    && (forall i :: 0 <= i < |lines| && IsFrom(test, lines[i]) ==> i in indices)
  }

  method FindFromLines(test: FromTest, lines: seq<string>) returns (indices: seq<nat>)
    ensures AreFromIndices(test, lines, indices)
  {
    indices := [];
    for index := 0 to |lines|
      invariant forall j, k :: 0 <= j < k < |indices| ==> indices[j] < indices[k]
      invariant forall j :: 0 <= j < |indices| ==> indices[j] < index && IsFrom(test, lines[indices[j]])
      invariant forall i :: 0 <= i < index && IsFrom(test, lines[i]) ==> i in indices
    {
      if IsFrom(test, lines[index]) {
        indices := indices + [index];
      }
    }
  }

  /** Where stage number s starts, or the end of the file after the last stage. */
  function StageStart(lines: seq<string>, indices: seq<nat>, s: nat): nat
    requires s <= |indices|
  {
    if s < |indices| then indices[s] else |lines|
  }

  lemma StageShape(test: FromTest, lines: seq<string>, indices: seq<nat>, s: nat)
    requires AreFromIndices(test, lines, indices) && s < |indices|
    ensures indices[s] < StageStart(lines, indices, s + 1) <= |lines|
    ensures IsFrom(test, lines[indices[s]])
    ensures NoFrom(test, lines[indices[s] + 1..StageStart(lines, indices, s + 1)])
  {
    var f, n := indices[s], StageStart(lines, indices, s + 1);
    forall j | 0 <= j < |indices| ensures indices[j] <= f || n <= indices[j] {
      assert j <= s || s + 1 == j || indices[s + 1] < indices[j];
    }
    assert forall i :: f < i < n ==> i !in indices;
  }

  lemma PreambleShape(test: FromTest, lines: seq<string>, indices: seq<nat>)
    requires AreFromIndices(test, lines, indices)
    ensures StageStart(lines, indices, 0) <= |lines|
    ensures NoFrom(test, lines[..StageStart(lines, indices, 0)])
  {
    assert forall j :: 0 <= j < |indices| ==> StageStart(lines, indices, 0) <= indices[j];
    assert forall i :: 0 <= i < StageStart(lines, indices, 0) ==> i !in indices;
  }

  /** The inner loop: the names declared by the leading ARG block of lines[start..end]. */
  method ExistingStageArgs(lines: seq<string>, start: nat, end: nat) returns (names: seq<string>)
    requires start <= end <= |lines|
    ensures names == BlockNames(lines[start..end])
  {
    names := [];
    var i := start;
    while i < end
      invariant start <= i <= end
      invariant BlockNames(lines[start..end]) == names + BlockNames(lines[i..end])
      decreases end - i
    {
      var line := lines[i];
      assert lines[i..end][1..] == lines[i + 1..end];
      if !IsArg(line) {
        break;
      }
      var name := ArgName(line);
      if name.Some? {
        names := names + [name.value];
      }
      i := i + 1;
    }
    assert i == end ==> lines[i..end] == [];
  }

  /** The filter: ARG lines for the keys that are not declared. */
  method StageArgsToAdd(keys: seq<string>, declared: seq<string>) returns (args: seq<string>)
    ensures args == Missing(keys, declared)
  {
    args := [];
    assert keys[0..] == keys;
    for i := 0 to |keys|
      invariant args + Missing(keys[i..], declared) == Missing(keys, declared)
    {
      assert keys[i..][1..] == keys[i + 1..];
      if Trim(keys[i]) !in declared {
        args := args + [ArgLine(keys[i])];
      }
    }
  }

  /** One stage further, the settled part of the collection grows by that stage. */
  lemma InjectedGrows(test: FromTest, lines: seq<string>, keys: seq<string>, f: nat, n: nat)
    requires f < n <= |lines| && IsFrom(test, lines[f]) && NoFrom(test, lines[f + 1..n])
    ensures Injected(test, lines[..n], keys)
         == Injected(test, lines[..f], keys)
            + ([lines[f]] + Missing(keys, BlockNames(lines[f + 1..n])) + lines[f + 1..n])
  {
    var stage := [lines[f]] + lines[f + 1..n];
    assert lines[..n] == lines[..f] + stage;
    InjectedSplits(test, lines[..f], stage, keys);
    StageInjected(test, lines[f], lines[f + 1..n], keys);
  }

  /** The ARG lines a stage is missing. */
  function StageNeeds(items: seq<string>, fromLine: nat, stageEnd: nat, keys: seq<string>): seq<string>
    requires fromLine < stageEnd <= |items|
  {
    Missing(keys, BlockNames(items[fromLine + 1..stageEnd]))
  }

  /** One stage of the forward pass: read its leading block, splice in what is missing right after its FROM line. */
  method InjectStage(dockerfile: LineCollection, fromLine: nat, stageEnd: nat, keys: seq<string>) returns (added: nat)
    requires fromLine < stageEnd <= |dockerfile.items|
    modifies dockerfile
    ensures var args := StageNeeds(old(dockerfile.items), fromLine, stageEnd, keys);
            added == |args| && dockerfile.items == Spliced(old(dockerfile.items), fromLine + 1, args)
  {
    var existing := ExistingStageArgs(dockerfile.items, fromLine + 1, stageEnd);
    var stageArgs := StageArgsToAdd(keys, existing);
    added := |stageArgs|;
    if stageArgs != [] {
      dockerfile.Splice(fromLine + 1, stageArgs);
    } else {
      assert Spliced(dockerfile.items, fromLine + 1, []) == dockerfile.items;
    }
  }

  /** Where stage lines[f..n] sits once the lines before f have become settled. */
  lemma StageSlices(settled: seq<string>, lines: seq<string>, f: nat, n: nat)
    requires f < n <= |lines|
    ensures var items, at := settled + lines[f..], |settled|;
            && items[..at + 1] == settled + [lines[f]]
            && items[at + 1..] == lines[f + 1..n] + lines[n..]
            && items[at + 1..at + (n - f)] == lines[f + 1..n]
  {
  }

  lemma Regroup(a: seq<string>, b: seq<string>, c: seq<string>, d: seq<string>, e: seq<string>)
    ensures (a + b) + c + (d + e) == (a + (b + c + d)) + e
  {
  }

  /** The stages before line n are done, and the collection has grown by offset. */
  ghost predicate Settled(test: FromTest, lines: seq<string>, keys: seq<string>, n: nat, items: seq<string>,
                          offset: int)
  {
    n <= |lines| && items == Injected(test, lines[..n], keys) + lines[n..] && offset == |items| - |lines|
  }

  lemma ForwardStep(test: FromTest, lines: seq<string>, keys: seq<string>, settled: seq<string>, f: nat, n: nat)
    requires f < n <= |lines| && IsFrom(test, lines[f]) && NoFrom(test, lines[f + 1..n])
    requires settled == Injected(test, lines[..f], keys)
    ensures var items, at := settled + lines[f..], |settled|;
            Spliced(items, at + 1, StageNeeds(items, at, at + (n - f), keys))
            == Injected(test, lines[..n], keys) + lines[n..]
  {
    hide IsFrom, Injected, Missing, BlockNames, NoFrom;
    InjectedGrows(test, lines, keys, f, n);
    StageSlices(settled, lines, f, n);
    Regroup(settled, [lines[f]], Missing(keys, BlockNames(lines[f + 1..n])), lines[f + 1..n], lines[n..]);
  }

  /** What one stage's splice makes of a collection whose earlier stages are settled. */
  lemma SettledStep(test: FromTest, lines: seq<string>, keys: seq<string>, indices: seq<nat>, s: nat,
                    items: seq<string>, offset: int)
    requires AreFromIndices(test, lines, indices) && s < |indices|
    requires Settled(test, lines, keys, indices[s], items, offset)
    ensures var f, n := indices[s], StageStart(lines, indices, s + 1);
            && 0 <= f + offset < n + offset <= |items| && (n == |lines| ==> n + offset == |items|)
            && var args := StageNeeds(items, f + offset, n + offset, keys);
               Settled(test, lines, keys, n, Spliced(items, f + offset + 1, args), offset + |args|)
  {
    StageShape(test, lines, indices, s);
    hide IsFrom, Injected, NoFrom, AreFromIndices, Spliced, StageNeeds;
    var f, n := indices[s], StageStart(lines, indices, s + 1);
    var settled := Injected(test, lines[..f], keys);
    ForwardStep(test, lines, keys, settled, f, n);
    assert |items| == |settled| + (|lines| - f);
  }

  lemma SettledStarts(test: FromTest, lines: seq<string>, keys: seq<string>, indices: seq<nat>)
    requires AreFromIndices(test, lines, indices)
    ensures Settled(test, lines, keys, StageStart(lines, indices, 0), lines, 0)
  {
    PreambleShape(test, lines, indices);
    InjectedNoFrom(test, lines[..StageStart(lines, indices, 0)], keys);
  }

  lemma SettledEnds(test: FromTest, lines: seq<string>, keys: seq<string>, items: seq<string>, offset: int)
    requires Settled(test, lines, keys, |lines|, items, offset)
    ensures items == Injected(test, lines, keys)
  {
    hide Injected;
    assert lines[..|lines|] == lines;
  }

  /** The forward pass: stages in order, each shifted by what was added before it. */
  method InjectArgs(test: FromTest, dockerfile: LineCollection, keys: seq<string>) returns (totalAdded: nat)
    modifies dockerfile
    ensures dockerfile.items == Injected(test, old(dockerfile.items), keys)
    ensures totalAdded == |dockerfile.items| - |old(dockerfile.items)|
  {
    hide IsFrom, Injected, AreFromIndices, Settled, Spliced, StageNeeds;
    ghost var lines := dockerfile.items;
    var fromIndices := FindFromLines(test, dockerfile.items);
    totalAdded := 0;
    var offset := 0;
    var s := 0;
    SettledStarts(test, lines, keys, fromIndices);
    while s < |fromIndices|
      invariant 0 <= s <= |fromIndices|
      invariant Settled(test, lines, keys, StageStart(lines, fromIndices, s), dockerfile.items, offset)
      invariant totalAdded == offset == |dockerfile.items| - |lines|
    {
      SettledStep(test, lines, keys, fromIndices, s, dockerfile.items, offset);
      var adjustedIndex := fromIndices[s] + offset;
      var stageEnd := if s + 1 < |fromIndices| then fromIndices[s + 1] + offset else |dockerfile.items|;
      var added := InjectStage(dockerfile, adjustedIndex, stageEnd, keys);
      totalAdded := totalAdded + added;
      offset := offset + added;
      s := s + 1;
    }
    SettledEnds(test, lines, keys, dockerfile.items, offset);
  }

  /* The backward pass. */

  lemma {:induction false} AppendedNoFrom(test: FromTest, lines: seq<string>, args: seq<string>)
    requires NoFrom(test, lines)
    ensures Appended(test, lines, args) == lines
  {
    if lines != [] {
      assert !IsFrom(test, lines[0]);
      AppendedNoFrom(test, lines[1..], args);
    }
  }

  lemma {:induction false} AppendedSplits(test: FromTest, a: seq<string>, b: seq<string>, args: seq<string>)
    ensures Appended(test, a + b, args) == Appended(test, a, args) + Appended(test, b, args)
  {
    if a == [] {
      assert a + b == b;
    } else {
      assert (a + b)[1..] == a[1..] + b;
      AppendedSplits(test, a[1..], b, args);
    }
  }

  lemma AppendedStage(test: FromTest, lines: seq<string>, args: seq<string>, f: nat, n: nat)
    requires f < n <= |lines| && IsFrom(test, lines[f]) && NoFrom(test, lines[f + 1..n])
    ensures Appended(test, lines[f..], args) == [lines[f]] + args + lines[f + 1..n] + Appended(test, lines[n..], args)
  {
    assert lines[f..][1..] == lines[f + 1..n] + lines[n..];
    AppendedSplits(test, lines[f + 1..n], lines[n..], args);
    AppendedNoFrom(test, lines[f + 1..n], args);
  }

  lemma AppendedAfter(test: FromTest, lines: seq<string>, args: seq<string>, p: nat)
    requires p <= |lines| && NoFrom(test, lines[..p])
    ensures Appended(test, lines, args) == lines[..p] + Appended(test, lines[p..], args)
  {
    AppendedNoFrom(test, lines[..p], args);
    AppendedSplits(test, lines[..p], lines[p..], args);
    assert lines == lines[..p] + lines[p..];
  }

  /** The nested splices of one stage: the ARGs, last first, each right after the FROM line. */
  method SpliceAfter(dockerfile: LineCollection, fromLine: nat, args: seq<string>)
    requires fromLine < |dockerfile.items|
    modifies dockerfile
    ensures dockerfile.items == old(dockerfile.items[..fromLine + 1]) + args + old(dockerfile.items[fromLine + 1..])
  {
    ghost var before := dockerfile.items;
    var k := |args|;
    while k > 0
      invariant 0 <= k <= |args|
      invariant dockerfile.items == before[..fromLine + 1] + args[k..] + before[fromLine + 1..]
    {
      k := k - 1;
      ghost var was := dockerfile.items;
      assert was[..fromLine + 1] == before[..fromLine + 1];
      assert was[fromLine + 1..] == args[k + 1..] + before[fromLine + 1..];
      dockerfile.Splice(fromLine + 1, [args[k]]);
      assert args[k..] == [args[k]] + args[k + 1..];
    }
    assert args[0..] == args;
  }

  /** The lines around a FROM line at f when everything from n on has become done. */
  lemma UnsettledSlices(lines: seq<string>, done: seq<string>, f: nat, n: nat)
    requires f < n <= |lines|
    ensures var items := lines[..n] + done;
            && items[..f + 1] == lines[..f] + [lines[f]]
            && items[f + 1..] == lines[f + 1..n] + done
  {
  }

  /** The backward pass: stages last first, so that earlier positions stay right. */
  method AppendArgs(test: FromTest, dockerfile: LineCollection, args: seq<string>)
    modifies dockerfile
    ensures dockerfile.items == Appended(test, old(dockerfile.items), args)
  {
    hide IsFrom, Appended, AreFromIndices;
    ghost var lines := dockerfile.items;
    var fromLines := FindFromLines(test, dockerfile.items);
    var s := |fromLines|;
    AppendedNoFrom(test, lines[|lines|..], args);
    while s > 0
      invariant 0 <= s <= |fromLines|
      invariant StageStart(lines, fromLines, s) <= |lines|
      invariant dockerfile.items
             == lines[..StageStart(lines, fromLines, s)]
                + Appended(test, lines[StageStart(lines, fromLines, s)..], args)
    {
      ghost var n := StageStart(lines, fromLines, s);
      s := s - 1;
      StageShape(test, lines, fromLines, s);
      ghost var f := fromLines[s];
      AppendedStage(test, lines, args, f, n);
      UnsettledSlices(lines, Appended(test, lines[n..], args), f, n);
      Regroup(lines[..f], [lines[f]], args, lines[f + 1..n], Appended(test, lines[n..], args));
      SpliceAfter(dockerfile, fromLines[s], args);
    }
    PreambleShape(test, lines, fromLines);
    AppendedAfter(test, lines, args, StageStart(lines, fromLines, 0));
  }
}
