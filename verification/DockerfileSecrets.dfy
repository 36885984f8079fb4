/** The pass that mounts build secrets into RUN lines, and its relation to the forward ARG pass. */
module DockerfileSecrets {
  import opened Text
  import opened Dockerfile

  const MOUNT_FLAG := "--mount=type=secret"
  const SYNTAX_PREFIX := "# syntax="
  const SYNTAX_LINE := "# syntax=docker/dockerfile:1"
  const HASH_KEY := "COOLIFY_BUILD_SECRETS_HASH"

  function MountOf(key: string): string {
    MOUNT_FLAG + (",id=" + key + ",env=" + key)
  }

  /** One mount for each key and a last one for the secrets hash, separated by spaces. */
  function SecretMounts(keys: seq<string>): string {
    if keys == [] then MountOf(HASH_KEY) else MountOf(keys[0]) + " " + SecretMounts(keys[1..])
  }

  predicate IsMounted(line: string) {
    Contains(line, MOUNT_FLAG)
  }

  /** The lines the pass rewrites. */
  predicate NeedsMounts(line: string) {
    IsRun(line) && !IsMounted(line)
  }

  function RunWith(mounts: string, command: string): string {
    "RUN " + mounts + (" " + command)
  }

  function Mounted(line: string, mounts: string): string {
    if NeedsMounts(line) then RunWith(mounts, Trim(TrimLeft(line)[3..])) else line
  }

  function AllMounted(lines: seq<string>, mounts: string): (out: seq<string>)
    ensures |out| == |lines|
    ensures forall i :: 0 <= i < |lines| ==> out[i] == Mounted(lines[i], mounts)
  {
    if lines == [] then [] else [Mounted(lines[0], mounts)] + AllMounted(lines[1..], mounts)
  }

  /** The syntax line, when the file does not start with one. */
  function Directive(lines: seq<string>): seq<string>
    requires lines != []
  {
    if StartsWith(lines[0], SYNTAX_PREFIX) then [] else [SYNTAX_LINE]
  }

  ghost predicate AnyNeedsMounts(lines: seq<string>) {
    exists i :: 0 <= i < |lines| && NeedsMounts(lines[i])
  }

  /** The lines of the file after the pass; nothing is written unless some RUN line changes. */
  ghost function SecretPass(lines: seq<string>, keys: seq<string>): seq<string>
    requires lines != []
  {
    if keys == [] || !AnyNeedsMounts(lines) then lines
    else Directive(lines) + AllMounted(lines, SecretMounts(keys))
  }

  /* The pass as it runs. */

  lemma DirectiveNeedsNothing()
    ensures !NeedsMounts(SYNTAX_LINE)
  {
    var line := SYNTAX_LINE;
    assert line[0] == '#';
    assert !IsRun(line) by {
      assert TrimLeft(line) == line;
      assert "RUN"[0] == 'R';
    }
  }

  /** The map over the lines, with the flag its closure sets. */
  method MapMounts(dockerfile: seq<string>, mounts: string) returns (mapped: seq<string>, modified: bool)
    ensures mapped == AllMounted(dockerfile, mounts)
    ensures modified <==> AnyNeedsMounts(dockerfile)
  {
    mapped, modified := [], false;
    for i := 0 to |dockerfile|
      invariant |mapped| == i
      invariant forall j :: 0 <= j < i ==> mapped[j] == Mounted(dockerfile[j], mounts)
      invariant modified <==> exists j :: 0 <= j < i && NeedsMounts(dockerfile[j])
    {
      modified := modified || NeedsMounts(dockerfile[i]);
      mapped := mapped + [Mounted(dockerfile[i], mounts)];
    }
  }

  lemma DirectiveIsInert(lines: seq<string>, mounts: string)
    requires lines != []
    ensures AnyNeedsMounts(Directive(lines) + lines) <==> AnyNeedsMounts(lines)
    ensures AllMounted(Directive(lines) + lines, mounts) == Directive(lines) + AllMounted(lines, mounts)
  {
    DirectiveNeedsNothing();
    if Directive(lines) == [] {
      assert Directive(lines) + lines == lines;
    } else {
      assert ([SYNTAX_LINE] + lines)[1..] == lines;
      NeedsUnfolds([SYNTAX_LINE] + lines);
    }
  }

  method MountSecrets(lines: seq<string>, keys: seq<string>) returns (written: Option<seq<string>>)
    requires lines != []
    ensures written.Some? <==> keys != [] && AnyNeedsMounts(lines)
    ensures (match written case Some(out) => out case None => lines) == SecretPass(lines, keys)
  {
    var dockerfile := lines;
    if !StartsWith(dockerfile[0], SYNTAX_PREFIX) {
      dockerfile := [SYNTAX_LINE] + dockerfile;
    }
    assert dockerfile == Directive(lines) + lines;
    if keys == [] {
      return None;
    }
    DirectiveIsInert(lines, SecretMounts(keys));
    var mapped, modified := MapMounts(dockerfile, SecretMounts(keys));
    written := if modified then Some(mapped) else None;
  }

  lemma MountedOther(line: string, mounts: string)
    requires !NeedsMounts(line)
    ensures Mounted(line, mounts) == line
  {
  }

  /* What it does to single lines. */

  lemma ContainsInside(a: string, part: string, b: string)
    ensures Contains(a + part + b, part)
  {
    assert (a + part + b)[|a|..] == part + b;
  }

  lemma ContainsWider(a: string, s: string, b: string, part: string)
    requires Contains(s, part)
    ensures Contains(a + s + b, part)
  {
    var i :| 0 <= i <= |s| && part <= s[i..];
    assert (a + s + b)[|a| + i..] == s[i..] + b;
  }

  lemma MountsAreMounted(keys: seq<string>)
    ensures Contains(SecretMounts(keys), MOUNT_FLAG)
  {
    if keys == [] {
      MountHasFlag(HASH_KEY, "");
      assert MountOf(HASH_KEY) + "" == MountOf(HASH_KEY);
    } else {
      MountHasFlag(keys[0], " " + SecretMounts(keys[1..]));
      assert MountOf(keys[0]) + " " + SecretMounts(keys[1..]) == MountOf(keys[0]) + (" " + SecretMounts(keys[1..]));
    }
  }

  lemma ContainsFirst(part: string, b: string, c: string)
    ensures Contains(part + b + c, part)
  {
    ContainsInside([], part, b + c);
    assert part + b + c == [] + part + (b + c);
  }

  lemma MountHasFlag(key: string, rest: string)
    ensures Contains(MountOf(key) + rest, MOUNT_FLAG)
  {
    ContainsFirst(MOUNT_FLAG, ",id=" + key + ",env=" + key, rest);
  }

  /** A rewritten line is a RUN line with a mount, and neither a FROM nor an ARG line. */
  lemma RunWithMounts(mounts: string, command: string)
    requires Contains(mounts, MOUNT_FLAG)
    ensures !NeedsMounts(RunWith(mounts, command))
    ensures StartsR(RunWith(mounts, command))
  {
    ContainsWider("RUN ", mounts, " " + command, MOUNT_FLAG);
  }

  /** Starts with R after leading blanks: no FROM line and no ARG line does. */
  predicate StartsR(line: string) {
    TrimLeft(line) != [] && TrimLeft(line)[0] == 'R'
  }

  lemma RunStartsR(line: string)
    requires IsRun(line)
    ensures StartsR(line)
  {
    assert TrimLeft(line)[0] == "RUN"[0];
  }

  lemma NeitherFromNorArg(test: FromTest, line: string)
    requires StartsR(line)
    ensures !IsFrom(test, line) && !IsArg(line)
  {
    var l := TrimLeft(line);
    TrimRightKeeps([l[0]], l[1..]);
    assert l == [l[0]] + l[1..];
    assert Trim(line)[0] == 'R';
    assert "FROM"[0] == 'F' && "ARG"[0] == 'A';
  }

  lemma ArgLineNeedsNothing(key: string)
    ensures !NeedsMounts(ArgLine(key))
  {
    var line := ArgLine(key);
    assert line[0] == 'A';
    assert TrimLeft(line) == line;
    assert "RUN"[0] == 'R';
  }

  /** Mounting keeps what the forward pass looks at. */
  lemma MountedKeepsKind(test: FromTest, line: string, mounts: string)
    requires Contains(mounts, MOUNT_FLAG)
    ensures IsFrom(test, Mounted(line, mounts)) <==> IsFrom(test, line)
    ensures IsArg(Mounted(line, mounts)) <==> IsArg(line)
    ensures IsFrom(test, line) || IsArg(line) ==> Mounted(line, mounts) == line
    ensures !NeedsMounts(Mounted(line, mounts))
  {
    if NeedsMounts(line) {
      RunStartsR(line);
      NeitherFromNorArg(test, line);
      RunWithMounts(mounts, Trim(TrimLeft(line)[3..]));
      NeitherFromNorArg(test, RunWith(mounts, Trim(TrimLeft(line)[3..])));
    }
  }

  /* What it does to files. */

  lemma AllMountedNeedsNothing(lines: seq<string>, mounts: string)
    requires Contains(mounts, MOUNT_FLAG)
    ensures !AnyNeedsMounts(AllMounted(lines, mounts))
  {
    forall i | 0 <= i < |lines| ensures !NeedsMounts(AllMounted(lines, mounts)[i]) {
      MountedKeepsKind(ByPrefix, lines[i], mounts);
    }
  }

  lemma NeedsSplits(a: seq<string>, b: seq<string>)
    ensures AnyNeedsMounts(a + b) <==> AnyNeedsMounts(a) || AnyNeedsMounts(b)
  {
    var s := a + b;
    assert forall i :: 0 <= i < |a| ==> s[i] == a[i];
    assert forall i :: 0 <= i < |b| ==> s[i + |a|] == b[i];
    if AnyNeedsMounts(b) {
      var i :| 0 <= i < |b| && NeedsMounts(b[i]);
      assert NeedsMounts(s[i + |a|]);
    }
  }

  lemma DirectiveNeeds(lines: seq<string>)
    requires lines != []
    ensures !AnyNeedsMounts(Directive(lines))
  {
    DirectiveNeedsNothing();
  }

  /** After the pass no RUN line lacks a mount. */
  lemma SecretPassMountsAll(lines: seq<string>, keys: seq<string>)
    requires lines != [] && keys != []
    ensures !AnyNeedsMounts(SecretPass(lines, keys))
  {
    var mounts := SecretMounts(keys);
    MountsAreMounted(keys);
    AllMountedNeedsNothing(lines, mounts);
    DirectiveNeeds(lines);
    NeedsSplits(Directive(lines), AllMounted(lines, mounts));
  }

  /** Line i of the original is line i + d of the result, rewritten if it is a RUN line without a mount and unchanged
      otherwise. */
  lemma SecretPassLine(lines: seq<string>, keys: seq<string>, i: nat)
    requires i < |lines| && keys != []
    ensures var out := SecretPass(lines, keys);
            var d := |out| - |lines|;
            && (d == 0 || d == 1)
            && (d == 1 ==> out[0] == SYNTAX_LINE && !StartsWith(lines[0], SYNTAX_PREFIX) && AnyNeedsMounts(lines))
            && out[i + d] == Mounted(lines[i], SecretMounts(keys))
  {
    if AnyNeedsMounts(lines) {
      var mapped := AllMounted(lines, SecretMounts(keys));
      assert SecretPass(lines, keys) == Directive(lines) + mapped;
      assert mapped[i] == Mounted(lines[i], SecretMounts(keys));
    } else {
      MountedOther(lines[i], SecretMounts(keys));
    }
  }

  lemma SecretIdempotence(lines: seq<string>, keys: seq<string>)
    requires lines != []
    ensures SecretPass(lines, keys) != []
    ensures SecretPass(SecretPass(lines, keys), keys) == SecretPass(lines, keys)
  {
    if keys != [] {
      SecretPassMountsAll(lines, keys);
    }
  }

  /* Commuting with the forward pass. */

  lemma {:induction false} BlockSurvivesMounting(lines: seq<string>, mounts: string)
    requires Contains(mounts, MOUNT_FLAG)
    ensures BlockNames(AllMounted(lines, mounts)) == BlockNames(lines)
  {
    if lines != [] {
      MountedKeepsKind(ByPrefix, lines[0], mounts);
      BlockSurvivesMounting(lines[1..], mounts);
      assert AllMounted(lines, mounts)[1..] == AllMounted(lines[1..], mounts);
    }
  }

  lemma {:induction false} AllMountedSplits(a: seq<string>, b: seq<string>, mounts: string)
    ensures AllMounted(a + b, mounts) == AllMounted(a, mounts) + AllMounted(b, mounts)
  {
    if a == [] {
      assert a + b == b;
    } else {
      assert (a + b)[1..] == a[1..] + b;
      AllMountedSplits(a[1..], b, mounts);
    }
  }

  lemma {:induction false} AllMountedFixes(a: seq<string>, mounts: string)
    requires forall l :: l in a ==> !NeedsMounts(l)
    ensures AllMounted(a, mounts) == a
  {
    if a != [] {
      AllMountedFixes(a[1..], mounts);
      MountedOther(a[0], mounts);
    }
  }

  lemma OpeningMounted(test: FromTest, lines: seq<string>, keys: seq<string>, mounts: string)
    requires lines != [] && Contains(mounts, MOUNT_FLAG)
    ensures AllMounted(Opening(test, lines, keys), mounts) == Opening(test, AllMounted(lines, mounts), keys)
  {
    var mounted := AllMounted(lines, mounts);
    MountedKeepsKind(test, lines[0], mounts);
    assert mounted[1..] == AllMounted(lines[1..], mounts);
    BlockSurvivesMounting(lines[1..], mounts);
    var missing := Missing(keys, BlockNames(lines[1..]));
    MissingAreArgs(keys, BlockNames(lines[1..]));
    forall l | l in missing ensures !NeedsMounts(l) {
      var k :| k in keys && l == ArgLine(k);
      ArgLineNeedsNothing(k);
    }
    AllMountedFixes(missing, mounts);
    AllMountedSplits([lines[0]], missing, mounts);
    assert AllMounted([lines[0]], mounts) == [mounted[0]];
  }

  lemma {:induction false} MountingCommutes(test: FromTest, lines: seq<string>, keys: seq<string>, mounts: string)
    requires Contains(mounts, MOUNT_FLAG)
    ensures AllMounted(Injected(test, lines, keys), mounts) == Injected(test, AllMounted(lines, mounts), keys)
  {
    if lines != [] {
      MountingCommutes(test, lines[1..], keys, mounts);
      OpeningMounted(test, lines, keys, mounts);
      AllMountedSplits(Opening(test, lines, keys), Injected(test, lines[1..], keys), mounts);
      assert AllMounted(lines, mounts)[1..] == AllMounted(lines[1..], mounts);
    }
  }

  /** Injection neither adds nor removes a RUN line that needs mounts. */
  lemma {:induction false} InjectionKeepsNeeds(test: FromTest, lines: seq<string>, keys: seq<string>)
    ensures AnyNeedsMounts(Injected(test, lines, keys)) <==> AnyNeedsMounts(lines)
  {
    InjectionOnlyAdds(test, lines, keys);
    var out, marks := Injected(test, lines, keys), Added(test, lines, keys);
    forall i | 0 <= i < |out| && marks[i] ensures !NeedsMounts(out[i]) {
      var k :| k in keys && out[i] == ArgLine(k);
      ArgLineNeedsNothing(k);
    }
    UnmarkedKeepsNeeds(out, marks);
  }

  lemma {:induction false} UnmarkedKeepsNeeds(out: seq<string>, marks: seq<bool>)
    requires |out| == |marks| && forall i :: 0 <= i < |out| && marks[i] ==> !NeedsMounts(out[i])
    ensures AnyNeedsMounts(Unmarked(out, marks)) <==> AnyNeedsMounts(out)
  {
    if out != [] {
      assert marks[0] ==> !NeedsMounts(out[0]);
      assert forall i :: 0 <= i < |out[1..]| ==> out[1..][i] == out[i + 1] && marks[1..][i] == marks[i + 1];
      UnmarkedKeepsNeeds(out[1..], marks[1..]);
      NeedsUnfolds(out);
      var u, rest := Unmarked(out, marks), Unmarked(out[1..], marks[1..]);
      if marks[0] {
        assert u == rest;
      } else {
        assert u == [out[0]] + rest && u[1..] == rest;
        NeedsUnfolds(u);
      }
    }
  }

  lemma NeedsUnfolds(lines: seq<string>)
    requires lines != []
    ensures AnyNeedsMounts(lines) <==> NeedsMounts(lines[0]) || AnyNeedsMounts(lines[1..])
  {
    if AnyNeedsMounts(lines) {
      var i :| 0 <= i < |lines| && NeedsMounts(lines[i]);
      assert i > 0 ==> lines[1..][i - 1] == lines[i];
    }
    if AnyNeedsMounts(lines[1..]) {
      var i :| 0 <= i < |lines[1..]| && NeedsMounts(lines[1..][i]);
      assert lines[i + 1] == lines[1..][i];
    }
  }

  lemma SyntaxLineIsNotFrom(test: FromTest)
    ensures NoFrom(test, [SYNTAX_LINE])
  {
    var line := SYNTAX_LINE;
    assert line[0] == '#';
    TrimOfSolidStart(line);
    assert "FROM"[0] == 'F';
  }

  /** On every file the secret pass and the forward ARG pass can be run in either order. */
  lemma PassesCommute(test: FromTest, lines: seq<string>, argKeys: seq<string>, secretKeys: seq<string>)
    requires lines != []
    ensures Injected(test, lines, argKeys) != []
    ensures SecretPass(Injected(test, lines, argKeys), secretKeys)
         == Injected(test, SecretPass(lines, secretKeys), argKeys)
  {
    OpeningLength(test, lines, argKeys);
    var out := Injected(test, lines, argKeys);
    assert out[0] == lines[0];
    InjectionKeepsNeeds(test, lines, argKeys);
    if secretKeys != [] && AnyNeedsMounts(lines) {
      var mounts := SecretMounts(secretKeys);
      MountsAreMounted(secretKeys);
      MountingCommutes(test, lines, argKeys, mounts);
      SyntaxLineIsNotFrom(test);
      InjectedSkips(test, Directive(lines), AllMounted(lines, mounts), argKeys);
    }
  }
}
