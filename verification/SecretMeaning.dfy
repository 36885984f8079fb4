/** What the secret pass does to a RUN line and what the mounts hold, in the words of the file. */
module SecretMeaning {
  import opened Dockerfile
  import opened DockerfileSecrets
  import opened Text

  predicate AllBlanks(s: string) {
    forall i :: 0 <= i < |s| ==> IsBlank(s[i])
  }

  /** The characters of a text that are not blank, in order. */
  function Solid(s: string): string {
    if s == [] then [] else (if IsBlank(s[0]) then [] else [s[0]]) + Solid(s[1..])
  }

  lemma {:induction false} SolidJoins(a: string, b: string)
    ensures Solid(a + b) == Solid(a) + Solid(b)
  {
    if a == [] {
      assert a + b == b;
    } else {
      assert (a + b)[1..] == a[1..] + b;
      SolidJoins(a[1..], b);
    }
  }

  lemma {:induction false} NoSolid(s: string)
    requires AllBlanks(s)
    ensures Solid(s) == []
  {
    if s != [] {
      assert IsBlank(s[0]) && forall i :: 0 <= i < |s[1..]| ==> s[1..][i] == s[i + 1];
      NoSolid(s[1..]);
    }
  }

  lemma {:induction false} LeftBlanks(s: string)
    ensures |TrimLeft(s)| <= |s| && AllBlanks(s[..|s| - |TrimLeft(s)|])
  {
    TrimLeftFacts(s);
    if s != [] && IsBlank(s[0]) {
      LeftBlanks(s[1..]);
      var n := |s[1..]| - |TrimLeft(s[1..])|;
      assert s[..n + 1] == [s[0]] + s[1..][..n];
    }
  }

  lemma TrimKeepsSolidText(s: string)
    ensures Solid(Trim(s)) == Solid(s)
  {
    var l, t := TrimLeft(s), Trim(s);
    TrimLeftFacts(s);
    LeftBlanks(s);
    TrimRightFacts(l);
    var n := |s| - |l|;
    assert s == s[..n] + l && l == t + l[|t|..];
    NoSolid(s[..n]);
    NoSolid(l[|t|..]);
    SolidJoins(s[..n], l);
    SolidJoins(t, l[|t|..]);
  }

  lemma {:induction false} BlanksBefore(blanks: string, rest: string)
    requires AllBlanks(blanks) && rest != [] && !IsBlank(rest[0])
    ensures TrimLeft(blanks + rest) == rest
  {
    if blanks == [] {
      assert blanks + rest == rest;
    } else {
      assert (blanks + rest)[1..] == blanks[1..] + rest;
      BlanksBefore(blanks[1..], rest);
    }
  }

  /* One line. */

  /** A line that begins with RUN behind blanks, and has no mount, is rewritten to RUN, the mounts and its command,
      trimmed; every other line stays. */
  lemma RunLineKeepsCommand(blanks: string, command: string, mounts: string)
    requires AllBlanks(blanks) && !Contains(blanks + "RUN" + command, "--mount=type=secret")
    ensures NeedsMounts(blanks + "RUN" + command)
    ensures Mounted(blanks + "RUN" + command, mounts) == "RUN " + mounts + " " + Trim(command)
  {
    var run := "RUN";
    assert run[0] == 'R';
    assert blanks + run + command == blanks + (run + command);
    BlanksBefore(blanks, run + command);
    assert (run + command)[3..] == command;
    assert "RUN " + mounts + (" " + Trim(command)) == "RUN " + mounts + " " + Trim(command);
  }

  /** Every rewritten line is of that form. */
  lemma RewrittenIsRunLine(line: string) returns (blanks: string, command: string)
    requires NeedsMounts(line)
    ensures AllBlanks(blanks) && line == blanks + "RUN" + command && !Contains(line, "--mount=type=secret")
  {
    var l := TrimLeft(line);
    LeftBlanks(line);
    TrimLeftFacts(line);
    blanks, command := line[..|line| - |l|], l[3..];
    assert l == "RUN" + command;
    assert line == blanks + l;
  }

  /** The line without its mounts. */
  function Unmounted(line: string, mounts: string): string {
    if "RUN " + mounts + " " <= line then "RUN " + line[|"RUN " + mounts + " "|..] else line
  }

  lemma TakingMountsOut(line: string, mounts: string)
    requires NeedsMounts(line)
    ensures Solid(Unmounted(Mounted(line, mounts), mounts)) == Solid(line)
  {
    var blanks, command := RewrittenIsRunLine(line);
    RunLineKeepsCommand(blanks, command, mounts);
    var front, t := "RUN " + mounts + " ", Trim(command);
    assert Mounted(line, mounts) == front + t;
    hide Mounted, NeedsMounts, Trim;
    FrontCut(front, t);
    assert Unmounted(front + t, mounts) == "RUN " + t;
    assert "RUN " == "RUN" + " ";
    NoSolid(" ");
    NoSolid(blanks);
    SolidJoins("RUN", " ");
    SolidJoins("RUN ", t);
    TrimKeepsSolidText(command);
    SolidJoins(blanks, "RUN");
    SolidJoins(blanks + "RUN", command);
  }

  lemma FrontCut(front: string, t: string)
    ensures front <= front + t && (front + t)[|front|..] == t
  {
  }

  /* Whole files. */

  /** Dropping the directive the pass added and the mounts from every line it rewrote gives the original file back, up
      to blanks around the commands. */
  lemma SecretPassOnlyAdds(lines: seq<string>, keys: seq<string>, i: nat)
    requires i < |lines| && keys != []
    ensures var out, mounts := SecretPass(lines, keys), SecretMounts(keys);
            var d := |out| - |lines|;
            && (d == 1 <==> AnyNeedsMounts(lines) && !("# syntax=" <= lines[0]))
            && (d == 1 ==> out[0] == "# syntax=docker/dockerfile:1") && (d == 0 || d == 1)
            && (!NeedsMounts(lines[i]) ==> out[i + d] == lines[i])
            && (NeedsMounts(lines[i]) ==> Solid(Unmounted(out[i + d], mounts)) == Solid(lines[i]))
  {
    SecretPassLine(lines, keys, i);
    if NeedsMounts(lines[i]) {
      TakingMountsOut(lines[i], SecretMounts(keys));
    } else {
      MountedOther(lines[i], SecretMounts(keys));
    }
    hide Solid, Unmounted, Mounted, NeedsMounts, SecretMounts;
  }

  /** The file the pass writes, line by line: a RUN line keeps its command behind the mounts. */
  lemma WrittenRunLine(lines: seq<string>, keys: seq<string>, i: nat, blanks: string, command: string)
    requires i < |lines| && keys != [] && AllBlanks(blanks) && lines[i] == blanks + "RUN" + command
    requires !Contains(lines[i], "--mount=type=secret")
    ensures var out := SecretPass(lines, keys);
            out[i + |out| - |lines|] == "RUN " + SecretMounts(keys) + " " + Trim(command)
  {
    SecretPassLine(lines, keys, i);
    RunLineKeepsCommand(blanks, command, SecretMounts(keys));
  }

  /* The mounts. */

  function MountText(key: string): string {
    "--mount=type=secret,id=" + key + ",env=" + key
  }

  lemma MountIsText(key: string)
    ensures MountOf(key) == MountText(key)
  {
    var flag, id := "--mount=type=secret", ",id=";
    assert flag + id == "--mount=type=secret,id=";
    assert flag + (id + key + ",env=" + key) == flag + id + key + ",env=" + key;
  }

  /** The mounts are those of the keys, in order, and that of the hash, with a blank between each two. */
  lemma MountsInOrder(keys: seq<string>)
    ensures keys == [] ==> SecretMounts(keys) == MountText("COOLIFY_BUILD_SECRETS_HASH")
    ensures keys != [] ==> SecretMounts(keys) == MountText(keys[0]) + " " + SecretMounts(keys[1..])
  {
    if keys == [] {
      MountIsText("COOLIFY_BUILD_SECRETS_HASH");
    } else {
      MountIsText(keys[0]);
    }
    hide MountOf, MountText;
  }

  /** Every key and the hash have their mount. */
  lemma MountsHold(keys: seq<string>, k: string)
    requires k in keys || k == "COOLIFY_BUILD_SECRETS_HASH"
    ensures Contains(SecretMounts(keys), "--mount=type=secret,id=" + k + ",env=" + k)
  {
    MountTextIs(k);
    RestHolds(keys, k, MountText(k));
  }

  lemma MountTextIs(k: string)
    ensures MountText(k) == "--mount=type=secret,id=" + k + ",env=" + k
  {
  }

  lemma InFirstOrRest(keys: seq<string>, k: string, mount: string)
    requires keys != [] && mount == MountText(k) && (k in keys || k == "COOLIFY_BUILD_SECRETS_HASH")
    ensures Contains(SecretMounts(keys), mount)
    decreases |keys|, 0
  {
    hide SecretMounts, MountText, Contains;
    MountsInOrder(keys);
    var rest := SecretMounts(keys[1..]);
    if k == keys[0] {
      StartContains(mount, " " + rest);
      assert mount + (" " + rest) == mount + " " + rest;
    } else {
      RestHolds(keys[1..], k, mount);
      var first := MountText(keys[0]) + " ";
      ContainsWider(first, rest, [], mount);
      assert first + rest + [] == first + rest;
    }
  }

  lemma RestHolds(keys: seq<string>, k: string, mount: string)
    requires mount == MountText(k) && (k in keys || k == "COOLIFY_BUILD_SECRETS_HASH")
    ensures Contains(SecretMounts(keys), mount)
    decreases |keys|, 1
  {
    hide SecretMounts, MountText, Contains;
    if keys == [] {
      MountsInOrder(keys);
      WholeContains(mount);
    } else {
      InFirstOrRest(keys, k, mount);
    }
  }

  lemma WholeContains(s: string)
    ensures Contains(s, s)
  {
    assert s[0..] == s;
  }

  lemma StartContains(s: string, rest: string)
    ensures Contains(s + rest, s)
  {
    assert (s + rest)[0..] == s + rest;
  }
}
