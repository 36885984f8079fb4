/** What a second service makes of a Dockerfile when its mounting pass reads the first service's text as well: a file
    with every stage twice. */
module ComposeDoubling {
  import opened ComposeBuilds
  import opened ComposeLaws
  import opened Dockerfile
  import opened DockerfileLaws
  import opened DockerfileSecrets
  import opened SecretFiles
  import opened Text
  import opened TwoPasses

  /** A RUN line without mounts, read by an earlier service, spoils every later Dockerfile, unless it ended its text. */
  lemma UnmountedRunDisturbs(saved: string, content: string, keys: seq<string>, i: nat)
    requires AcceptedKeys(keys) && NewlineFree(keys) && keys != []
    requires StagedText(saved) && HasStage(content)
    requires i < |Lines(saved)| - 1 && NeedsMounts(Lines(saved)[i])
    ensures Turn(saved, content, keys, true).file != Alone(content, keys, true)
  {
    hide Lines, NeedsMounts, Turn, Alone, StagedText, HasStage;
    LaterTurnExactly(saved, content, keys);
    JoinedNeeds(saved, OwnText(content, keys));
    var front := Lines(saved)[..|Lines(saved)| - 1];
    assert NeedsMounts(front[i]);
  }

  /* Counting stages. */

  lemma {:induction false} StagesSplit(a: seq<string>, b: seq<string>)
    ensures StageCount(ByPrefix, a + b) == StageCount(ByPrefix, a) + StageCount(ByPrefix, b)
  {
    if a == [] {
      assert a + b == b;
    } else {
      assert (a + b)[1..] == a[1..] + b;
      StagesSplit(a[1..], b);
    }
  }

  lemma {:induction false} SameStages(a: seq<string>, b: seq<string>)
    requires |a| == |b| && forall i :: 0 <= i < |a| ==> (IsFrom(ByPrefix, a[i]) <==> IsFrom(ByPrefix, b[i]))
    ensures StageCount(ByPrefix, a) == StageCount(ByPrefix, b)
  {
    hide IsFrom;
    if a != [] {
      assert IsFrom(ByPrefix, a[0]) <==> IsFrom(ByPrefix, b[0]);
      assert forall i :: 0 <= i < |a[1..]| ==> a[1..][i] == a[i + 1] && b[1..][i] == b[i + 1];
      SameStages(a[1..], b[1..]);
    }
  }

  lemma {:induction false} NoStages(a: seq<string>)
    requires NoFrom(ByPrefix, a)
    ensures StageCount(ByPrefix, a) == 0
  {
    if a != [] {
      assert !IsFrom(ByPrefix, a[0]);
      assert forall i :: 0 <= i < |a[1..]| ==> a[1..][i] == a[i + 1];
      NoStages(a[1..]);
    }
  }

  lemma {:induction false} InjectedStages(lines: seq<string>, keys: seq<string>)
    ensures StageCount(ByPrefix, Injected(ByPrefix, lines, keys)) == StageCount(ByPrefix, lines)
  {
    if lines != [] {
      InjectedStages(lines[1..], keys);
      StagesSplit(Opening(ByPrefix, lines, keys), Injected(ByPrefix, lines[1..], keys));
      var missing := Missing(keys, BlockNames(lines[1..]));
      MissingAreArgs(keys, BlockNames(lines[1..]));
      forall i | 0 <= i < |missing| ensures !IsFrom(ByPrefix, missing[i]) {
        assert missing[i] in missing;
        ArgIsNotFrom(ByPrefix, missing[i]);
      }
      NoStages(missing);
      StagesSplit([lines[0]], missing);
      assert [lines[0]][1..] == [];
    }
  }

  lemma MountedStages(lines: seq<string>, keys: seq<string>)
    requires lines != []
    ensures StageCount(ByPrefix, Directive(lines) + AllMounted(lines, SecretMounts(keys)))
         == StageCount(ByPrefix, lines)
  {
    var mounts := SecretMounts(keys);
    MountsAreMounted(keys);
    SyntaxLineIsNotFrom(ByPrefix);
    NoStages(Directive(lines));
    StagesSplit(Directive(lines), AllMounted(lines, mounts));
    forall i | 0 <= i < |lines|
      ensures IsFrom(ByPrefix, AllMounted(lines, mounts)[i]) <==> IsFrom(ByPrefix, lines[i])
    {
      MountedKeepsKind(ByPrefix, lines[i], mounts);
    }
    SameStages(AllMounted(lines, mounts), lines);
  }

  lemma RereadStages(lines: seq<string>, keys: seq<string>)
    requires SplitFile(lines)
    ensures StageCount(ByPrefix, Reread(lines, keys)) == StageCount(ByPrefix, lines)
  {
    var n := |lines| - 1;
    hide SolidEnd, Trim, TrimRight, Mounted, SecretMounts, Directive;
    MountedStages(lines, keys);
    LastTrimmed(lines[n], keys);
    var out := Directive(lines) + AllMounted(lines, SecretMounts(keys));
    assert out[|out| - 1] == Mounted(lines[n], SecretMounts(keys));
    SameButLast(out, TrimRight(out[|out| - 1]));
    SameStages(out, Reread(lines, keys));
  }

  /** A line that starts with # ends no FROM that a joint would complete. */
  lemma HashCompletesNothing(line: string, more: string)
    requires more != [] && more[0] == '#'
    ensures IsFrom(ByPrefix, line + more) <==> IsFrom(ByPrefix, line)
  {
    FromStarts(line);
    FromStarts(line + more);
    if TrimLeft(line) == [] {
      BlankFront(line, more);
      BeforeHash([], more);
      assert TrimLeft(more) == [] + more;
    } else {
      LeftGrows(line, more);
      BeforeHash(TrimLeft(line), more);
    }
  }

  lemma BeforeHash(l: string, more: string)
    requires more != [] && more[0] == '#'
    ensures "FROM" <= l + more <==> "FROM" <= l
  {
    var from := "FROM";
    assert '#' !in from && (|l| < 4 ==> from[|l|] in from);
    assert (l + more)[|l|] == '#';
  }

  lemma {:induction false} BlankFront(s: string, more: string)
    requires TrimLeft(s) == []
    ensures TrimLeft(s + more) == TrimLeft(more)
  {
    if s == [] {
      assert s + more == more;
    } else {
      assert (s + more)[1..] == s[1..] + more;
      BlankFront(s[1..], more);
    }
  }

  lemma GluedStages(front: seq<string>, back: seq<string>)
    requires front != [] && back != [] && back[0] != [] && back[0][0] == '#'
    ensures StageCount(ByPrefix, Glued(front, back)) == StageCount(ByPrefix, front) + StageCount(ByPrefix, back)
  {
    var n := |front| - 1;
    var joint := front[n] + back[0];
    HashCompletesNothing(front[n], back[0]);
    TrimOfSolidStart(back[0]);
    assert !IsFrom(ByPrefix, back[0]) by {
      assert "FROM"[0] == 'F';
    }
    hide IsFrom;
    assert front == front[..n] + [front[n]] && back == [back[0]] + back[1..];
    StagesSplit(front[..n], [front[n]]);
    StagesSplit(front[..n], [joint]);
    StagesSplit(front[..n] + [joint], back[1..]);
    StagesSplit([back[0]], back[1..]);
    OneLineStages(front[n]);
    OneLineStages(joint);
    OneLineStages(back[0]);
  }

  lemma OneLineStages(line: string)
    ensures StageCount(ByPrefix, [line]) == if IsFrom(ByPrefix, line) then 1 else 0
  {
    assert [line][1..] == [];
  }

  /* Two services. */

  lemma OwnTextStages(content: string, keys: seq<string>)
    requires AcceptedKeys(keys) && NewlineFree(keys)
    ensures StageCount(ByPrefix, Lines(OwnText(content, keys))) == StageCount(ByPrefix, Lines(Trim(content)))
  {
    hide Lines, Trim;
    InjectedStages(Lines(Trim(content)), keys);
    if RewrittenFile(content, keys).Some? {
      WrittenReadsBack(content, keys);
    }
  }

  /** If the first service mounts and the second one writes, the shared Dockerfile ends with every stage twice. */
  lemma EveryStageTwice(content: string, keys: seq<string>)
    requires AcceptedKeys(keys) && NewlineFree(keys) && keys != [] && HasStage(content)
    requires AnyNeedsMounts(Lines(OwnText(content, keys)))
    requires var first := Turn("", content, keys, true); Writes(first.saved, first.file, keys, true)
    ensures var first := Turn("", content, keys, true);
            var second := Turn(first.saved, first.file, keys, true);
            StageCount(ByPrefix, Lines(second.file)) == 2 * StageCount(ByPrefix, Lines(Trim(content)))
  {
    hide Lines, Trim, HasStage, AnyNeedsMounts, RewrittenFile, MountedFile, Reread, NewlineFree, AcceptedKeys, Glued;
    var own, first := OwnText(content, keys), Turn("", content, keys, true);
    assert "" + own == own;
    OwnTextStaged(content, keys);
    OwnTextStages(content, keys);
    MountsExactly(own, keys);
    assert first == Turned(MountedFile(own, keys).value, own);
    MountedLines(own, keys);
    MountedStarts(own, keys);
    AloneSettles(content, keys, true);
    TrimmedIsStaged(first.file);
    JoinedIsStaged(own, Trim(first.file));
    LinesGlued(own, Trim(first.file));
    MountedLines(own + Trim(first.file), keys);
    MountedStages(Glued(Lines(own), Reread(Lines(own), keys)), keys);
    RereadStages(Lines(own), keys);
    GluedStages(Lines(own), Reread(Lines(own), keys));
  }

  /** A mounted file starts with #, also when it is read again. */
  lemma MountedStarts(text: string, keys: seq<string>)
    requires NewlineFree(keys) && MountedFile(text, keys).Some?
    ensures var again := Reread(Lines(Trim(text)), keys);
            SplitFile(Lines(Trim(text))) && again != [] && again[0] != [] && again[0][0] == '#'
  {
    hide Lines, Trim, NewlineFree, SecretMounts, MountedFile, Directive;
    var lines := Lines(Trim(text));
    MountedReread(text, keys);
    PassStarts(lines, keys);
  }

  lemma TwoTurns(path: string, file: string, keys: seq<string>)
    ensures var services := [Some(path), Some(path)];
            var first := Turn("", file, keys, true);
            AllBuilt(Build(map[path := file], ""), services, keys, true).files
            == map[path := Turn(first.saved, first.file, keys, true).file]
  {
    hide Turn;
    var services, b := [Some(path), Some(path)], Build(map[path := file], "");
    assert services[..1] == [Some(path)] && services[..1][..0] == [];
    assert AllBuilt(b, [], keys, true) == b;
    assert AllBuilt(b, services[..1], keys, true) == Built(b, Some(path), keys, true);
  }

  /* One stage with one RUN line. */

  /** A FROM line and a RUN line without mounts and without hyphens. */
  ghost predicate FromAndRun(from: string, run: string) {
    && IsFrom(ByPrefix, from) && NeedsMounts(run) && '\n' !in from && '\n' !in run && '-' !in run
    && !IsBlank(from[0]) && SolidEnd(run)
  }

  function TwoLines(from: string, run: string): string {
    from + ['\n'] + run
  }

  lemma TwoLinesSplit(from: string, run: string)
    requires FromAndRun(from, run)
    ensures Lines(TwoLines(from, run)) == [from, run] && Trim(TwoLines(from, run)) == TwoLines(from, run)
    ensures HasStage(TwoLines(from, run)) && StageCount(ByPrefix, [from, run]) == 1
  {
    LinesOfPrefixedLine(from, run);
    LinesOfOneLine(run);
    TrimOfTight(TwoLines(from, run));
    RunStartsR(run);
    NeitherFromNorArg(ByPrefix, run);
    hide Lines, Trim, IsFrom;
    assert IsFrom(ByPrefix, [from, run][0]);
    assert [from] + [run] == [from, run];
    StagesSplit([from], [run]);
    OneLineStages(from);
    OneLineStages(run);
  }

  /** The text the first service's mounting pass reads. */
  lemma FirstText(from: string, run: string, keys: seq<string>)
    requires FromAndRun(from, run) && AcceptedKeys(keys) && NewlineFree(keys) && keys != []
    ensures Lines(OwnText(TwoLines(from, run), keys)) == [from] + ArgLines(keys) + [run]
  {
    var file := TwoLines(from, run);
    TwoLinesSplit(from, run);
    RunStartsR(run);
    NeitherFromNorArg(ByPrefix, run);
    hide Lines, Trim, IsFrom, NeedsMounts;
    assert BlockNames([run]) == [];
    EverythingMissing(keys, []);
    NothingDeclared(keys);
    StageInjected(ByPrefix, from, [run], keys);
    assert [from] + [run] == [from, run];
    WrittenReadsBack(file, keys);
  }

  lemma NothingDeclared(keys: seq<string>)
    ensures Missing(keys, []) == ArgLines(keys)
  {
    EverythingMissing(keys, []);
  }

  lemma NoHyphenNoMount(line: string)
    requires '-' !in line
    ensures !IsMounted(line)
  {
    var flag := MOUNT_FLAG;
    assert flag[0] == '-';
    forall i | 0 <= i <= |line| ensures !(flag <= line[i..]) {
      assert i < |line| ==> line[i..][0] == line[i] && line[i] in line;
    }
  }

  /** Joined to the directive, the RUN line still needs mounts. */
  lemma JointNeeds(run: string)
    requires NeedsMounts(run) && '-' !in run
    ensures NeedsMounts(run + SYNTAX_LINE)
  {
    var syntax := SYNTAX_LINE;
    assert '-' !in syntax;
    NoHyphenNoMount(run + syntax);
    LeftGrows(run, syntax);
  }

  lemma RereadHead(lines: seq<string>, keys: seq<string>)
    requires lines != [] && !StartsWith(lines[0], SYNTAX_PREFIX)
    ensures Reread(lines, keys)[0] == SYNTAX_LINE
  {
    hide SecretMounts;
    assert |AllMounted(lines, SecretMounts(keys))| == |lines|;
  }

  lemma ListNeeds(lines: seq<string>, i: nat)
    requires i < |lines| && NeedsMounts(lines[i])
    ensures AnyNeedsMounts(lines)
  {
  }

  /** The first service mounts, and leaves a file that starts with the directive. */
  lemma FirstMounts(from: string, run: string, keys: seq<string>)
    requires FromAndRun(from, run) && AcceptedKeys(keys) && NewlineFree(keys) && keys != []
    ensures var file := TwoLines(from, run);
            var own, first := OwnText(file, keys), Turn("", file, keys, true);
            && HasStage(file) && AnyNeedsMounts(Lines(own)) && first.saved == own
            && Lines(Trim(first.file))[0] == SYNTAX_LINE
  {
    hide Lines, Trim, HasStage, IsFrom, NeedsMounts, AnyNeedsMounts, RewrittenFile, MountedFile, StagedText;
    hide AcceptedKeys, NewlineFree, Reread, SecretMounts;
    var file := TwoLines(from, run);
    var own, front := OwnText(file, keys), [from] + ArgLines(keys) + [run];
    TwoLinesSplit(from, run);
    FirstText(from, run, keys);
    assert front[0] == from && front[|front| - 1] == run;
    ListNeeds(front, |front| - 1);
    OwnTextStaged(file, keys);
    OwnIsTrimmed(file, keys);
    MountsExactly(own, keys);
    assert "" + own == own;
    MountedLines(own, keys);
    JointIsNotSyntax(from, []);
    assert from + [] == from;
    RereadHead(front, keys);
  }

  lemma OwnIsTrimmed(content: string, keys: seq<string>)
    ensures Trim(OwnText(content, keys)) == OwnText(content, keys)
  {
    TrimIsTrimmed(InjectedFile(content, keys));
  }

  /** The second service's mounting pass reads the first one's RUN line again, without its mounts, and writes. */
  lemma SecondWrites(from: string, run: string, keys: seq<string>)
    requires FromAndRun(from, run) && AcceptedKeys(keys) && NewlineFree(keys) && keys != []
    ensures var file := TwoLines(from, run);
            var first := Turn("", file, keys, true);
            HasStage(file) && AnyNeedsMounts(Lines(OwnText(file, keys))) && Writes(first.saved, first.file, keys, true)
  {
    hide Lines, Trim, HasStage, IsFrom, NeedsMounts, AnyNeedsMounts, Turn, Writes, OwnText, AcceptedKeys, NewlineFree;
    var file := TwoLines(from, run);
    var first := Turn("", file, keys, true);
    FirstText(from, run, keys);
    FirstMounts(from, run, keys);
    JointNeeds(run);
    JoinedNeeds(OwnText(file, keys), Trim(first.file));
    SecondTurnSettles(file, keys, true);
  }

  /** A Dockerfile of one stage with one RUN line, built by two services: it ends with two stages. */
  lemma TwoServices()
    ensures var file, keys, services := "FROM a\nRUN x", ["A"], [Some("Dockerfile"), Some("Dockerfile")];
            var after := AllBuilt(Build(map["Dockerfile" := file], ""), services, keys, true).files;
            && StageCount(ByPrefix, Lines(file)) == 1
            && "Dockerfile" in after && StageCount(ByPrefix, Lines(after["Dockerfile"])) == 2
  {
    var from, run, keys := "FROM a", "RUN x", ["A"];
    var file := TwoLines(from, run);
    FromAndRunHere(from, run);
    assert file == "FROM a\nRUN x";
    hide Turn, Lines, Trim, FromAndRun, HasStage, Writes, AnyNeedsMounts, AllBuilt, StageCount, OwnText;
    TwoLinesSplit(from, run);
    SecondWrites(from, run, keys);
    TwoTurns("Dockerfile", file, keys);
    EveryStageTwice(file, keys);
  }

  lemma FromAndRunHere(from: string, run: string)
    requires from == "FROM a" && run == "RUN x"
    ensures FromAndRun(from, run)
  {
    FromLineIsFrom(ByPrefix, from);
    NoHyphenNoMount(run);
    assert run[0] == 'R' && TrimLeft(run) == run;
  }
}
