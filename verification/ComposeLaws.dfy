/** When the services of a compose build get the Dockerfiles that each of them would get alone, and what they get
    otherwise. */
module ComposeLaws {
  import opened ComposeBuilds
  import opened Dockerfile
  import opened DockerfileLaws
  import opened DockerfileSecrets
  import opened SecretFiles
  import opened Text
  import opened TwoPasses

  /** What a service would make of its Dockerfile if it were the only one. */
  ghost function Alone(content: string, keys: seq<string>, secrets: bool): string {
    Turn("", content, keys, secrets).file
  }

  lemma AloneMounts(content: string, keys: seq<string>, secrets: bool)
    requires HasStage(content)
    ensures Alone(content, keys, secrets)
         == if secrets then Kept(InjectedFile(content, keys), MountedFile(InjectedFile(content, keys), keys))
            else InjectedFile(content, keys)
  {
    var injected := InjectedFile(content, keys);
    assert "" + Trim(injected) == Trim(injected);
    TrimIsTrimmed(injected);
  }

  /** Alone, a file settles at once. */
  lemma AloneSettles(content: string, keys: seq<string>, secrets: bool)
    requires AcceptedKeys(keys) && NewlineFree(keys) && HasStage(content)
    ensures var file := Alone(content, keys, secrets);
            HasStage(file) && RewrittenFile(file, keys) == None && (secrets ==> MountedFile(file, keys) == None)
  {
    hide HasStage, RewrittenFile, MountedFile, Alone;
    AloneMounts(content, keys, secrets);
    InjectionKeepsStage(content, keys);
    InjectedFileComplete(content, keys);
    if secrets {
      MountingKeepsStage(InjectedFile(content, keys), keys);
      MountedFileComplete(InjectedFile(content, keys), keys);
    }
  }

  lemma AloneTwice(content: string, keys: seq<string>, secrets: bool)
    requires AcceptedKeys(keys) && NewlineFree(keys)
    ensures Alone(Alone(content, keys, secrets), keys, secrets) == Alone(content, keys, secrets)
  {
    if HasStage(content) {
      AloneSettles(content, keys, secrets);
      AloneMounts(Alone(content, keys, secrets), keys, secrets);
    }
  }

  /* One later turn. */

  /** The text this mounting pass would read alone. */
  function OwnText(content: string, keys: seq<string>): string {
    Trim(InjectedFile(content, keys))
  }

  lemma OwnTextStaged(content: string, keys: seq<string>)
    requires AcceptedKeys(keys) && HasStage(content)
    ensures StagedText(OwnText(content, keys)) && HasStage(InjectedFile(content, keys))
  {
    InjectionKeepsStage(content, keys);
    TrimmedIsStaged(InjectedFile(content, keys));
  }

  lemma SyntaxIsNotFrom(line: string)
    requires StartsWith(line, SYNTAX_PREFIX)
    ensures !IsFrom(ByPrefix, line)
  {
    var prefix := SYNTAX_PREFIX;
    assert prefix[0] == '#' && line[0] == prefix[0];
    TrimOfSolidStart(line);
    assert "FROM"[0] == 'F';
  }

  lemma JointDiffers(from: string, first: string, mounts: string)
    requires IsFrom(ByPrefix, from) && Contains(mounts, MOUNT_FLAG)
    ensures Mounted(from + first, mounts) == from + first != Mounted(first, mounts)
  {
    FromGrows(from, first);
    MountedKeepsKind(ByPrefix, from + first, mounts);
    MountedKeepsKind(ByPrefix, first, mounts);
    FromStarts(from);
    assert from != [];
  }

  lemma GluedShape(front: seq<string>, back: seq<string>)
    requires front != [] && back != []
    ensures |Glued(front, back)| == |front| + |back| - 1
    ensures Glued(front, back)[|front| - 1] == front[|front| - 1] + back[0]
    ensures |front| > 1 ==> Glued(front, back)[0] == front[0]
  {
  }

  /** Mounting a file behind an earlier text never gives what mounting the file alone gives. */
  lemma NeverTheSame(front: seq<string>, back: seq<string>, mounts: string)
    requires front != [] && back != [] && !NoFrom(ByPrefix, front) && Contains(mounts, MOUNT_FLAG)
    ensures var all := Glued(front, back);
            Directive(all) + AllMounted(all, mounts) != Directive(back) + AllMounted(back, mounts)
  {
    hide IsFrom, Mounted, Glued, NoFrom;
    var all, n := Glued(front, back), |front| - 1;
    GluedShape(front, back);
    DirectiveLength(all);
    DirectiveLength(back);
    if |Directive(all)| + n == |Directive(back)| {
      LongerThanBack(front, back);
      StageIsLast(front, back);
      JointDiffers(front[n], back[0], mounts);
      SecondElements(Directive(all), AllMounted(all, mounts), Directive(back), AllMounted(back, mounts), n);
    }
  }

  lemma SecondElements(a: seq<string>, b: seq<string>, c: seq<string>, d: seq<string>, n: nat)
    requires |a| + n == |c| == 1 && n < |b| && d != [] && b[n] != d[0]
    ensures a + b != c + d
  {
    assert (a + b)[1] == b[n] && (c + d)[1] == d[0];
  }

  /** A text read before adds at least one line, its own or the directive. */
  lemma LongerThanBack(front: seq<string>, back: seq<string>)
    requires front != [] && back != [] && !NoFrom(ByPrefix, front)
    ensures |Directive(Glued(front, back))| + |front| > 1
  {
    GluedShape(front, back);
    hide IsFrom, Glued;
    if |front| == 1 {
      JointIsNotSyntax(front[0], back[0]);
    }
  }

  lemma StageIsLast(front: seq<string>, back: seq<string>)
    requires front != [] && back != [] && !NoFrom(ByPrefix, front)
    requires |Directive(Glued(front, back))| + |front| == 2
    ensures IsFrom(ByPrefix, front[|front| - 1])
  {
    GluedShape(front, back);
    hide IsFrom, Glued;
    if |front| == 2 {
      SyntaxIsNotFrom(front[0]);
    }
  }

  lemma JointIsNotSyntax(from: string, first: string)
    requires IsFrom(ByPrefix, from)
    ensures !StartsWith(from + first, SYNTAX_PREFIX)
  {
    FromGrows(from, first);
    if StartsWith(from + first, SYNTAX_PREFIX) {
      SyntaxIsNotFrom(from + first);
    }
  }

  /** What mounting writes, as lines, and as they are read again. */
  lemma MountedLines(text: string, keys: seq<string>)
    requires NewlineFree(keys) && MountedFile(text, keys).Some?
    ensures var lines := Lines(Trim(text));
            && Lines(MountedFile(text, keys).value) == Directive(lines) + AllMounted(lines, SecretMounts(keys))
            && Lines(Trim(MountedFile(text, keys).value)) == Reread(lines, keys)
            && |Reread(lines, keys)| == |Directive(lines)| + |lines|
  {
    var lines := Lines(Trim(text));
    var out := Directive(lines) + AllMounted(lines, SecretMounts(keys));
    MountedReread(text, keys);
    RereadIsWhole(lines, keys);
    hide Lines, Trim, NewlineFree, SecretMounts, AllMounted, SplitFile;
    forall l | l in out ensures '\n' !in l {
      OutHasNoNewline(lines, keys, l);
    }
    LinesOfJoin(out);
  }

  /** Only the joined text has a line that needs mounts: the file is not left as injected. */
  lemma OnlyJoinedWrites(saved: string, injected: string, keys: seq<string>)
    requires NewlineFree(keys) && StagedText(saved) && StagedText(Trim(injected))
    requires MountedFile(saved + Trim(injected), keys).Some?
    ensures MountedFile(saved + Trim(injected), keys).value != injected
  {
    hide Lines, Trim, MountedFile, Reread, Glued, NoFrom, NewlineFree;
    var own := Trim(injected);
    JoinedIsStaged(saved, own);
    MountedLines(saved + own, keys);
    LinesGlued(saved, own);
    GluedShape(Lines(saved), Lines(own));
    LongerThanBack(Lines(saved), Lines(own));
  }

  lemma BothWrite(saved: string, own: string, keys: seq<string>)
    requires NewlineFree(keys) && StagedText(saved) && StagedText(own)
    requires MountedFile(saved + own, keys).Some? && MountedFile(own, keys).Some?
    ensures MountedFile(saved + own, keys).value != MountedFile(own, keys).value
  {
    JoinedIsStaged(saved, own);
    MountedLines(saved + own, keys);
    MountedLines(own, keys);
    LinesGlued(saved, own);
    MountsAreMounted(keys);
    hide Lines, Trim, MountedFile, Glued, SecretMounts, AllMounted, Directive, NewlineFree;
    NeverTheSame(Lines(saved), Lines(own), SecretMounts(keys));
  }

  /** Nothing in the joined text and nothing in the service's own text needs mounts. */
  ghost predicate Quiet(saved: string, own: string) {
    !AnyNeedsMounts(Lines(saved + own)) && !AnyNeedsMounts(Lines(own))
  }

  lemma MountsExactly(text: string, keys: seq<string>)
    requires keys != [] && Trim(text) == text
    ensures MountedFile(text, keys).Some? <==> AnyNeedsMounts(Lines(text))
  {
  }

  /** A later turn with secrets leaves the Dockerfile as a turn alone would, exactly when its mounting pass sees no line
      that needs mounts, neither in all it reads nor in its own text. */
  lemma LaterTurnExactly(saved: string, content: string, keys: seq<string>)
    requires AcceptedKeys(keys) && NewlineFree(keys) && keys != []
    requires StagedText(saved) && HasStage(content)
    ensures Turn(saved, content, keys, true).file == Alone(content, keys, true)
       <==> Quiet(saved, OwnText(content, keys))
  {
    var injected, own := InjectedFile(content, keys), OwnText(content, keys);
    OwnTextStaged(content, keys);
    JoinedIsStaged(saved, own);
    MountsExactly(own, keys);
    MountsExactly(saved + own, keys);
    AloneMounts(content, keys, true);
    OwnTextMounts(injected, keys);
    if MountedFile(saved + own, keys).Some? {
      OnlyJoinedWrites(saved, injected, keys);
      if MountedFile(own, keys).Some? {
        BothWrite(saved, own, keys);
      }
    } else if MountedFile(own, keys).Some? {
      NewlineFreeMounts(keys);
      MountingSettles(injected, keys);
    }
    hide HasStage, RewrittenFile, MountedFile, StagedText, Trim, Alone, AnyNeedsMounts;
  }

  lemma OwnTextMounts(injected: string, keys: seq<string>)
    ensures MountedFile(Trim(injected), keys) == MountedFile(injected, keys)
  {
    TrimIsTrimmed(injected);
  }

  /* Two services that share a Dockerfile. */

  /** Some pass of a service's turn writes the file. */
  ghost predicate Writes(saved: string, content: string, keys: seq<string>, secrets: bool) {
    HasStage(content) &&
    (RewrittenFile(content, keys).Some? || (secrets && MountedFile(TextRead(saved, content, keys), keys).Some?))
  }

  lemma TurnKeepsStage(saved: string, content: string, keys: seq<string>, secrets: bool)
    requires AcceptedKeys(keys) && HasStage(content) && (saved == "" || StagedText(saved))
    ensures HasStage(Turn(saved, content, keys, secrets).file)
  {
    hide Lines, Trim, NoFrom, MountedFile, RewrittenFile;
    OwnTextStaged(content, keys);
    var text := TextRead(saved, content, keys);
    if saved == "" {
      assert "" + OwnText(content, keys) == OwnText(content, keys);
    } else {
      JoinedIsStaged(saved, OwnText(content, keys));
    }
    MountingKeepsStage(text, keys);
  }

  /** After one service, another one that builds from the same Dockerfile writes nothing exactly when no key has a
      newline and, with secrets, no line of the two texts read so far, joined, needs mounts. */
  lemma SecondTurnSettles(content: string, keys: seq<string>, secrets: bool)
    requires AcceptedKeys(keys) && keys != [] && HasStage(content)
    ensures var first := Turn("", content, keys, secrets);
            !Writes(first.saved, first.file, keys, secrets)
            <==> && NewlineFree(keys)
                 && (secrets ==> !AnyNeedsMounts(Lines(OwnText(content, keys) + Trim(first.file))))
  {
    hide HasStage, RewrittenFile, MountedFile, Trim, AnyNeedsMounts, Lines;
    var first := Turn("", content, keys, secrets);
    TurnKeepsStage("", content, keys, secrets);
    if NewlineFree(keys) {
      AloneSettles(content, keys, secrets);
      if secrets {
        assert "" + OwnText(content, keys) == OwnText(content, keys);
        OwnTextStaged(content, keys);
        TrimmedIsStaged(first.file);
        JoinedIsStaged(OwnText(content, keys), Trim(first.file));
        MountsExactly(OwnText(content, keys) + Trim(first.file), keys);
      }
    } else {
      var k :| k in keys && '\n' in k;
      NewlineKeyIsMissing(first.file, keys, k);
    }
  }

  /* All services. */

  /** A Dockerfile as it would be after these services, if each got what it gets alone. */
  ghost function Expected(content: string, path: string, services: seq<Option<string>>, keys: seq<string>,
                          secrets: bool): string
  {
    if Some(path) in services then Alone(content, keys, secrets) else content
  }

  ghost predicate AsAlone(files: map<string, string>, services: seq<Option<string>>, keys: seq<string>, secrets: bool,
                          after: map<string, string>)
  {
    && after.Keys == files.Keys
    && forall path :: path in files ==> after[path] == Expected(files[path], path, services, keys, secrets)
  }

  /** The Dockerfile that a service finds, and whether it has a turn. */
  ghost function Found(files: map<string, string>, services: seq<Option<string>>, service: Option<string>,
                       keys: seq<string>): Option<string>
  {
    if service.Some? && service.value in files then
      var content := Expected(files[service.value], service.value, services, keys, true);
      if HasStage(content) then Some(content) else None
    else None
  }

  /** The texts that mounting reads from these services, joined. */
  ghost function JoinedTexts(files: map<string, string>, services: seq<Option<string>>, keys: seq<string>): string {
    if services == [] then ""
    else
      var n := |services| - 1;
      var before, found := JoinedTexts(files, services[..n], keys), Found(files, services[..n], services[n], keys);
      match found
      case None => before
      case Some(content) => before + OwnText(content, keys)
  }

  /** From the second turn on no line of the joined texts, nor of a service's own text, needs mounts. */
  ghost predicate AllQuiet(files: map<string, string>, services: seq<Option<string>>, keys: seq<string>) {
    forall n :: 0 <= n < |services| ==> QuietAt(files, services, keys, n)
  }

  ghost predicate QuietAt(files: map<string, string>, services: seq<Option<string>>, keys: seq<string>, n: nat)
    requires n < |services|
  {
    var saved, found := JoinedTexts(files, services[..n], keys), Found(files, services[..n], services[n], keys);
    found.Some? && saved != "" ==> Quiet(saved, OwnText(found.value, keys))
  }

  lemma ExpectedGrows(content: string, path: string, services: seq<Option<string>>, service: Option<string>,
                      keys: seq<string>, secrets: bool)
    requires AcceptedKeys(keys) && NewlineFree(keys)
    ensures var before, now := Expected(content, path, services, keys, secrets),
                               Expected(content, path, services + [service], keys, secrets);
            now == if service == Some(path) then Alone(before, keys, secrets) else before
  {
    AloneTwice(content, keys, secrets);
    hide Alone, AcceptedKeys, NewlineFree;
    assert Some(path) in services + [service] <==> Some(path) in services || service == Some(path);
  }

  lemma {:induction false} JoinedIsStagedText(files: map<string, string>, services: seq<Option<string>>,
                                              keys: seq<string>)
    requires AcceptedKeys(keys)
    ensures var saved := JoinedTexts(files, services, keys); saved == "" || StagedText(saved)
  {
    hide StagedText, OwnText, HasStage, Alone;
    if services != [] {
      var n := |services| - 1;
      JoinedIsStagedText(files, services[..n], keys);
      var before, found := JoinedTexts(files, services[..n], keys), Found(files, services[..n], services[n], keys);
      if found.Some? {
        OwnTextStaged(found.value, keys);
        assert "" + OwnText(found.value, keys) == OwnText(found.value, keys);
        if before != "" {
          JoinedIsStaged(before, OwnText(found.value, keys));
        }
      }
    }
  }

  /** One more service after services that left everything as alone. */
  lemma OneMoreService(files: map<string, string>, services: seq<Option<string>>, service: Option<string>,
                       keys: seq<string>, secrets: bool, b: Build)
    requires AcceptedKeys(keys) && NewlineFree(keys) && keys != []
    requires AsAlone(files, services, keys, secrets, b.files)
    requires secrets ==> b.saved == JoinedTexts(files, services, keys)
    ensures secrets ==> Built(b, service, keys, secrets).saved == JoinedTexts(files, services + [service], keys)
    ensures AsAlone(files, services + [service], keys, secrets, Built(b, service, keys, secrets).files)
       <==> (secrets ==> QuietAt(files, services + [service], keys, |services|))
  {
    hide QuietAt, AsAlone, StagedText, Quiet, JoinedTexts, OwnText, AcceptedKeys, NewlineFree, Turn, Alone, HasStage;
    JoinedIsStagedText(files, services, keys);
    JoinedGrows(files, services, service, keys);
    SameFiles(files, services, keys, secrets, b.files);
    if service.Some? && service.value in files {
      FoundContent(files, services, service.value, keys, secrets, b.files);
      TurnGivesAlone(b.saved, b.files[service.value], keys, secrets);
      OneFileChanges(files, services, service.value, keys, secrets, b,
                     Turn(b.saved, b.files[service.value], keys, secrets).file);
    } else {
      NoFileChanges(files, services, service, keys, secrets, b);
    }
  }

  lemma SameFiles(files: map<string, string>, services: seq<Option<string>>, keys: seq<string>, secrets: bool,
                  after: map<string, string>)
    requires AsAlone(files, services, keys, secrets, after)
    ensures after.Keys == files.Keys
  {
  }

  /** With secrets a service finds its Dockerfile as the services before have left it. */
  lemma FoundContent(files: map<string, string>, services: seq<Option<string>>, path: string, keys: seq<string>,
                     secrets: bool, after: map<string, string>)
    requires AsAlone(files, services, keys, secrets, after) && path in files && path in after
    ensures secrets ==> Found(files, services, Some(path), keys)
                        == (if HasStage(after[path]) then Some(after[path]) else None)
  {
    hide HasStage, Alone;
  }

  lemma OneFileChanges(files: map<string, string>, services: seq<Option<string>>, path: string, keys: seq<string>,
                       secrets: bool, b: Build, file: string)
    requires AcceptedKeys(keys) && NewlineFree(keys) && path in files && path in b.files
    requires AsAlone(files, services, keys, secrets, b.files)
    ensures AsAlone(files, services + [Some(path)], keys, secrets, b.files[path := file])
       <==> file == Alone(b.files[path], keys, secrets)
  {
    ExpectedAfter(files, services, Some(path), keys, secrets, b);
    hide Expected, Alone, AcceptedKeys, NewlineFree;
  }

  lemma NoFileChanges(files: map<string, string>, services: seq<Option<string>>, service: Option<string>,
                      keys: seq<string>, secrets: bool, b: Build)
    requires AcceptedKeys(keys) && NewlineFree(keys) && (service.Some? ==> service.value !in files)
    requires AsAlone(files, services, keys, secrets, b.files)
    ensures AsAlone(files, services + [service], keys, secrets, b.files)
  {
    ExpectedAfter(files, services, service, keys, secrets, b);
    hide Expected, Alone, AcceptedKeys, NewlineFree;
  }

  lemma ExpectedAfter(files: map<string, string>, services: seq<Option<string>>, service: Option<string>,
                      keys: seq<string>, secrets: bool, b: Build)
    requires AcceptedKeys(keys) && NewlineFree(keys)
    requires AsAlone(files, services, keys, secrets, b.files)
    ensures forall path :: path in files ==>
              Expected(files[path], path, services + [service], keys, secrets)
              == if service == Some(path) then Alone(b.files[path], keys, secrets) else b.files[path]
  {
    hide Expected, AcceptedKeys, NewlineFree, Alone;
    forall path | path in files
      ensures Expected(files[path], path, services + [service], keys, secrets)
           == if service == Some(path) then Alone(b.files[path], keys, secrets) else b.files[path]
    {
      ExpectedGrows(files[path], path, services, service, keys, secrets);
    }
  }

  lemma JoinedGrows(files: map<string, string>, services: seq<Option<string>>, service: Option<string>,
                    keys: seq<string>)
    ensures var before, found := JoinedTexts(files, services, keys), Found(files, services, service, keys);
            && JoinedTexts(files, services + [service], keys)
               == (if found.Some? then before + OwnText(found.value, keys) else before)
            && (QuietAt(files, services + [service], keys, |services|)
                <==> (found.Some? && before != "" ==> Quiet(before, OwnText(found.value, keys))))
  {
    hide Found, OwnText, Quiet;
    assert (services + [service])[..|services|] == services;
  }

  lemma TurnGivesAlone(saved: string, content: string, keys: seq<string>, secrets: bool)
    requires AcceptedKeys(keys) && NewlineFree(keys) && keys != []
    requires secrets ==> saved == "" || StagedText(saved)
    ensures Turn(saved, content, keys, secrets).file == Alone(content, keys, secrets)
       <==> (secrets && HasStage(content) && saved != "" ==> Quiet(saved, OwnText(content, keys)))
    ensures Turn(saved, content, keys, secrets).saved
         == if secrets && HasStage(content) then saved + OwnText(content, keys) else saved
  {
    if secrets && HasStage(content) && saved != "" {
      LaterTurnExactly(saved, content, keys);
    }
    hide HasStage, RewrittenFile, MountedFile, StagedText, Quiet, Trim;
  }

  /** Over all services every Dockerfile is after each of them as it would be alone, however many share it, exactly
      without secrets or when all texts are quiet. */
  lemma {:induction false} AlwaysAloneExactly(files: map<string, string>, services: seq<Option<string>>,
                                              keys: seq<string>, secrets: bool)
    requires AcceptedKeys(keys) && NewlineFree(keys) && keys != []
    ensures AlwaysAlone(files, services, keys, secrets) <==> (secrets ==> AllQuiet(files, services, keys))
    ensures AlwaysAlone(files, services, keys, secrets) && secrets ==>
              AllBuilt(Build(files, ""), services, keys, secrets).saved == JoinedTexts(files, services, keys)
  {
    hide AsAlone, QuietAt, JoinedTexts, AllBuilt, AcceptedKeys, NewlineFree;
    if services == [] {
      NoServices(files, keys, secrets);
    } else {
      var n := |services| - 1;
      var before := AllBuilt(Build(files, ""), services[..n], keys, secrets);
      AlwaysAloneExactly(files, services[..n], keys, secrets);
      AlwaysUnfolds(files, services, keys, secrets);
      QuietUnfolds(files, services, keys);
      assert services[..n] + [services[n]] == services;
      BuiltUnfolds(files, services, keys, secrets);
      if AlwaysAlone(files, services[..n], keys, secrets) {
        LastAlone(files, services[..n], keys, secrets);
        OneMoreService(files, services[..n], services[n], keys, secrets, before);
      }
    }
  }

  /** After each of the services the Dockerfiles are as they would be alone. */
  ghost predicate AlwaysAlone(files: map<string, string>, services: seq<Option<string>>, keys: seq<string>,
                              secrets: bool)
  {
    forall n :: 0 <= n <= |services| ==> AloneAfter(files, services, keys, secrets, n)
  }

  ghost predicate AloneAfter(files: map<string, string>, services: seq<Option<string>>, keys: seq<string>,
                             secrets: bool, n: nat)
    requires n <= |services|
  {
    AsAlone(files, services[..n], keys, secrets, AllBuilt(Build(files, ""), services[..n], keys, secrets).files)
  }

  lemma NoServices(files: map<string, string>, keys: seq<string>, secrets: bool)
    ensures AlwaysAlone(files, [], keys, secrets) && AllQuiet(files, [], keys)
    ensures AllBuilt(Build(files, ""), [], keys, secrets).saved == JoinedTexts(files, [], keys)
  {
    var none: seq<Option<string>> := [];
    assert none[..0] == none;
  }

  lemma LastAlone(files: map<string, string>, services: seq<Option<string>>, keys: seq<string>, secrets: bool)
    requires AlwaysAlone(files, services, keys, secrets)
    ensures AsAlone(files, services, keys, secrets, AllBuilt(Build(files, ""), services, keys, secrets).files)
  {
    hide AsAlone, AllBuilt;
    assert AloneAfter(files, services, keys, secrets, |services|);
    assert services[..|services|] == services;
  }

  lemma AlwaysUnfolds(files: map<string, string>, services: seq<Option<string>>, keys: seq<string>, secrets: bool)
    requires services != []
    ensures AlwaysAlone(files, services, keys, secrets)
       <==> && AlwaysAlone(files, services[..|services| - 1], keys, secrets)
            && AsAlone(files, services, keys, secrets, AllBuilt(Build(files, ""), services, keys, secrets).files)
  {
    hide AsAlone, AllBuilt;
    var m := |services| - 1;
    assert services[..m + 1] == services;
    assert AloneAfter(files, services, keys, secrets, m + 1)
      <==> AsAlone(files, services, keys, secrets, AllBuilt(Build(files, ""), services, keys, secrets).files);
    forall n | 0 <= n <= m
      ensures AloneAfter(files, services[..m], keys, secrets, n) <==> AloneAfter(files, services, keys, secrets, n)
    {
      assert services[..m][..n] == services[..n];
    }
  }

  lemma QuietUnfolds(files: map<string, string>, services: seq<Option<string>>, keys: seq<string>)
    requires services != []
    ensures AllQuiet(files, services, keys)
       <==> && AllQuiet(files, services[..|services| - 1], keys)
            && QuietAt(files, services, keys, |services| - 1)
  {
    hide JoinedTexts, Found, Quiet;
    var m := |services| - 1;
    forall n | 0 <= n < m
      ensures QuietAt(files, services[..m], keys, n) <==> QuietAt(files, services, keys, n)
    {
      assert services[..m][..n] == services[..n];
    }
  }

  lemma BuiltUnfolds(files: map<string, string>, services: seq<Option<string>>, keys: seq<string>, secrets: bool)
    requires services != []
    ensures var n := |services| - 1;
            AllBuilt(Build(files, ""), services, keys, secrets)
            == Built(AllBuilt(Build(files, ""), services[..n], keys, secrets), services[n], keys, secrets)
  {
    hide Built;
  }

  /** Without secrets, or with quiet texts, a Dockerfile ends as after one turn alone, however many services build from
      it and in whatever order. */
  lemma SharedDockerfile(files: map<string, string>, services: seq<Option<string>>, keys: seq<string>, secrets: bool,
                         path: string)
    requires AcceptedKeys(keys) && NewlineFree(keys) && keys != []
    requires secrets ==> AllQuiet(files, services, keys)
    ensures var after := AllBuilt(Build(files, ""), services, keys, secrets).files;
            && (path in after <==> path in files)
            && (path in files ==>
                  after[path] == if Some(path) in services then Alone(files[path], keys, secrets) else files[path])
  {
    hide AllBuilt, Alone, AllQuiet;
    AlwaysAloneExactly(files, services, keys, secrets);
    LastAlone(files, services, keys, secrets);
  }
}
