/** The Dockerfiles of a compose build. Each service with a build section has ARGs injected into its Dockerfile and then
    secrets mounted. The text that mounting reads accumulates over the services under one key. */
module ComposeBuilds {
  import opened Dockerfile
  import opened DockerfileLaws
  import opened DockerfileSecrets
  import opened SecretFiles
  import opened Text
  import opened TwoPasses

  /** The existing Dockerfiles by path, and the output saved for the mounting pass. */
  datatype Build = Build(files: map<string, string>, saved: string)

  /** What the mounting pass reads: everything saved before, and this file trimmed. */
  function TextRead(saved: string, content: string, keys: seq<string>): string {
    saved + Trim(InjectedFile(content, keys))
  }

  datatype Turned = Turned(file: string, saved: string)

  /** One service's turn: its Dockerfile and the saved output afterwards. A file without a stage is skipped. */
  ghost function Turn(saved: string, content: string, keys: seq<string>, secrets: bool): Turned {
    if !HasStage(content) then Turned(content, saved)
    else if !secrets then Turned(InjectedFile(content, keys), saved)
    else
      var text := TextRead(saved, content, keys);
      Turned(Kept(InjectedFile(content, keys), MountedFile(text, keys)), text)
  }

  /** None is a service without a build section. */
  ghost function Built(b: Build, service: Option<string>, keys: seq<string>, secrets: bool): Build {
    if service.Some? && service.value in b.files then
      var turn := Turn(b.saved, b.files[service.value], keys, secrets);
      Build(b.files[service.value := turn.file], turn.saved)
    else b
  }

  ghost function AllBuilt(b: Build, services: seq<Option<string>>, keys: seq<string>, secrets: bool): Build {
    if services == [] then b
    else
      var n := |services| - 1;
      Built(AllBuilt(b, services[..n], keys, secrets), services[n], keys, secrets)
  }

  method SeesStage(content: string) returns (staged: bool)
    ensures staged == HasStage(content)
  {
    var fromIndices := DockerfilePasses.FindFromLines(ByPrefix, Lines(Trim(content)));
    staged := fromIndices != [];
    if staged {
      assert fromIndices[0] in fromIndices;
    }
  }

  class ComposeBuild {
    var files: map<string, string>
    /** saved_outputs under dockerfile_content. */
    var saved: string

    constructor (files: map<string, string>)
      ensures this.files == files && saved == ""
    {
      this.files, saved := files, "";
    }

    function Now(): Build
      reads this
    {
      Build(files, saved)
    }

    /** modify_dockerfile_for_secrets: the output of reading the file is appended to what was saved. */
    method ModifyDockerfileForSecrets(path: string, keys: seq<string>)
      requires path in files
      modifies this
      ensures saved == old(saved) + Trim(old(files)[path])
      ensures files == old(files)[path := Kept(old(files)[path], MountedFile(saved, keys))]
    {
      saved := saved + Trim(files[path]);
      var written := MountFile(saved, keys);
      files := files[path := Kept(files[path], written)];
    }

    /** The body of the loop for a service whose Dockerfile exists. */
    method ServiceTurn(path: string, keys: seq<string>, secrets: bool)
      requires path in files
      modifies this
      ensures Now() == Built(old(Now()), Some(path), keys, secrets)
    {
      hide Lines, Trim, MountedFile, RewrittenFile, HasStage;
      var content := files[path];
      var staged := SeesStage(content);
      if !staged { return; }
      var written := RewriteFile(content, keys);
      files := files[path := Kept(content, written)];
      if secrets {
        ModifyDockerfileForSecrets(path, keys);
      }
    }

    /** modify_dockerfiles_for_compose. */
    method ModifyDockerfilesForCompose(services: seq<Option<string>>, keys: seq<string>, secrets: bool)
      modifies this
      ensures Now() == if keys == [] then old(Now()) else AllBuilt(old(Now()), services, keys, secrets)
    {
      hide Turn;
      if keys == [] { return; }
      for n := 0 to |services|
        invariant Now() == AllBuilt(old(Now()), services[..n], keys, secrets)
      {
        assert services[..n + 1][..n] == services[..n];
        if services[n].Some? && services[n].value in files {
          ServiceTurn(services[n].value, keys, secrets);
        }
      }
      assert services[..|services|] == services;
    }
  }

  /* Texts joined without a newline between them. */

  /** The lines of a joined text: the last line of the front and the first of the back are one. */
  function Glued(a: seq<string>, b: seq<string>): seq<string>
    requires a != [] && b != []
  {
    a[..|a| - 1] + [a[|a| - 1] + b[0]] + b[1..]
  }

  lemma GluedBehind(x: string, a: seq<string>, b: seq<string>)
    requires a != [] && b != []
    ensures Glued([x] + a, b) == [x] + Glued(a, b)
  {
    assert ([x] + a)[..|a|] == [x] + a[..|a| - 1];
  }

  lemma GluedOne(c: char, x: string, b: seq<string>)
    requires b != []
    ensures Glued([[c] + x], b) == [[c] + Glued([x], b)[0]] + Glued([x], b)[1..]
  {
    assert [c] + (x + b[0]) == [c] + x + b[0];
  }

  lemma PrependedGlued(c: char, a: seq<string>, b: seq<string>)
    requires a != [] && b != []
    ensures Prepended(c, a) != [] && Prepended(c, Glued(a, b)) == Glued(Prepended(c, a), b)
  {
    hide Glued;
    if c == '\n' {
      GluedBehind([], a, b);
    } else if |a| == 1 {
      GluedOne(c, a[0], b);
      assert a == [a[0]];
      assert [[c] + a[0]] + a[1..] == [[c] + a[0]];
    } else {
      GluedBehind(a[0], a[1..], b);
      GluedBehind([c] + a[0], a[1..], b);
      assert [a[0]] + a[1..] == a;
      assert ([a[0]] + Glued(a[1..], b))[1..] == Glued(a[1..], b);
    }
  }

  lemma {:induction false} LinesGlued(a: string, b: string)
    ensures Lines(a + b) == Glued(Lines(a), Lines(b))
  {
    if a == [] {
      assert a + b == b;
      assert [] + Lines(b)[0] == Lines(b)[0];
    } else {
      LinesGlued(a[1..], b);
      assert (a + b)[1..] == a[1..] + b;
      LinesUnfold(a + b);
      LinesUnfold(a);
      PrependedGlued(a[0], Lines(a[1..]), Lines(b));
      hide Lines, Prepended, Glued;
    }
  }

  /** Some line of the joined text needs mounts: one in front of the joint, the joint, or one behind it. */
  lemma JoinedNeeds(a: string, b: string)
    ensures var front, back := Lines(a), Lines(b);
            (AnyNeedsMounts(Lines(a + b))
             <==> || AnyNeedsMounts(front[..|front| - 1])
                  || NeedsMounts(front[|front| - 1] + back[0])
                  || AnyNeedsMounts(back[1..]))
  {
    LinesGlued(a, b);
    var front, back := Lines(a), Lines(b);
    var n := |front| - 1;
    hide Lines, NeedsMounts, AnyNeedsMounts;
    NeedsOne(front[n] + back[0]);
    NeedsSplits(front[..n], [front[n] + back[0]]);
    NeedsSplits(front[..n] + [front[n] + back[0]], back[1..]);
  }

  /** A trimmed text with a stage. */
  ghost predicate StagedText(text: string) {
    Trim(text) == text && HasStage(text)
  }

  lemma TrimmedIsStaged(content: string)
    requires HasStage(content)
    ensures StagedText(Trim(content))
  {
    TrimIsTrimmed(content);
  }

  lemma EmptyHasNoStage()
    ensures !HasStage([])
  {
    var line: string := [];
    assert Lines(line) == [line] && Trim(line) == [] && !IsFrom(ByPrefix, line);
  }

  lemma StagedIsSolid(text: string)
    requires StagedText(text)
    ensures text != [] && !IsBlank(text[0]) && !IsBlank(text[|text| - 1])
  {
    TrimmedEnds(text);
    EmptyHasNoStage();
    assert text != [];
  }

  /** A FROM line starts with FROM behind its blanks. */
  lemma FromStarts(line: string)
    ensures IsFrom(ByPrefix, line) <==> "FROM" <= TrimLeft(line)
  {
    var l := TrimLeft(line);
    TrimRightFacts(l);
    if "FROM" <= l {
      assert l == "FROM" + l[4..];
      TrimRightKeeps("FROM", l[4..]);
    }
  }

  /** A FROM line stays one when it grows. */
  lemma FromGrows(line: string, more: string)
    requires IsFrom(ByPrefix, line)
    ensures IsFrom(ByPrefix, line + more)
  {
    FromStarts(line);
    FromStarts(line + more);
    LeftGrows(line, more);
  }

  lemma {:induction false} LeftGrows(s: string, more: string)
    requires TrimLeft(s) != []
    ensures TrimLeft(s + more) == TrimLeft(s) + more
  {
    if IsBlank(s[0]) {
      assert (s + more)[1..] == s[1..] + more;
      LeftGrows(s[1..], more);
    }
  }

  lemma JoinedIsStaged(a: string, b: string)
    requires StagedText(a) && StagedText(b)
    ensures StagedText(a + b)
  {
    StagedIsSolid(a);
    StagedIsSolid(b);
    TrimmedEnds(a + b);
    LinesGlued(a, b);
    var front, back := Lines(a), Lines(b);
    var n := |front| - 1;
    hide Lines, Trim;
    var i :| 0 <= i < |front| && IsFrom(ByPrefix, front[i]);
    FromGrows(front[i], back[0]);
    hide IsFrom;
    assert Glued(front, back)[i] == if i < n then front[i] else front[i] + back[0];
  }
}
