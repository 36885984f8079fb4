/** Injection and mounting one after the other on one file: what each keeps of the other's work. */
module TwoPasses {
  import opened Dockerfile
  import opened DockerfileLaws
  import opened DockerfileSecrets
  import opened SecretFiles
  import opened Text

  ghost predicate HasStage(content: string) {
    !NoFrom(ByPrefix, Lines(Trim(content)))
  }

  /** The file after a pass that may have written it. */
  function Kept(content: string, written: Option<string>): string {
    match written
    case Some(file) => file
    case None => content
  }

  /** The file after injection. */
  function InjectedFile(content: string, keys: seq<string>): string {
    Kept(content, RewrittenFile(content, keys))
  }

  /* Newline-free keys. */

  /** After injection every stage declares every key, whether the file was written or not. */
  lemma InjectedFileComplete(content: string, keys: seq<string>)
    requires AcceptedKeys(keys) && NewlineFree(keys)
    ensures var file := InjectedFile(content, keys);
            Complete(ByPrefix, Lines(Trim(file)), keys) && RewrittenFile(file, keys) == None
  {
    var lines := Lines(Trim(content));
    AcceptedKeysReadBack(keys);
    FixedIffComplete(ByPrefix, lines, keys);
    if RewrittenFile(content, keys).Some? {
      WrittenReadsBack(content, keys);
      InjectedIsComplete(ByPrefix, lines, keys);
    }
    CompleteIsNotRewritten(InjectedFile(content, keys), keys);
  }

  lemma CompleteIsNotRewritten(content: string, keys: seq<string>)
    ensures RewrittenFile(content, keys) == None <==> Complete(ByPrefix, Lines(Trim(content)), keys)
  {
    FixedIffComplete(ByPrefix, Lines(Trim(content)), keys);
  }

  lemma {:induction false} PiecesOfWhole(ls: seq<string>)
    requires forall l :: l in ls ==> '\n' !in l
    ensures Pieces(ls) == ls
  {
    if ls != [] {
      LinesOfOneLine(ls[0]);
      PiecesOfWhole(ls[1..]);
    }
  }

  lemma MountedHasNoNewline(line: string, keys: seq<string>)
    requires '\n' !in line && NewlineFree(keys)
    ensures '\n' !in Mounted(line, SecretMounts(keys))
  {
    if NeedsMounts(line) {
      var run, command := "RUN ", Trim(TrimLeft(line)[3..]);
      CommandHasNoNewline(line);
      MountsHaveNoNewline(keys);
      assert '\n' !in run;
      NoNewlines(run, SecretMounts(keys));
      NoNewlines(" ", command);
      NoNewlines(run + SecretMounts(keys), " " + command);
    }
  }

  /** The last line of a mounted file loses at most blanks behind its mounts, and is the same once trimmed. */
  lemma LastTrimmed(line: string, keys: seq<string>)
    requires SolidEnd(line)
    ensures var l := Mounted(line, SecretMounts(keys)); Trim(TrimRight(l)) == Trim(l)
  {
    var l := Mounted(line, SecretMounts(keys));
    if NeedsMounts(line) {
      assert l[0] == 'R';
      TrimOfSolidStart(l);
      TrimRightFacts(l);
      TrimOfTight(TrimRight(l));
    } else {
      assert TrimRight(line) == line;
    }
  }

  /** Stages and their ARG blocks depend on the trimmed lines only. */
  lemma {:induction false} SameBlocks(a: seq<string>, b: seq<string>)
    requires |a| == |b| && forall i :: 0 <= i < |a| ==> Trim(a[i]) == Trim(b[i])
    ensures BlockNames(a) == BlockNames(b)
  {
    if a != [] {
      assert Trim(a[0]) == Trim(b[0]);
      assert forall i :: 0 <= i < |a[1..]| ==> a[1..][i] == a[i + 1] && b[1..][i] == b[i + 1];
      SameBlocks(a[1..], b[1..]);
    }
  }

  lemma SameComplete(a: seq<string>, b: seq<string>, keys: seq<string>)
    requires |a| == |b| && forall i :: 0 <= i < |a| ==> Trim(a[i]) == Trim(b[i])
    requires Complete(ByPrefix, a, keys)
    ensures Complete(ByPrefix, b, keys)
  {
    hide Trim;
    forall i | 0 <= i < |b| && IsFrom(ByPrefix, b[i]) ensures Declares(b[i + 1..], keys) {
      assert IsFrom(ByPrefix, a[i]);
      SameBlocks(a[i + 1..], b[i + 1..]);
    }
  }

  lemma MountedComplete(lines: seq<string>, keys: seq<string>)
    requires lines != [] && Complete(ByPrefix, lines, keys)
    ensures Complete(ByPrefix, Directive(lines) + AllMounted(lines, SecretMounts(keys)), keys)
  {
    var mounts := SecretMounts(keys);
    FixedIffComplete(ByPrefix, lines, keys);
    MountsAreMounted(keys);
    MountingCommutes(ByPrefix, lines, keys, mounts);
    SyntaxLineIsNotFrom(ByPrefix);
    InjectedSkips(ByPrefix, Directive(lines), AllMounted(lines, mounts), keys);
    FixedIffComplete(ByPrefix, Directive(lines) + AllMounted(lines, mounts), keys);
  }

  lemma TrimRightHasNoNewline(line: string)
    requires '\n' !in line
    ensures '\n' !in TrimRight(line)
  {
    TrimRightFacts(line);
  }

  lemma OutHasNoNewline(lines: seq<string>, keys: seq<string>, l: string)
    requires SplitFile(lines) && NewlineFree(keys)
    requires l in Directive(lines) + AllMounted(lines, SecretMounts(keys))
    ensures '\n' !in l
  {
    var mounted := AllMounted(lines, SecretMounts(keys));
    if l in mounted {
      var i :| 0 <= i < |lines| && l == mounted[i];
      MountedHasNoNewline(lines[i], keys);
    } else {
      var syntax := SYNTAX_LINE;
      assert '\n' !in syntax;
    }
  }

  lemma CutMember(out: seq<string>, last: string, l: string)
    requires out != [] && l in out[..|out| - 1] + [last]
    ensures l in out || l == last
  {
  }

  lemma RereadIsWhole(lines: seq<string>, keys: seq<string>)
    requires SplitFile(lines) && NewlineFree(keys)
    ensures Pieces(Reread(lines, keys)) == Reread(lines, keys)
  {
    var out, cut := Directive(lines) + AllMounted(lines, SecretMounts(keys)), Reread(lines, keys);
    hide SplitFile, NewlineFree, SecretMounts, AllMounted, Directive, TrimRight, Pieces;
    var n := |out| - 1;
    forall l | l in cut ensures '\n' !in l {
      CutMember(out, TrimRight(out[n]), l);
      if l in out {
        OutHasNoNewline(lines, keys, l);
      } else {
        OutHasNoNewline(lines, keys, out[n]);
        TrimRightHasNoNewline(out[n]);
      }
    }
    PiecesOfWhole(cut);
  }

  /** What is read back after a mount. */
  lemma MountedReread(content: string, keys: seq<string>)
    requires MountedFile(content, keys).Some?
    ensures var lines := Lines(Trim(content));
            && SplitFile(lines)
            && Lines(Trim(MountedFile(content, keys).value)) == Pieces(Reread(lines, keys))
  {
    hide Lines, Trim, Pieces, Reread, Directive, AllMounted, SecretMounts, AnyNeedsMounts;
    ContentSplits(content);
    RereadLines(Lines(Trim(content)), keys);
  }

  lemma SameButLast(out: seq<string>, last: string)
    requires out != [] && Trim(last) == Trim(out[|out| - 1])
    ensures var cut := out[..|out| - 1] + [last];
            |cut| == |out| && forall i :: 0 <= i < |out| ==> Trim(out[i]) == Trim(cut[i])
  {
    hide Trim;
  }

  lemma RereadComplete(lines: seq<string>, keys: seq<string>)
    requires SplitFile(lines) && Complete(ByPrefix, lines, keys)
    ensures Complete(ByPrefix, Reread(lines, keys), keys)
  {
    var n := |lines| - 1;
    hide SolidEnd, Trim, TrimRight, Mounted, SecretMounts, Complete, Directive;
    MountedComplete(lines, keys);
    LastTrimmed(lines[n], keys);
    var out := Directive(lines) + AllMounted(lines, SecretMounts(keys));
    assert out[|out| - 1] == Mounted(lines[n], SecretMounts(keys));
    SameButLast(out, TrimRight(out[|out| - 1]));
    SameComplete(out, Reread(lines, keys), keys);
  }

  /** Mounting keeps every stage complete, also when the file is read again. */
  lemma MountedFileComplete(content: string, keys: seq<string>)
    requires NewlineFree(keys) && Complete(ByPrefix, Lines(Trim(content)), keys)
    ensures RewrittenFile(Kept(content, MountedFile(content, keys)), keys) == None
    ensures MountedFile(Kept(content, MountedFile(content, keys)), keys) == None
  {
    hide Lines, Trim, Complete, Reread, Pieces, SplitFile, RewrittenFile, MountedFile;
    CompleteIsNotRewritten(content, keys);
    if MountedFile(content, keys).Some? {
      NewlineFreeMounts(keys);
      MountingSettles(content, keys);
      MountedReread(content, keys);
      RereadIsWhole(Lines(Trim(content)), keys);
      RereadComplete(Lines(Trim(content)), keys);
      CompleteIsNotRewritten(MountedFile(content, keys).value, keys);
    }
  }

  /* Keys with newlines. */

  /** A key with a newline is never declared, so a file with a stage is always written. */
  lemma NewlineKeyIsMissing(content: string, keys: seq<string>, k: string)
    requires AcceptedKey(k) && k in keys && '\n' in k && HasStage(content)
    ensures RewrittenFile(content, keys).Some?
  {
    var lines := Lines(Trim(content));
    LinesFacts(Trim(content));
    var i :| 0 <= i < |lines| && IsFrom(ByPrefix, lines[i]);
    NamesHaveNoNewline(lines[i + 1..]);
    TrimOfTight(k);
    assert !Declares(lines[i + 1..], keys);
    CompleteIsNotRewritten(content, keys);
  }

  lemma {:induction false} PieceSurvives(ls: seq<string>, i: nat)
    requires i < |ls| && '\n' !in ls[i]
    ensures ls[i] in Pieces(ls)
  {
    if i == 0 {
      LinesOfOneLine(ls[0]);
    } else {
      PieceSurvives(ls[1..], i - 1);
    }
  }

  lemma InjectionKeepsStage(content: string, keys: seq<string>)
    requires AcceptedKeys(keys) && HasStage(content)
    ensures HasStage(InjectedFile(content, keys))
  {
    if RewrittenFile(content, keys).Some? {
      var lines := Lines(Trim(content));
      var i := RewrittenHasStage(content, keys);
      if Trim(content) == [] {
        EmptyTextHasNoStage(keys);
      }
      TrimmedLines(content);
      InjectedStaysSolid(lines, keys);
      var at := InjectedKeepsLine(ByPrefix, lines, keys, i);
      LineSurvives(Injected(ByPrefix, lines, keys), at);
    }
  }

  lemma SolidIsTrimmed(line: string)
    requires SolidEnd(line)
    ensures TrimRight(line) == line
  {
  }

  lemma StageLineStays(lines: seq<string>, keys: seq<string>, i: nat)
    requires SplitFile(lines) && i < |lines| && IsFrom(ByPrefix, lines[i])
    ensures |Reread(lines, keys)| == |Directive(lines)| + |lines|
    ensures Reread(lines, keys)[|Directive(lines)| + i] == lines[i]
  {
    hide IsFrom, SolidEnd, Mounted, SecretMounts, Directive, TrimRight, Reread;
    MountsAreMounted(keys);
    MountedKeepsKind(ByPrefix, lines[i], SecretMounts(keys));
    RereadShape(lines, keys, i);
    if i == |lines| - 1 {
      SolidIsTrimmed(lines[i]);
    }
  }

  lemma RereadKeepsStage(lines: seq<string>, keys: seq<string>, i: nat)
    requires SplitFile(lines) && i < |lines| && IsFrom(ByPrefix, lines[i])
    ensures lines[i] in Pieces(Reread(lines, keys))
  {
    hide IsFrom, Directive, Reread, Pieces, SolidEnd;
    StageLineStays(lines, keys, i);
    PieceSurvives(Reread(lines, keys), |Directive(lines)| + i);
  }

  lemma MountingKeepsStage(content: string, keys: seq<string>)
    requires HasStage(content)
    ensures HasStage(Kept(content, MountedFile(content, keys)))
  {
    hide Lines, Trim, IsFrom, Reread, Pieces, SplitFile, MountedFile;
    if MountedFile(content, keys).Some? {
      var lines := Lines(Trim(content));
      MountedReread(content, keys);
      var i :| 0 <= i < |lines| && IsFrom(ByPrefix, lines[i]);
      RereadKeepsStage(lines, keys, i);
    }
  }
}
