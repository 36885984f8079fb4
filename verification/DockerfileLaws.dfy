/** How the forward and backward ARG passes relate, and the forward pass on whole files. */
module DockerfileLaws {
  import opened Text
  import opened Dockerfile
  import opened DockerfilePasses

  function StageCount(test: FromTest, lines: seq<string>): nat {
    if lines == [] then 0
    else (if IsFrom(test, lines[0]) then 1 else 0) + StageCount(test, lines[1..])
  }

  /** The backward pass grows the file by the number of stages times the number of ARGs. */
  lemma {:induction false} AppendedLength(test: FromTest, lines: seq<string>, args: seq<string>)
    ensures |Appended(test, lines, args)| == |lines| + StageCount(test, lines) * |args|
  {
    if lines != [] {
      AppendedLength(test, lines[1..], args);
      if IsFrom(test, lines[0]) {
        assert (1 + StageCount(test, lines[1..])) * |args| == |args| + StageCount(test, lines[1..]) * |args|;
      }
    }
  }

  /** Unlike the forward pass, a second backward pass repeats every ARG. */
  lemma AppendedUnfolds(test: FromTest, lines: seq<string>, args: seq<string>)
    requires lines != []
    ensures Appended(test, lines, args)
         == [lines[0]] + ((if IsFrom(test, lines[0]) then args else []) + Appended(test, lines[1..], args))
  {
  }

  lemma {:induction false} AppendedTwice(test: FromTest, lines: seq<string>, args: seq<string>)
    requires NoFrom(test, args)
    ensures Appended(test, Appended(test, lines, args), args) == Appended(test, lines, args + args)
  {
    if lines != [] {
      AppendedTwice(test, lines[1..], args);
      AppendedUnfolds(test, lines, args);
      AppendedUnfolds(test, lines, args + args);
      AppendedUnfolds(test, Appended(test, lines, args), args);
      AppendedNoFrom(test, args, args);
      hide IsFrom, Appended, NoFrom;
      var rest := Appended(test, lines[1..], args);
      if IsFrom(test, lines[0]) {
        assert Appended(test, lines, args)[1..] == args + rest;
        AppendedSplits(test, args, rest, args);
        assert args + (args + Appended(test, rest, args)) == args + args + Appended(test, rest, args);
      } else {
        assert Appended(test, lines, args)[1..] == rest;
      }
    }
  }

  /** No stage declares any of the keys in its leading block. */
  ghost predicate NoneDeclared(test: FromTest, lines: seq<string>, keys: seq<string>) {
    forall i :: 0 <= i < |lines| && IsFrom(test, lines[i]) ==> NamesNone(lines[i + 1..], keys)
  }

  ghost predicate NamesNone(block: seq<string>, keys: seq<string>) {
    forall k :: k in keys ==> Trim(k) !in BlockNames(block)
  }

  lemma NoneDeclaredUnfolds(test: FromTest, lines: seq<string>, keys: seq<string>)
    requires lines != []
    ensures NoneDeclared(test, lines, keys)
       <==> (IsFrom(test, lines[0]) ==> NamesNone(lines[1..], keys)) && NoneDeclared(test, lines[1..], keys)
  {
    assert lines[0 + 1..] == lines[1..];
    if NoneDeclared(test, lines, keys) {
      forall i | 0 <= i < |lines[1..]| && IsFrom(test, lines[1..][i]) ensures NamesNone(lines[1..][i + 1..], keys) {
        assert IsFrom(test, lines[i + 1]);
        assert lines[1..][i + 1..] == lines[i + 1 + 1..];
      }
    }
    if (IsFrom(test, lines[0]) ==> NamesNone(lines[1..], keys)) && NoneDeclared(test, lines[1..], keys) {
      forall i | 0 <= i < |lines| && IsFrom(test, lines[i]) ensures NamesNone(lines[i + 1..], keys) {
        if i > 0 {
          assert IsFrom(test, lines[1..][i - 1]);
          assert lines[1..][i - 1 + 1..] == lines[i + 1..];
        }
      }
    }
  }

  /** What the two passes put in place of the first line of a file. */
  lemma OpeningAgrees(test: FromTest, lines: seq<string>, keys: seq<string>) returns (appended: seq<string>)
    requires lines != []
    ensures appended == if IsFrom(test, lines[0]) then [lines[0]] + ArgLines(keys) else [lines[0]]
    ensures |Opening(test, lines, keys)| <= |appended|
    ensures |Opening(test, lines, keys)| == |appended| <==> (IsFrom(test, lines[0]) ==> NamesNone(lines[1..], keys))
    ensures |Opening(test, lines, keys)| == |appended| ==> Opening(test, lines, keys) == appended
  {
    appended := if IsFrom(test, lines[0]) then [lines[0]] + ArgLines(keys) else [lines[0]];
    EverythingMissing(keys, BlockNames(lines[1..]));
  }

  /** The two passes agree on a Dockerfile exactly when none of its stages already declares a key. */
  lemma {:induction false} PassesAgree(test: FromTest, lines: seq<string>, keys: seq<string>)
    ensures |Injected(test, lines, keys)| <= |Appended(test, lines, ArgLines(keys))|
    ensures |Injected(test, lines, keys)| == |Appended(test, lines, ArgLines(keys))|
       <==> NoneDeclared(test, lines, keys)
    ensures Injected(test, lines, keys) == Appended(test, lines, ArgLines(keys)) <==> NoneDeclared(test, lines, keys)
  {
    if lines != [] {
      PassesAgree(test, lines[1..], keys);
      NoneDeclaredUnfolds(test, lines, keys);
      var appended := OpeningAgrees(test, lines, keys);
      assert Appended(test, lines, ArgLines(keys)) == appended + Appended(test, lines[1..], ArgLines(keys));
    }
  }

  /** In particular they agree when no stage starts with an ARG line. */
  lemma AgreeWithoutLeadingArgs(test: FromTest, lines: seq<string>, keys: seq<string>)
    requires forall i :: 0 <= i && i + 1 < |lines| && IsFrom(test, lines[i]) ==> !IsArg(lines[i + 1])
    ensures Injected(test, lines, keys) == Appended(test, lines, ArgLines(keys))
  {
    forall i | 0 <= i < |lines| && IsFrom(test, lines[i]) ensures NamesNone(lines[i + 1..], keys) {
      if i + 1 < |lines| {
        assert lines[i + 1..][0] == lines[i + 1];
      }
      assert BlockNames(lines[i + 1..]) == [];
    }
    PassesAgree(test, lines, keys);
  }

  /* Whole files. */

  /** What the forward pass writes back for a file with this content, if it writes at all. */
  function RewrittenFile(content: string, keys: seq<string>): Option<string> {
    var lines := Lines(Trim(content));
    var out := Injected(ByPrefix, lines, keys);
    if |out| > |lines| then Some(Join(out)) else None
  }

  method RewriteFile(content: string, keys: seq<string>) returns (written: Option<string>)
    ensures written == RewrittenFile(content, keys)
  {
    var lines := Lines(Trim(content));
    var fromIndices := FindFromLines(ByPrefix, lines);
    if fromIndices == [] {
      InjectedNoFrom(ByPrefix, lines, keys);
      return None;
    }
    var dockerfile := new LineCollection(lines);
    var totalAdded := InjectArgs(ByPrefix, dockerfile, keys);
    FixedIffComplete(ByPrefix, lines, keys);
    written := if totalAdded > 0 then Some(Join(dockerfile.items)) else None;
  }

  lemma {:induction false} InjectedEnds(test: FromTest, lines: seq<string>, keys: seq<string>)
    requires lines != []
    ensures var out := Injected(test, lines, keys);
            && out != [] && out[0] == lines[0]
            && (out[|out| - 1] == lines[|lines| - 1] || out[|out| - 1] in ArgLines(keys))
  {
    OpeningLength(test, lines, keys);
    if |lines| == 1 {
      assert lines[1..] == [];
      OpeningLast(test, lines, keys);
    } else {
      InjectedEnds(test, lines[1..], keys);
    }
  }

  lemma OpeningLast(test: FromTest, lines: seq<string>, keys: seq<string>)
    requires lines != []
    ensures var o := Opening(test, lines, keys); o != [] && forall l :: l in o ==> l == lines[0] || l in ArgLines(keys)
  {
    MissingAreArgs(keys, BlockNames(lines[1..]));
    forall l | l in Missing(keys, BlockNames(lines[1..])) ensures l in ArgLines(keys) {
      var k :| k in keys && l == ArgLine(k);
      var i :| 0 <= i < |keys| && keys[i] == k;
      assert ArgLines(keys)[i] == l;
    }
  }

  lemma {:induction false} InjectedLineOrigin(test: FromTest, lines: seq<string>, keys: seq<string>)
    ensures forall l :: l in Injected(test, lines, keys) ==> l in lines || l in ArgLines(keys)
  {
    if lines != [] {
      InjectedLineOrigin(test, lines[1..], keys);
      OpeningLast(test, lines, keys);
    }
  }

  lemma AcceptedArgLine(key: string)
    requires AcceptedKey(key)
    ensures SolidEnd(ArgLine(key))
    ensures '\n' !in key ==> '\n' !in ArgLine(key)
  {
    var line := ArgLine(key);
    assert forall i :: 4 <= i < |line| ==> line[i] == key[i - 4];
  }

  predicate SolidEnd(line: string) {
    line != [] && !IsBlank(line[|line| - 1])
  }

  predicate AcceptedKeys(keys: seq<string>) {
    forall k :: k in keys ==> AcceptedKey(k)
  }

  predicate NewlineFree(keys: seq<string>) {
    forall k :: k in keys ==> '\n' !in k
  }

  lemma InjectedStaysSolid(lines: seq<string>, keys: seq<string>)
    requires AcceptedKeys(keys)
    requires lines != [] && lines[0] != [] && !IsBlank(lines[0][0]) && SolidEnd(lines[|lines| - 1])
    ensures var out := Injected(ByPrefix, lines, keys);
            out != [] && out[0] == lines[0] && SolidEnd(out[|out| - 1]) && Trim(Join(out)) == Join(out)
  {
    hide Injected, IsBlank, Trim;
    var out := Injected(ByPrefix, lines, keys);
    InjectedEnds(ByPrefix, lines, keys);
    forall l | l in ArgLines(keys) ensures SolidEnd(l) {
      var i :| 0 <= i < |keys| && l == ArgLines(keys)[i];
      AcceptedArgLine(keys[i]);
    }
    JoinEnds(out);
    TrimOfTight(Join(out));
  }

  /** Lines that start solid and end solid are written and read back as they are. */
  lemma InjectedReadsBack(lines: seq<string>, keys: seq<string>)
    requires AcceptedKeys(keys) && NewlineFree(keys)
    requires lines != [] && forall l :: l in lines ==> '\n' !in l
    requires lines[0] != [] && !IsBlank(lines[0][0]) && SolidEnd(lines[|lines| - 1])
    ensures var out := Injected(ByPrefix, lines, keys);
            out != [] && Lines(Trim(Join(out))) == out
  {
    hide Injected, IsBlank, Trim, Lines;
    var out := Injected(ByPrefix, lines, keys);
    InjectedStaysSolid(lines, keys);
    InjectedLineOrigin(ByPrefix, lines, keys);
    forall l | l in ArgLines(keys) ensures '\n' !in l {
      var i :| 0 <= i < |keys| && l == ArgLines(keys)[i];
      AcceptedArgLine(keys[i]);
    }
    LinesOfJoin(out);
  }

  lemma TrimmedLines(content: string)
    requires Trim(content) != []
    ensures var lines := Lines(Trim(content));
            && (forall l :: l in lines ==> '\n' !in l)
            && lines[0] != [] && !IsBlank(lines[0][0]) && SolidEnd(lines[|lines| - 1])
  {
    TrimStartsSolid(content);
    TrimEndsSolid(content);
    BlankNewline();
    LastLine(Trim(content));
    LinesFacts(Trim(content));
  }

  /** The lines written for a file are read back unchanged. */
  lemma WrittenReadsBack(content: string, keys: seq<string>)
    requires AcceptedKeys(keys) && NewlineFree(keys)
    requires RewrittenFile(content, keys).Some?
    ensures Lines(Trim(RewrittenFile(content, keys).value)) == Injected(ByPrefix, Lines(Trim(content)), keys)
  {
    if Trim(content) == [] {
      EmptyTextHasNoStage(keys);
    } else {
      TrimmedLines(content);
      InjectedReadsBack(Lines(Trim(content)), keys);
    }
  }

  lemma BlankNewline()
    ensures IsBlank('\n')
  {
  }

  lemma TrimEndsSolid(s: string)
    ensures Trim(s) == [] || !IsBlank(Trim(s)[|Trim(s)| - 1])
  {
    TrimRightFacts(TrimLeft(s));
  }

  lemma EmptyTextHasNoStage(keys: seq<string>)
    ensures |Injected(ByPrefix, Lines([]), keys)| == 1
  {
    var line: string := [];
    assert Trim(line) == [];
    assert !IsFrom(ByPrefix, line);
    InjectedNoFrom(ByPrefix, [line], keys);
  }

  lemma TrimDropsNoInside(s: string)
    ensures '\n' !in s ==> '\n' !in Trim(s)
  {
    TrimLeftFacts(s);
    TrimRightFacts(TrimLeft(s));
    var l := TrimLeft(s);
    assert forall i :: 0 <= i < |Trim(s)| ==> Trim(s)[i] == l[i] && l[i] == s[|s| - |l| + i];
  }

  lemma {:induction false} AfterIsInside(s: string, c: char)
    ensures After(s, c).Some? ==> forall d :: d in After(s, c).value ==> d in s
  {
    if s != [] && s[0] != c {
      AfterIsInside(s[1..], c);
    }
  }

  /** No line declares a name with a newline in it. */
  lemma {:induction false} NamesHaveNoNewline(lines: seq<string>)
    requires forall l :: l in lines ==> '\n' !in l
    ensures forall n :: n in BlockNames(lines) ==> '\n' !in n
  {
    if lines != [] && IsArg(lines[0]) {
      NamesHaveNoNewline(lines[1..]);
      if ArgName(lines[0]).Some? {
        TrimDropsNoInside(lines[0]);
        AfterIsInside(Trim(lines[0]), ' ');
        BeforeFacts(After(Trim(lines[0]), ' ').value, '=');
      }
    }
  }

  /** A file is rewritten only if it has a stage. */
  lemma RewrittenHasStage(content: string, keys: seq<string>) returns (i: nat)
    requires RewrittenFile(content, keys).Some?
    ensures var lines := Lines(Trim(content)); i < |lines| && IsFrom(ByPrefix, lines[i])
  {
    var lines := Lines(Trim(content));
    if NoFrom(ByPrefix, lines) {
      InjectedNoFrom(ByPrefix, lines, keys);
    }
    i :| 0 <= i < |lines| && IsFrom(ByPrefix, lines[i]);
  }

  /** A key with a newline falls apart in the written file and is missing again in every stage. */
  lemma NewlineKeyMissingAgain(content: string, keys: seq<string>, k: string)
    requires AcceptedKeys(keys) && k in keys && '\n' in k
    requires RewrittenFile(content, keys).Some?
    ensures RewrittenFile(RewrittenFile(content, keys).value, keys).Some?
  {
    var lines := Lines(Trim(content));
    var out := Injected(ByPrefix, lines, keys);
    var i := RewrittenHasStage(content, keys);
    if Trim(content) == [] {
      EmptyTextHasNoStage(keys);
    }
    TrimmedLines(content);
    InjectedStaysSolid(lines, keys);
    var again := Lines(Join(out));
    LinesFacts(Join(out));
    var at := InjectedKeepsLine(ByPrefix, lines, keys, i);
    LineSurvives(out, at);
    var f :| 0 <= f < |again| && again[f] == lines[i];
    NamesHaveNoNewline(again[f + 1..]);
    TrimOfTight(k);
    assert !Declares(again[f + 1..], keys);
    FixedIffComplete(ByPrefix, again, keys);
  }

  lemma {:induction false} InjectedKeepsLine(test: FromTest, lines: seq<string>, keys: seq<string>, i: nat)
    returns (at: nat)
    requires i < |lines|
    ensures at < |Injected(test, lines, keys)| && Injected(test, lines, keys)[at] == lines[i]
  {
    OpeningLength(test, lines, keys);
    if i == 0 {
      at := 0;
    } else {
      at := InjectedKeepsLine(test, lines[1..], keys, i - 1);
      at := at + |Opening(test, lines, keys)|;
    }
  }

  /** Read again, the written file is left alone exactly when no key contains a newline. */
  lemma RewritingSettles(content: string, keys: seq<string>)
    requires AcceptedKeys(keys)
    requires RewrittenFile(content, keys).Some?
    ensures RewrittenFile(RewrittenFile(content, keys).value, keys) == None <==> NewlineFree(keys)
  {
    if NewlineFree(keys) {
      WrittenReadsBack(content, keys);
      AcceptedKeysReadBack(keys);
      InjectedTwice(ByPrefix, Lines(Trim(content)), keys);
    } else {
      var k :| k in keys && '\n' in k;
      NewlineKeyMissingAgain(content, keys, k);
    }
  }

  /** A one-stage file is rewritten for every non-empty list of keys. */
  lemma BareFile(keys: seq<string>)
    requires keys != []
    ensures RewrittenFile("FROM a", keys) == Some(Join(["FROM a"] + ArgLines(keys)))
  {
    var from := "FROM a";
    TrimOfTight(from);
    LinesOfOneLine(from);
    FromLineIsFrom(ByPrefix, from);
    BareStage(ByPrefix, from, keys);
  }

  /** Over all files: one pass settles them exactly for the accepted keys without newlines. */
  lemma EveryFileSettles(keys: seq<string>)
    requires AcceptedKeys(keys)
    ensures (forall content :: RewrittenFile(content, keys).Some? ==>
               RewrittenFile(RewrittenFile(content, keys).value, keys) == None) <==> NewlineFree(keys)
  {
    hide RewrittenFile;
    if NewlineFree(keys) {
      forall content | RewrittenFile(content, keys).Some?
        ensures RewrittenFile(RewrittenFile(content, keys).value, keys) == None
      {
        RewritingSettles(content, keys);
      }
    } else {
      BareFile(keys);
      RewritingSettles("FROM a", keys);
    }
  }

  /** The key A, newline, B is accepted, and its ARG line is added again whenever the file is read again. */
  lemma NewlineKeyIsAddedAgain()
    ensures AcceptedKey("A\nB")
    ensures RewrittenFile("FROM a", ["A\nB"]) == Some("FROM a\nARG A\nB")
    ensures RewrittenFile("FROM a\nARG A\nB", ["A\nB"]).Some?
  {
    var key := "A\nB";
    BareFile([key]);
    assert Join(["FROM a"] + ArgLines([key])) == "FROM a\nARG A\nB";
    NewlineKeyMissingAgain("FROM a", [key], key);
  }
}
