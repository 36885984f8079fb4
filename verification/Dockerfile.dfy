/** What the Dockerfile passes of the deployment job mean, line by line. */
module Dockerfile {
  import opened Text

  /** The two ways the job recognises a stage: a FROM prefix (compose builds), or the case-insensitive regex (single
      builds). */
  datatype FromTest = ByPrefix | ByRegex

  predicate IsRegexSpace(c: char) {
    c == ' ' || c == '\t' || c == '\n' || c == '\U{0B}' || c == '\U{0C}' || c == '\r'
  }

  predicate SameLetter(c: char, upper: char, lower: char) {
    c == upper || c == lower
  }

  predicate IsFrom(test: FromTest, line: string) {
    var t := Trim(line);
    match test
    case ByPrefix => StartsWith(t, "FROM")
    case ByRegex =>
      && |t| >= 5
      && SameLetter(t[0], 'F', 'f') && SameLetter(t[1], 'R', 'r')
      && SameLetter(t[2], 'O', 'o') && SameLetter(t[3], 'M', 'm')
      && IsRegexSpace(t[4])
  }

  predicate IsArg(line: string) {
    StartsWith(Trim(line), "ARG")
  }

  predicate IsRun(line: string) {
    StartsWith(TrimLeft(line), "RUN")
  }

  /** The name an ARG line declares, when the split on one space finds one. */
  function ArgName(line: string): Option<string> {
    match After(Trim(line), ' ')
    case None => None
    case Some(declaration) => Some(Before(declaration, '='))
  }

  function ArgLine(key: string): string {
    "ARG " + key
  }

  function ArgLines(keys: seq<string>): (ls: seq<string>)
    ensures |ls| == |keys|
    ensures forall i :: 0 <= i < |keys| ==> ls[i] == ArgLine(keys[i])
  {
    seq(|keys|, i requires 0 <= i < |keys| => ArgLine(keys[i]))
  }

  /** The names declared by the run of ARG lines that lines starts with. */
  function BlockNames(lines: seq<string>): seq<string> {
    if lines == [] || !IsArg(lines[0]) then []
    else (match ArgName(lines[0]) case Some(n) => [n] case None => []) + BlockNames(lines[1..])
  }

  /** ARG lines for the keys, in order, that declared does not name yet. */
  function Missing(keys: seq<string>, declared: seq<string>): seq<string> {
    if keys == [] then []
    else (if Trim(keys[0]) in declared then [] else [ArgLine(keys[0])]) + Missing(keys[1..], declared)
  }

  /** What the first line becomes: itself, followed by the missing ARGs when it opens a stage. */
  function Opening(test: FromTest, lines: seq<string>, keys: seq<string>): seq<string>
    requires lines != []
  {
    if IsFrom(test, lines[0]) then [lines[0]] + Missing(keys, BlockNames(lines[1..])) else [lines[0]]
  }

  /** Every stage is its FROM line, the ARGs its leading block lacks, and then what followed. */
  function Injected(test: FromTest, lines: seq<string>, keys: seq<string>): seq<string> {
    if lines == [] then [] else Opening(test, lines, keys) + Injected(test, lines[1..], keys)
  }

  /** Every FROM line is followed by all of args. */
  function Appended(test: FromTest, lines: seq<string>, args: seq<string>): seq<string> {
    if lines == [] then []
    else
      (if IsFrom(test, lines[0]) then [lines[0]] + args else [lines[0]])
      + Appended(test, lines[1..], args)
  }

  ghost predicate NoFrom(test: FromTest, lines: seq<string>) {
    forall i :: 0 <= i < |lines| ==> !IsFrom(test, lines[i])
  }

  /** The ARG lines that block starts with name every key. */
  ghost predicate Declares(block: seq<string>, keys: seq<string>) {
    forall k :: k in keys ==> Trim(k) in BlockNames(block)
  }

  /** Every stage already declares every key in its leading block. */
  ghost predicate Complete(test: FromTest, lines: seq<string>, keys: seq<string>) {
    forall i :: 0 <= i < |lines| && IsFrom(test, lines[i]) ==> Declares(lines[i + 1..], keys)
  }

  /** What keys turn into when they are trimmed on the right and cut at '='; blank keys turn into nothing. */
  function CutNames(keys: seq<string>): seq<string> {
    if keys == [] then []
    else
      var name := TrimRight(keys[0]);
      (if name == [] then [] else [Before(name, '=')]) + CutNames(keys[1..])
  }

  /** The trimmed text of every key is among the cut names. */
  predicate KeysReadBack(keys: seq<string>) {
    forall k :: k in keys ==> Trim(k) in CutNames(keys)
  }

  /** The keys that environment variables can have: trimmed, not empty, without '=' and NUL. Blanks and newlines may
      occur inside. */
  predicate AcceptedKey(key: string) {
    && key != [] && !IsBlank(key[0]) && !IsBlank(key[|key| - 1])
    && '=' !in key && '\0' !in key
  }

  /* Single lines. */

  lemma ArgIsNotFrom(test: FromTest, line: string)
    requires IsArg(line)
    ensures !IsFrom(test, line)
  {
    assert Trim(line)[0] == "ARG"[0];
    assert "FROM"[0] == 'F';
  }

  lemma TrimOfSolidStart(s: string)
    requires s != [] && !IsBlank(s[0])
    ensures Trim(s) == TrimRight(s) && Trim(s) != [] && Trim(s)[0] == s[0]
  {
  }

  lemma {:induction false} TrimRightKeeps(head: string, tail: string)
    requires head != [] && !IsBlank(head[|head| - 1])
    ensures TrimRight(head + tail) == head + TrimRight(tail)
    decreases |tail|
  {
    if tail == [] {
      assert head + tail == head;
    } else {
      var s := head + tail;
      assert s[|s| - 1] == tail[|tail| - 1];
      if IsBlank(tail[|tail| - 1]) {
        assert s[..|s| - 1] == head + tail[..|tail| - 1];
        TrimRightKeeps(head, tail[..|tail| - 1]);
      }
    }
  }

  lemma {:induction false} AllBlank(s: string)
    requires forall i :: 0 <= i < |s| ==> IsBlank(s[i])
    ensures TrimRight(s) == []
  {
    if s != [] {
      AllBlank(s[..|s| - 1]);
    }
  }

  lemma TrimRightOfSpaced(key: string)
    ensures TrimRight([' '] + key) == if TrimRight(key) == [] then [] else [' '] + TrimRight(key)
  {
    var name := TrimRight(key);
    TrimRightFacts(key);
    if name == [] {
      AllBlank([' '] + key);
    } else {
      var tail := key[|name|..];
      AllBlank(tail);
      TrimRightKeeps([' '] + name, tail);
      assert [' '] + key == [' '] + name + tail;
    }
  }

  lemma ArgLineIsArg(key: string)
    ensures IsArg(ArgLine(key))
    ensures Trim(ArgLine(key)) == "ARG" + TrimRight([' '] + key)
  {
    var line := ArgLine(key);
    assert line[0] == 'A';
    TrimOfSolidStart(line);
    assert line == "ARG" + ([' '] + key);
    TrimRightKeeps("ARG", [' '] + key);
  }

  /** A key is read back from its own ARG line, if at all, without its trailing blanks and up to the first '='. */
  lemma ArgLineName(key: string)
    ensures ArgName(ArgLine(key)) == if TrimRight(key) == [] then None else Some(Before(TrimRight(key), '='))
  {
    ArgLineIsArg(key);
    TrimRightOfSpaced(key);
    var name := TrimRight(key);
    AfterFirst("ARG", ' ', name);
    if name == [] {
      assert Trim(ArgLine(key)) == "ARG";
    } else {
      assert Trim(ArgLine(key)) == "ARG" + [' '] + name;
    }
  }

  lemma TrimKeepsEquals(s: string)
    ensures '=' in s ==> '=' in Trim(s)
  {
    LeftKeepsEquals(s);
    RightKeepsEquals(TrimLeft(s));
  }

  lemma LeftKeepsEquals(s: string)
    ensures '=' in s ==> '=' in TrimLeft(s)
  {
  }

  lemma RightKeepsEquals(s: string)
    ensures '=' in s ==> '=' in TrimRight(s)
  {
    TrimRightFacts(s);
    if '=' in s {
      var i :| 0 <= i < |s| && s[i] == '=';
      assert TrimRight(s)[i] == '=';
    }
  }

  /* Blocks and stages. */

  lemma {:induction false} BlockStopsAt(a: seq<string>, b: seq<string>)
    requires b == [] || !IsArg(b[0])
    ensures BlockNames(a + b) == BlockNames(a)
  {
    if a == [] {
      assert a + b == b;
    } else {
      assert (a + b)[1..] == a[1..] + b;
      BlockStopsAt(a[1..], b);
    }
  }

  lemma {:induction false} BlockContinues(a: seq<string>, b: seq<string>)
    requires forall l :: l in a ==> IsArg(l)
    ensures BlockNames(a + b) == BlockNames(a) + BlockNames(b)
  {
    if a == [] {
      assert a + b == b;
    } else {
      assert (a + b)[1..] == a[1..] + b;
      BlockContinues(a[1..], b);
    }
  }

  lemma {:induction false} MissingAreArgs(keys: seq<string>, declared: seq<string>)
    ensures forall l :: l in Missing(keys, declared) ==> IsArg(l) && exists k :: k in keys && l == ArgLine(k)
  {
    if keys != [] {
      MissingAreArgs(keys[1..], declared);
      ArgLineIsArg(keys[0]);
    }
  }

  lemma {:induction false} MissingMembers(keys: seq<string>, declared: seq<string>, k: string)
    requires k in keys && Trim(k) !in declared
    ensures ArgLine(k) in Missing(keys, declared)
  {
    if k != keys[0] {
      MissingMembers(keys[1..], declared, k);
    }
  }

  lemma {:induction false} NothingMissing(keys: seq<string>, declared: seq<string>)
    ensures Missing(keys, declared) == [] <==> forall k :: k in keys ==> Trim(k) in declared
  {
    if keys != [] {
      NothingMissing(keys[1..], declared);
      assert forall k :: k in keys <==> k == keys[0] || k in keys[1..];
    }
  }

  lemma ArgLinesUnfold(keys: seq<string>)
    requires keys != []
    ensures ArgLines(keys) == [ArgLine(keys[0])] + ArgLines(keys[1..])
  {
  }

  lemma {:induction false} EverythingMissing(keys: seq<string>, declared: seq<string>)
    ensures |Missing(keys, declared)| <= |keys|
    ensures |Missing(keys, declared)| == |keys| <==> forall k :: k in keys ==> Trim(k) !in declared
    ensures |Missing(keys, declared)| == |keys| ==> Missing(keys, declared) == ArgLines(keys)
  {
    if keys != [] {
      EverythingMissing(keys[1..], declared);
      ArgLinesUnfold(keys);
      assert forall k :: k in keys <==> k == keys[0] || k in keys[1..];
    }
  }

  lemma {:induction false} InjectedNoFrom(test: FromTest, lines: seq<string>, keys: seq<string>)
    requires NoFrom(test, lines)
    ensures Injected(test, lines, keys) == lines
  {
    if lines != [] {
      assert !IsFrom(test, lines[0]);
      InjectedNoFrom(test, lines[1..], keys);
    }
  }

  lemma OpeningOfPlainLine(test: FromTest, lines: seq<string>, keys: seq<string>)
    requires lines != [] && !IsFrom(test, lines[0])
    ensures Opening(test, lines, keys) == [lines[0]]
  {
  }

  lemma {:induction false} InjectedSkips(test: FromTest, a: seq<string>, b: seq<string>, keys: seq<string>)
    requires NoFrom(test, a)
    ensures Injected(test, a + b, keys) == a + Injected(test, b, keys)
  {
    if a == [] {
      assert a + b == b;
    } else {
      assert (a + b)[1..] == a[1..] + b;
      assert !IsFrom(test, a[0]);
      OpeningOfPlainLine(test, a + b, keys);
      InjectedSkips(test, a[1..], b, keys);
    }
  }

  lemma OpeningIgnoresLaterStages(test: FromTest, a: seq<string>, b: seq<string>, keys: seq<string>)
    requires a != [] && (b == [] || IsFrom(test, b[0]))
    ensures Opening(test, a + b, keys) == Opening(test, a, keys)
  {
    if b != [] && IsArg(b[0]) {
      ArgIsNotFrom(test, b[0]);
    }
    assert (a + b)[1..] == a[1..] + b;
    BlockStopsAt(a[1..], b);
  }

  /** Injection treats the lines before a stage independently of the stage. */
  lemma {:induction false} InjectedSplits(test: FromTest, a: seq<string>, b: seq<string>, keys: seq<string>)
    requires b == [] || IsFrom(test, b[0])
    ensures Injected(test, a + b, keys) == Injected(test, a, keys) + Injected(test, b, keys)
  {
    if a == [] {
      assert a + b == b;
    } else {
      OpeningIgnoresLaterStages(test, a, b, keys);
      assert (a + b)[1..] == a[1..] + b;
      InjectedSplits(test, a[1..], b, keys);
    }
  }

  lemma StageInjected(test: FromTest, from: string, body: seq<string>, keys: seq<string>)
    requires IsFrom(test, from) && NoFrom(test, body)
    ensures Injected(test, [from] + body, keys) == [from] + Missing(keys, BlockNames(body)) + body
  {
    assert ([from] + body)[1..] == body;
    InjectedNoFrom(test, body, keys);
  }

  /** The stage-wise reading: lines before the first FROM stay; a stage gets exactly its missing ARGs right after its
      FROM line. */
  lemma InjectedByStages(test: FromTest, preamble: seq<string>, from: string, body: seq<string>, later: seq<string>,
                         keys: seq<string>)
    requires NoFrom(test, preamble) && IsFrom(test, from) && NoFrom(test, body)
    requires later == [] || IsFrom(test, later[0])
    ensures Injected(test, preamble + ([from] + body + later), keys)
         == preamble + ([from] + Missing(keys, BlockNames(body)) + body + Injected(test, later, keys))
  {
    InjectedSkips(test, preamble, [from] + body + later, keys);
    InjectedSplits(test, [from] + body, later, keys);
    StageInjected(test, from, body, keys);
  }

  /* Idempotence of the forward pass. */

  lemma {:induction false} BlockSurvivesInjection(test: FromTest, lines: seq<string>, keys: seq<string>)
    ensures BlockNames(Injected(test, lines, keys)) == BlockNames(lines)
  {
    if lines != [] {
      var out := Injected(test, lines, keys);
      assert out[0] == lines[0];
      if IsArg(lines[0]) {
        ArgIsNotFrom(test, lines[0]);
        assert out[1..] == Injected(test, lines[1..], keys);
        BlockSurvivesInjection(test, lines[1..], keys);
      }
    }
  }

  lemma {:induction false} NameInBlock(lines: seq<string>, line: string)
    requires forall l :: l in lines ==> IsArg(l)
    requires line in lines && ArgName(line).Some?
    ensures ArgName(line).value in BlockNames(lines)
  {
    if line != lines[0] {
      NameInBlock(lines[1..], line);
    }
  }

  lemma TrimStartsSolid(s: string)
    ensures Trim(s) == [] || !IsBlank(Trim(s)[0])
  {
    var l := TrimLeft(s);
    TrimLeftFacts(s);
    TrimRightFacts(l);
    if TrimRight(l) != [] {
      assert TrimRight(l)[0] == l[0];
    }
  }

  lemma TrimOfTrimmedRight(j: string)
    requires TrimRight(j) != [] && !IsBlank(TrimRight(j)[0])
    ensures Trim(j) == TrimRight(j)
  {
    TrimRightFacts(j);
    assert j[0] == TrimRight(j)[0];
  }

  /** A name read back from the ARG line of a key that is itself read back is that key's trimmed name. */
  lemma ReadBackIsTrimmed(j: string, k: string)
    requires '=' !in Trim(j) && TrimRight(j) != [] && Before(TrimRight(j), '=') == Trim(k)
    ensures Trim(j) == Trim(k)
  {
    TrimKeepsEquals(j);
    TrimRightFacts(j);
    BeforeFacts(TrimRight(j), '=');
    TrimStartsSolid(k);
    TrimOfTrimmedRight(j);
  }

  lemma {:induction false} CutWitness(keys: seq<string>, name: string) returns (j: string)
    requires name in CutNames(keys)
    ensures j in keys && TrimRight(j) != [] && Before(TrimRight(j), '=') == name
  {
    if TrimRight(keys[0]) != [] && Before(TrimRight(keys[0]), '=') == name {
      j := keys[0];
    } else {
      j := CutWitness(keys[1..], name);
    }
  }

  /** Some key with the same trimmed name as k is read back under that name. */
  lemma ReadBackWitness(keys: seq<string>, k: string) returns (j: string)
    requires KeysReadBack(keys) && k in keys
    ensures j in keys && Trim(j) == Trim(k) && ArgName(ArgLine(j)) == Some(Trim(k))
  {
    j := CutWitness(keys, Trim(k));
    var i := CutWitness(keys, Trim(j));
    BeforeFacts(TrimRight(i), '=');
    ReadBackIsTrimmed(j, k);
    ArgLineName(j);
  }

  /** The block of all ARG lines declares the cut names. */
  lemma {:induction false} BlockOfArgLines(keys: seq<string>)
    ensures BlockNames(ArgLines(keys)) == CutNames(keys)
  {
    if keys != [] {
      ArgLinesUnfold(keys);
      ArgLineIsArg(keys[0]);
      ArgLineName(keys[0]);
      BlockOfArgLines(keys[1..]);
      assert ArgLines(keys)[1..] == ArgLines(keys[1..]);
    }
  }

  /** After the missing ARGs are put in front of a block, the block names every key. */
  lemma InsertedBlockNames(keys: seq<string>, declared: seq<string>, k: string)
    requires KeysReadBack(keys) && k in keys
    ensures Trim(k) in declared || Trim(k) in BlockNames(Missing(keys, declared))
  {
    var j := ReadBackWitness(keys, k);
    if Trim(j) !in declared {
      MissingMembers(keys, declared, j);
      MissingAreArgs(keys, declared);
      NameInBlock(Missing(keys, declared), ArgLine(j));
    }
  }

  lemma CompleteUnfolds(test: FromTest, lines: seq<string>, keys: seq<string>)
    requires lines != []
    ensures Complete(test, lines, keys)
       <==> (IsFrom(test, lines[0]) ==> Declares(lines[1..], keys)) && Complete(test, lines[1..], keys)
  {
    assert lines[0 + 1..] == lines[1..];
    if Complete(test, lines, keys) {
      forall i | 0 <= i < |lines[1..]| && IsFrom(test, lines[1..][i]) ensures Declares(lines[1..][i + 1..], keys) {
        assert IsFrom(test, lines[i + 1]);
        assert lines[1..][i + 1..] == lines[i + 1 + 1..];
      }
    }
    if (IsFrom(test, lines[0]) ==> Declares(lines[1..], keys)) && Complete(test, lines[1..], keys) {
      forall i | 0 <= i < |lines| && IsFrom(test, lines[i]) ensures Declares(lines[i + 1..], keys) {
        if i > 0 {
          assert IsFrom(test, lines[1..][i - 1]);
          assert lines[1..][i - 1 + 1..] == lines[i + 1..];
        }
      }
    }
  }

  lemma OpeningLength(test: FromTest, lines: seq<string>, keys: seq<string>)
    requires lines != []
    ensures Opening(test, lines, keys) != [] && Opening(test, lines, keys)[0] == lines[0]
    ensures |Opening(test, lines, keys)| == 1 <==> (IsFrom(test, lines[0]) ==> Declares(lines[1..], keys))
  {
    NothingMissing(keys, BlockNames(lines[1..]));
  }

  /** The pass leaves lines alone exactly when every stage already declares every key. */
  lemma {:induction false} FixedIffComplete(test: FromTest, lines: seq<string>, keys: seq<string>)
    ensures |Injected(test, lines, keys)| >= |lines|
    ensures |Injected(test, lines, keys)| == |lines| <==> Complete(test, lines, keys)
    ensures Injected(test, lines, keys) == lines <==> Complete(test, lines, keys)
  {
    if lines != [] {
      FixedIffComplete(test, lines[1..], keys);
      CompleteUnfolds(test, lines, keys);
      OpeningLength(test, lines, keys);
    }
  }

  lemma OpeningIsSettled(test: FromTest, lines: seq<string>, keys: seq<string>)
    requires lines != [] && KeysReadBack(keys)
    ensures var out := Opening(test, lines, keys)[1..] + Injected(test, lines[1..], keys);
            && NoFrom(test, Opening(test, lines, keys)[1..])
            && (IsFrom(test, lines[0]) ==> Declares(out, keys))
  {
    var rest := Injected(test, lines[1..], keys);
    if IsFrom(test, lines[0]) {
      var added := Missing(keys, BlockNames(lines[1..]));
      assert Opening(test, lines, keys)[1..] == added;
      MissingAreArgs(keys, BlockNames(lines[1..]));
      forall i | 0 <= i < |added| ensures !IsFrom(test, added[i]) { ArgIsNotFrom(test, added[i]); }
      BlockContinues(added, rest);
      BlockSurvivesInjection(test, lines[1..], keys);
      forall k | k in keys ensures Trim(k) in BlockNames(added + rest) {
        InsertedBlockNames(keys, BlockNames(lines[1..]), k);
      }
    }
  }

  lemma InjectedUnfolds(test: FromTest, lines: seq<string>, keys: seq<string>)
    requires lines != []
    ensures Injected(test, lines, keys) == Opening(test, lines, keys) + Injected(test, lines[1..], keys)
  {
  }

  lemma {:induction false} InjectedTwice(test: FromTest, lines: seq<string>, keys: seq<string>)
    requires KeysReadBack(keys)
    ensures Injected(test, Injected(test, lines, keys), keys) == Injected(test, lines, keys)
  {
    if lines != [] {
      hide IsFrom, KeysReadBack, Declares, Opening, NoFrom, Injected;
      var out, rest := Injected(test, lines, keys), Injected(test, lines[1..], keys);
      var opening := Opening(test, lines, keys);
      InjectedUnfolds(test, lines, keys);
      OpeningLength(test, lines, keys);
      InjectedTwice(test, lines[1..], keys);
      OpeningIsSettled(test, lines, keys);
      HeadAndRest(opening, rest);
      InjectedSkips(test, opening[1..], rest, keys);
      OpeningLength(test, out, keys);
      InjectedUnfolds(test, out, keys);
      OneElement(Opening(test, out, keys));
    }
  }

  lemma HeadAndRest(a: seq<string>, b: seq<string>)
    requires a != []
    ensures a + b != [] && (a + b)[0] == a[0] && (a + b)[1..] == a[1..] + b
    ensures [a[0]] + (a[1..] + b) == a + b
  {
  }

  lemma OneElement(a: seq<string>)
    ensures |a| == 1 ==> a == [a[0]]
  {
  }

  lemma FromLineIsFrom(test: FromTest, line: string)
    requires |line| == 6 && line[0] == 'F' && line[1] == 'R' && line[2] == 'O' && line[3] == 'M'
    requires line[4] == ' ' && line[5] == 'a'
    ensures IsFrom(test, line)
  {
    TrimOfTight(line);
    assert line[..4] == "FROM";
  }

  lemma BareStage(test: FromTest, from: string, keys: seq<string>)
    requires IsFrom(test, from)
    ensures Injected(test, [from], keys) == [from] + ArgLines(keys)
  {
    EverythingMissing(keys, []);
    StageInjected(test, from, [], keys);
    assert [from] + [] == [from];
    assert BlockNames([]) == [];
    assert Missing(keys, []) == ArgLines(keys);
  }

  /** A key that is not read back is added again to a one-line Dockerfile. */
  lemma AddedAgain(test: FromTest, from: string, keys: seq<string>)
    requires IsFrom(test, from) && !KeysReadBack(keys)
    ensures Injected(test, Injected(test, [from], keys), keys) != Injected(test, [from], keys)
  {
    BareStage(test, from, keys);
    var once := [from] + ArgLines(keys);
    FixedIffComplete(test, once, keys);
    assert IsFrom(test, once[0]) && once[0 + 1..] == ArgLines(keys);
    BlockOfArgLines(keys);
    assert !Declares(ArgLines(keys), keys);
  }

  /** A second forward pass adds nothing on every Dockerfile if and only if the keys are read back from their ARG
      lines. */
  lemma ForwardIdempotence(test: FromTest, keys: seq<string>)
    ensures (forall lines :: Injected(test, Injected(test, lines, keys), keys) == Injected(test, lines, keys))
       <==> KeysReadBack(keys)
  {
    if KeysReadBack(keys) {
      forall lines ensures Injected(test, Injected(test, lines, keys), keys) == Injected(test, lines, keys) {
        InjectedTwice(test, lines, keys);
      }
    } else {
      FromLineIsFrom(test, "FROM a");
      AddedAgain(test, "FROM a", keys);
    }
  }

  /** After the pass every stage's leading block declares every key. */
  lemma InjectedIsComplete(test: FromTest, lines: seq<string>, keys: seq<string>)
    requires KeysReadBack(keys)
    ensures Complete(test, Injected(test, lines, keys), keys)
  {
    InjectedTwice(test, lines, keys);
    FixedIffComplete(test, Injected(test, lines, keys), keys);
  }

  /** Every key list that environment variables allow is read back, blanks and newlines inside the keys included. */
  lemma {:induction false} AcceptedKeysReadBack(keys: seq<string>)
    requires forall k :: k in keys ==> AcceptedKey(k)
    ensures CutNames(keys) == keys && KeysReadBack(keys)
  {
    if keys != [] {
      assert keys[0] in keys;
      AcceptedKeysReadBack(keys[1..]);
      TrimOfTight(keys[0]);
      BeforeFacts(keys[0], '=');
      assert TrimRight(keys[0]) == keys[0];
    }
    forall k | k in keys ensures Trim(k) == k {
      TrimOfTight(k);
    }
  }

  /* What the forward pass keeps. */

  /** Which lines of Injected were added, in step with it. */
  function Added(test: FromTest, lines: seq<string>, keys: seq<string>): seq<bool> {
    if lines == [] then []
    else OpeningAdded(test, lines, keys) + Added(test, lines[1..], keys)
  }

  function OpeningAdded(test: FromTest, lines: seq<string>, keys: seq<string>): (marks: seq<bool>)
    requires lines != []
    ensures |marks| == |Opening(test, lines, keys)|
    ensures forall i :: 0 <= i < |marks| ==> (marks[i] <==> i > 0)
  {
    seq(|Opening(test, lines, keys)|, i => i > 0)
  }

  function Unmarked(lines: seq<string>, marks: seq<bool>): seq<string>
    requires |lines| == |marks|
  {
    if lines == [] then []
    else (if marks[0] then [] else [lines[0]]) + Unmarked(lines[1..], marks[1..])
  }

  lemma {:induction false} UnmarkedSplits(a: seq<string>, b: seq<string>, ma: seq<bool>, mb: seq<bool>)
    requires |a| == |ma| && |b| == |mb|
    ensures Unmarked(a + b, ma + mb) == Unmarked(a, ma) + Unmarked(b, mb)
  {
    if a == [] {
      assert a + b == b && ma + mb == mb;
    } else {
      assert (a + b)[1..] == a[1..] + b && (ma + mb)[1..] == ma[1..] + mb;
      UnmarkedSplits(a[1..], b, ma[1..], mb);
    }
  }

  lemma {:induction false} AllMarked(a: seq<string>, marks: seq<bool>)
    requires |a| == |marks| && forall i :: 0 <= i < |marks| ==> marks[i]
    ensures Unmarked(a, marks) == []
  {
    if a != [] {
      AllMarked(a[1..], marks[1..]);
    }
  }

  lemma OpeningOnlyAdds(test: FromTest, lines: seq<string>, keys: seq<string>)
    requires lines != []
    ensures Unmarked(Opening(test, lines, keys), OpeningAdded(test, lines, keys)) == [lines[0]]
    ensures forall i :: 0 < i < |Opening(test, lines, keys)| ==>
              exists k :: k in keys && Opening(test, lines, keys)[i] == ArgLine(k)
  {
    var o, marks := Opening(test, lines, keys), OpeningAdded(test, lines, keys);
    AllMarked(o[1..], marks[1..]);
    MissingAreArgs(keys, BlockNames(lines[1..]));
    assert forall i :: 0 < i < |o| ==> o[i] in Missing(keys, BlockNames(lines[1..]));
  }

  lemma {:induction false} AddedAreArgLines(test: FromTest, lines: seq<string>, keys: seq<string>)
    ensures |Added(test, lines, keys)| == |Injected(test, lines, keys)|
    ensures forall i :: 0 <= i < |Added(test, lines, keys)| && Added(test, lines, keys)[i] ==>
              i > 0 && exists k :: k in keys && Injected(test, lines, keys)[i] == ArgLine(k)
  {
    if lines != [] {
      AddedAreArgLines(test, lines[1..], keys);
      OpeningOnlyAdds(test, lines, keys);
    }
  }

  lemma {:induction false} UnmarkedInjected(test: FromTest, lines: seq<string>, keys: seq<string>)
    requires |Added(test, lines, keys)| == |Injected(test, lines, keys)|
    ensures Unmarked(Injected(test, lines, keys), Added(test, lines, keys)) == lines
  {
    if lines != [] {
      AddedAreArgLines(test, lines[1..], keys);
      UnmarkedInjected(test, lines[1..], keys);
      OpeningOnlyAdds(test, lines, keys);
      UnmarkedSplits(Opening(test, lines, keys), Injected(test, lines[1..], keys),
                     OpeningAdded(test, lines, keys), Added(test, lines[1..], keys));
    }
  }

  /** Removing the added lines gives the original back, and each added line is the ARG line of a key. */
  lemma InjectionOnlyAdds(test: FromTest, lines: seq<string>, keys: seq<string>)
    ensures |Added(test, lines, keys)| == |Injected(test, lines, keys)|
    ensures Unmarked(Injected(test, lines, keys), Added(test, lines, keys)) == lines
    ensures forall i :: 0 <= i < |Added(test, lines, keys)| && Added(test, lines, keys)[i] ==>
              i > 0 && exists k :: k in keys && Injected(test, lines, keys)[i] == ArgLine(k)
  {
    AddedAreArgLines(test, lines, keys);
    UnmarkedInjected(test, lines, keys);
  }

  /* The regular expression of single builds. */

  /** from a, in any case and with any white space behind it, opens a stage; fromage does not. Compose builds look for
      FROM in capitals and at nothing behind it. */
  lemma FromInAnyCase(rest: string)
    requires rest != [] && !IsBlank(rest[|rest| - 1])
    ensures IsFrom(ByRegex, "from " + rest) && IsFrom(ByRegex, "From " + rest) && IsFrom(ByRegex, "FROM\t" + rest)
    ensures !IsFrom(ByRegex, "fromage") && !IsFrom(ByRegex, "FROMage") && IsFrom(ByPrefix, "FROMage")
    ensures !IsFrom(ByPrefix, "from " + rest)
  {
    SolidText("from " + rest);
    SolidText("From " + rest);
    SolidText("FROM\t" + rest);
    SolidText("fromage");
    SolidText("FROMage");
    var line, from := "from " + rest, "FROM";
    assert line[0] == 'f' && from[0] == 'F';
  }

  lemma SolidText(line: string)
    requires line != [] && !IsBlank(line[0]) && !IsBlank(line[|line| - 1])
    ensures Trim(line) == line
  {
    TrimOfTight(line);
  }
}
