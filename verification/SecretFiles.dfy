/** The secret pass on whole files: read, trimmed, split, mounted, joined, written, and read again by a second run. */
module SecretFiles {
  import opened Text
  import opened Dockerfile
  import opened DockerfileLaws
  import opened DockerfileSecrets

  /** What the pass writes for a file with this content, if it writes at all. */
  ghost function MountedFile(content: string, keys: seq<string>): Option<string> {
    var lines := Lines(Trim(content));
    if keys != [] && AnyNeedsMounts(lines) then Some(Join(SecretPass(lines, keys))) else None
  }

  method MountFile(content: string, keys: seq<string>) returns (written: Option<string>)
    ensures written == MountedFile(content, keys)
  {
    var out := MountSecrets(Lines(Trim(content)), keys);
    match out
    case None => written := None;
    case Some(lines) => {
      SecretIdempotence(Lines(Trim(content)), keys);
      written := Some(Join(lines));
    }
  }

  /* Pieces of joined lines. */

  /** What a list of lines falls apart into when it is joined and split again. */
  function Pieces(ls: seq<string>): seq<string> {
    if ls == [] then [] else Lines(ls[0]) + Pieces(ls[1..])
  }

  lemma {:induction false} LinesOfJoined(ls: seq<string>)
    requires ls != []
    ensures Lines(Join(ls)) == Pieces(ls)
  {
    if |ls| == 1 {
      assert Pieces(ls[1..]) == [];
    } else {
      LinesOfBoth(ls[0], Join(ls[1..]));
      LinesOfJoined(ls[1..]);
    }
  }

  lemma {:induction false} PiecesNeed(ls: seq<string>)
    ensures AnyNeedsMounts(Pieces(ls)) <==> exists i :: 0 <= i < |ls| && AnyNeedsMounts(Lines(ls[i]))
  {
    hide AnyNeedsMounts, Lines;
    if ls == [] {
      NeedsNothing();
    } else {
      NeedsSplits(Lines(ls[0]), Pieces(ls[1..]));
      PiecesNeed(ls[1..]);
      if i :| 0 <= i < |ls| && AnyNeedsMounts(Lines(ls[i])) {
        assert i > 0 ==> ls[1..][i - 1] == ls[i];
      }
      if i :| 0 <= i < |ls[1..]| && AnyNeedsMounts(Lines(ls[1..][i])) {
        assert ls[i + 1] == ls[1..][i];
      }
    }
  }

  lemma NeedsNothing()
    ensures !AnyNeedsMounts([])
  {
  }

  lemma NeedsOne(line: string)
    ensures AnyNeedsMounts([line]) <==> NeedsMounts(line)
  {
    if NeedsMounts(line) {
      assert NeedsMounts([line][0]);
    }
  }

  lemma {:induction false} LinesAfter(a: string, s: string)
    requires '\n' !in a
    ensures Lines(a + s) == [a + Lines(s)[0]] + Lines(s)[1..]
  {
    if a == [] {
      assert a + s == s && a + Lines(s)[0] == Lines(s)[0];
    } else {
      assert (a + s)[1..] == a[1..] + s;
      LinesAfter(a[1..], s);
      assert [a[0]] + (a[1..] + Lines(s)[0]) == a + Lines(s)[0];
    }
  }

  /** The same lines, with b at the end of the last one. */
  ghost predicate Ends(ls: seq<string>, b: string, extended: seq<string>) {
    && |extended| == |ls| > 0
    && (forall i :: 0 <= i < |ls| - 1 ==> extended[i] == ls[i])
    && extended[|ls| - 1] == ls[|ls| - 1] + b
  }

  lemma EndsOfOneLine(b: string)
    ensures Ends([[]], b, [b])
  {
    assert [] + b == b;
  }

  lemma EndsAtNewline(ls: seq<string>, b: string, extended: seq<string>)
    requires Ends(ls, b, extended)
    ensures Ends([[]] + ls, b, [[]] + extended)
  {
  }

  lemma EndsAtChar(c: char, ls: seq<string>, b: string, extended: seq<string>)
    requires Ends(ls, b, extended)
    ensures Ends([[c] + ls[0]] + ls[1..], b, [[c] + extended[0]] + extended[1..])
  {
    assert |ls| == 1 ==> [c] + (ls[0] + b) == [c] + ls[0] + b;
  }

  lemma {:induction false} LinesBefore(s: string, b: string)
    requires '\n' !in b
    ensures Ends(Lines(s), b, Lines(s + b))
  {
    if s == [] {
      assert s + b == b;
      LinesOfOneLine(b);
      EndsOfOneLine(b);
    } else {
      LinesBefore(s[1..], b);
      assert (s + b)[1..] == s[1..] + b;
      if s[0] == '\n' {
        EndsAtNewline(Lines(s[1..]), b, Lines(s[1..] + b));
      } else {
        EndsAtChar(s[0], Lines(s[1..]), b, Lines(s[1..] + b));
      }
    }
  }

  /* A text of mounts in a rewritten line. */

  lemma SameNeeds(ls: seq<string>, wrapped: seq<string>)
    requires |ls| == |wrapped| > 0
    requires !NeedsMounts(ls[0]) && !NeedsMounts(ls[|ls| - 1])
    requires !NeedsMounts(wrapped[0]) && !NeedsMounts(wrapped[|ls| - 1])
    requires forall i :: 0 < i < |ls| - 1 ==> wrapped[i] == ls[i]
    ensures AnyNeedsMounts(wrapped) <==> AnyNeedsMounts(ls)
  {
    hide NeedsMounts;
    assert forall i :: 0 <= i < |ls| ==> (NeedsMounts(ls[i]) <==> NeedsMounts(wrapped[i]));
  }

  /** Its first and its last line carry the flag, so wrapping them makes no line need mounts, nor any line stop needing
      them. */
  lemma WrappedMounts(a: string, mounts: string, b: string)
    requires '\n' !in a && '\n' !in b
    requires var ls := Lines(mounts); IsMounted(ls[0]) && IsMounted(ls[|ls| - 1])
    ensures AnyNeedsMounts(Lines(a + mounts + b)) <==> AnyNeedsMounts(Lines(mounts))
  {
    hide Lines, IsMounted, IsRun, AnyNeedsMounts;
    var ls, middle, wrapped := Lines(mounts), Lines(a + mounts), Lines(a + mounts + b);
    var n := |ls| - 1;
    LinesAfter(a, mounts);
    LinesBefore(a + mounts, b);
    FlagAfter(a, ls[0]);
    FlagBefore(middle[0], b);
    FlagBefore(ls[n], b);
    assert wrapped[n] == middle[n] + b;
    assert n == 0 || (wrapped[0] == middle[0] && middle[n] == ls[n]);
    SameNeeds(ls, wrapped);
  }

  lemma FlagAfter(a: string, s: string)
    requires IsMounted(s)
    ensures IsMounted(a + s)
  {
    ContainsWider(a, s, [], MOUNT_FLAG);
    assert a + s + [] == a + s;
  }

  lemma FlagBefore(s: string, b: string)
    requires IsMounted(s)
    ensures IsMounted(s + b)
  {
    ContainsWider([], s, b, MOUNT_FLAG);
    assert [] + s + b == s + b;
  }

  lemma FirstLineFlagged(rest: string)
    ensures IsMounted(Lines(MOUNT_FLAG + rest)[0])
  {
    var flag := MOUNT_FLAG;
    assert '\n' !in flag;
    LinesAfter(flag, rest);
    ContainsFirst(flag, Lines(rest)[0], []);
    assert flag + Lines(rest)[0] + [] == flag + Lines(rest)[0];
  }

  lemma NoNewlines(a: string, b: string)
    requires '\n' !in a && '\n' !in b
    ensures '\n' !in a + b
  {
  }

  /** The mount of a key without newlines has none either. */
  lemma MountHasNoNewline(key: string)
    requires '\n' !in key
    ensures '\n' !in MountOf(key)
  {
    var id, env, flag := ",id=", ",env=", MOUNT_FLAG;
    assert '\n' !in id && '\n' !in env && '\n' !in flag;
    NoNewlines(id, key);
    NoNewlines(id + key, env);
    NoNewlines(id + key + env, key);
    NoNewlines(flag, id + key + env + key);
  }

  lemma EndsSolid(a: string, b: string)
    requires SolidEnd(b)
    ensures SolidEnd(a + b)
  {
  }

  lemma HashMount()
    ensures '\n' !in MountOf(HASH_KEY) && SolidEnd(MountOf(HASH_KEY)) && IsMounted(MountOf(HASH_KEY))
  {
    var key := HASH_KEY;
    assert '\n' !in key && SolidEnd(key);
    hide SolidEnd, IsMounted;
    MountHasNoNewline(key);
    EndsSolid(",id=" + key + ",env=", key);
    EndsSolid(MOUNT_FLAG, ",id=" + key + ",env=" + key);
    MountFlagged(key);
  }

  lemma MountFlagged(key: string)
    ensures IsMounted(MountOf(key))
  {
    MountHasFlag(key, []);
    assert MountOf(key) + [] == MountOf(key);
  }

  /** The mounts end with the mount of the hash. */
  lemma {:induction false} MountsEnd(keys: seq<string>) returns (front: string)
    ensures SecretMounts(keys) == front + MountOf(HASH_KEY)
  {
    if keys == [] {
      front := [];
    } else {
      front := MountsEnd(keys[1..]);
      front := MountOf(keys[0]) + " " + front;
    }
  }

  lemma MountsFirstLine(keys: seq<string>)
    ensures IsMounted(Lines(SecretMounts(keys))[0])
  {
    hide IsMounted, Lines;
    if keys == [] {
      FirstLineFlagged(",id=" + HASH_KEY + ",env=" + HASH_KEY);
    } else {
      var tail := ",id=" + keys[0] + ",env=" + keys[0];
      FirstLineFlagged(tail + (" " + SecretMounts(keys[1..])));
      Regrouped(MOUNT_FLAG, tail, " ", SecretMounts(keys[1..]));
    }
  }

  lemma Regrouped(a: string, b: string, c: string, d: string)
    ensures a + b + c + d == a + (b + (c + d))
  {
  }

  lemma MountsLastLine(keys: seq<string>)
    ensures var ls := Lines(SecretMounts(keys)); IsMounted(ls[|ls| - 1])
    ensures SolidEnd(SecretMounts(keys))
  {
    HashMount();
    var front := MountsEnd(keys);
    hide IsMounted, Lines, SolidEnd, MountOf, SecretMounts;
    LinesBefore(front, MountOf(HASH_KEY));
    var last := Lines(front)[|Lines(front)| - 1];
    FlagAfter(last, MountOf(HASH_KEY));
    EndsSolid(front, MountOf(HASH_KEY));
  }

  /* The second run. */

  /** A rewritten line at the end of the file may lose the blank after its mounts. */
  lemma {:induction false} TrimRightOfJoin(ls: seq<string>)
    requires ls != [] && TrimRight(ls[|ls| - 1]) != []
    ensures TrimRight(Join(ls)) == Join(ls[..|ls| - 1] + [TrimRight(ls[|ls| - 1])])
  {
    var n := |ls| - 1;
    if n == 0 {
      assert ls[..0] + [TrimRight(ls[0])] == [TrimRight(ls[0])];
    } else {
      var cut := ls[..n] + [TrimRight(ls[n])];
      assert cut[1..] == ls[1..][..n - 1] + [TrimRight(ls[n])];
      TrimRightOfJoin(ls[1..]);
      TrimRightBehind(ls[0] + ['\n'], Join(ls[1..]));
    }
  }

  lemma TrimRightBehind(a: string, s: string)
    requires TrimRight(s) != []
    ensures TrimRight(a + s) == a + TrimRight(s)
  {
    var solid := TrimRight(s);
    TrimRightFacts(s);
    AllBlank(s[|solid|..]);
    TrimRightKeeps(a + solid, s[|solid|..]);
    assert a + s == a + solid + s[|solid|..];
  }

  /** What a line of the file looks like at the end of the file, and the needs of its pieces. */
  lemma MountedPieces(line: string, keys: seq<string>)
    requires '\n' !in line
    ensures var l := Mounted(line, SecretMounts(keys));
            var needs := NeedsMounts(line) && AnyNeedsMounts(Lines(SecretMounts(keys)));
            && (AnyNeedsMounts(Lines(l)) <==> needs)
            && (NeedsMounts(line) || SolidEnd(line) ==>
                  TrimRight(l) != [] && (AnyNeedsMounts(Lines(TrimRight(l))) <==> needs))
  {
    var mounts := SecretMounts(keys);
    if NeedsMounts(line) {
      var command := Trim(TrimLeft(line)[3..]);
      CommandHasNoNewline(line);
      MountsFirstLine(keys);
      MountsLastLine(keys);
      RunPieces(mounts, command);
      TrimEndsSolid(TrimLeft(line)[3..]);
      RunTrimmed(mounts, command);
    } else {
      LinesOfOneLine(line);
      NeedsOne(line);
      if SolidEnd(line) {
        assert TrimRight(line) == line;
      }
    }
  }

  lemma CommandHasNoNewline(line: string)
    requires IsRun(line) && '\n' !in line
    ensures '\n' !in Trim(TrimLeft(line)[3..])
  {
    TrimLeftFacts(line);
    assert forall i :: 0 <= i < |TrimLeft(line)| ==> TrimLeft(line)[i] == line[|line| - |TrimLeft(line)| + i];
    TrimDropsNoInside(TrimLeft(line)[3..]);
  }

  lemma RunPieces(mounts: string, command: string)
    requires '\n' !in command
    requires var ls := Lines(mounts); IsMounted(ls[0]) && IsMounted(ls[|ls| - 1])
    ensures AnyNeedsMounts(Lines(RunWith(mounts, command))) <==> AnyNeedsMounts(Lines(mounts))
    ensures AnyNeedsMounts(Lines("RUN " + mounts)) <==> AnyNeedsMounts(Lines(mounts))
  {
    var run := "RUN ";
    hide IsMounted, Lines, AnyNeedsMounts;
    assert '\n' !in run && '\n' !in " " + command;
    WrappedMounts(run, mounts, " " + command);
    WrappedMounts(run, mounts, []);
    assert run + mounts + [] == run + mounts;
  }

  lemma RunTrimmed(mounts: string, command: string)
    requires SolidEnd(mounts) && (command == [] || SolidEnd(command))
    ensures TrimRight(RunWith(mounts, command)) == if command == [] then "RUN " + mounts else RunWith(mounts, command)
  {
    var run := "RUN " + mounts;
    EndsSolid("RUN ", mounts);
    if command == [] {
      TrimRightKeeps(run, [' ']);
      AllBlank([' ']);
    } else {
      EndsSolid(run + " ", command);
      assert RunWith(mounts, command) == run + " " + command;
    }
  }

  /** What the second run reads. */
  function Reread(lines: seq<string>, keys: seq<string>): seq<string>
    requires lines != []
  {
    var out := Directive(lines) + AllMounted(lines, SecretMounts(keys));
    out[..|out| - 1] + [TrimRight(out[|out| - 1])]
  }

  lemma RereadShape(lines: seq<string>, keys: seq<string>, i: nat)
    requires i < |lines|
    ensures var cut, d, l := Reread(lines, keys), |Directive(lines)|, Mounted(lines[i], SecretMounts(keys));
            && |cut| == d + |lines|
            && cut[d + i] == if i == |lines| - 1 then TrimRight(l) else l
  {
    hide Mounted, SecretMounts, Directive, TrimRight;
    var front, mounted := Directive(lines), AllMounted(lines, SecretMounts(keys));
    hide AllMounted;
    assert (front + mounted)[|front| + i] == mounted[i];
  }

  lemma RereadAt(lines: seq<string>, keys: seq<string>, i: nat)
    requires i < |lines| && SolidEnd(lines[|lines| - 1]) && '\n' !in lines[i]
    ensures var cut, d := Reread(lines, keys), |Directive(lines)|;
            && |cut| == d + |lines|
            && (AnyNeedsMounts(Lines(cut[d + i]))
                <==> NeedsMounts(lines[i]) && AnyNeedsMounts(Lines(SecretMounts(keys))))
  {
    MountedPieces(lines[i], keys);
    RereadShape(lines, keys, i);
    hide Reread, AnyNeedsMounts, NeedsMounts, Lines, Mounted, SecretMounts, SolidEnd, Directive, TrimRight;
  }

  ghost predicate SplitFile(lines: seq<string>) {
    lines != [] && SolidEnd(lines[|lines| - 1]) && forall i :: 0 <= i < |lines| ==> '\n' !in lines[i]
  }

  /** The part of the re-read file that line i stands in needs mounts if the line was rewritten and the mounts fall
      apart badly. */
  predicate Falls(lines: seq<string>, i: int, needs: bool) {
    needs && 0 <= i < |lines| && NeedsMounts(lines[i])
  }

  lemma DirectiveLength(lines: seq<string>)
    requires lines != []
    ensures |Directive(lines)| <= 1
  {
  }

  lemma SomeNeeds(lines: seq<string>) returns (first: nat)
    requires AnyNeedsMounts(lines)
    ensures first < |lines| && NeedsMounts(lines[first])
  {
    first :| 0 <= first < |lines| && NeedsMounts(lines[first]);
  }

  lemma RereadIndex(lines: seq<string>, keys: seq<string>, k: nat)
    requires SplitFile(lines) && k < |Reread(lines, keys)|
    ensures AnyNeedsMounts(Lines(Reread(lines, keys)[k]))
       <==> Falls(lines, k - |Directive(lines)|, AnyNeedsMounts(Lines(SecretMounts(keys))))
  {
    hide Reread, AnyNeedsMounts, NeedsMounts, Lines, SecretMounts, Directive, SolidEnd;
    var d := |Directive(lines)|;
    DirectiveLength(lines);
    RereadFront(lines, keys);
    RereadAt(lines, keys, 0);
    if k >= d {
      RereadAt(lines, keys, k - d);
    }
  }

  lemma RereadPieces(lines: seq<string>, keys: seq<string>)
    requires SplitFile(lines) && AnyNeedsMounts(lines)
    ensures AnyNeedsMounts(Pieces(Reread(lines, keys))) <==> AnyNeedsMounts(Lines(SecretMounts(keys)))
  {
    hide Reread, AnyNeedsMounts, NeedsMounts, Lines, SecretMounts, Directive, Pieces, SolidEnd;
    var cut, d := Reread(lines, keys), |Directive(lines)|;
    var first := SomeNeeds(lines);
    PiecesNeed(cut);
    RereadAt(lines, keys, 0);
    RereadIndex(lines, keys, d + first);
    hide SplitFile;
    if i :| 0 <= i < |cut| && AnyNeedsMounts(Lines(cut[i])) {
      RereadIndex(lines, keys, i);
    }
  }

  /** A directive in front needs nothing. */
  lemma RereadFront(lines: seq<string>, keys: seq<string>)
    requires lines != []
    ensures |Directive(lines)| > 0 ==> !AnyNeedsMounts(Lines(Reread(lines, keys)[0]))
  {
    SyntaxLinePieces();
    hide AnyNeedsMounts, Lines, Mounted, SecretMounts;
  }

  lemma SyntaxLinePieces()
    ensures !AnyNeedsMounts(Lines(SYNTAX_LINE))
  {
    var line := SYNTAX_LINE;
    assert '\n' !in line;
    LinesOfOneLine(line);
    DirectiveNeedsNothing();
    NeedsOne(line);
  }

  /** The mounted file starts with the syntax line or with a line that stays. */
  lemma PassStarts(lines: seq<string>, keys: seq<string>)
    requires lines != []
    ensures var out := Directive(lines) + AllMounted(lines, SecretMounts(keys));
            out[0] != [] && out[0][0] == '#'
  {
    var prefix, syntax := SYNTAX_PREFIX, SYNTAX_LINE;
    assert prefix[0] == '#' && syntax[0] == '#' && "RUN"[0] == 'R';
    if StartsWith(lines[0], prefix) {
      assert lines[0][0] == '#' && TrimLeft(lines[0]) == lines[0];
    }
  }

  lemma RereadLines(lines: seq<string>, keys: seq<string>)
    requires lines != [] && SolidEnd(lines[|lines| - 1]) && '\n' !in lines[|lines| - 1]
    ensures var out := Directive(lines) + AllMounted(lines, SecretMounts(keys));
            Lines(Trim(Join(out))) == Pieces(Reread(lines, keys))
  {
    hide Lines, Mounted, SecretMounts, Directive, AnyNeedsMounts, NeedsMounts, SolidEnd, TrimLeft, TrimRight;
    PassStarts(lines, keys);
    MountedPieces(lines[|lines| - 1], keys);
    var out := Directive(lines) + AllMounted(lines, SecretMounts(keys));
    assert out[|out| - 1] == Mounted(lines[|lines| - 1], SecretMounts(keys));
    SolidStart(out);
    hide AllMounted;
    TrimRightOfJoin(out);
    LinesOfJoined(Reread(lines, keys));
  }

  lemma SolidStart(ls: seq<string>)
    requires ls != [] && ls[0] != [] && ls[0][0] == '#'
    ensures TrimLeft(Join(ls)) == Join(ls)
  {
    assert Join(ls)[0] == ls[0][0];
  }

  lemma ContentSplits(content: string)
    requires AnyNeedsMounts(Lines(Trim(content)))
    ensures var lines := Lines(Trim(content)); SplitFile(lines) && '\n' !in lines[|lines| - 1]
  {
    hide SolidEnd, IsBlank, NeedsMounts;
    if Trim(content) == [] {
      EmptyNeedsNothing();
    }
    TrimmedLines(content);
    hide Lines, Trim;
    var lines := Lines(Trim(content));
    assert forall i :: 0 <= i < |lines| ==> lines[i] in lines;
  }

  lemma EmptyNeedsNothing()
    ensures !AnyNeedsMounts(Lines([]))
  {
    NeedsOne([]);
  }

  /** A second run writes nothing exactly when no line of the joined mounts is itself a RUN line without a mount. */
  lemma MountingSettles(content: string, keys: seq<string>)
    requires MountedFile(content, keys).Some?
    ensures MountedFile(MountedFile(content, keys).value, keys) == None <==> !AnyNeedsMounts(Lines(SecretMounts(keys)))
  {
    hide Lines, Trim, AnyNeedsMounts, SecretMounts, SolidEnd, Pieces, Reread, AllMounted, Directive;
    var lines := Lines(Trim(content));
    ContentSplits(content);
    RereadPieces(lines, keys);
    RereadLines(lines, keys);
  }

  /** Keys without newlines give one line of mounts, so every file settles after the first run. */
  lemma NewlineFreeMounts(keys: seq<string>)
    requires NewlineFree(keys)
    ensures !AnyNeedsMounts(Lines(SecretMounts(keys)))
  {
    MountsHaveNoNewline(keys);
    LinesOfOneLine(SecretMounts(keys));
    MountsFirstLine(keys);
    NeedsOne(SecretMounts(keys));
  }

  lemma {:induction false} MountsHaveNoNewline(keys: seq<string>)
    requires NewlineFree(keys)
    ensures '\n' !in SecretMounts(keys)
  {
    if keys == [] {
      HashMount();
    } else {
      assert keys[0] in keys;
      MountHasNoNewline(keys[0]);
      MountsHaveNoNewline(keys[1..]);
      hide MountOf;
      NoNewlines(MountOf(keys[0]), " ");
      NoNewlines(MountOf(keys[0]) + " ", SecretMounts(keys[1..]));
    }
  }

  /** A key that carries a line break followed by RUN makes every further pass mount the secrets again. */
  lemma BrokenMount()
    ensures AcceptedKey("A\nRUN x")
    ensures AnyNeedsMounts(Lines(SecretMounts(["A\nRUN x"])))
  {
    var middle := "RUN x,env=A";
    var first, last := MOUNT_FLAG + ",id=A", "RUN x" + " " + SecretMounts([]);
    BrokenMounts(first, middle, last);
    MiddleNeeds(middle);
    hide SecretMounts, Lines, AnyNeedsMounts, NeedsMounts;
    MiddleLine(first, middle, last);
  }

  lemma MiddleLine(a: string, line: string, b: string)
    requires NeedsMounts(line) && '\n' !in line
    ensures AnyNeedsMounts(Lines(a + ['\n'] + line + ['\n'] + b))
  {
    hide Lines, AnyNeedsMounts, NeedsMounts;
    LinesOfBoth(a + ['\n'] + line, b);
    LinesOfBoth(a, line);
    LinesOfOneLine(line);
    NeedsOne(line);
    NeedsSplits(Lines(a), [line]);
    NeedsSplits(Lines(a) + [line], Lines(b));
  }

  lemma MiddleNeeds(line: string)
    requires line == "RUN x,env=A"
    ensures NeedsMounts(line) && '\n' !in line
  {
    assert line[0] == 'R' && TrimLeft(line) == line;
    var flag := MOUNT_FLAG;
    assert |flag| == 19;
  }

  lemma BreakApart(flag: string, id: string, env: string, a: string, r: string, blank: string, tail: string)
    ensures flag + (id + (a + ['\n'] + r) + env + (a + ['\n'] + r)) + blank + tail
         == flag + id + a + ['\n'] + (r + env + a) + ['\n'] + (r + blank + tail)
  {
  }

  lemma BrokenMounts(first: string, middle: string, last: string)
    requires first == MOUNT_FLAG + ",id=A" && middle == "RUN x,env=A" && last == "RUN x" + " " + SecretMounts([])
    ensures SecretMounts(["A\nRUN x"]) == first + ['\n'] + middle + ['\n'] + last
  {
    var key, tail := "A\nRUN x", SecretMounts([]);
    assert [key][1..] == [];
    assert SecretMounts([key]) == MountOf(key) + " " + tail;
    hide SecretMounts;
    assert key == "A" + ['\n'] + "RUN x" && middle == "RUN x" + ",env=" + "A";
    BreakApart(MOUNT_FLAG, ",id=", ",env=", "A", "RUN x", " ", tail);
    assert first == MOUNT_FLAG + ",id=" + "A";
  }
}
