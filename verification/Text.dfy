/** The PHP string functions the Dockerfile passes are written with. */
module Text {

  datatype Option<+T> = None | Some(value: T)

  /** The characters PHP's trim, ltrim and rtrim strip by default. */
  predicate IsBlank(c: char) {
    c == ' ' || c == '\t' || c == '\n' || c == '\r' || c == '\0' || c == '\U{0B}'
  }

  function TrimLeft(s: string): string {
    if s != [] && IsBlank(s[0]) then TrimLeft(s[1..]) else s
  }

  function TrimRight(s: string): string {
    if s != [] && IsBlank(s[|s| - 1]) then TrimRight(s[..|s| - 1]) else s
  }

  function Trim(s: string): string {
    TrimRight(TrimLeft(s))
  }

  lemma {:induction false} TrimLeftFacts(s: string)
    ensures |TrimLeft(s)| <= |s| && TrimLeft(s) == s[|s| - |TrimLeft(s)|..]
    ensures TrimLeft(s) == [] || !IsBlank(TrimLeft(s)[0])
  {
    if s != [] && IsBlank(s[0]) {
      TrimLeftFacts(s[1..]);
    }
  }

  lemma {:induction false} TrimRightFacts(s: string)
    ensures TrimRight(s) <= s
    ensures TrimRight(s) == [] || !IsBlank(TrimRight(s)[|TrimRight(s)| - 1])
    ensures forall i :: |TrimRight(s)| <= i < |s| ==> IsBlank(s[i])
  {
    if s != [] && IsBlank(s[|s| - 1]) {
      TrimRightFacts(s[..|s| - 1]);
    }
  }

  predicate StartsWith(s: string, prefix: string) {
    prefix <= s
  }

  predicate Contains(s: string, part: string) {
    exists i :: 0 <= i <= |s| && part <= s[i..]
  }

  /** What precedes the first c, or all of s. */
  function Before(s: string, c: char): string {
    if s == [] || s[0] == c then [] else [s[0]] + Before(s[1..], c)
  }

  lemma {:induction false} BeforeFacts(s: string, c: char)
    ensures Before(s, c) <= s && c !in Before(s, c)
    ensures c !in s ==> Before(s, c) == s
  {
    if s != [] && s[0] != c {
      BeforeFacts(s[1..], c);
    }
  }

  /** What follows the first c, if there is one. */
  function After(s: string, c: char): Option<string> {
    if s == [] then None
    else if s[0] == c then Some(s[1..])
    else After(s[1..], c)
  }

  lemma {:induction false} AfterFirst(head: string, c: char, tail: string)
    requires c !in head
    ensures After(head + [c] + tail, c) == Some(tail)
    ensures After(head, c) == None
  {
    var s := head + [c] + tail;
    if head == [] {
      assert s[1..] == tail;
    } else {
      assert s[1..] == head[1..] + [c] + tail;
      AfterFirst(head[1..], c, tail);
    }
  }

  lemma {:induction false} BeforeFirst(head: string, c: char, tail: string)
    requires c !in head
    ensures Before(head + [c] + tail, c) == head
  {
    if head != [] {
      assert (head + [c] + tail)[1..] == head[1..] + [c] + tail;
      BeforeFirst(head[1..], c, tail);
    }
  }

  /** The lines of a text; there is always at least one. */
  function Lines(s: string): (ls: seq<string>)
    ensures ls != []
  {
    if s == [] then [[]]
    else
      var rest := Lines(s[1..]);
      if s[0] == '\n' then [[]] + rest else [[s[0]] + rest[0]] + rest[1..]
  }

  /** The lines with a newline between each two. */
  function Join(ls: seq<string>): string
    requires ls != []
  {
    if |ls| == 1 then ls[0] else ls[0] + ['\n'] + Join(ls[1..])
  }

  lemma {:induction false} LinesFacts(s: string)
    ensures forall l :: l in Lines(s) ==> '\n' !in l
    ensures s != [] && s[0] != '\n' ==> Lines(s)[0] != [] && Lines(s)[0][0] == s[0]
  {
    if s != [] {
      LinesFacts(s[1..]);
      var rest := Lines(s[1..]);
      if s[0] != '\n' {
        assert rest[0] in rest && forall l :: l in rest[1..] ==> l in rest;
      }
    }
  }

  lemma {:induction false} LinesOfOneLine(l: string)
    requires '\n' !in l
    ensures Lines(l) == [l]
  {
    if l != [] {
      LinesOfOneLine(l[1..]);
      assert [l[0]] + l[1..] == l;
    }
  }

  lemma {:induction false} LinesOfPrefixedLine(l: string, s: string)
    requires '\n' !in l
    ensures Lines(l + ['\n'] + s) == [l] + Lines(s)
  {
    var whole := l + ['\n'] + s;
    if l == [] {
      assert whole[1..] == s;
    } else {
      LinesOfPrefixedLine(l[1..], s);
      assert whole[1..] == l[1..] + ['\n'] + s;
      assert [l[0]] + l[1..] == l;
      assert ([l[1..]] + Lines(s))[1..] == Lines(s);
    }
  }

  /** What one more character in front does to the lines of a text. */
  function Prepended(c: char, ls: seq<string>): seq<string>
    requires ls != []
  {
    if c == '\n' then [[]] + ls else [[c] + ls[0]] + ls[1..]
  }

  lemma LinesUnfold(s: string)
    requires s != []
    ensures Lines(s) == Prepended(s[0], Lines(s[1..]))
  {
  }

  lemma PrependedBoth(c: char, a: seq<string>, b: seq<string>)
    requires a != []
    ensures Prepended(c, a + b) == Prepended(c, a) + b
  {
    assert (a + b)[1..] == a[1..] + b;
  }

  /** Splitting a text at a newline splits both sides. */
  lemma {:induction false} LinesOfBoth(a: string, b: string)
    ensures Lines(a + ['\n'] + b) == Lines(a) + Lines(b)
  {
    var whole := a + ['\n'] + b;
    LinesUnfold(whole);
    if a == [] {
      assert whole[1..] == b;
    } else {
      LinesUnfold(a);
      hide Lines, Prepended;
      LinesOfBoth(a[1..], b);
      assert whole[1..] == a[1..] + ['\n'] + b;
      PrependedBoth(a[0], Lines(a[1..]), Lines(b));
    }
  }

  /** A line without newlines is read back from a joined text. */
  lemma {:induction false} LineSurvives(ls: seq<string>, i: nat)
    requires i < |ls| && '\n' !in ls[i]
    ensures ls[i] in Lines(Join(ls))
  {
    if |ls| == 1 {
      LinesOfOneLine(ls[0]);
    } else {
      LinesOfBoth(ls[0], Join(ls[1..]));
      if i == 0 {
        LinesOfOneLine(ls[0]);
      } else {
        LineSurvives(ls[1..], i - 1);
      }
    }
  }

  lemma {:induction false} LinesOfJoin(ls: seq<string>)
    requires ls != [] && forall l :: l in ls ==> '\n' !in l
    ensures Lines(Join(ls)) == ls
  {
    if |ls| == 1 {
      LinesOfOneLine(ls[0]);
    } else {
      LinesOfJoin(ls[1..]);
      LinesOfPrefixedLine(ls[0], Join(ls[1..]));
    }
  }

  /** Where a joined text starts and ends. */
  lemma {:induction false} JoinEnds(ls: seq<string>)
    requires ls != [] && ls[0] != [] && ls[|ls| - 1] != []
    ensures Join(ls) != [] && Join(ls)[0] == ls[0][0]
    ensures Join(ls)[|Join(ls)| - 1] == ls[|ls| - 1][|ls[|ls| - 1]| - 1]
  {
    JoinLast(ls);
  }

  lemma {:induction false} JoinLast(ls: seq<string>)
    requires ls != [] && ls[|ls| - 1] != []
    ensures Join(ls) != [] && Join(ls)[|Join(ls)| - 1] == ls[|ls| - 1][|ls[|ls| - 1]| - 1]
  {
    if |ls| > 1 {
      JoinLast(ls[1..]);
    }
  }

  /** The last line of a text that does not end in a newline ends as the text does. */
  lemma {:induction false} LastLine(s: string)
    requires s != [] && s[|s| - 1] != '\n'
    ensures var l := Lines(s)[|Lines(s)| - 1]; l != [] && l[|l| - 1] == s[|s| - 1]
  {
    if |s| > 1 {
      LastLine(s[1..]);
    }
  }

  lemma TrimOfTight(s: string)
    requires s != [] && !IsBlank(s[0]) && !IsBlank(s[|s| - 1])
    ensures Trim(s) == s
  {
  }

  /** A trimmed text is empty or solid at both ends, and the other way round. */
  lemma TrimmedEnds(s: string)
    ensures Trim(s) == s <==> s == [] || (!IsBlank(s[0]) && !IsBlank(s[|s| - 1]))
  {
    TrimLeftFacts(s);
    TrimRightFacts(TrimLeft(s));
    if s != [] && !IsBlank(s[0]) && !IsBlank(s[|s| - 1]) {
      TrimOfTight(s);
    }
  }

  lemma TrimIsTrimmed(s: string)
    ensures Trim(Trim(s)) == Trim(s)
  {
    TrimLeftFacts(s);
    TrimRightFacts(TrimLeft(s));
    TrimmedEnds(Trim(s));
  }

  /** The blanks are blank, tab, newline, vertical tab, carriage return and NUL. */
  lemma BlankCodes(c: char)
    ensures IsBlank(c) <==> c as int in {32, 9, 10, 11, 13, 0}
  {
    assert ' ' as int == 32 && '\t' as int == 9 && '\n' as int == 10 && '\r' as int == 13 && '\0' as int == 0;
  }
}
