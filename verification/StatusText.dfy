/** The accessor through which applications and databases read and write their status. */
module StatusText {
  import opened Text

  /** state (health) and state:health become state:health, and a bare state becomes state:unhealthy. */
  function Normal(value: string): string {
    match After(value, '(')
    case Some(rest) => Trim(Before(value, '(')) + [':'] + Trim(Before(rest, ')'))
    case None =>
      match After(value, ':')
      case Some(health) => Trim(Before(value, ':')) + [':'] + Trim(health)
      case None => value + [':'] + "unhealthy"
  }

  /** No blank stands beside the first colon. */
  predicate ColonTight(s: string) {
    match After(s, ':')
    case None => true
    case Some(rest) =>
      var state := Before(s, ':');
      (state == [] || !IsBlank(state[|state| - 1])) && (rest == [] || !IsBlank(rest[0]))
  }

  /** What the accessor makes of a status is left alone when it is read again. */
  predicate Settled(value: string) {
    match After(value, '(')
    case Some(rest) => '(' !in Before(rest, ')') && ColonTight(Trim(Before(value, '(')))
    case None => After(value, ':').Some? || Trim(value) == value
  }

  /* Trimming. */

  lemma TrimShrinks(s: string)
    ensures |Trim(s)| <= |s| && (|Trim(s)| == |s| ==> Trim(s) == s)
    ensures forall c :: c in Trim(s) ==> c in s
  {
    TrimLeftFacts(s);
    TrimRightFacts(TrimLeft(s));
    var l := TrimLeft(s);
    assert forall i :: 0 <= i < |Trim(s)| ==> Trim(s)[i] == l[i] && l[i] == s[|s| - |l| + i];
  }

  lemma TrimKeepsSolid(s: string, c: char)
    requires c in s && !IsBlank(c)
    ensures c in Trim(s)
  {
    LeftKeeps(s, c);
    var l := TrimLeft(s);
    TrimRightFacts(l);
    var i :| 0 <= i < |l| && l[i] == c;
    assert TrimRight(l)[i] == c;
  }

  lemma {:induction false} LeftKeeps(s: string, c: char)
    requires c in s && !IsBlank(c)
    ensures c in TrimLeft(s)
  {
    if s[0] != c {
      LeftKeeps(s[1..], c);
    }
  }

  /* Splitting. */

  lemma {:induction false} SplitAt(s: string, c: char)
    ensures After(s, c).None? <==> c !in s
    ensures After(s, c).Some? ==> s == Before(s, c) + [c] + After(s, c).value
  {
    if s != [] && s[0] != c {
      SplitAt(s[1..], c);
    }
  }

  /** The accessor on a pair without parentheses. */
  lemma NormalOfPair(state: string, health: string)
    requires '(' !in state && '(' !in health && ':' !in state
    ensures Normal(state + [':'] + health) == Trim(state) + [':'] + Trim(health)
  {
    SplitAt(state + [':'] + health, '(');
    AfterFirst(state, ':', health);
    BeforeFirst(state, ':', health);
  }

  lemma NormalOfParenthesis(front: string, rest: string)
    requires '(' !in front
    ensures Normal(front + ['('] + rest) == Trim(front) + [':'] + Trim(Before(rest, ')'))
  {
    AfterFirst(front, '(', rest);
    BeforeFirst(front, '(', rest);
  }

  /** Joining two texts that can only have shrunk gives the original exactly when neither did. */
  lemma SamePair(a: string, b: string, x: string, y: string)
    requires |x| <= |a| && |y| <= |b|
    ensures x + [':'] + y == a + [':'] + b <==> x == a && y == b
  {
    if x + [':'] + y == a + [':'] + b {
      assert |x| == |a| && |y| == |b|;
      assert (x + [':'] + y)[..|x|] == x && (a + [':'] + b)[..|a|] == a;
      assert (x + [':'] + y)[|x| + 1..] == y && (a + [':'] + b)[|a| + 1..] == b;
    }
  }

  /* Reading a written status. */

  /** A parenthesis left in the health part is taken for another one. */
  lemma ParenthesisAgain(state: string, health: string)
    requires '(' !in state && '(' in health && ')' !in health
    ensures Normal(state + [':'] + health) != state + [':'] + health
  {
    SplitAt(health, '(');
    var p, q := Before(health, '('), After(health, '(').value;
    BeforeFacts(health, '(');
    var front := state + [':'] + p;
    assert state + [':'] + health == front + ['('] + q;
    NormalOfParenthesis(front, q);
    BeforeFacts(q, ')');
    TrimShrinks(front);
    TrimShrinks(q);
    var out := Trim(front) + [':'] + Trim(q);
    if |out| == |front| + 1 + |q| {
      assert out[|front|] == ':' && (front + ['('] + q)[|front|] == '(';
    }
  }

  lemma PairAgain(state: string, health: string)
    requires '(' !in state && '(' !in health && Trim(state) == state && Trim(health) == health
    ensures Normal(state + [':'] + health) == state + [':'] + health <==> ColonTight(state)
  {
    SplitAt(state, ':');
    if After(state, ':').None? {
      NormalOfPair(state, health);
    } else {
      var x, y := Before(state, ':'), After(state, ':').value;
      BeforeFacts(state, ':');
      var tail := y + [':'] + health;
      assert state + [':'] + health == x + [':'] + tail;
      NormalOfPair(x, tail);
      TrimShrinks(x);
      TrimShrinks(tail);
      SamePair(x, tail, Trim(x), Trim(tail));
      TrimmedEnds(state);
      TrimmedEnds(health);
      TrimmedEnds(x);
      TrimmedEnds(tail);
    }
  }

  /** Reading a written status gives it back exactly when it was settled. */
  lemma NormalTwiceExactly(value: string)
    ensures Normal(Normal(value)) == Normal(value) <==> Settled(value)
  {
    SplitAt(value, '(');
    SplitAt(value, ':');
    match After(value, '(')
    case Some(rest) =>
      var front, inner := Before(value, '('), Before(rest, ')');
      BeforeFacts(value, '(');
      BeforeFacts(rest, ')');
      TrimShrinks(front);
      TrimShrinks(inner);
      TrimIsTrimmed(front);
      TrimIsTrimmed(inner);
      if '(' in inner {
        TrimKeepsSolid(inner, '(');
        ParenthesisAgain(Trim(front), Trim(inner));
      } else {
        PairAgain(Trim(front), Trim(inner));
      }
    case None =>
      if After(value, ':').Some? {
        var state, health := Before(value, ':'), After(value, ':').value;
        BeforeFacts(value, ':');
        TrimShrinks(state);
        TrimShrinks(health);
        TrimIsTrimmed(state);
        TrimIsTrimmed(health);
        NormalOfPair(Trim(state), Trim(health));
      } else {
        var health := "unhealthy";
        TrimOfTight(health);
        NormalOfPair(value, health);
        TrimShrinks(value);
        SamePair(value, health, Trim(value), health);
      }
  }

  lemma BareIsNormal(state: string)
    requires '(' !in state && ':' !in state && Trim(state) == state
    ensures Normal(state) == state + [':'] + "unhealthy" && Settled(state)
    ensures Normal(Normal(state)) == Normal(state)
  {
    var health := "unhealthy";
    SplitAt(state, '(');
    SplitAt(state, ':');
    TrimOfTight(health);
    NormalOfPair(state, health);
  }

  lemma ExitedIsNormal()
    ensures Normal("exited") == "exited:unhealthy" && Settled("exited")
    ensures Normal("exited:unhealthy") == "exited:unhealthy"
  {
    var v := "exited";
    TrimOfTight(v);
    hide Trim, Normal, Settled;
    BareIsNormal(v);
    assert v + [':'] + "unhealthy" == "exited:unhealthy";
  }

  /* Reading again and again. */

  lemma NormalHasColon(value: string)
    ensures ':' in Normal(value)
  {
  }

  /** Each reading shortens the text, or turns its first parenthesis into a colon, or leaves it alone. */
  lemma NormalProgress(value: string)
    requires ':' in value || '(' in value
    ensures var again := Normal(value);
            || again == value
            || |again| < |value|
            || (|again| == |value| && |Before(again, '(')| > |Before(value, '(')|)
  {
    SplitAt(value, '(');
    SplitAt(value, ':');
    match After(value, '(')
    case Some(rest) =>
      var front, inner := Before(value, '('), Before(rest, ')');
      BeforeFacts(value, '(');
      BeforeFacts(rest, ')');
      TrimShrinks(front);
      TrimShrinks(inner);
      if |Normal(value)| == |value| {
        BeforeGrows(front + [':'], rest);
      }
    case None =>
      var state, health := Before(value, ':'), After(value, ':').value;
      TrimShrinks(state);
      TrimShrinks(health);
  }

  lemma {:induction false} BeforeGrows(head: string, tail: string)
    requires '(' !in head
    ensures |Before(head + tail, '(')| >= |head|
  {
    if head != [] {
      assert (head + tail)[1..] == head[1..] + tail;
      BeforeGrows(head[1..], tail);
    }
  }

  /** A text that is read and reread never comes back, unless it stays. */
  lemma NoReturn(value: string)
    requires ':' in value || '(' in value
    ensures Normal(Normal(value)) == value ==> Normal(value) == value
    ensures Normal(Normal(Normal(Normal(value)))) == value ==> Normal(value) == value
  {
    var one := Normal(value);
    var two := Normal(one);
    var three := Normal(two);
    NormalHasColon(value);
    NormalHasColon(one);
    NormalHasColon(two);
    NormalProgress(value);
    NormalProgress(one);
    NormalProgress(two);
    NormalProgress(three);
    hide Normal, Before;
  }
}
