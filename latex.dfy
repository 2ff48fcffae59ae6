/** PgfPlotsAxis::GetLatexString: turns ROOT TLatex text into LaTeX in two
    passes over the string. The first pass turns each '#' into '\' and puts the
    command name between '$' signs; the second puts '$' around each braced math
    argument, from the nearest space, '\', '^' or '_' before its '{' to the end
    of the first '}' after it. */
module Latex {
  import opened Wrappers
  import opened Text

  /** The 52 ASCII letters, which make up a command name after '#'. */
  const Letters: set<char> := set c: char | 'a' <= c <= 'z' || 'A' <= c <= 'Z'

  /** Characters that may start a math argument in the second pass. */
  const Special: set<char> := {' ', '\\', '^', '_'}

  /** How GetLatexString ends. OutOfRange is the std::out_of_range thrown by
      std::string::insert when the position is npos. LoopsBack marks the point
      where the second loop's next search starts at or before the '{' it just
      handled; there the model stops. */
  datatype LatexResult = Converted(text: string) | OutOfRange | LoopsBack

  predicate AtHash(s: string, at: Option<nat>)
  {
    at.Some? ==> at.value < |s| && s[at.value] == '#'
  }

  predicate AtBrace(s: string, at: Option<nat>)
  {
    at.Some? ==> at.value < |s| && s[at.value] == '{'
  }

  /** The end of one turn of either loop: the loop stops with a result, or
      goes on with the new string, searching again from `from`. */
  datatype Turn = Stop(result: LatexResult) | Next(text: string, from: nat)

  /** One turn of the first loop (lines 181-185), at the '#' at loc: it becomes
      "$\" and a '$' is put after the command name. The insert throws when the
      name runs to the end of the string. */
  function HashTurn(s: string, loc: nat): (t: Turn)
    requires AtHash(s, Some(loc))
    ensures t.Stop? ==> t.result == OutOfRange
    ensures t.Next? ==> loc + 2 <= t.from < |t.text| == |s| + 2 && t.text[t.from] == '$'
  {
    var s1 := Insert(s[loc := '\\'], loc, "$");
    match FindFirstNotIn(s1, Letters, loc + 2)
    case None => Stop(OutOfRange)
    case Some(q) =>
      var s2 := Insert(s1, q, "$");
      assert s2[q] == '$';
      Next(s2, q)
  }

  /** One turn of the second loop (lines 190-194), at the '{' at loc: a '$'
      goes before the nearest space, '\', '^' or '_' before it and one after
      the first '}' after that. The insert throws where there is no such
      character; the next search starts at or before loc where there is no
      '}' after it (++npos is 0) or the '}' comes first. */
  function BraceTurn(s: string, loc: nat): (t: Turn)
    requires AtBrace(s, Some(loc))
    ensures t.Next? ==> loc + 3 <= t.from < |t.text| == |s| + 2 && t.text[t.from] == '$'
  {
    match FindLastIn(s, Special, loc)
    case None => Stop(OutOfRange)
    case Some(p) =>
      var s1 := Insert(s, p, "$");
      match FindFirstIn(s1, {'}'}, p + 2)
      case None => Stop(LoopsBack)
      case Some(c) =>
        if c <= loc + 1 then Stop(LoopsBack)
        else
          var s2 := Insert(s1, c + 1, "$");
          assert s2[c + 1] == '$';
          Next(s2, c + 1)
  }

  /** The first loop, from the '#' at `at` (None: no '#' left). None is the
      throw. */
  function HashPass(s: string, at: Option<nat>): Option<string>
    requires AtHash(s, at)
    decreases if at.None? then 0 else |s| + 1 - at.value
  {
    match at
    case None => Some(s)
    case Some(loc) =>
      match HashTurn(s, loc)
      case Stop(_) => None
      case Next(s2, q) => HashPass(s2, FindFirstIn(s2, {'#'}, q))
  }

  /** The second loop, from the '{' at `at` (None: no '{' left). */
  function BracePass(s: string, at: Option<nat>): LatexResult
    requires AtBrace(s, at)
    decreases if at.None? then 0 else |s| - at.value
  {
    match at
    case None => Converted(s)
    case Some(loc) =>
      match BraceTurn(s, loc)
      case Stop(r) => r
      case Next(s2, c) => BracePass(s2, FindFirstIn(s2, {'{'}, c))
  }

  /** GetLatexString as a function of its argument. */
  function LatexString(s: string): LatexResult
  {
    match HashPass(s, FindFirstIn(s, {'#'}, 0))
    case None => OutOfRange
    case Some(t) => BracePass(t, FindFirstIn(t, {'{'}, 0))
  }

  /** PgfPlotsAxis::GetLatexString. */
  method GetLatexString(input: string) returns (r: LatexResult)
    ensures r == LatexString(input)
  {
    var str := input;
    var loc := FindFirstIn(str, {'#'}, 0);
    ghost var hashed := HashPass(str, loc);
    while loc.Some?
      invariant AtHash(str, loc)
      invariant HashPass(str, loc) == hashed
      decreases if loc.None? then 0 else |str| + 1 - loc.value
    {
      var t := ConvertHash(str, loc.value);
      if t.Stop? {
        return OutOfRange;
      }
      str := t.text;
      loc := FindFirstIn(str, {'#'}, t.from);
    }
    var at := FindFirstIn(str, {'{'}, 0);
    ghost var braced := BracePass(str, at);
    assert LatexString(input) == braced;
    while at.Some?
      invariant AtBrace(str, at)
      invariant BracePass(str, at) == braced
      decreases if at.None? then 0 else |str| - at.value
    {
      var t := WrapBrace(str, at.value);
      if t.Stop? {
        return t.result;
      }
      str := t.text;
      at := FindFirstIn(str, {'{'}, t.from);
    }
    return Converted(str);
  }

  /** The statements of one turn of the first loop. */
  method ConvertHash(str: string, loc: nat) returns (t: Turn)
    requires AtHash(str, Some(loc))
    ensures t == HashTurn(str, loc)
  {
    var s := str[loc := '\\'];
    s := Insert(s, loc, "$");
    var l := loc + 1;
    var q := FindFirstNotIn(s, Letters, l + 1);
    if q.None? {
      return Stop(OutOfRange);
    }
    l := q.value;
    s := Insert(s, l, "$");
    t := Next(s, l);
  }

  /** The statements of one turn of the second loop. */
  method WrapBrace(str: string, loc: nat) returns (t: Turn)
    requires AtBrace(str, Some(loc))
    ensures t == BraceTurn(str, loc)
  {
    var p := FindLastIn(str, Special, loc);
    if p.None? {
      return Stop(OutOfRange);
    }
    var s := Insert(str, p.value, "$");
    var l := p.value + 1;
    var c := FindFirstIn(s, {'}'}, l + 1);
    if c.None? || c.value <= loc + 1 {
      return Stop(LoopsBack);
    }
    l := c.value + 1;
    s := Insert(s, l, "$");
    t := Next(s, l);
  }

  // ---------------------------------------------------------------------------

  /** After one turn of the first loop no '#' is left up to the closing '$'. */
  lemma CommandHasNoHash(s: string, loc: nat)
    requires AtHash(s, Some(loc)) && '#' !in s[..loc] && HashTurn(s, loc).Next?
    ensures forall j | 0 <= j <= HashTurn(s, loc).from :: HashTurn(s, loc).text[j] != '#'
  {
    var s1 := Insert(s[loc := '\\'], loc, "$");
    var q := FindFirstNotIn(s1, Letters, loc + 2).value;
    var s2 := Insert(s1, q, "$");
    assert HashTurn(s, loc) == Next(s2, q);
    InsertIndex(s[loc := '\\'], loc, "$");
    InsertIndex(s1, q, "$");
    assert forall j | 0 <= j < loc :: s2[j] == s[j] && s[j] in s[..loc];
    assert forall j | loc + 2 <= j < q :: s2[j] == s1[j] && s1[j] in Letters;
  }

  lemma {:induction false} HashPassRemovesHash(s: string, at: Option<nat>)
    requires AtHash(s, at)
    requires at.Some? ==> '#' !in s[..at.value]
    requires at.None? ==> '#' !in s
    ensures HashPass(s, at).Some? ==> '#' !in HashPass(s, at).value
    decreases if at.None? then 0 else |s| + 1 - at.value
  {
    if at.Some? {
      var t := HashTurn(s, at.value);
      if t.Next? {
        CommandHasNoHash(s, at.value);
        var next := FindFirstIn(t.text, {'#'}, t.from);
        if next.Some? {
          assert forall j | 0 <= j < next.value :: t.text[j] != '#';
          assert '#' !in t.text[..next.value];
        } else {
          assert forall j | 0 <= j < |t.text| :: t.text[j] != '#';
        }
        HashPassRemovesHash(t.text, next);
      }
    }
  }

  /** A turn of the second loop only adds '$' signs. */
  lemma BraceTurnKeepsNoHash(s: string, loc: nat)
    requires AtBrace(s, Some(loc)) && '#' !in s && BraceTurn(s, loc).Next?
    ensures '#' !in BraceTurn(s, loc).text
  {
    var p := FindLastIn(s, Special, loc).value;
    var s1 := Insert(s, p, "$");
    var c := FindFirstIn(s1, {'}'}, p + 2).value;
    assert BraceTurn(s, loc).text == Insert(s1, c + 1, "$");
    InsertMembers(s, p, "$", '#');
    InsertMembers(s1, c + 1, "$", '#');
  }

  lemma {:induction false} BracePassKeepsNoHash(s: string, at: Option<nat>)
    requires AtBrace(s, at) && '#' !in s
    ensures BracePass(s, at).Converted? ==> '#' !in BracePass(s, at).text
    decreases if at.None? then 0 else |s| - at.value
  {
    if at.Some? {
      var t := BraceTurn(s, at.value);
      if t.Next? {
        BraceTurnKeepsNoHash(s, at.value);
        BracePassKeepsNoHash(t.text, FindFirstIn(t.text, {'{'}, t.from));
      }
    }
  }

  /** When GetLatexString returns, no '#' is left in its result. */
  lemma ConvertedHasNoHash(s: string)
    requires LatexString(s).Converted?
    ensures '#' !in LatexString(s).text
  {
    var at := FindFirstIn(s, {'#'}, 0);
    if at.Some? {
      assert '#' !in s[..at.value];
    }
    HashPassRemovesHash(s, at);
    var t := HashPass(s, at).value;
    BracePassKeepsNoHash(t, FindFirstIn(t, {'{'}, 0));
  }

  /** Text with neither '#' nor '{' comes back unchanged. */
  lemma PlainTextUnchanged(s: string)
    requires '#' !in s && '{' !in s
    ensures LatexString(s) == Converted(s)
  {
    assert FindFirstIn(s, {'#'}, 0).None?;
    assert FindFirstIn(s, {'{'}, 0).None?;
  }

  // ---------------------------------------------------------------------------
  // Worked inputs, one turn at a time.

  lemma AlphaIsLast()
    ensures HashTurn("#alpha", 0) == Stop(OutOfRange)
  {
    var s1 := Insert("#alpha"[0 := '\\'], 0, "$");
    assert s1 == "$\\alpha";
    assert forall j | 2 <= j < |s1| :: s1[j] in Letters;
  }

  /** A command at the very end of the title makes insert(npos) throw. */
  lemma TrailingCommandThrows()
    ensures LatexString("#alpha") == OutOfRange
  {
    assert FindFirstIn("#alpha", {'#'}, 0) == Some(0);
    AlphaIsLast();
  }

  lemma AlphaBeforeSpace()
    ensures HashTurn("#alpha x", 0) == Next("$\\alpha$ x", 7)
  {
    var s1 := Insert("#alpha x"[0 := '\\'], 0, "$");
    assert s1 == "$\\alpha x";
    FindFirstNotInIs(s1, Letters, 2, 7);
    assert Insert(s1, 7, "$") == "$\\alpha$ x";
  }

  /** A command followed by a space is closed before the space. */
  lemma CommandBeforeSpace()
    ensures LatexString("#alpha x") == Converted("$\\alpha$ x")
  {
    assert FindFirstIn("#alpha x", {'#'}, 0) == Some(0);
    AlphaBeforeSpace();
    assert FindFirstIn("$\\alpha$ x", {'#'}, 7).None?;
    assert FindFirstIn("$\\alpha$ x", {'{'}, 0).None?;
  }

  lemma SquareTurn()
    ensures BraceTurn("x^{2}", 2) == Next("x$^{2}$", 6)
  {
    FindLastInIs("x^{2}", Special, 2, 1);
    var s1 := Insert("x^{2}", 1, "$");
    assert s1 == "x$^{2}";
    FindFirstInIs(s1, {'}'}, 3, 5);
    assert Insert(s1, 6, "$") == "x$^{2}$";
  }

  /** A superscript argument is wrapped from the '^' to the closing '}'. */
  lemma SuperscriptWrapped()
    ensures LatexString("x^{2}") == Converted("x$^{2}$")
  {
    assert FindFirstIn("x^{2}", {'#'}, 0).None?;
    assert FindFirstIn("x^{2}", {'{'}, 0) == Some(2);
    SquareTurn();
    assert FindFirstIn("x$^{2}$", {'{'}, 6).None?;
  }

  /** A '{' with none of " \^_" before it makes insert(npos) throw. */
  lemma BareBraceThrows()
    ensures LatexString("{a}") == OutOfRange
  {
    assert FindFirstIn("{a}", {'#'}, 0).None?;
    assert FindFirstIn("{a}", {'{'}, 0) == Some(0);
    assert FindLastIn("{a}", Special, 0).None?;
  }

  lemma FracTurn()
    ensures HashTurn("#frac{a}{b}", 0) == Next("$\\frac${a}{b}", 6)
  {
    var s1 := Insert("#frac{a}{b}"[0 := '\\'], 0, "$");
    assert s1 == "$\\frac{a}{b}";
    FindFirstNotInIs(s1, Letters, 2, 6);
    assert Insert(s1, 6, "$") == "$\\frac${a}{b}";
  }

  /** The first pass over "#frac{a}{b}". */
  lemma FracHashPass()
    ensures HashPass("#frac{a}{b}", Some(0)) == Some("$\\frac${a}{b}")
  {
    FracTurn();
    assert FindFirstIn("$\\frac${a}{b}", {'#'}, 6).None?;
  }

  lemma FracFirstTurn()
    ensures BraceTurn("$\\frac${a}{b}", 7) == Next("$$\\frac${a}${b}", 11)
  {
    FracCommandStart();
    FracFirstClose();
    assert Insert("$\\frac${a}{b}", 1, "$") == "$$\\frac${a}{b}";
    assert Insert("$$\\frac${a}{b}", 11, "$") == "$$\\frac${a}${b}";
  }

  lemma FracCommandStart()
    ensures FindLastIn("$\\frac${a}{b}", Special, 7) == Some(1)
  {
    FindLastInIs("$\\frac${a}{b}", Special, 7, 1);
  }

  lemma FracFirstClose()
    ensures FindFirstIn("$$\\frac${a}{b}", {'}'}, 3) == Some(10)
  {
    FindFirstInIs("$$\\frac${a}{b}", {'}'}, 3, 10);
  }

  /** The second pass over "$\frac${a}{b}" wraps "\frac{a}" and moves on to
      the second '{'. */
  lemma FracFirstBrace()
    ensures BracePass("$\\frac${a}{b}", Some(7)) == BracePass("$$\\frac${a}${b}", Some(12))
  {
    FracFirstTurn();
    FracSecondOpen();
  }

  lemma FracSecondOpen()
    ensures FindFirstIn("$$\\frac${a}${b}", {'{'}, 11) == Some(12)
  {
    FindFirstInIs("$$\\frac${a}${b}", {'{'}, 11, 12);
  }

  /** At the second '{' the first '}' after the '\' is the one before it. */
  lemma FracSecondBrace()
    ensures BraceTurn("$$\\frac${a}${b}", 12) == Stop(LoopsBack)
  {
    FracSecondStart();
    assert Insert("$$\\frac${a}${b}", 2, "$") == "$$$\\frac${a}${b}";
    FracSecondClose();
  }

  lemma FracSecondStart()
    ensures FindLastIn("$$\\frac${a}${b}", Special, 12) == Some(2)
  {
    FindLastInIs("$$\\frac${a}${b}", Special, 12, 2);
  }

  lemma FracSecondClose()
    ensures FindFirstIn("$$$\\frac${a}${b}", {'}'}, 4) == Some(11)
  {
    FindFirstInIs("$$$\\frac${a}${b}", {'}'}, 4, 11);
  }

  /** A second argument of the same command: the first '}' after the '\' lies
      before the second '{'. */
  lemma SecondArgumentLoopsBack()
    ensures LatexString("#frac{a}{b}") == LoopsBack
  {
    FracHashAt();
    FracHashPass();
    FracBraceAt();
    FracFirstBrace();
    FracSecondBrace();
  }

  lemma FracHashAt()
    ensures FindFirstIn("#frac{a}{b}", {'#'}, 0) == Some(0)
  {
  }

  lemma FracBraceAt()
    ensures FindFirstIn("$\\frac${a}{b}", {'{'}, 0) == Some(7)
  {
    FindFirstInIs("$\\frac${a}{b}", {'{'}, 0, 7);
  }
}
