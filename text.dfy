/** String primitives of the C++ standard library that the model relies on:
    the find family of std::string (with npos as None), insertion,
    lexicographic order of std::string keys (the iteration order of std::map),
    and a decimal rendering of numbers standing in for std::to_string / std::stod. */
module Text {
  import opened Wrappers

  /** Position just after a found position. For npos the C++ expression
      `pos + 1` wraps around to 0. */
  function NextPos(p: Option<nat>): nat
  {
    match p
    case None => 0
    case Some(i) => i + 1
  }

  /** std::string::find_first_of(cs, from). */
  function FindFirstIn(s: string, cs: set<char>, from: nat): (r: Option<nat>)
    ensures r.Some? ==> from <= r.value < |s| && s[r.value] in cs
    ensures forall j | from <= j < |s| && (r.None? || j < r.value) :: s[j] !in cs
    decreases |s| - from
  {
    if from >= |s| then None
    else if s[from] in cs then Some(from)
    else FindFirstIn(s, cs, from + 1)
  }

  /** std::string::find_first_not_of(cs, from). */
  function FindFirstNotIn(s: string, cs: set<char>, from: nat): (r: Option<nat>)
    ensures r.Some? ==> from <= r.value < |s| && s[r.value] !in cs
    ensures forall j | from <= j < |s| && (r.None? || j < r.value) :: s[j] in cs
    decreases |s| - from
  {
    if from >= |s| then None
    else if s[from] !in cs then Some(from)
    else FindFirstNotIn(s, cs, from + 1)
  }

  /** The last position below n holding a character of cs. */
  function LastInPrefix(s: string, cs: set<char>, n: nat): (r: Option<nat>)
    requires n <= |s|
    ensures r.Some? ==> r.value < n && s[r.value] in cs
    ensures forall j | (if r.None? then 0 else r.value + 1) <= j < n :: s[j] !in cs
  {
    if n == 0 then None
    else if s[n - 1] in cs then Some(n - 1)
    else LastInPrefix(s, cs, n - 1)
  }

  /** The last position below n holding a character outside cs. */
  function LastNotInPrefix(s: string, cs: set<char>, n: nat): (r: Option<nat>)
    requires n <= |s|
    ensures r.Some? ==> r.value < n && s[r.value] !in cs
    ensures forall j | (if r.None? then 0 else r.value + 1) <= j < n :: s[j] in cs
  {
    if n == 0 then None
    else if s[n - 1] !in cs then Some(n - 1)
    else LastNotInPrefix(s, cs, n - 1)
  }

  /** std::string::find_last_of(cs, pos): searches the positions up to and including pos. */
  function FindLastIn(s: string, cs: set<char>, pos: nat): (r: Option<nat>)
    ensures r.Some? ==> r.value <= pos && r.value < |s| && s[r.value] in cs
    ensures forall j | 0 <= j <= pos && j < |s| && (r.None? || r.value < j) :: s[j] !in cs
  {
    LastInPrefix(s, cs, if pos < |s| then pos + 1 else |s|)
  }

  /** find_first_of finds k when k is the first position from `from` in cs. */
  lemma FindFirstInIs(s: string, cs: set<char>, from: nat, k: nat)
    requires from <= k < |s| && s[k] in cs
    requires forall j | from <= j < k :: s[j] !in cs
    ensures FindFirstIn(s, cs, from) == Some(k)
  {
    var r := FindFirstIn(s, cs, from);
    assert r.Some? && !(r.value < k) && !(k < r.value);
  }

  /** find_first_not_of finds k when k is the first position from `from` outside cs. */
  lemma FindFirstNotInIs(s: string, cs: set<char>, from: nat, k: nat)
    requires from <= k < |s| && s[k] !in cs
    requires forall j | from <= j < k :: s[j] in cs
    ensures FindFirstNotIn(s, cs, from) == Some(k)
  {
    var r := FindFirstNotIn(s, cs, from);
    assert r.Some? && !(r.value < k) && !(k < r.value);
  }

  /** find_last_of finds k when k is the last position up to pos in cs. */
  lemma FindLastInIs(s: string, cs: set<char>, pos: nat, k: nat)
    requires k <= pos && k < |s| && s[k] in cs
    requires forall j | k < j <= pos && j < |s| :: s[j] !in cs
    ensures FindLastIn(s, cs, pos) == Some(k)
  {
    var r := FindLastIn(s, cs, pos);
    assert r.Some? && !(r.value < k) && !(k < r.value);
  }

  /** std::string::insert(pos, t), for a position that does not exceed the size. */
  function Insert(s: string, pos: nat, t: string): (r: string)
    requires pos <= |s|
    ensures |r| == |s| + |t|
  {
    s[..pos] + t + s[pos..]
  }

  /** Where each character of Insert(s, pos, t) comes from. */
  lemma InsertIndex(s: string, pos: nat, t: string)
    requires pos <= |s|
    ensures forall i | 0 <= i < pos :: Insert(s, pos, t)[i] == s[i]
    ensures forall i | pos <= i < pos + |t| :: Insert(s, pos, t)[i] == t[i - pos]
    ensures forall i | pos + |t| <= i < |s| + |t| :: Insert(s, pos, t)[i] == s[i - |t|]
  {
  }

  /** Inserting adds the characters of t and no others. */
  lemma InsertMembers(s: string, pos: nat, t: string, c: char)
    requires pos <= |s|
    ensures c in Insert(s, pos, t) <==> c in s || c in t
  {
    assert s == s[..pos] + s[pos..];
  }

  /** sub occurs in s at position i. */
  predicate OccursAt(s: string, sub: string, i: int)
  {
    0 <= i <= |s| - |sub| && s[i..i + |sub|] == sub
  }

  /** `s.find(sub) != std::string::npos`. */
  predicate Contains(s: string, sub: string)
  {
    exists i | 0 <= i <= |s| :: OccursAt(s, sub, i)
  }

  /** A text without the first character of sub does not contain sub. */
  lemma FirstCharAbsent(s: string, sub: string)
    requires |sub| > 0 && sub[0] !in s
    ensures !Contains(s, sub)
  {
    forall i | 0 <= i <= |s| - |sub| ensures !OccursAt(s, sub, i) {
      assert s[i..i + |sub|][0] == s[i];
    }
  }

  lemma ContainsLonger(s: string, a: string, b: string)
    requires Contains(s, a + b)
    ensures Contains(s, a)
  {
    var i :| 0 <= i <= |s| && OccursAt(s, a + b, i);
    assert 0 <= i <= |s| - |a + b| && s[i..i + |a + b|] == a + b;
    assert s[i..i + |a|] == (a + b)[..|a|];
    assert OccursAt(s, a, i);
  }

  lemma Associative(a: string, b: string, c: string)
    ensures (a + b) + c == a + (b + c)
  {
  }

  /** The two halves of a concatenation. */
  lemma Halves(a: string, b: string)
    ensures (a + b)[..|a|] == a && (a + b)[|a|..] == b
  {
  }

  function Concat(ss: seq<string>): (r: string)
  {
    if ss == [] then "" else ss[0] + Concat(ss[1..])
  }

  lemma {:induction false} ConcatAppend(ss: seq<string>, s: string)
    ensures Concat(ss + [s]) == Concat(ss) + s
  {
    if ss == [] {
      assert ss + [s] == [s];
    } else {
      assert (ss + [s])[1..] == ss[1..] + [s];
      ConcatAppend(ss[1..], s);
    }
  }

  lemma {:induction false} ConcatSplit(a: seq<string>, b: seq<string>)
    ensures Concat(a + b) == Concat(a) + Concat(b)
  {
    if a == [] {
      assert a + b == b;
    } else {
      assert (a + b)[1..] == a[1..] + b;
      ConcatSplit(a[1..], b);
    }
  }

  // ---------------------------------------------------------------------------
  // Lexicographic order: the order in which std::map<std::string, ...> iterates.

  predicate LexLess(a: string, b: string)
  {
    if |a| == 0 then |b| > 0
    else if |b| == 0 then false
    else if a[0] != b[0] then a[0] < b[0]
    else LexLess(a[1..], b[1..])
  }

  lemma {:induction false} LexLessIrreflexive(a: string)
    ensures !LexLess(a, a)
  {
    if |a| > 0 {
      LexLessIrreflexive(a[1..]);
    }
  }

  lemma {:induction false} LexLessTotal(a: string, b: string)
    requires a != b
    ensures LexLess(a, b) || LexLess(b, a)
  {
    if |a| > 0 && |b| > 0 && a[0] == b[0] {
      assert a == [a[0]] + a[1..] && b == [b[0]] + b[1..];
      LexLessTotal(a[1..], b[1..]);
    }
  }

  lemma {:induction false} LexLessAsymmetric(a: string, b: string)
    requires LexLess(a, b)
    ensures !LexLess(b, a)
  {
    if |a| > 0 && |b| > 0 && a[0] == b[0] {
      LexLessAsymmetric(a[1..], b[1..]);
    }
  }

  lemma {:induction false} LexLessTransitive(a: string, b: string, c: string)
    requires LexLess(a, b) && LexLess(b, c)
    ensures LexLess(a, c)
  {
    if |a| > 0 && |b| > 0 && |c| > 0 && a[0] == b[0] && b[0] == c[0] {
      LexLessTransitive(a[1..], b[1..], c[1..]);
    }
  }

  ghost predicate IsLeast(k: string, ks: set<string>)
  {
    k in ks && forall j | j in ks && j != k :: LexLess(k, j)
  }

  lemma {:induction false} LeastExists(ks: set<string>)
    requires ks != {}
    ensures exists k :: IsLeast(k, ks)
    decreases |ks|
  {
    var x :| x in ks;
    if ks == {x} {
      assert IsLeast(x, ks);
    } else {
      var rest := ks - {x};
      LeastExists(rest);
      var k :| IsLeast(k, rest);
      if LexLess(x, k) {
        forall j | j in ks && j != x ensures LexLess(x, j) {
          if j != k { LexLessTransitive(x, k, j); }
        }
        assert IsLeast(x, ks);
      } else {
        LexLessTotal(x, k);
        assert IsLeast(k, ks);
      }
    }
  }

  lemma LeastUnique(k1: string, k2: string, ks: set<string>)
    requires IsLeast(k1, ks) && IsLeast(k2, ks)
    ensures k1 == k2
  {
    if k1 != k2 {
      LexLessAsymmetric(k1, k2);
    }
  }

  ghost function Least(ks: set<string>): (k: string)
    requires ks != {}
    ensures IsLeast(k, ks)
  {
    LeastExists(ks);
    var k :| IsLeast(k, ks); k
  }

  /** The key a std::map iteration visits first among ks. */
  method LeastKey(ks: set<string>) returns (k: string)
    requires ks != {}
    ensures IsLeast(k, ks)
  {
    k :| k in ks;
    var rest := ks - {k};
    while rest != {}
      invariant rest <= ks && k in ks && k !in rest
      invariant forall j | j in ks - rest && j != k :: LexLess(k, j)
      decreases |rest|
    {
      var x :| x in rest;
      if LexLess(x, k) {
        forall j | j in ks - (rest - {x}) && j != x
          ensures LexLess(x, j)
        {
          if j != k {
            LexLessTransitive(x, k, j);
          }
        }
        k := x;
      } else {
        LexLessTotal(x, k);
      }
      rest := rest - {x};
    }
  }

  /** The keys of a std::map<std::string, ...> in iteration order. */
  ghost function SortedKeys(ks: set<string>): (r: seq<string>)
    decreases |ks|
  {
    if ks == {} then [] else [Least(ks)] + SortedKeys(ks - {Least(ks)})
  }

  /** Iteration starts at the least key and goes on with the others. */
  lemma SortedKeysStep(ks: set<string>, k: string)
    requires IsLeast(k, ks)
    ensures SortedKeys(ks) == [k] + SortedKeys(ks - {k})
  {
    LeastUnique(k, Least(ks), ks);
  }

  /** Iteration visits every key exactly once, in strictly increasing order. */
  lemma {:induction false} SortedKeysOrder(ks: set<string>)
    ensures |SortedKeys(ks)| == |ks|
    ensures forall k :: k in ks <==> k in SortedKeys(ks)
    ensures forall i, j | 0 <= i < j < |SortedKeys(ks)| :: LexLess(SortedKeys(ks)[i], SortedKeys(ks)[j])
    decreases |ks|
  {
    if ks != {} {
      var k := Least(ks);
      SortedKeysOrder(ks - {k});
    }
  }

  // ---------------------------------------------------------------------------
  // Decimal numbers: std::to_string and std::stod restricted to integers.

  predicate IsDigit(c: char)
  {
    '0' <= c <= '9'
  }

  /** The characters std::isspace accepts; std::stod skips them at the front. */
  const Space: set<char> := {' ', '\t', '\n', '\r', '\U{000C}', '\U{000B}'}

  function DigitChar(d: nat): char
    requires d < 10
  {
    ['0', '1', '2', '3', '4', '5', '6', '7', '8', '9'][d]
  }

  function DigitValue(c: char): nat
    requires IsDigit(c)
  {
    (c as int - '0' as int) as nat
  }

  function NatText(n: nat): (r: string)
    ensures |r| > 0 && forall i | 0 <= i < |r| :: IsDigit(r[i])
  {
    if n < 10 then [DigitChar(n)] else NatText(n / 10) + [DigitChar(n % 10)]
  }

  /** Decimal rendering of a number (std::to_string). */
  function Encode(x: int): (r: string)
    ensures |r| > 0
  {
    if x < 0 then "-" + NatText(-x) else NatText(x)
  }

  function ValueOf(d: string): nat
    requires forall i | 0 <= i < |d| :: IsDigit(d[i])
  {
    if d == [] then 0 else 10 * ValueOf(d[..|d| - 1]) + DigitValue(d[|d| - 1])
  }

  /** Length of the run of digits starting at position i. */
  function DigitRun(s: string, i: nat): (n: nat)
    ensures i + n <= |s| || n == 0
    ensures forall j | i <= j < i + n :: IsDigit(s[j])
    ensures i + n < |s| ==> !IsDigit(s[i + n])
    decreases |s| - i
  {
    if i < |s| && IsDigit(s[i]) then 1 + DigitRun(s, i + 1) else 0
  }

  /** Position of the first character that is not white space. */
  function SkipSpace(s: string): (i: nat)
    ensures i <= |s|
  {
    match FindFirstNotIn(s, Space, 0)
    case None => |s|
    case Some(k) => k
  }

  /** The value of the run of digits starting at j; None when there is none. */
  function DigitsAt(s: string, j: nat): Option<nat>
  {
    var n := DigitRun(s, j);
    if n == 0 then None else Some(ValueOf(s[j..j + n]))
  }

  /** The integer reading that stands for std::stod: leading white space is skipped,
      an optional sign and at least one digit must follow, and whatever follows the
      digits is ignored. None stands for the std::invalid_argument that stod throws
      when no number can be read. */
  function Decode(s: string): Option<int>
  {
    var i := SkipSpace(s);
    if i < |s| && (s[i] == '-' || s[i] == '+') then
      match DigitsAt(s, i + 1)
      case None => None
      case Some(v) => Some(if s[i] == '-' then -(v as int) else v as int)
    else
      match DigitsAt(s, i)
      case None => None
      case Some(v) => Some(v)
  }

  /** Decode reads no number from text that starts with neither white space, a sign
      nor a digit. */
  lemma DecodeNonNumeric(s: string)
    requires |s| > 0 && s[0] !in Space && !IsDigit(s[0]) && s[0] != '-' && s[0] != '+'
    ensures Decode(s) == None
  {
    FindFirstNotInIs(s, Space, 0, 0);
  }

  lemma {:induction false} NatTextValue(n: nat)
    ensures ValueOf(NatText(n)) == n
  {
    if n >= 10 {
      var t := NatText(n);
      assert t[..|t| - 1] == NatText(n / 10);
      NatTextValue(n / 10);
    }
  }

  lemma DigitRunAll(s: string, j: nat)
    requires j <= |s|
    requires forall k | j <= k < |s| :: IsDigit(s[k])
    ensures DigitRun(s, j) == |s| - j
    decreases |s| - j
  {
    if j < |s| {
      DigitRunAll(s, j + 1);
    }
  }

  lemma DigitsAtEnd(s: string, j: nat)
    requires j < |s| && forall k | j <= k < |s| :: IsDigit(s[k])
    ensures DigitsAt(s, j) == Some(ValueOf(s[j..]))
  {
    DigitRunAll(s, j);
    assert s[j..j + (|s| - j)] == s[j..];
  }

  lemma DecodeUnsigned(d: string)
    requires |d| > 0 && forall i | 0 <= i < |d| :: IsDigit(d[i])
    ensures Decode(d) == Some(ValueOf(d) as int)
  {
    assert SkipSpace(d) == 0 by {
      assert d[0] !in Space;
    }
    DigitsAtEnd(d, 0);
    assert d[0..] == d;
    assert d[0] != '-' && d[0] != '+';
    assert Decode(d) == (match DigitsAt(d, 0) case None => None case Some(v) => Some(v as int));
  }

  lemma DecodeNegative(d: string)
    requires |d| > 0 && forall i | 0 <= i < |d| :: IsDigit(d[i])
    ensures Decode("-" + d) == Some(-(ValueOf(d) as int))
  {
    var t := "-" + d;
    assert t[1..] == d;
    DecodeMinus(t);
  }

  lemma DecodeMinus(t: string)
    requires |t| > 1 && t[0] == '-' && forall i | 1 <= i < |t| :: IsDigit(t[i])
    ensures Decode(t) == Some(-(ValueOf(t[1..]) as int))
  {
    FindFirstNotInIs(t, Space, 0, 0);
    DigitsAtEnd(t, 1);
  }

  /** What std::to_string writes, std::stod reads back. */
  lemma DecodeEncode(x: int)
    ensures Decode(Encode(x)) == Some(x)
  {
    var n: nat := if x < 0 then -x else x;
    NatTextValue(n);
    if x < 0 {
      DecodeNegative(NatText(n));
    } else {
      DecodeUnsigned(NatText(n));
    }
  }
}
