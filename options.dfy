/** TikzOptions: a std::map<std::string, std::string> that parses comma separated
    `name=value` lists. The map orders its keys, so iteration is in sorted order
    (Text.SortedKeys); insertion is std::map::emplace, which never replaces a value. */
module Options {
  import opened Wrappers
  import opened Text

  /** The characters TikzOptions::Strip removes. */
  const WhiteSpace: set<char> := {' ', '\t', '\n'}

  predicate AllWhite(s: string)
  {
    forall i | 0 <= i < |s| :: s[i] in WhiteSpace
  }

  /** TikzOptions::Strip. None is the std::out_of_range that substr throws when
      find_first_not_of finds nothing, i.e. for an empty or all-white-space input. */
  function Strip(s: string): (r: Option<string>)
    ensures r.None? <==> AllWhite(s)
    ensures r.Some? ==> |r.value| > 0 && r.value[0] !in WhiteSpace && r.value[|r.value| - 1] !in WhiteSpace
  {
    match FindFirstNotIn(s, WhiteSpace, 0)
    case None => None
    case Some(b) =>
      // find_last_not_of(...) + 1; it finds at least position b
      var e := NextPos(LastNotInPrefix(s, WhiteSpace, |s|));
      Some(s[b..e])
  }

  /** Strip removes a white-space prefix and a white-space suffix and nothing else. */
  lemma StripTrims(s: string)
    requires Strip(s).Some?
    ensures var t := Strip(s).value;
      exists b | OccursAt(s, t, b) :: AllWhite(s[..b]) && AllWhite(s[b + |t|..])
  {
    var b := FindFirstNotIn(s, WhiteSpace, 0).value;
    var t := Strip(s).value;
    assert OccursAt(s, t, b);
  }

  lemma StripIdempotent(s: string)
    requires Strip(s).Some?
    ensures Strip(Strip(s).value) == Strip(s)
  {
    var t := Strip(s).value;
    assert FindFirstNotIn(t, WhiteSpace, 0) == Some(0);
    assert LastNotInPrefix(t, WhiteSpace, |t|) == Some(|t| - 1);
    assert t[0..|t|] == t;
  }

  /** TikzOptions::ParseOption: cut at the first '=' and strip both halves.
      Without '=' both substr calls see npos: substr(0, npos) is the whole token and
      substr(npos + 1) wraps around to substr(0), so name and value are the same. */
  function ParseOption(option: string): Option<(string, string)>
  {
    var cut := FindFirstIn(option, {'='}, 0);
    var nameText := match cut case None => option case Some(i) => option[..i];
    var valueText := option[NextPos(cut)..];
    match (Strip(nameText), Strip(valueText))
    case (Some(n), Some(v)) => Some((n, v))
    case _ => None
  }

  /** A token without '=' names an option whose value is its own name. */
  lemma ParseWithoutEquals(option: string)
    requires '=' !in option
    ensures ParseOption(option).None? <==> AllWhite(option)
    ensures ParseOption(option).Some? ==>
      ParseOption(option).value.0 == ParseOption(option).value.1 && Strip(option) == Some(ParseOption(option).value.0)
  {
    assert FindFirstIn(option, {'='}, 0).None?;
    assert option[0..] == option;
  }

  /** With '=' the token is cut at its first '='; the value keeps any later '='. */
  lemma ParseAtFirstEquals(option: string, i: nat)
    requires i < |option| && option[i] == '=' && '=' !in option[..i]
    ensures ParseOption(option).Some? <==> !AllWhite(option[..i]) && !AllWhite(option[i + 1..])
    ensures ParseOption(option).Some? ==>
      Some(ParseOption(option).value.0) == Strip(option[..i]) && Some(ParseOption(option).value.1) == Strip(option[i + 1..])
  {
    assert forall j | 0 <= j < i :: option[..i][j] == option[j];
    assert FindFirstIn(option, {'='}, 0) == Some(i);
  }

  /** A name and a value without surrounding white space, joined by '=', parse
      back to themselves; the value may contain further '=' characters. */
  lemma ParseKeepsLaterEquals(name: string, value: string)
    requires Clean(name) && Clean(value) && '=' !in name
    ensures ParseOption(name + "=" + value) == Some((name, value))
  {
    var s := name + "=" + value;
    var i := |name|;
    assert s[i] == '=' && s[..i] == name && s[i + 1..] == value;
    ParseAtFirstEquals(s, i);
    StripClean(name);
    StripClean(value);
  }

  /** A non-empty text that neither starts nor ends with white space. */
  predicate Clean(t: string)
  {
    |t| > 0 && t[0] !in WhiteSpace && t[|t| - 1] !in WhiteSpace
  }

  lemma StripClean(t: string)
    requires Clean(t)
    ensures Strip(t) == Some(t)
  {
    StripExact(t, 0, |t|);
    assert t[0..|t|] == t;
  }

  /** Strip of a string whose non-white part is exactly s[b..e]. */
  lemma StripExact(s: string, b: nat, e: nat)
    requires b < e <= |s| && s[b] !in WhiteSpace && s[e - 1] !in WhiteSpace
    requires forall i | 0 <= i < b :: s[i] in WhiteSpace
    requires forall i | e <= i < |s| :: s[i] in WhiteSpace
    ensures Strip(s) == Some(s[b..e])
  {
    assert FindFirstNotIn(s, WhiteSpace, 0) == Some(b);
    assert LastNotInPrefix(s, WhiteSpace, |s|) == Some(e - 1);
  }

  // ---------------------------------------------------------------------------
  // Splitting: TikzOptions::Add skips a comma that lies after the LAST '{' and
  // before the FIRST '}' of the whole input; every other comma ends a token.

  /** `p > find_last_of("{") && p < find_first_of("}")`, with npos as the largest size_t. */
  predicate Shielded(s: string, p: nat)
  {
    match FindLastIn(s, {'{'}, |s|)
    case None => false
    case Some(open) =>
      p > open &&
      match FindFirstIn(s, {'}'}, 0)
      case None => true
      case Some(close) => p < close
  }

  predicate SplitsAt(s: string, p: nat)
    requires p < |s|
  {
    s[p] == ',' && !Shielded(s, p)
  }

  /** The tokens of s[start..], scanning from position i. */
  function TokensFrom(s: string, start: nat, i: nat): (r: seq<string>)
    requires start <= i <= |s|
    ensures |r| > 0
    decreases |s| - i
  {
    if i == |s| then [s[start..]]
    else if SplitsAt(s, i) then [s[start..i]] + TokensFrom(s, i + 1, i + 1)
    else TokensFrom(s, start, i + 1)
  }

  function Tokens(s: string): seq<string>
  {
    TokensFrom(s, 0, 0)
  }

  /** Number of split commas at or after position i. */
  function SplitCount(s: string, i: nat): nat
    requires i <= |s|
    decreases |s| - i
  {
    if i == |s| then 0 else (if SplitsAt(s, i) then 1 else 0) + SplitCount(s, i + 1)
  }

  function Join(ts: seq<string>): string
    requires |ts| > 0
  {
    if |ts| == 1 then ts[0] else ts[0] + "," + Join(ts[1..])
  }

  lemma {:induction false} TokensFromCount(s: string, start: nat, i: nat)
    requires start <= i <= |s|
    ensures |TokensFrom(s, start, i)| == SplitCount(s, i) + 1
    decreases |s| - i
  {
    if i < |s| {
      if SplitsAt(s, i) {
        TokensFromCount(s, i + 1, i + 1);
      } else {
        TokensFromCount(s, start, i + 1);
      }
    }
  }

  /** There is one token more than there are split commas. */
  lemma TokensCount(s: string)
    ensures |Tokens(s)| == SplitCount(s, 0) + 1
  {
    TokensFromCount(s, 0, 0);
  }

  lemma {:induction false} TokensFromJoin(s: string, start: nat, i: nat)
    requires start <= i <= |s|
    ensures Join(TokensFrom(s, start, i)) == s[start..]
    decreases |s| - i
  {
    if i < |s| {
      if SplitsAt(s, i) {
        TokensFromJoin(s, i + 1, i + 1);
        assert s[start..] == s[start..i] + "," + s[i + 1..];
      } else {
        TokensFromJoin(s, start, i + 1);
      }
    }
  }

  /** Splitting loses nothing: the tokens joined by commas give back the input. */
  lemma TokensJoin(s: string)
    ensures Join(Tokens(s)) == s
  {
    TokensFromJoin(s, 0, 0);
  }

  lemma {:induction false} TokensFromUnshielded(s: string, start: nat, i: nat)
    requires start <= i <= |s|
    requires (forall p | 0 <= p < |s| :: !Shielded(s, p)) && ',' !in s[start..i]
    ensures forall t | t in TokensFrom(s, start, i) :: ',' !in t
    decreases |s| - i
  {
    if i < |s| {
      if SplitsAt(s, i) {
        TokensFromUnshielded(s, i + 1, i + 1);
      } else {
        assert s[start..i + 1] == s[start..i] + [s[i]];
        TokensFromUnshielded(s, start, i + 1);
      }
    } else {
      assert s[start..] == s[start..i];
    }
  }

  /** Without any '{' every comma splits: no token keeps a comma. */
  lemma TokensNoBrace(s: string)
    requires '{' !in s
    ensures forall t | t in Tokens(s) :: ',' !in t
  {
    assert FindLastIn(s, {'{'}, |s|).None?;
    TokensFromUnshielded(s, 0, 0);
  }

  /** The shield only looks at the last '{' and the first '}' of the whole input:
      as soon as some '}' comes before some '{' (two brace groups, say) no comma
      is shielded and every comma splits. */
  lemma CrossedBracesSplitEveryComma(s: string, close: nat, open: nat)
    requires close < open < |s| && s[close] == '}' && s[open] == '{'
    ensures forall t | t in Tokens(s) :: ',' !in t
  {
    var lastOpen := FindLastIn(s, {'{'}, |s|);
    var firstClose := FindFirstIn(s, {'}'}, 0);
    assert lastOpen.Some? && lastOpen.value >= open;
    assert firstClose.Some? && firstClose.value <= close;
    TokensFromUnshielded(s, 0, 0);
  }

  /** Skipping positions that are not split points does not change the tokens. */
  lemma {:induction false} TokensFromSkip(s: string, start: nat, i: nat, j: nat)
    requires start <= i <= j <= |s|
    requires forall k | i <= k < j :: !SplitsAt(s, k)
    ensures TokensFrom(s, start, i) == TokensFrom(s, start, j)
    decreases j - i
  {
    if i < j {
      TokensFromSkip(s, start, i + 1, j);
    }
  }

  // ---------------------------------------------------------------------------
  // What one Add call does to the map.

  /** The map after an Add, and whether Add returned normally (false: it threw,
      leaving the options emplaced before the failing token). */
  datatype Outcome = Outcome(entries: map<string, string>, ok: bool)

  /** std::map::emplace: an existing name is left alone. */
  function Emplace(m: map<string, string>, option: (string, string)): map<string, string>
  {
    if option.0 in m then m else m[option.0 := option.1]
  }

  function EmplaceAll(m: map<string, string>, tokens: seq<string>): Outcome
    decreases |tokens|
  {
    if tokens == [] then Outcome(m, true)
    else match ParseOption(tokens[0])
      case None => Outcome(m, false)
      case Some(option) => EmplaceAll(Emplace(m, option), tokens[1..])
  }

  /** TikzOptions::Add as a function of the map before the call. */
  function AddSpec(m: map<string, string>, options: string): Outcome
  {
    if options == "" then Outcome(m, true) else EmplaceAll(m, Tokens(options))
  }

  /** Every token parsed, in order; None if some token does not parse. */
  function ParseAll(tokens: seq<string>): Option<seq<(string, string)>>
  {
    if tokens == [] then Some([])
    else match ParseOption(tokens[0])
      case None => None
      case Some(o) =>
        match ParseAll(tokens[1..])
        case None => None
        case Some(rest) => Some([o] + rest)
  }

  /** The reference meaning of a sequence of emplaces: for each name, the value
      of its first occurrence. */
  function FirstWins(options: seq<(string, string)>): map<string, string>
  {
    if options == [] then map[] else FirstWins(options[1..])[options[0].0 := options[0].1]
  }

  lemma {:induction false} EmplaceAllKeeps(m: map<string, string>, tokens: seq<string>)
    ensures m.Keys <= EmplaceAll(m, tokens).entries.Keys
    ensures forall k | k in m :: EmplaceAll(m, tokens).entries[k] == m[k]
    decreases |tokens|
  {
    if tokens != [] && ParseOption(tokens[0]).Some? {
      EmplaceAllKeeps(Emplace(m, ParseOption(tokens[0]).value), tokens[1..]);
    }
  }

  /** A name already present is never overwritten by Add. */
  lemma AddKeepsExisting(m: map<string, string>, options: string)
    ensures m.Keys <= AddSpec(m, options).entries.Keys
    ensures forall k | k in m :: AddSpec(m, options).entries[k] == m[k]
  {
    if options != "" {
      EmplaceAllKeeps(m, Tokens(options));
    }
  }

  lemma {:induction false} EmplaceAllFirstWins(m: map<string, string>, tokens: seq<string>)
    ensures EmplaceAll(m, tokens).ok <==> ParseAll(tokens).Some?
    ensures ParseAll(tokens).Some? ==> EmplaceAll(m, tokens).entries == FirstWins(ParseAll(tokens).value) + m
    decreases |tokens|
  {
    if tokens == [] {
      assert FirstWins([]) + m == m;
    } else {
      match ParseOption(tokens[0])
      case None =>
      case Some(o) =>
        var m' := Emplace(m, o);
        EmplaceAllFirstWins(m', tokens[1..]);
        if ParseAll(tokens[1..]).Some? {
          var rest := ParseAll(tokens[1..]).value;
          assert ParseAll(tokens).value == [o] + rest;
          assert ([o] + rest)[1..] == rest;
          UnionEmplace(FirstWins(rest), m, o);
        }
    }
  }

  lemma UnionEmplace(f: map<string, string>, m: map<string, string>, o: (string, string))
    ensures f + Emplace(m, o) == f[o.0 := o.1] + m
  {
  }

  /** When every token parses, Add yields the user's earlier entries over the
      first value given for each new name; otherwise it fails. */
  lemma AddFirstWins(m: map<string, string>, options: string)
    requires options != ""
    ensures AddSpec(m, options).ok <==> ParseAll(Tokens(options)).Some?
    ensures ParseAll(Tokens(options)).Some? ==>
      AddSpec(m, options).entries == FirstWins(ParseAll(Tokens(options)).value) + m
  {
    EmplaceAllFirstWins(m, Tokens(options));
  }

  lemma {:induction false} EmplaceAllNewNames(m: map<string, string>, tokens: seq<string>)
    ensures |EmplaceAll(m, tokens).entries.Keys - m.Keys| <= |tokens|
    decreases |tokens|
  {
    if tokens != [] && ParseOption(tokens[0]).Some? {
      var o := ParseOption(tokens[0]).value;
      var m' := Emplace(m, o);
      EmplaceAllNewNames(m', tokens[1..]);
      var r := EmplaceAll(m', tokens[1..]).entries.Keys;
      assert m'.Keys <= m.Keys + {o.0};
      assert r - m.Keys <= (r - m'.Keys) + {o.0};
      SubsetCard(r - m.Keys, (r - m'.Keys) + {o.0});
    }
  }

  lemma SubsetCard<T>(a: set<T>, b: set<T>)
    requires a <= b
    ensures |a| <= |b|
  {
    assert b == a + (b - a);
  }

  /** One Add inserts at most one new name per split comma, plus one. */
  lemma AddNewNamesBound(m: map<string, string>, options: string)
    ensures |AddSpec(m, options).entries.Keys - m.Keys| <= SplitCount(options, 0) + 1
  {
    if options != "" {
      EmplaceAllNewNames(m, Tokens(options));
      TokensCount(options);
    }
  }

  // ---------------------------------------------------------------------------
  // Worked inputs.

  /** The text of a braced value "name={inner}", positions spelled out. */
  lemma BracedLayout(name: string, inner: string)
    ensures var s := name + "={" + inner + "}";
      |s| == |name| + |inner| + 3 &&
      (forall j | 0 <= j < |name| :: s[j] == name[j]) &&
      s[|name|] == '=' && s[|name| + 1] == '{' &&
      (forall j | 0 <= j < |inner| :: s[|name| + 2 + j] == inner[j]) &&
      s[|s| - 1] == '}'
  {
  }

  /** A value in the one brace group of the input keeps its commas. */
  lemma BracedTokens(name: string, inner: string)
    requires '{' !in name && '}' !in name && ',' !in name && '{' !in inner && '}' !in inner
    ensures var s := name + "={" + inner + "}"; Tokens(s) == [s]
  {
    var s := name + "={" + inner + "}";
    var open := |name| + 1;
    var close := |s| - 1;
    BracedLayout(name, inner);
    forall j | open < j < close ensures s[j] != '{' && s[j] != '}' {
      assert s[j] == inner[j - open - 1];
    }
    forall j | 0 <= j < |name| ensures s[j] != '{' && s[j] != '}' && s[j] != ',' {
      assert s[j] == name[j];
    }
    FindLastInIs(s, {'{'}, |s|, open);
    FindFirstInIs(s, {'}'}, 0, close);
    forall k | 0 <= k < |s| ensures !SplitsAt(s, k) {
    }
    TokensFromSkip(s, 0, 0, |s|);
    assert s[0..] == s;
  }

  /** A comma inside the (single) brace group does not split: "k={a,b}" adds
      one option whose value is the braced text. */
  lemma BracedValueIsOneOption(m: map<string, string>, name: string, inner: string)
    requires Clean(name) && '=' !in name && '{' !in name && '}' !in name && ',' !in name
    requires '{' !in inner && '}' !in inner
    ensures AddSpec(m, name + "={" + inner + "}") == Outcome(Emplace(m, (name, "{" + inner + "}")), true)
  {
    var v := "{" + inner + "}";
    var s := name + "={" + inner + "}";
    assert s == name + "=" + v;
    BracedTokens(name, inner);
    assert v[0] == '{' && v[|v| - 1] == '}';
    ParseKeepsLaterEquals(name, v);
    assert ParseOption(s) == Some((name, v));
    assert [s][1..] == [];
    assert EmplaceAll(m, [s]) == EmplaceAll(Emplace(m, (name, v)), []);
  }

  lemma {:induction false} LastTokenEmpty(s: string, start: nat, i: nat)
    requires |s| > 0 && start <= i < |s| && SplitsAt(s, |s| - 1)
    ensures var ts := TokensFrom(s, start, i); ts[|ts| - 1] == ""
    decreases |s| - i
  {
    if i == |s| - 1 {
      assert TokensFrom(s, start, i) == [s[start..i]] + [s[|s|..]];
    } else if SplitsAt(s, i) {
      LastTokenEmpty(s, i + 1, i + 1);
    } else {
      LastTokenEmpty(s, start, i + 1);
    }
  }

  /** One token that does not parse makes the whole list fail. */
  lemma {:induction false} ParseAllFails(tokens: seq<string>, k: nat)
    requires k < |tokens| && ParseOption(tokens[k]).None?
    ensures ParseAll(tokens).None?
    decreases k
  {
    if k == 0 {
      ParseAllHeadFails(tokens);
    } else {
      assert tokens[1..][k - 1] == tokens[k];
      ParseAllFails(tokens[1..], k - 1);
      ParseAllTailFails(tokens);
    }
  }

  lemma ParseAllHeadFails(tokens: seq<string>)
    requires |tokens| > 0 && ParseOption(tokens[0]).None?
    ensures ParseAll(tokens).None?
  {
  }

  lemma ParseAllTailFails(tokens: seq<string>)
    requires |tokens| > 0 && ParseAll(tokens[1..]).None?
    ensures ParseAll(tokens).None?
  {
  }

  /** A trailing comma that splits leaves an empty last token, on which Strip
      throws: Add fails (after emplacing the earlier options). */
  lemma TrailingCommaFails(m: map<string, string>, s: string)
    requires |s| > 0 && SplitsAt(s, |s| - 1)
    ensures !AddSpec(m, s).ok
  {
    LastTokenEmpty(s, 0, 0);
    var ts := Tokens(s);
    assert Strip("").None?;
    ParseAllFails(ts, |ts| - 1);
    AddFirstWins(m, s);
  }

  // ---------------------------------------------------------------------------

  /** The option store; `entries` is the std::map base object. */
  class TikzOptions {
    var entries: map<string, string>

    /** The default constructor: no options. */
    constructor ()
      ensures entries == map[]
    {
      entries := map[];
    }

    /** TikzOptions(std::string): construct empty, then Add. None: Add threw, so
        no object is constructed. */
    static method Create(options: string) returns (r: Option<TikzOptions>)
      ensures r.Some? <==> AddSpec(map[], options).ok
      ensures r.Some? ==> fresh(r.value) && r.value.entries == AddSpec(map[], options).entries
    {
      var t := new TikzOptions();
      var ok := t.Add(options);
      if ok {
        r := Some(t);
      } else {
        r := None;
      }
    }

    /** TikzOptions::Add. Returns false where the C++ throws std::out_of_range
        (an empty or all-white-space name or value); the options emplaced before
        that token stay in the map. */
    method Add(options: string) returns (ok: bool)
      modifies this
      ensures Outcome(entries, ok) == AddSpec(old(entries), options)
    {
      if options == "" {
        return true;
      }
      ghost var spec := AddSpec(entries, options);
      var start: nat := 0;
      var end: Option<nat> := FindFirstIn(options, {','}, 0);
      SkipToComma(options, 0, 0);
      while end.Some?
        invariant start <= Stop(options, end) <= |options|
        invariant end.Some? ==> end.value < |options| && options[end.value] == ','
        invariant EmplaceAll(entries, TokensFrom(options, start, Stop(options, end))) == spec
        decreases |options| - Stop(options, end)
      {
        var failed;
        failed, entries, start, end := Advance(options, start, end.value, entries, spec);
        if failed {
          return false;
        }
      }
      var last;
      ok, last := AddLast(options, start, entries, spec);
      entries := last;
    }

    /** Lines 38-39: the token after the last comma that splits. */
    static method AddLast(options: string, start: nat, entries: map<string, string>, ghost spec: Outcome)
      returns (ok: bool, next: map<string, string>)
      requires start <= |options| && EmplaceAll(entries, TokensFrom(options, start, |options|)) == spec
      ensures Outcome(next, ok) == spec
    {
      LastTokenStep(entries, options, start);
      var option := ParseOption(options[start..]);
      if option.None? {
        return false, entries;
      }
      ok, next := true, Emplace(entries, option.value);
    }

    /** One comma of the loop of lines 22-36: a shielded comma is skipped; at
        one that splits, the token before it is emplaced, or Strip throws. */
    static method Advance(options: string, start: nat, e: nat, entries: map<string, string>, ghost spec: Outcome)
      returns (failed: bool, next: map<string, string>, start': nat, end': Option<nat>)
      requires start <= e < |options| && options[e] == ','
      requires EmplaceAll(entries, TokensFrom(options, start, e)) == spec
      ensures failed ==> next == entries && spec == Outcome(entries, false)
      ensures !failed ==>
        e < Stop(options, end') && start' <= Stop(options, end') <= |options| &&
        (end'.Some? ==> end'.value < |options| && options[end'.value] == ',') &&
        EmplaceAll(next, TokensFrom(options, start', Stop(options, end'))) == spec
    {
      end' := FindFirstIn(options, {','}, e + 1);
      if Shielded(options, e) {
        ShieldStep(options, start, e);
        return false, entries, start, end';
      }
      var ok;
      ok, next := AddToken(options, start, e, entries, spec);
      SkipToComma(options, e + 1, e + 1);
      failed, start' := !ok, e + 1;
    }

    /** One comma of the loop of lines 22-36 that splits: the token before it
        is parsed and emplaced, or Strip throws and Add stops here. */
    static method AddToken(options: string, start: nat, e: nat, entries: map<string, string>, ghost spec: Outcome)
      returns (ok: bool, next: map<string, string>)
      requires start <= e < |options| && options[e] == ',' && !Shielded(options, e)
      requires EmplaceAll(entries, TokensFrom(options, start, e)) == spec
      ensures !ok ==> next == entries && spec == Outcome(entries, false)
      ensures ok ==> EmplaceAll(next, TokensFrom(options, e + 1, Stop(options, FindFirstIn(options, {','}, e + 1)))) == spec
    {
      var option := ParseOption(options[start..e]);
      SplitStep(options, start, e);
      ghost var rest := TokensFrom(options, e + 1, Stop(options, FindFirstIn(options, {','}, e + 1)));
      if option.None? {
        EmplaceFirstFails(entries, options[start..e], rest);
        return false, entries;
      }
      EmplaceFirst(entries, options[start..e], rest, option.value);
      ok, next := true, Emplace(entries, option.value);
    }

    /** TikzOptions::IsDefined. */
    method IsDefined(name: string) returns (b: bool)
      ensures b <==> name in entries
    {
      b := name in entries;
    }
  }

  /** From position i the scan may jump to the next comma. */
  lemma SkipToComma(s: string, start: nat, i: nat)
    requires start <= i <= |s|
    ensures TokensFrom(s, start, i) == TokensFrom(s, start, Stop(s, FindFirstIn(s, {','}, i)))
  {
    TokensFromSkip(s, start, i, Stop(s, FindFirstIn(s, {','}, i)));
  }

  /** A shielded comma does not end a token; the scan goes on to the next comma. */
  lemma ShieldStep(s: string, start: nat, e: nat)
    requires start <= e < |s| && Shielded(s, e)
    ensures TokensFrom(s, start, e) == TokensFrom(s, start, Stop(s, FindFirstIn(s, {','}, e + 1)))
    ensures e < Stop(s, FindFirstIn(s, {','}, e + 1)) <= |s|
  {
    SkipToComma(s, start, e + 1);
  }

  /** A split comma ends the token that began at start; the scan goes on from
      the next comma. */
  lemma SplitStep(s: string, start: nat, e: nat)
    requires start <= e < |s| && s[e] == ',' && !Shielded(s, e)
    ensures TokensFrom(s, start, e) == [s[start..e]] + TokensFrom(s, e + 1, Stop(s, FindFirstIn(s, {','}, e + 1)))
  {
    SkipToComma(s, e + 1, e + 1);
  }

  /** Emplacing a list of tokens whose first one parses. */
  lemma EmplaceFirst(m: map<string, string>, t: string, rest: seq<string>, o: (string, string))
    requires ParseOption(t) == Some(o)
    ensures EmplaceAll(m, [t] + rest) == EmplaceAll(Emplace(m, o), rest)
  {
    assert ([t] + rest)[1..] == rest;
  }

  /** Emplacing a list of tokens whose first one does not parse. */
  lemma EmplaceFirstFails(m: map<string, string>, t: string, rest: seq<string>)
    requires ParseOption(t).None?
    ensures EmplaceAll(m, [t] + rest) == Outcome(m, false)
  {
  }

  lemma LastTokenStep(m: map<string, string>, s: string, start: nat)
    requires start <= |s|
    ensures EmplaceAll(m, TokensFrom(s, start, |s|)) ==
      match ParseOption(s[start..])
      case None => Outcome(m, false)
      case Some(o) => Outcome(Emplace(m, o), true)
  {
    assert [s[start..]][1..] == [];
  }

  /** Where a search for ',' stopped: the comma found, or the end of the input. */
  function Stop(s: string, p: Option<nat>): nat
  {
    match p case None => |s| case Some(i) => i
  }
}
