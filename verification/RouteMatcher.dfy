/**
 Route matching: a path pattern with `{name}` placeholders becomes a regular expression, and a request
 goes to the first route whose method and expression match.

 `word` is the regular expressions' class of word characters and `ident` says which names may name a
 group; both are Unicode tables of the host, so they are parameters.
 */
module RouteMatcher {
  import opened Workers
  import opened Strings

  /**
   A pattern or a regular expression read as what it means: characters, dots (which nothing escapes, so
   that they stand for any character but a newline) and named non-empty stretches without a slash.
   */
  datatype Token = Lit(c: char) | Dot | Hole(name: string)

  function Single(c: char): Token {
    if c == '.' then Dot else Lit(c)
  }

  // ---------- patterns ----------

  function WordRun(word: char -> bool, s: string): (n: nat)
    ensures n <= |s| && (forall i :: 0 <= i < n ==> word(s[i])) && (n < |s| ==> !word(s[n]))
  {
    if s == "" || !word(s[0]) then 0 else 1 + WordRun(word, s[1..])
  }

  /** The length of the placeholder that s starts with, if it starts with one. */
  function Placeholder(word: char -> bool, s: string): (n: Option<nat>)
    ensures n.Some? ==> 3 <= n.value <= |s|
  {
    if s == "" || s[0] != '{' then None
    else
      var n := WordRun(word, s[1..]);
      if n > 0 && n + 1 < |s| && s[n + 1] == '}' then Some(n + 2) else None
  }

  function Tokens(word: char -> bool, p: string): seq<Token>
    decreases |p|
  {
    if p == "" then []
    else match Placeholder(word, p)
         case Some(n) => [Hole(p[1..n - 1])] + Tokens(word, p[n..])
         case None => [Single(p[0])] + Tokens(word, p[1..])
  }

  /** Every placeholder replaced, left to right. */
  function Replaced(word: char -> bool, p: string): string
    decreases |p|
  {
    if p == "" then ""
    else match Placeholder(word, p)
         case Some(n) => Group(p[1..n - 1]) + Replaced(word, p[n..])
         case None => [p[0]] + Replaced(word, p[1..])
  }

  function PathToRegex(word: char -> bool, p: string): string {
    "^" + Replaced(word, p) + "$"
  }

  /** The pattern a token list is written as. */
  function Spelled(ts: seq<Token>): string {
    if ts == [] then ""
    else (match ts[0] case Lit(c) => [c] case Dot => "." case Hole(n) => "{" + n + "}") + Spelled(ts[1..])
  }

  // ---------- the regular expressions this makes ----------

  const OPEN := "(?P<"
  const CLOSE := ">[^/]+)"

  function Group(name: string): string {
    OPEN + name + CLOSE
  }

  const META := "\\^$*+?{}[]|()"

  /** Reads a sequence of plain characters, dots and named groups. */
  function ReadItems(text: string): Option<seq<Token>>
    decreases |text|
  {
    if text == "" then Some([])
    else if OPEN <= text then
      var rest := text[|OPEN|..];
      var n := IndexOf(rest, '>');
      if CLOSE <= rest[n..] then
        match ReadItems(rest[n..][|CLOSE|..])
        case Some(ts) => Some([Hole(rest[..n])] + ts)
        case None => None
      else None
    else if text[0] in META then None
    else match ReadItems(text[1..])
         case Some(ts) => Some([Single(text[0])] + ts)
         case None => None
  }

  function ReadRegex(regex: string): Option<seq<Token>> {
    if |regex| >= 2 && regex[0] == '^' && regex[|regex| - 1] == '$' then ReadItems(regex[1..|regex| - 1]) else None
  }

  /** The names of the groups, in order. */
  function Names(ts: seq<Token>): seq<string> {
    if ts == [] then []
    else match ts[0]
         case Lit(_) => Names(ts[1..])
         case Dot => Names(ts[1..])
         case Hole(n) => [n] + Names(ts[1..])
  }

  /** Group names must be identifiers and must not repeat. */
  predicate Compiles(ident: string -> bool, names: seq<string>) {
    (forall n :: n in names ==> ident(n)) && forall i, j :: 0 <= i < j < |names| ==> names[i] != names[j]
  }

  /** What `Compiles` asks, spelled out. */
  lemma CompilesIff(ident: string -> bool, names: seq<string>)
    ensures Compiles(ident, names) <==>
              (forall n :: n in names ==> ident(n)) && forall i, j :: 0 <= i < j < |names| ==> names[i] != names[j]
  {
  }

  // ---------- backtracking ----------

  function SlashFreeRun(s: string): (n: nat)
    ensures n <= |s| && '/' !in s[..n] && (n < |s| ==> s[n] == '/')
  {
    IndexOf(s, '/')
  }

  /** The values of the groups in the engine's first match: each group tries its longest value first. */
  function Match(ts: seq<Token>, s: string): Option<seq<string>>
    decreases |ts|, |s| + 2
  {
    if ts == [] then
      // the end of the path, or just before a final newline
      if s == "" || s == "\n" then Some([]) else None
    else match ts[0]
         case Lit(c) => if s != "" && s[0] == c then Match(ts[1..], s[1..]) else None
         case Dot => if s != "" && s[0] != '\n' then Match(ts[1..], s[1..]) else None
         case Hole(_) => MatchHole(ts[1..], s, SlashFreeRun(s))
  }

  function MatchHole(rest: seq<Token>, s: string, longest: nat): Option<seq<string>>
    requires longest <= |s|
    decreases |rest| + 1, longest
  {
    if longest == 0 then None
    else match Match(rest, s[longest..])
         case Some(vs) => Some([s[..longest]] + vs)
         case None => MatchHole(rest, s, longest - 1)
  }

  // ---------- what matching means ----------

  predicate Fillable(v: string) {
    v != "" && '/' !in v
  }

  /** Reading the path from left to right, the tokens account for it, the groups with these values. */
  predicate Fits(ts: seq<Token>, vs: seq<string>, s: string)
    decreases |ts|
  {
    if ts == [] then vs == [] && (s == "" || s == "\n")
    else match ts[0]
         case Lit(c) => s != "" && s[0] == c && Fits(ts[1..], vs, s[1..])
         case Dot => s != "" && s[0] != '\n' && Fits(ts[1..], vs, s[1..])
         case Hole(_) => vs != [] && Fillable(vs[0]) && vs[0] <= s && Fits(ts[1..], vs[1..], s[|vs[0]|..])
  }

  /** A value of a group reaches at most to the next slash. */
  lemma FillablePrefix(v: string, s: string)
    requires v <= s && '/' !in v
    ensures |v| <= SlashFreeRun(s)
  {
  }

  lemma {:induction false} MatchSound(ts: seq<Token>, s: string)
    ensures Match(ts, s).Some? ==> Fits(ts, Match(ts, s).value, s)
    decreases |ts|, |s| + 2
  {
    if ts == [] {
    } else if ts[0].Hole? {
      MatchHoleSound(ts, s, SlashFreeRun(s));
    } else if s != "" {
      MatchSound(ts[1..], s[1..]);
    }
  }

  lemma {:induction false} MatchHoleSound(ts: seq<Token>, s: string, longest: nat)
    requires ts != [] && ts[0].Hole? && longest <= SlashFreeRun(s)
    ensures var r := MatchHole(ts[1..], s, longest); r.Some? ==> Fits(ts, r.value, s)
    decreases |ts|, longest
  {
    if longest > 0 {
      var m := Match(ts[1..], s[longest..]);
      if m.Some? {
        MatchSound(ts[1..], s[longest..]);
        assert s[..longest] == s[..SlashFreeRun(s)][..longest];
        assert ([s[..longest]] + m.value)[1..] == m.value;
      } else {
        MatchHoleSound(ts, s, longest - 1);
      }
    }
  }

  /** Leftmost groups first, the longer value wins. */
  predicate Greedier(vs: seq<string>, us: seq<string>) {
    || vs == us
    || (vs != [] && us != [] && (|vs[0]| > |us[0]| || (vs[0] == us[0] && Greedier(vs[1..], us[1..]))))
  }

  lemma GreedierLonger(v: string, vs: seq<string>, us: seq<string>)
    requires us != [] && |v| > |us[0]|
    ensures Greedier([v] + vs, us)
  {
  }

  lemma GreedierLater(v: string, vs: seq<string>, us: seq<string>)
    requires us != [] && v == us[0] && Greedier(vs, us[1..])
    ensures Greedier([v] + vs, us)
  {
  }

  /** If any values fit, the engine finds some, and none that it would rather have tried. */
  lemma {:induction false} MatchComplete(ts: seq<Token>, s: string, us: seq<string>)
    requires Fits(ts, us, s)
    ensures Match(ts, s).Some? && Greedier(Match(ts, s).value, us)
    decreases |ts|, |s| + 2
  {
    if ts == [] {
    } else if ts[0].Hole? {
      FillablePrefix(us[0], s);
      MatchHoleComplete(ts, s, us, SlashFreeRun(s));
    } else {
      MatchComplete(ts[1..], s[1..], us);
    }
  }

  lemma {:induction false} MatchHoleComplete(ts: seq<Token>, s: string, us: seq<string>, longest: nat)
    requires ts != [] && ts[0].Hole? && Fits(ts, us, s)
    requires us != [] && |us[0]| <= longest <= |s|
    ensures MatchHole(ts[1..], s, longest).Some? && Greedier(MatchHole(ts[1..], s, longest).value, us)
    decreases |ts|, longest
  {
    var m := Match(ts[1..], s[longest..]);
    if longest == |us[0]| {
      assert s[..longest] == us[0];
      MatchComplete(ts[1..], s[longest..], us[1..]);
      GreedierLater(s[..longest], m.value, us);
    } else if m.Some? {
      GreedierLonger(s[..longest], m.value, us);
    } else {
      MatchHoleComplete(ts, s, us, longest - 1);
    }
  }

  // ---------- the regular expression says what the pattern says ----------

  /** The class of word characters holds none of the characters that delimit names. */
  predicate Sane(word: char -> bool) {
    !word('{') && !word('}') && !word('>')
  }

  /** A character that means itself, or a placeholder. */
  predicate PlainToken(word: char -> bool, t: Token) {
    match t
    case Lit(c) => c !in META && c != '.'
    case Dot => true
    case Hole(n) => n != "" && forall x :: x in n ==> word(x)
  }

  predicate Plain(word: char -> bool, ts: seq<Token>) {
    forall t :: t in ts ==> PlainToken(word, t)
  }

  lemma PlainParts(word: char -> bool, ts: seq<Token>)
    requires ts != [] && Plain(word, ts)
    ensures PlainToken(word, ts[0]) && Plain(word, ts[1..]) && ts == [ts[0]] + ts[1..]
  {
  }

  function RegexText(ts: seq<Token>): string {
    if ts == [] then ""
    else (match ts[0] case Lit(c) => [c] case Dot => "." case Hole(n) => Group(n)) + RegexText(ts[1..])
  }

  lemma {:induction false} ReplacedIsRegexText(word: char -> bool, p: string)
    ensures Replaced(word, p) == RegexText(Tokens(word, p))
    decreases |p|
  {
    if p != "" {
      match Placeholder(word, p)
      case Some(n) =>
        ReplacedIsRegexText(word, p[n..]);
        assert Tokens(word, p)[1..] == Tokens(word, p[n..]);
      case None =>
        ReplacedIsRegexText(word, p[1..]);
        assert Tokens(word, p)[1..] == Tokens(word, p[1..]);
    }
  }

  lemma ReadGroup(name: string, tail: string)
    requires '>' !in name
    ensures var text := Group(name) + tail;
            && OPEN <= text
            && var rest := text[|OPEN|..]; var n := IndexOf(rest, '>');
            && n == |name| && rest[..n] == name && CLOSE <= rest[n..] && rest[n..][|CLOSE|..] == tail
  {
    var text := Group(name) + tail;
    var rest := text[|OPEN|..];
    assert rest == name + (CLOSE + tail);
    assert rest[|name|] == CLOSE[0] && rest[..|name|] == name;
    FirstOccurrence(rest, '>', |name|);
    assert rest[|name|..] == CLOSE + tail;
  }

  lemma ReadSingle(c: char, tail: string)
    requires c !in META
    ensures ReadItems([c] + tail) == match ReadItems(tail) { case Some(ts) => Some([Single(c)] + ts) case None => None }
  {
    var text := [c] + tail;
    assert text[0] == c && text[1..] == tail;
    assert OPEN[0] in META;
  }

  /** Reading the text of a token list gives the token list back. */
  lemma {:induction false} ReadsBack(word: char -> bool, ts: seq<Token>)
    requires Sane(word) && Plain(word, ts)
    ensures ReadItems(RegexText(ts)) == Some(ts)
  {
    if ts != [] {
      PlainParts(word, ts);
      ReadsBack(word, ts[1..]);
      match ts[0]
      case Lit(c) => ReadSingle(c, RegexText(ts[1..]));
      case Dot => ReadSingle('.', RegexText(ts[1..]));
      case Hole(n) => ReadGroup(n, RegexText(ts[1..]));
    }
  }

  /** The expression made from a plain pattern reads as the pattern's own tokens. */
  lemma RegexDenotesPattern(word: char -> bool, p: string)
    requires Sane(word) && Plain(word, Tokens(word, p))
    ensures ReadRegex(PathToRegex(word, p)) == Some(Tokens(word, p))
  {
    ReplacedIsRegexText(word, p);
    ReadsBack(word, Tokens(word, p));
    var regex := PathToRegex(word, p);
    assert regex[1..|regex| - 1] == Replaced(word, p);
  }

  lemma PlaceholderText(word: char -> bool, p: string)
    requires Placeholder(word, p).Some?
    ensures var n := Placeholder(word, p).value; p == "{" + p[1..n - 1] + "}" + p[n..]
  {
  }

  lemma {:induction false} TokensSpellThePattern(word: char -> bool, p: string)
    ensures Spelled(Tokens(word, p)) == p
    decreases |p|
  {
    if p != "" {
      match Placeholder(word, p)
      case Some(n) =>
        TokensSpellThePattern(word, p[n..]);
        SpelledCons(Hole(p[1..n - 1]), Tokens(word, p[n..]));
        PlaceholderText(word, p);
      case None =>
        TokensSpellThePattern(word, p[1..]);
        SpelledCons(Single(p[0]), Tokens(word, p[1..]));
        assert p == [p[0]] + p[1..];
    }
  }

  lemma SpelledCons(t: Token, ts: seq<Token>)
    ensures Spelled([t] + ts)
         == (match t case Lit(c) => [c] case Dot => "." case Hole(n) => "{" + n + "}") + Spelled(ts)
  {
  }

  lemma WordRunIs(word: char -> bool, s: string, n: nat)
    requires n < |s| && !word(s[n]) && forall i :: 0 <= i < n ==> word(s[i])
    ensures WordRun(word, s) == n
  {
  }

  lemma PlaceholderIs(word: char -> bool, name: string, tail: string)
    requires Sane(word) && name != "" && forall x :: x in name ==> word(x)
    ensures var p := "{" + name + "}" + tail;
            Placeholder(word, p) == Some(|name| + 2) && p[1..|name| + 1] == name && p[|name| + 2..] == tail
  {
    var p := "{" + name + "}" + tail;
    assert p[1..] == name + ("}" + tail);
    assert p[1..][|name|] == '}';
    WordRunIs(word, p[1..], |name|);
  }

  /** A pattern has one reading: whatever tokens spell it are its tokens. */
  lemma {:induction false} ReadingIsUnique(word: char -> bool, ts: seq<Token>)
    requires Sane(word) && Plain(word, ts)
    ensures Tokens(word, Spelled(ts)) == ts
  {
    if ts != [] {
      PlainParts(word, ts);
      ReadingIsUnique(word, ts[1..]);
      match ts[0]
      case Lit(c) =>
        var p := [c] + Spelled(ts[1..]);
        assert p[0] == c && p[1..] == Spelled(ts[1..]);
        assert '{' in META;
      case Dot =>
        var p := "." + Spelled(ts[1..]);
        assert p[0] == '.' && p[1..] == Spelled(ts[1..]);
      case Hole(n) => PlaceholderIs(word, n, Spelled(ts[1..]));
    }
  }

  /** Where a placeholder stands: word characters between braces, one at least. */
  lemma PlaceholderStands(word: char -> bool, p: string)
    requires Sane(word)
    ensures Placeholder(word, p).Some? <==>
              exists k :: 2 <= k < |p| && p[0] == '{' && p[k] == '}' && forall i :: 1 <= i < k ==> word(p[i])
    ensures Placeholder(word, p).Some? ==> forall i :: 1 <= i < Placeholder(word, p).value - 1 ==> word(p[i])
  {
    if k :| 2 <= k < |p| && p[0] == '{' && p[k] == '}' && forall i :: 1 <= i < k ==> word(p[i]) {
      var s := p[1..];
      assert s[k - 1] == '}' && forall i :: 0 <= i < k - 1 ==> s[i] == p[i + 1];
      WordRunIs(word, s, k - 1);
    }
    if Placeholder(word, p).Some? {
      var n, s := Placeholder(word, p).value, p[1..];
      assert forall i :: 1 <= i < n - 1 ==> p[i] == s[i - 1];
      assert p[n - 1] == s[n - 2];
    }
  }

  /** A placeholder becomes a named group of characters other than slashes; what follows is treated alike. */
  lemma PlaceholdersBecomeGroups(word: char -> bool, name: string, rest: string)
    requires Sane(word) && name != "" && forall x :: x in name ==> word(x)
    ensures Replaced(word, "{" + name + "}" + rest) == "(?P<" + name + ">[^/]+)" + Replaced(word, rest)
    ensures Tokens(word, "{" + name + "}" + rest) == [Hole(name)] + Tokens(word, rest)
  {
    PlaceholderIs(word, name, rest);
  }

  /** Every other character stays. */
  lemma OtherCharactersStay(word: char -> bool, p: string)
    requires Sane(word) && p != ""
    requires !exists k :: 2 <= k < |p| && p[0] == '{' && p[k] == '}' && forall i :: 1 <= i < k ==> word(p[i])
    ensures Replaced(word, p) == [p[0]] + Replaced(word, p[1..])
    ensures Tokens(word, p) == [if p[0] == '.' then Dot else Lit(p[0])] + Tokens(word, p[1..])
  {
    PlaceholderStands(word, p);
  }

  /** What `Plain` asks: no metacharacter but the dot outside the placeholders. */
  lemma {:induction false} PlainIff(word: char -> bool, p: string)
    requires Sane(word)
    ensures Plain(word, Tokens(word, p)) <==>
              forall c :: c in "\\^$*+?{}[]|()" ==> Lit(c) !in Tokens(word, p)
    decreases |p|
  {
    TokensAreCharactersOrNames(word, p);
  }

  lemma {:induction false} TokensAreCharactersOrNames(word: char -> bool, p: string)
    requires Sane(word)
    ensures Lit('.') !in Tokens(word, p)
    ensures forall n :: Hole(n) in Tokens(word, p) ==> n != "" && forall x :: x in n ==> word(x)
    decreases |p|
  {
    if p != "" {
      match Placeholder(word, p)
      case Some(n) =>
        PlaceholderStands(word, p);
        TokensAreCharactersOrNames(word, p[n..]);
        assert forall x :: x in p[1..n - 1] ==> word(x);
      case None =>
        TokensAreCharactersOrNames(word, p[1..]);
    }
  }

  // ---------- parameters ----------

  datatype RegexError = RegexError

  function ParamsOf(names: seq<string>, vs: seq<string>): map<string, string>
    requires |vs| == |names| && forall i, j :: 0 <= i < j < |names| ==> names[i] != names[j]
  {
    map i | 0 <= i < |names| :: names[i] := vs[i]
  }

  /** The groups of a match by name, no match, or an ill-formed expression. */
  type Groups = Result<Option<map<string, string>>, RegexError>

  /** re.match; what it makes of expressions of any other kind is up to `engine`. */
  function ReMatch(ident: string -> bool, engine: (string, string) -> Groups, regex: string, path: string): Groups {
    match ReadRegex(regex)
    case None => engine(regex, path)
    case Some(ts) =>
      if !Compiles(ident, Names(ts)) then Failure(RegexError)
      else
        match Match(ts, path)
        case None => Success(None)
        case Some(vs) =>
          MatchSound(ts, path);
          FitsLength(ts, vs, path);
          Success(Some(ParamsOf(Names(ts), vs)))
  }

  /** How many characters the dots stand for. */
  function Dots(ts: seq<Token>): nat {
    if ts == [] then 0 else (if ts[0].Dot? then 1 else 0) + Dots(ts[1..])
  }

  /** The pattern with its placeholders and its dots filled in. */
  function Substituted(ts: seq<Token>, params: map<string, string>, dots: string): string
    requires (forall n :: n in Names(ts) ==> n in params) && |dots| == Dots(ts)
  {
    if ts == [] then ""
    else match ts[0]
         case Lit(c) => [c] + Substituted(ts[1..], params, dots)
         case Dot => [dots[0]] + Substituted(ts[1..], params, dots[1..])
         case Hole(n) => assert n in Names(ts); params[n] + Substituted(ts[1..], params, dots)
  }

  predicate Gives(ts: seq<Token>, params: map<string, string>, dots: string, path: string)
    requires forall n :: n in Names(ts) ==> n in params
  {
    |dots| == Dots(ts) && '\n' !in dots && Substituted(ts, params, dots) == path
  }

  /**
   One non-empty slash-free value for each placeholder; put into the pattern, with some characters but
   newlines for its dots, they give the path.
   */
  ghost predicate Assigns(ts: seq<Token>, params: map<string, string>, path: string) {
    && (forall n :: n in Names(ts) <==> n in params) && (forall n :: n in params ==> params[n] != "" && '/' !in params[n])
    && exists dots :: Gives(ts, params, dots, path)
  }

  /** As the engine sees it: `$` also matches before a final newline. */
  ghost predicate Matches(ts: seq<Token>, params: map<string, string>, path: string) {
    Assigns(ts, params, path)
    || (path != "" && path[|path| - 1] == '\n' && Assigns(ts, params, path[..|path| - 1]))
  }

  function ValuesOf(names: seq<string>, params: map<string, string>): seq<string>
    requires forall n :: n in names ==> n in params
  {
    seq(|names|, i requires 0 <= i < |names| => params[names[i]])
  }

  lemma {:induction false} FitsLength(ts: seq<Token>, vs: seq<string>, s: string)
    requires Fits(ts, vs, s)
    ensures |vs| == |Names(ts)| && forall v :: v in vs ==> Fillable(v)
    decreases |ts|
  {
    if ts != [] {
      match ts[0]
      case Hole(_) => FitsLength(ts[1..], vs[1..], s[|vs[0]|..]); assert vs == [vs[0]] + vs[1..];
      case _ => FitsLength(ts[1..], vs, s[1..]);
    }
  }

  lemma ValuesOfHole(ts: seq<Token>, params: map<string, string>)
    requires ts != [] && ts[0].Hole? && forall n :: n in Names(ts) ==> n in params
    ensures Names(ts)[1..] == Names(ts[1..]) && ts[0].name in params && (forall n :: n in Names(ts[1..]) ==> n in params)
    ensures ValuesOf(Names(ts), params) == [params[ts[0].name]] + ValuesOf(Names(ts[1..]), params)
  {
    assert Names(ts)[0] in Names(ts);
    assert forall n :: n in Names(ts)[1..] ==> n in Names(ts);
  }

  /** Values that fit the path give it when substituted, up to one newline at its end. */
  lemma {:induction false} FittingSubstitutes(ts: seq<Token>, params: map<string, string>, s: string) returns (dots: string)
    requires (forall n :: n in Names(ts) ==> n in params) && Fits(ts, ValuesOf(Names(ts), params), s)
    ensures |dots| == Dots(ts) && '\n' !in dots
    ensures Substituted(ts, params, dots) == s || Substituted(ts, params, dots) + "\n" == s
    decreases |ts|
  {
    dots := "";
    if ts != [] {
      match ts[0]
      case Lit(c) =>
        dots := FittingSubstitutes(ts[1..], params, s[1..]);
        GlueFront([c], Substituted(ts[1..], params, dots), s);
      case Dot =>
        var rest := FittingSubstitutes(ts[1..], params, s[1..]);
        dots := [s[0]] + rest;
        assert dots[1..] == rest;
        GlueFront([s[0]], Substituted(ts[1..], params, rest), s);
      case Hole(n) =>
        ValuesOfHole(ts, params);
        dots := FittingSubstitutes(ts[1..], params, s[|params[n]|..]);
        GlueFront(params[n], Substituted(ts[1..], params, dots), s);
    }
  }

  lemma GlueFront(front: string, back: string, s: string)
    requires front <= s && (back == s[|front|..] || back + "\n" == s[|front|..])
    ensures front + back == s || front + back + "\n" == s
  {
    assert s == front + s[|front|..];
  }

  lemma {:induction false} SubstitutingFits(ts: seq<Token>, params: map<string, string>, dots: string, tail: string)
    requires (forall n :: n in Names(ts) ==> n in params && Fillable(params[n])) && (tail == "" || tail == "\n")
    requires |dots| == Dots(ts) && '\n' !in dots
    ensures Fits(ts, ValuesOf(Names(ts), params), Substituted(ts, params, dots) + tail)
    decreases |ts|
  {
    if ts != [] {
      match ts[0]
      case Lit(c) =>
        SubstitutingFits(ts[1..], params, dots, tail);
        DropFront([c], Substituted(ts[1..], params, dots), tail);
      case Dot =>
        SubstitutingFits(ts[1..], params, dots[1..], tail);
        DropFront([dots[0]], Substituted(ts[1..], params, dots[1..]), tail);
      case Hole(n) =>
        ValuesOfHole(ts, params);
        SubstitutingFits(ts[1..], params, dots, tail);
        DropFront(params[n], Substituted(ts[1..], params, dots), tail);
    }
  }

  lemma DropFront(front: string, back: string, tail: string)
    ensures front <= front + back + tail && (front + back + tail)[|front|..] == back + tail
  {
  }

  lemma NamedValues(names: seq<string>, vs: seq<string>)
    requires |vs| == |names| && forall i, j :: 0 <= i < j < |names| ==> names[i] != names[j]
    ensures var params := ParamsOf(names, vs);
            && ValuesOf(names, params) == vs && (forall n :: n in names <==> n in params)
            && (forall n :: n in params ==> params[n] in vs)
  {
  }

  /** The engine's values, by name, substituted into the pattern give the path. */
  lemma FitsMatches(ts: seq<Token>, vs: seq<string>, path: string)
    requires Fits(ts, vs, path) && forall i, j :: 0 <= i < j < |Names(ts)| ==> Names(ts)[i] != Names(ts)[j]
    ensures |vs| == |Names(ts)| && Matches(ts, ParamsOf(Names(ts), vs), path)
  {
    FitsLength(ts, vs, path);
    NamedValues(Names(ts), vs);
    var params := ParamsOf(Names(ts), vs);
    var dots := FittingSubstitutes(ts, params, path);
    GivenMatches(ts, params, dots, path);
  }

  lemma GivenMatches(ts: seq<Token>, params: map<string, string>, dots: string, path: string)
    requires (forall n :: n in Names(ts) <==> n in params) && (forall n :: n in params ==> Fillable(params[n]))
    requires |dots| == Dots(ts) && '\n' !in dots
    requires Substituted(ts, params, dots) == path || Substituted(ts, params, dots) + "\n" == path
    ensures Matches(ts, params, path)
  {
    var f := Substituted(ts, params, dots);
    assert Gives(ts, params, dots, f);
    assert (f + "\n")[..|f + "\n"| - 1] == f;
  }

  lemma AssignsFits(ts: seq<Token>, params: map<string, string>, path: string, tail: string)
    requires Assigns(ts, params, path) && (tail == "" || tail == "\n")
    ensures Fits(ts, ValuesOf(Names(ts), params), path + tail)
  {
    var dots :| Gives(ts, params, dots, path);
    SubstitutingFits(ts, params, dots, tail);
  }

  lemma MatchesFits(ts: seq<Token>, params: map<string, string>, path: string)
    requires Matches(ts, params, path)
    ensures Fits(ts, ValuesOf(Names(ts), params), path)
  {
    if Assigns(ts, params, path) {
      AssignsFits(ts, params, path, "");
      assert path + "" == path;
    } else {
      AssignsFits(ts, params, path[..|path| - 1], "\n");
      assert path[..|path| - 1] + "\n" == path;
    }
  }

  /** Matching an expression that reads as these tokens is sound and complete for substitution into them. */
  lemma ExpressionMatchesIff(ident: string -> bool, engine: (string, string) -> Groups, regex: string, ts: seq<Token>,
                             path: string)
    requires ReadRegex(regex) == Some(ts)
    ensures var r := ReMatch(ident, engine, regex, path);
            && (r.Failure? <==> !Compiles(ident, Names(ts)))
            && (r.Success? ==> (r.value.Some? <==> exists params :: Matches(ts, params, path)))
            && (r.Success? && r.value.Some? ==> Matches(ts, r.value.value, path))
  {
    MatchSound(ts, path);
    if Compiles(ident, Names(ts)) {
      if Match(ts, path).Some? { FitsMatches(ts, Match(ts, path).value, path); }
      if params :| Matches(ts, params, path) {
        MatchesFits(ts, params, path);
        MatchComplete(ts, path, ValuesOf(Names(ts), params));
      }
    }
  }

  /**
   Matching is sound and complete: the expression made from a plain pattern with good names matches a path
   if and only if some assignment to the placeholders does, and what is returned is such an assignment.
   On paths without newlines that is plain substitution.
   */
  lemma RouteMatchesIff(word: char -> bool, ident: string -> bool, engine: (string, string) -> Groups,
                        p: string, path: string)
    requires Sane(word) && Plain(word, Tokens(word, p))
    ensures var ts := Tokens(word, p); var r := ReMatch(ident, engine, PathToRegex(word, p), path);
            && (r.Failure? <==> !Compiles(ident, Names(ts)))
            && (r.Success? ==> (r.value.Some? <==> exists params :: Matches(ts, params, path)))
            && (r.Success? && r.value.Some? ==> Matches(ts, r.value.value, path))
            && ('\n' !in path ==> forall params :: Matches(ts, params, path) <==> Assigns(ts, params, path))
  {
    RegexDenotesPattern(word, p);
    ExpressionMatchesIff(ident, engine, PathToRegex(word, p), Tokens(word, p), path);
  }

  // ---------- a route with one placeholder, spelled out ----------

  function Letters(s: string): seq<Token> {
    seq(|s|, i requires 0 <= i < |s| => Lit(s[i]))
  }

  lemma Regroup<T>(a: seq<T>, b: seq<T>, c: seq<T>)
    ensures a + (b + c) == a + b + c
  {
  }

  lemma LettersSplit(c: char, s: string)
    ensures Letters([c] + s) == [Lit(c)] + Letters(s)
  {
  }

  lemma LetterFirst(c: char, ts: seq<Token>, params: map<string, string>)
    requires Dots(ts) == 0 && forall n :: n in Names(ts) ==> n in params
    ensures var us := [Lit(c)] + ts;
            && Spelled(us) == [c] + Spelled(ts) && Names(us) == Names(ts) && Dots(us) == 0
            && Substituted(us, params, "") == [c] + Substituted(ts, params, "")
  {
    assert ([Lit(c)] + ts)[1..] == ts;
  }

  /** Plain letters spell, name and substitute to themselves. */
  lemma {:induction false} LettersFirst(a: string, ts: seq<Token>, params: map<string, string>)
    requires Dots(ts) == 0 && forall n :: n in Names(ts) ==> n in params
    ensures Spelled(Letters(a) + ts) == a + Spelled(ts)
    ensures Names(Letters(a) + ts) == Names(ts) && Dots(Letters(a) + ts) == 0
    ensures Substituted(Letters(a) + ts, params, "") == a + Substituted(ts, params, "")
  {
    if a == "" {
      assert Letters(a) + ts == ts;
    } else {
      LettersFirst(a[1..], ts, params);
      var c, rest := a[0], a[1..];
      assert a == [c] + rest;
      LettersSplit(c, rest);
      LetterFirst(c, Letters(rest) + ts, params);
      Regroup([Lit(c)], Letters(rest), ts);
      Regroup([c], rest, Spelled(ts));
      Regroup([c], rest, Substituted(ts, params, ""));
    }
  }

  function OneHole(a: string, n: string, b: string): seq<Token> {
    Letters(a) + ([Hole(n)] + (Letters(b) + []))
  }

  lemma OneHoleReads(a: string, n: string, b: string, v: string)
    ensures Spelled(OneHole(a, n, b)) == a + "{" + n + "}" + b
    ensures Names(OneHole(a, n, b)) == [n] && Dots(OneHole(a, n, b)) == 0
    ensures Substituted(OneHole(a, n, b), map[n := v], "") == a + v + b
  {
    var params := map[n := v];
    LettersFirst(b, [], params);
    var tail := Letters(b) + [];
    SpelledCons(Hole(n), tail);
    assert ([Hole(n)] + tail)[1..] == tail;
    LettersFirst(a, [Hole(n)] + tail, params);
    assert a + ("{" + n + "}" + (b + "")) == a + "{" + n + "}" + b;
    assert a + (v + (b + "")) == a + v + b;
  }

  lemma OneHoleTokens(word: char -> bool, a: string, n: string, b: string)
    requires Sane(word) && n != "" && forall x :: x in n ==> word(x)
    requires forall c :: c in a || c in b ==> c !in "\\^$*+?{}[]|()" && c != '.'
    ensures Tokens(word, a + "{" + n + "}" + b) == OneHole(a, n, b) && Plain(word, OneHole(a, n, b))
  {
    OneHoleReads(a, n, b, "");
    var ts := OneHole(a, n, b);
    forall t | t in ts ensures PlainToken(word, t) {
      assert t in Letters(a) || t == Hole(n) || t in Letters(b);
    }
    ReadingIsUnique(word, ts);
  }

  lemma OneHoleMatches(a: string, n: string, b: string, params: map<string, string>, path: string)
    requires '\n' !in path
    ensures Matches(OneHole(a, n, b), params, path) <==>
              exists v :: v != "" && '/' !in v && path == a + v + b && params == map[n := v]
  {
    var ts := OneHole(a, n, b);
    OneHoleReads(a, n, b, "");
    if Matches(ts, params, path) {
      var dots :| Gives(ts, params, dots, path);
      assert dots == "" && n in Names(ts);
      assert params == map[n := params[n]];
      OneHoleReads(a, n, b, params[n]);
    }
    if v :| v != "" && '/' !in v && path == a + v + b && params == map[n := v] {
      OneHoleReads(a, n, b, v);
      assert Gives(ts, params, "", path);
    }
  }

  lemma SameMiddle(a: string, v: string, u: string, b: string)
    requires a + v + b == a + u + b
    ensures v == u
  {
    assert |v| == |u|;
    assert v == (a + v + b)[|a|..][..|v|] && u == (a + u + b)[|a|..][..|u|];
  }

  /**
   From the pattern's text to the answer: `a{n}b` matches the paths a, v, b for a non-empty v without a
   slash, and answers n with v.
   */
  lemma OnePlaceholderRoute(word: char -> bool, ident: string -> bool, engine: (string, string) -> Groups,
                            a: string, n: string, b: string, path: string)
    requires Sane(word) && n != "" && (forall x :: x in n ==> word(x)) && ident(n) && '\n' !in path
    requires forall c :: c in a || c in b ==> c !in "\\^$*+?{}[]|()" && c != '.'
    ensures var r := ReMatch(ident, engine, PathToRegex(word, a + "{" + n + "}" + b), path);
            && r.Success?
            && (forall v :: v != "" && '/' !in v && path == a + v + b ==> r.value == Some(map[n := v]))
            && (r.value.Some? ==> exists v :: v != "" && '/' !in v && path == a + v + b)
  {
    var p := a + "{" + n + "}" + b;
    var ts := OneHole(a, n, b);
    OneHoleTokens(word, a, n, b);
    OneHoleReads(a, n, b, "");
    RouteMatchesIff(word, ident, engine, p, path);
    var r := ReMatch(ident, engine, PathToRegex(word, p), path);
    if r.value.Some? { OneHoleMatches(a, n, b, r.value.value, path); }
    forall v | v != "" && '/' !in v && path == a + v + b ensures r.value == Some(map[n := v]) {
      OneHoleMatches(a, n, b, map[n := v], path);
      assert Matches(ts, map[n := v], path);
      var u :| u != "" && '/' !in u && path == a + u + b && r.value.value == map[n := u];
      SameMiddle(a, v, u, b);
    }
  }

  /** Every placeholder ends its path segment. */
  predicate Segmental(ts: seq<Token>) {
    ts == [] || ((ts[0].Hole? && |ts| > 1 ==> ts[1] == Lit('/')) && Segmental(ts[1..]))
  }

  /** Then the parameters are no matter of priority: a path without newlines fits in one way at most. */
  lemma {:induction false} SegmentalFitsOneWay(ts: seq<Token>, vs: seq<string>, us: seq<string>, s: string)
    requires Segmental(ts) && Fits(ts, vs, s) && Fits(ts, us, s) && '\n' !in s
    ensures vs == us
    decreases |ts|
  {
    if ts == [] {
    } else if ts[0].Hole? {
      HoleEndsAtTheSlash(ts, vs, s);
      HoleEndsAtTheSlash(ts, us, s);
      SegmentalFitsOneWay(ts[1..], vs[1..], us[1..], s[|vs[0]|..]);
      assert vs == [vs[0]] + vs[1..] && us == [us[0]] + us[1..];
    } else {
      SegmentalFitsOneWay(ts[1..], vs, us, s[1..]);
    }
  }

  lemma NewlineInTail(s: string, k: nat)
    requires k <= |s| && s[k..] == "\n"
    ensures '\n' in s
  {
    assert s[k] == s[k..][0];
  }

  lemma HoleEndsAtTheSlash(ts: seq<Token>, vs: seq<string>, s: string)
    requires Segmental(ts) && ts != [] && ts[0].Hole? && Fits(ts, vs, s) && '\n' !in s
    ensures vs != [] && vs[0] == s[..SlashFreeRun(s)]
  {
    var rest := s[|vs[0]|..];
    if |ts| > 1 {
      assert rest[0] == '/';
      FirstOccurrence(s, '/', |vs[0]|);
    } else {
      if rest == "\n" { NewlineInTail(s, |vs[0]|); }
      assert s == vs[0] + rest;
    }
  }

  // ---------- routes ----------

  type Config = map<string, string>

  /** New routes name their function; old ones carry its settings. */
  datatype FunctionRef = Named(name: string) | Inline(settings: Config)

  datatype Route = Route(path: string, httpMethod: string, serves: FunctionRef)

  datatype Resolution = Resolution(
    target: Option<string>, params: map<string, string>, routePath: Option<string>, config: Config)

  /** The routing file as found. */
  datatype File = Missing | Unreadable | Loaded(routes: seq<Route>)

  /** What comes from the host: Unicode tables, the rest of the regular expressions, the functions' settings. */
  datatype Host = Host(
    word: char -> bool, ident: string -> bool, upper: string -> string, engine: (string, string) -> Groups,
    registry: map<string, Config>)

  predicate Sound(h: Host, r: Route) {
    Compiles(h.ident, Names(Tokens(h.word, r.path)))
  }

  predicate PlainRoute(h: Host, r: Route) {
    Plain(h.word, Tokens(h.word, r.path))
  }

  function Matched(h: Host, r: Route, path: string): Groups {
    ReMatch(h.ident, h.engine, PathToRegex(h.word, r.path), path)
  }

  /** The route's pattern matches the path with these parameters: by substitution, if the pattern is plain. */
  ghost predicate Fitting(h: Host, r: Route, path: string, params: map<string, string>) {
    if PlainRoute(h, r) then Sound(h, r) && Matches(Tokens(h.word, r.path), params, path)
    else Matched(h, r, path) == Success(Some(params))
  }

  /** The route's pattern is no regular expression. */
  predicate Broken(h: Host, r: Route, path: string) {
    if PlainRoute(h, r) then !Sound(h, r) else Matched(h, r, path).Failure?
  }

  /** The request passes this route by: its method is another, or its pattern fits with no parameters. */
  ghost predicate Passes(h: Host, r: Route, path: string, httpMethod: string) {
    || h.upper(httpMethod) != h.upper(r.httpMethod)
    || (!Broken(h, r, path) && forall params :: !Fitting(h, r, path, params))
  }

  lemma MatchedMeans(h: Host, r: Route, path: string)
    requires Sane(h.word)
    ensures Matched(h, r, path).Failure? <==> Broken(h, r, path)
    ensures Matched(h, r, path) == Success(None) <==> !Broken(h, r, path) && forall params :: !Fitting(h, r, path, params)
    ensures Matched(h, r, path).Success? && Matched(h, r, path).value.Some? ==>
              Fitting(h, r, path, Matched(h, r, path).value.value)
  {
    var m := Matched(h, r, path);
    if PlainRoute(h, r) {
      RouteMatchesIff(h.word, h.ident, h.engine, r.path, path);
      assert forall params :: Fitting(h, r, path, params) <==> Sound(h, r) && Matches(Tokens(h.word, r.path), params, path);
    } else if m.Success? && m.value.Some? {
      assert Fitting(h, r, path, m.value.value);
    }
  }

  /** One turn of the scan. */
  method TryRoute(h: Host, route: Route, path: string, httpMethod: string)
      returns (r: Result<Option<Resolution>, RegexError>)
    requires Sane(h.word)
    ensures r == Success(None) <==> Passes(h, route, path, httpMethod)
    ensures r.Success? && r.value.Some? ==>
              var found := r.value.value;
              && h.upper(httpMethod) == h.upper(route.httpMethod)
              && Fitting(h, route, path, found.params)
              && found.routePath == Some(route.path)
              && (match route.serves
                  case Named(n) =>
                    && found.target == Some(n)
                    && found.config == (if n in h.registry then h.registry[n] else map[])
                  case Inline(c) =>
                    && found.target == Some(if "container" in c then c["container"] else "")
                    && found.config == c)
    ensures r.Failure? <==> h.upper(httpMethod) == h.upper(route.httpMethod) && Broken(h, route, path)
  {
    if h.upper(httpMethod) != h.upper(route.httpMethod) { return Success(None); }
    MatchedMeans(h, route, path);
    var m := ReMatch(h.ident, h.engine, PathToRegex(h.word, route.path), path);
    if m.Failure? { return Failure(m.error); }
    if m.value.None? { return Success(None); }
    var target: string, config: Config;
    match route.serves {
      case Named(n) =>
        target := n;
        config := if n in h.registry then h.registry[n] else map[];
      case Inline(c) =>
        target := if "container" in c then c["container"] else "";
        config := c;
    }
    return Success(Some(Resolution(Some(target), m.value.value, Some(route.path), config)));
  }

  class RouteMatcher {
    const host: Host
    var routingConfig: seq<Route>

    constructor (host: Host)
      ensures this.host == host && routingConfig == []
    {
      this.host := host;
      routingConfig := [];
    }

    method LoadRoutingConfig(file: File)
      modifies this
      ensures routingConfig == if file.Loaded? then file.routes else []
    {
      match file
      case Loaded(routes) => routingConfig := routes;
      case _ => routingConfig := [];
    }

    /**
     The first route in list order that has the request's method and matches its path, at index `at`. An
     ill-formed pattern raises when the scan reaches it, and only then.
     */
    method MatchRoute(path: string, httpMethod: string, file: File)
        returns (r: Result<Resolution, RegexError>, ghost at: nat)
      requires Sane(host.word)
      modifies this
      ensures routingConfig == if old(routingConfig) != [] then old(routingConfig)
                               else if file.Loaded? then file.routes else []
      ensures at <= |routingConfig| && forall i :: 0 <= i < at ==> Passes(host, routingConfig[i], path, httpMethod)
      ensures at == |routingConfig| ==> r == Success(Resolution(None, map[], None, map[]))
      ensures at < |routingConfig| ==>
                var route := routingConfig[at];
                && host.upper(httpMethod) == host.upper(route.httpMethod)
                && (r.Failure? <==> Broken(host, route, path))
                && (r.Success? ==>
                      && Fitting(host, route, path, r.value.params)
                      && r.value.routePath == Some(route.path)
                      && (match route.serves
                          case Named(n) =>
                            && r.value.target == Some(n)
                            && r.value.config == (if n in host.registry then host.registry[n] else map[])
                          case Inline(c) =>
                            && r.value.target == Some(if "container" in c then c["container"] else "")
                            && r.value.config == c))
    {
      if routingConfig == [] { LoadRoutingConfig(file); }
      var routes := routingConfig;
      at := 0;
      var k := 0;
      while k < |routes|
        invariant 0 <= at == k <= |routes| && routingConfig == routes
        invariant forall i :: 0 <= i < k ==> Passes(host, routes[i], path, httpMethod)
      {
        var m := TryRoute(host, routes[k], path, httpMethod);
        if m.Failure? { return Failure(m.error), k; }
        if m.value.Some? { return Success(m.value.value), k; }
        k := k + 1;
        at := k;
      }
      return Success(Resolution(None, map[], None, map[])), k;
    }
  }
}
