/** Task search: the query is escaped in three passes and put between two wildcards of a LIKE pattern. */
module LikeSearch {
  import opened Prelude
  import opened Text

  predicate Special(c: char) {
    c == '\\' || c == '%' || c == '_'
  }

  predicate Plain(q: string) {
    forall i :: 0 <= i < |q| ==> !Special(q[i])
  }

  // -------------------------------------------------------------- the LIKE matcher

  /** A pattern read from left to right: any text, any one character, or that character. */
  datatype Token = AnyText | AnyChar | Lit(c: char)

  function Wildcard(c: char): Token {
    if c == '%' then AnyText else if c == '_' then AnyChar else Lit(c)
  }

  /** A backslash takes the character after it literally; a pattern must not end with one. */
  function Tokens(p: string): Option<seq<Token>> {
    if p == [] then Some([])
    else if p[0] != '\\' then Before(Wildcard(p[0]), Tokens(p[1..]))
    else if |p| == 1 then None
    else Before(Lit(p[1]), Tokens(p[2..]))
  }

  function Before(t: Token, ts: Option<seq<Token>>): Option<seq<Token>> {
    if ts.None? then None else Some([t] + ts.value)
  }

  predicate Match(s: string, ts: seq<Token>)
    decreases |s| + |ts|
  {
    if ts == [] then s == []
    else match ts[0]
      case AnyText => Match(s, ts[1..]) || (s != [] && Match(s[1..], ts))
      case AnyChar => s != [] && Match(s[1..], ts[1..])
      case Lit(c) => s != [] && s[0] == c && Match(s[1..], ts[1..])
  }

  function Like(s: string, p: string): Option<bool> {
    match Tokens(p)
    case Some(ts) => Some(Match(s, ts))
    case None => None
  }

  predicate Fits(piece: string, t: Token) {
    match t
    case AnyText => true
    case AnyChar => |piece| == 1
    case Lit(c) => piece == [c]
  }

  function Joined(pieces: seq<string>): string {
    if pieces == [] then [] else pieces[0] + Joined(pieces[1..])
  }

  /** What a match means: the text splits into one piece per token, and every piece fits. */
  ghost predicate Splits(s: string, ts: seq<Token>) {
    exists pieces: seq<string> :: IsSplit(s, ts, pieces)
  }

  predicate IsSplit(s: string, ts: seq<Token>, pieces: seq<string>) {
    |pieces| == |ts| && Joined(pieces) == s && forall i :: 0 <= i < |ts| ==> Fits(pieces[i], ts[i])
  }

  lemma {:induction false} AnyTextTakesAPrefix(s: string, ts: seq<Token>)
    ensures Match(s, [AnyText] + ts) <==> exists i :: 0 <= i <= |s| && Match(s[i..], ts)
  {
    assert ([AnyText] + ts)[1..] == ts;
    assert s[0..] == s;
    if s == [] {
    } else {
      AnyTextTakesAPrefix(s[1..], ts);
      assert forall i :: 0 <= i <= |s[1..]| ==> s[1..][i..] == s[i + 1..];
      assert forall i :: 1 <= i <= |s| ==> s[i..] == s[1..][i - 1..];
    }
  }

  lemma {:induction false} MatchSplits(s: string, ts: seq<Token>) returns (pieces: seq<string>)
    requires Match(s, ts)
    ensures IsSplit(s, ts, pieces)
    decreases |ts|
  {
    if ts == [] {
      pieces := [];
    } else {
      var n := 1;
      if ts[0] == AnyText {
        assert [AnyText] + ts[1..] == ts;
        AnyTextTakesAPrefix(s, ts[1..]);
        n :| 0 <= n <= |s| && Match(s[n..], ts[1..]);
      }
      var rest := MatchSplits(s[n..], ts[1..]);
      pieces := [s[..n]] + rest;
      assert pieces[1..] == rest;
      assert s[..n] + s[n..] == s;
    }
  }

  lemma {:induction false} SplitMatches(s: string, ts: seq<Token>, pieces: seq<string>)
    requires IsSplit(s, ts, pieces)
    ensures Match(s, ts)
    decreases |ts|
  {
    if ts != [] {
      var rest := s[|pieces[0]|..];
      assert rest == Joined(pieces[1..]);
      assert Fits(pieces[0], ts[0]);
      SplitMatches(rest, ts[1..], pieces[1..]);
      if ts[0] == AnyText {
        assert [AnyText] + ts[1..] == ts;
        AnyTextTakesAPrefix(s, ts[1..]);
      }
    }
  }

  lemma {:induction false} MatchMeansSplits(s: string, ts: seq<Token>)
    ensures Match(s, ts) <==> Splits(s, ts)
  {
    if Match(s, ts) {
      var pieces := MatchSplits(s, ts);
    }
    if Splits(s, ts) {
      var pieces :| IsSplit(s, ts, pieces);
      SplitMatches(s, ts, pieces);
    }
  }

  // ---------------------------------------------------------------------- escaping

  function ReplaceAll(s: string, c: char, sub: string): string {
    if s == [] then [] else (if s[0] == c then sub else [s[0]]) + ReplaceAll(s[1..], c, sub)
  }

  function Sanitize(q: string): string {
    ReplaceAll(ReplaceAll(ReplaceAll(q, '\\', "\\\\"), '%', "\\%"), '_', "\\_")
  }

  function Escaped(c: char): string {
    if Special(c) then ['\\', c] else [c]
  }

  function Escape(q: string): string {
    if q == [] then [] else Escaped(q[0]) + Escape(q[1..])
  }

  function Surround(q: string): string {
    "%" + q + "%"
  }

  lemma {:induction false} ReplaceAllSplits(s: string, t: string, c: char, sub: string)
    ensures ReplaceAll(s + t, c, sub) == ReplaceAll(s, c, sub) + ReplaceAll(t, c, sub)
  {
    if s == [] {
      assert s + t == t;
    } else {
      assert (s + t)[1..] == s[1..] + t;
      ReplaceAllSplits(s[1..], t, c, sub);
    }
  }

  lemma ReplaceAllOne(c: char, d: char, sub: string)
    ensures ReplaceAll([d], c, sub) == if c == d then sub else [d]
  {
    assert ReplaceAll([], c, sub) == [];
    assert [d][1..] == [];
  }

  lemma EscapedInThreePasses(c: char)
    ensures Sanitize([c]) == Escaped(c)
  {
    ReplaceAllOne('\\', c, "\\\\");
    var once := if c == '\\' then "\\\\" else [c];
    assert "\\\\" == ['\\'] + ['\\'] && "\\%" == ['\\'] + ['%'];
    ReplaceAllOne('%', '\\', "\\%");
    ReplaceAllOne('_', '\\', "\\_");
    ReplaceAllOne('%', c, "\\%");
    ReplaceAllOne('_', c, "\\_");
    ReplaceAllSplits(['\\'], ['\\'], '%', "\\%");
    ReplaceAllSplits(['\\'], ['\\'], '_', "\\_");
    ReplaceAllSplits(['\\'], ['%'], '_', "\\_");
    ReplaceAllOne('_', '%', "\\_");
  }

  lemma SanitizeSplits(s: string, t: string)
    ensures Sanitize(s + t) == Sanitize(s) + Sanitize(t)
  {
    ReplaceAllSplits(s, t, '\\', "\\\\");
    var s1, t1 := ReplaceAll(s, '\\', "\\\\"), ReplaceAll(t, '\\', "\\\\");
    ReplaceAllSplits(s1, t1, '%', "\\%");
    ReplaceAllSplits(ReplaceAll(s1, '%', "\\%"), ReplaceAll(t1, '%', "\\%"), '_', "\\_");
  }

  /** No pass touches what another one wrote: together they escape every special character once. */
  lemma {:induction false} ThreePassesEscapeOnce(q: string)
    ensures Sanitize(q) == Escape(q)
  {
    if q != [] {
      ThreePassesEscapeOnce(q[1..]);
      EscapedInThreePasses(q[0]);
      assert [q[0]] + q[1..] == q;
      SanitizeSplits([q[0]], q[1..]);
    }
  }

  // ------------------------------------------------------- the escaped query is literal

  predicate OccursIn(q: string, s: string) {
    exists i :: 0 <= i <= |s| && q <= s[i..]
  }

  function Lits(q: string): seq<Token> {
    seq(|q|, i requires 0 <= i < |q| => Lit(q[i]))
  }

  lemma EscapedReadsAsLit(c: char, rest: string)
    ensures Tokens(Escaped(c) + rest) == Before(Lit(c), Tokens(rest))
  {
    var p := Escaped(c) + rest;
    if Special(c) {
      assert p[2..] == rest;
    } else {
      assert p[1..] == rest;
    }
  }

  lemma {:induction false} EscapedReadsAsLits(q: string, rest: string)
    requires Tokens(rest).Some?
    ensures Tokens(Escape(q) + rest) == Some(Lits(q) + Tokens(rest).value)
  {
    var ts := Tokens(rest).value;
    if q == [] {
      assert Escape(q) + rest == rest;
      assert Lits(q) + ts == ts;
    } else {
      EscapedReadsAsLits(q[1..], rest);
      EscapedReadsAsLit(q[0], Escape(q[1..]) + rest);
      assert Escape(q) + rest == Escaped(q[0]) + (Escape(q[1..]) + rest);
      assert Lits(q) + ts == [Lit(q[0])] + (Lits(q[1..]) + ts);
    }
  }

  lemma LastWildcard()
    ensures Tokens("%") == Some([AnyText])
  {
    assert "%"[1..] == "";
    assert Tokens("") == Some([]);
    assert [AnyText] + [] == [AnyText];
  }

  lemma {:induction false} LitsMatchAPrefix(s: string, q: string, ts: seq<Token>)
    ensures Match(s, Lits(q) + ts) <==> q <= s && Match(s[|q|..], ts)
  {
    if q == [] {
      assert Lits(q) + ts == ts;
      assert s[0..] == s;
    } else {
      assert Lits(q) == [Lit(q[0])] + Lits(q[1..]);
      assert (Lits(q) + ts)[1..] == Lits(q[1..]) + ts;
      if s != [] {
        LitsMatchAPrefix(s[1..], q[1..], ts);
        assert q <= s <==> q[0] == s[0] && q[1..] <= s[1..];
        assert q <= s ==> s[1..][|q[1..]|..] == s[|q|..];
      }
    }
  }

  /** For every text and every query: the escaped pattern matches the text exactly when the query stands in it. */
  lemma {:induction false} EscapedSearchIsLiteral(s: string, q: string)
    ensures Like(s, Surround(Sanitize(q))) == Some(OccursIn(q, s))
  {
    ThreePassesEscapeOnce(q);
    LastWildcard();
    EscapedReadsAsLits(q, "%");
    assert Surround(Escape(q)) == "%" + (Escape(q) + "%");
    assert Surround(Escape(q))[1..] == Escape(q) + "%";
    assert Tokens(Surround(Escape(q))) == Some([AnyText] + (Lits(q) + [AnyText]));
    AnyTextTakesAPrefix(s, Lits(q) + [AnyText]);
    forall i | 0 <= i <= |s| ensures Match(s[i..], Lits(q) + [AnyText]) <==> q <= s[i..] {
      LitsMatchAPrefix(s[i..], q, [AnyText]);
      if q <= s[i..] {
        TextMatchesAny(s[i..][|q|..]);
      }
    }
  }

  lemma {:induction false} TextMatchesAny(s: string)
    ensures Match(s, [AnyText])
  {
    AnyTextTakesAPrefix(s, []);
    assert s[|s|..] == [];
    assert [AnyText] + [] == [AnyText];
  }

  // --------------------------------------------------------------------- the search

  /** A case folding, made to keep the three special characters apart from all others. */
  function LowerChar(fold: char -> char, c: char): char {
    if Special(c) || Special(fold(c)) then c else fold(c)
  }

  function Lower(fold: char -> char, s: string): string {
    if s == [] then [] else [LowerChar(fold, s[0])] + Lower(fold, s[1..])
  }

  /** Lower case is one character for one, by the folding given wherever that keeps clear of the special characters. */
  lemma {:induction false} LowerFoldsEachCharacter(fold: char -> char, s: string)
    ensures |Lower(fold, s)| == |s|
    ensures forall i :: 0 <= i < |s| && !Special(s[i]) && !Special(fold(s[i])) ==> Lower(fold, s)[i] == fold(s[i])
    ensures forall i :: 0 <= i < |s| && (Special(s[i]) || Special(fold(s[i]))) ==> Lower(fold, s)[i] == s[i]
  {
    if s != [] {
      LowerFoldsEachCharacter(fold, s[1..]);
    }
  }

  function Ilike(fold: char -> char, s: string, p: string): Option<bool> {
    Like(Lower(fold, s), Lower(fold, p))
  }

  datatype Task = Task(projectId: Uuid, isClientVisible: bool, title: string, description: Option<string>)

  datatype Search = Search(projectId: Uuid, q: string, isClientVisible: Option<bool>)

  predicate Matches(fold: char -> char, s: string, q: string) {
    Ilike(fold, s, Surround(Sanitize(Trim(q)))) == Some(true)
  }

  /** The filter of the query; a comparison with an absent description is not true. */
  predicate Selected(fold: char -> char, t: Task, opts: Search) {
    && t.projectId == opts.projectId
    && (opts.isClientVisible.Some? ==> t.isClientVisible == opts.isClientVisible.value)
    && (Matches(fold, t.title, opts.q) || (t.description.Some? && Matches(fold, t.description.value, opts.q)))
  }

  predicate Contains(fold: char -> char, s: string, q: string) {
    OccursIn(Lower(fold, Trim(q)), Lower(fold, s))
  }

  lemma {:induction false} LowerSplits(fold: char -> char, s: string, t: string)
    ensures Lower(fold, s + t) == Lower(fold, s) + Lower(fold, t)
  {
    if s == [] {
      assert s + t == t;
    } else {
      assert (s + t)[1..] == s[1..] + t;
      LowerSplits(fold, s[1..], t);
    }
  }

  lemma {:induction false} LowerKeepsEscapes(fold: char -> char, q: string)
    ensures Lower(fold, Escape(q)) == Escape(Lower(fold, q))
  {
    if q != [] {
      LowerKeepsEscapes(fold, q[1..]);
      LowerSplits(fold, Escaped(q[0]), Escape(q[1..]));
      assert Lower(fold, []) == [];
      assert [q[0]][1..] == [] && ['\\', q[0]][1..] == [q[0]];
      assert Lower(fold, [q[0]]) == [LowerChar(fold, q[0])];
      assert Lower(fold, Escaped(q[0])) == Escaped(LowerChar(fold, q[0]));
      assert Lower(fold, q)[1..] == Lower(fold, q[1..]);
    }
  }

  lemma {:induction false} CaseBlindSearchIsLiteral(fold: char -> char, s: string, q: string)
    ensures Ilike(fold, s, Surround(Sanitize(q))) == Some(OccursIn(Lower(fold, q), Lower(fold, s)))
  {
    var folded := Lower(fold, q);
    ThreePassesEscapeOnce(q);
    ThreePassesEscapeOnce(folded);
    LowerKeepsEscapes(fold, q);
    assert Lower(fold, "") == "" && "%"[1..] == "";
    assert Lower(fold, "%") == "%";
    LowerSplits(fold, "%" + Escape(q), "%");
    LowerSplits(fold, "%", Escape(q));
    assert Lower(fold, Surround(Sanitize(q))) == Surround(Sanitize(folded));
    EscapedSearchIsLiteral(Lower(fold, s), folded);
  }

  lemma {:induction false} MatchesWhatItContains(fold: char -> char, s: string, q: string)
    ensures Matches(fold, s, q) <==> Contains(fold, s, q)
  {
    CaseBlindSearchIsLiteral(fold, s, Trim(q));
  }

  /** A search returns the tasks of the project, visible as asked, whose title or description contains the trimmed query. */
  lemma {:induction false} SearchSelectsExactly(fold: char -> char, t: Task, opts: Search)
    ensures Selected(fold, t, opts) <==>
      && t.projectId == opts.projectId
      && (opts.isClientVisible == None || opts.isClientVisible == Some(t.isClientVisible))
      && var needle := Lower(fold, Trim(opts.q));
         OccursIn(needle, Lower(fold, t.title)) || (t.description.Some? && OccursIn(needle, Lower(fold, t.description.value)))
  {
    MatchesWhatItContains(fold, t.title, opts.q);
    if t.description.Some? {
      MatchesWhatItContains(fold, t.description.value, opts.q);
    }
  }

  // --------------------------------------------------- without escaping it need not be

  function LowerToken(fold: char -> char, t: Token): Token {
    if t.Lit? then Lit(LowerChar(fold, t.c)) else t
  }

  function LowerTokens(fold: char -> char, ts: seq<Token>): seq<Token> {
    if ts == [] then [] else [LowerToken(fold, ts[0])] + LowerTokens(fold, ts[1..])
  }

  /** Folding a pattern folds its literal characters and nothing else. */
  lemma {:induction false} TokensOfLower(fold: char -> char, p: string)
    requires Tokens(p).Some?
    ensures Tokens(Lower(fold, p)) == Some(LowerTokens(fold, Tokens(p).value))
  {
    if p != [] {
      var n := if p[0] == '\\' then 2 else 1;
      var rest := Tokens(p[n..]).value;
      TokensOfLower(fold, p[n..]);
      LowerSplits(fold, p[..n], p[n..]);
      assert p[..n] + p[n..] == p;
      assert Lower(fold, []) == [];
      assert p[..n][1..] == if n == 2 then [p[1]] else [];
      assert n == 2 ==> [p[1]][1..] == [];
      assert Lower(fold, p[..n]) == if n == 2 then ['\\', LowerChar(fold, p[1])] else [LowerChar(fold, p[0])];
      assert Lower(fold, p)[n..] == Lower(fold, p[n..]);
      assert Tokens(p).value[1..] == rest;
    }
  }

  /** A shortest text that the tokens match. */
  function Sample(ts: seq<Token>): string {
    if ts == [] then []
    else (match ts[0] case AnyText => [] case AnyChar => ['z'] case Lit(c) => [c]) + Sample(ts[1..])
  }

  lemma {:induction false} SampleMatches(fold: char -> char, ts: seq<Token>)
    ensures Match(Lower(fold, Sample(ts)), LowerTokens(fold, ts))
  {
    if ts != [] {
      SampleMatches(fold, ts[1..]);
      assert LowerTokens(fold, ts)[1..] == LowerTokens(fold, ts[1..]);
      if !ts[0].AnyText? {
        assert Sample(ts)[1..] == Sample(ts[1..]);
        assert Lower(fold, Sample(ts))[1..] == Lower(fold, Sample(ts[1..]));
      } else {
        assert [] + Sample(ts[1..]) == Sample(ts[1..]);
      }
    }
  }

  lemma {:induction false} LowerKeepsLength(fold: char -> char, s: string)
    ensures |Lower(fold, s)| == |s|
  {
    if s != [] {
      LowerKeepsLength(fold, s[1..]);
    }
  }

  lemma {:induction false} SampleIsNotTheQuery(fold: char -> char, q: string)
    ensures Tokens(q + "%").Some?
    ensures |Sample(Tokens(q + "%").value)| <= |q|
    ensures !Plain(q) ==> Lower(fold, Sample(Tokens(q + "%").value)) != Lower(fold, q)
  {
    var p := q + "%";
    assert Tokens("") == Some([]) && "%"[1..] == "";
    if q == [] {
      assert p == "%";
    } else if q[0] != '\\' {
      assert p[1..] == q[1..] + "%";
      SampleIsNotTheQuery(fold, q[1..]);
      var rest := Tokens(q[1..] + "%").value;
      var ts := [Wildcard(q[0])] + rest;
      assert ts[1..] == rest && Tokens(p).value == ts;
      assert Plain(q[1..]) && !Special(q[0]) ==> Plain(q);
      LowerKeepsLength(fold, Sample(ts));
      LowerKeepsLength(fold, q);
      if q[0] == '%' {
        assert Sample(ts) == Sample(rest);
      } else {
        assert Sample(ts)[1..] == Sample(rest);
        assert Lower(fold, Sample(ts))[1..] == Lower(fold, Sample(rest)) && Lower(fold, q)[1..] == Lower(fold, q[1..]);
      }
    } else {
      EscapeShortens(fold, q);
    }
  }

  /** A pattern that begins with a backslash matches something shorter. */
  lemma {:induction false} EscapeShortens(fold: char -> char, q: string)
    requires q != [] && q[0] == '\\'
    ensures Tokens(q + "%").Some?
    ensures |Sample(Tokens(q + "%").value)| <= |q|
    ensures Lower(fold, Sample(Tokens(q + "%").value)) != Lower(fold, q)
    decreases q, 0
  {
    var p := q + "%";
    if |q| == 1 {
      assert p == ['\\', '%'];
      assert p[2..] == "" && Tokens("") == Some([]);
      assert [Lit('%')][1..] == [];
      assert Sample([Lit('%')]) == ['%'];
      assert ['%'][1..] == [] && q[1..] == [];
      assert Lower(fold, ['%']) == ['%'] && Lower(fold, q) == ['\\'];
    } else {
      assert p[2..] == q[2..] + "%";
      SampleIsNotTheQuery(fold, q[2..]);
      var rest := Tokens(q[2..] + "%").value;
      assert ([Lit(q[1])] + rest)[1..] == rest;
      LowerKeepsLength(fold, Sample(Tokens(p).value));
      LowerKeepsLength(fold, q);
    }
  }

  lemma {:induction false} PlainNeedsNoEscape(q: string)
    requires Plain(q)
    ensures Escape(q) == q
  {
    if q != [] {
      PlainNeedsNoEscape(q[1..]);
      assert [q[0]] + q[1..] == q;
    }
  }

  lemma LongerTextDoesNotOccur(q: string, s: string)
    requires |s| <= |q| && OccursIn(q, s)
    ensures q == s
  {
    var i :| 0 <= i <= |s| && q <= s[i..];
  }

  /** The project searches compare folded texts but do not escape their query: it is found literally in every text if and only
   *  if it has no special character. */
  lemma {:induction false} UnescapedSearchIsLiteralExactlyWhen(fold: char -> char, q: string)
    ensures (forall s :: Ilike(fold, s, Surround(q)) == Some(OccursIn(Lower(fold, q), Lower(fold, s)))) <==> Plain(q)
  {
    if Plain(q) {
      PlainNeedsNoEscape(q);
      ThreePassesEscapeOnce(q);
      forall s ensures Ilike(fold, s, Surround(q)) == Some(OccursIn(Lower(fold, q), Lower(fold, s))) {
        CaseBlindSearchIsLiteral(fold, s, q);
      }
    } else {
      var s := SpecialQueryMisleads(fold, q);
    }
  }

  lemma {:induction false} SpecialQueryMisleads(fold: char -> char, q: string) returns (s: string)
    requires !Plain(q)
    ensures Ilike(fold, s, Surround(q)) == Some(true) && !OccursIn(Lower(fold, q), Lower(fold, s))
  {
    SampleIsNotTheQuery(fold, q);
    assert Surround(q)[1..] == q + "%";
    var ts := Tokens(q + "%").value;
    assert Tokens(Surround(q)) == Some([AnyText] + ts);
    TokensOfLower(fold, Surround(q));
    assert ([AnyText] + ts)[1..] == ts;
    assert LowerTokens(fold, [AnyText] + ts) == [AnyText] + LowerTokens(fold, ts);
    s := Sample(ts);
    SampleMatches(fold, ts);
    var folded := Lower(fold, s);
    AnyTextTakesAPrefix(folded, LowerTokens(fold, ts));
    assert folded[0..] == folded;
    LowerKeepsLength(fold, s);
    LowerKeepsLength(fold, q);
    if OccursIn(Lower(fold, q), folded) {
      LongerTextDoesNotOccur(Lower(fold, q), folded);
    }
  }

  /** The search that folds text and query itself and uses LIKE is the same as ILIKE. */
  lemma {:induction false} FoldedNeedleIsIlike(fold: char -> char, s: string, q: string)
    ensures Like(Lower(fold, s), Surround(Lower(fold, q))) == Ilike(fold, s, Surround(q))
  {
    assert Lower(fold, "") == "" && "%"[1..] == "";
    assert Lower(fold, "%") == "%";
    LowerSplits(fold, "%" + q, "%");
    LowerSplits(fold, "%", q);
  }
}
