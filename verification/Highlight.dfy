/** The editor's SQL highlighter: a hand-written lexer whose HTML, with its span tags removed, is the escaped input. */
module Highlight {

  // ----- Escaping -----

  function ReplaceAll(s: string, c: char, with: string): string {
    if s == [] then [] else (if s[0] == c then with else [s[0]]) + ReplaceAll(s[1..], c, with)
  }

  function EscapeHtml(text: string): string {
    ReplaceAll(ReplaceAll(ReplaceAll(text, '&', "&amp;"), '<', "&lt;"), '>', "&gt;")
  }

  function Entity(c: char): string {
    if c == '&' then "&amp;" else if c == '<' then "&lt;" else if c == '>' then "&gt;" else [c]
  }

  /** Every character replaced at once. */
  function EscapeAtOnce(text: string): string {
    if text == [] then [] else Entity(text[0]) + EscapeAtOnce(text[1..])
  }

  lemma {:induction false} ReplaceAppend(a: string, b: string, c: char, with: string)
    ensures ReplaceAll(a + b, c, with) == ReplaceAll(a, c, with) + ReplaceAll(b, c, with)
    decreases |a|
  {
    if a == [] {
      assert a + b == b;
    } else {
      assert (a + b)[1..] == a[1..] + b;
      ReplaceAppend(a[1..], b, c, with);
    }
  }

  lemma {:induction false} ReplaceAbsent(s: string, c: char, with: string)
    requires c !in s
    ensures ReplaceAll(s, c, with) == s
    decreases |s|
  {
    if s == [] {
    } else {
      ReplaceAbsent(s[1..], c, with);
    }
  }

  lemma EscapeAppend(a: string, b: string)
    ensures EscapeHtml(a + b) == EscapeHtml(a) + EscapeHtml(b)
  {
    var x, y := ReplaceAll(a, '&', "&amp;"), ReplaceAll(b, '&', "&amp;");
    ReplaceAppend(a, b, '&', "&amp;");
    ReplaceAppend(x, y, '<', "&lt;");
    ReplaceAppend(ReplaceAll(x, '<', "&lt;"), ReplaceAll(y, '<', "&lt;"), '>', "&gt;");
  }

  lemma ReplaceOne(d: char, c: char, with: string)
    ensures ReplaceAll([d], c, with) == if d == c then with else [d]
  {
    assert [d][1..] == [];
  }

  /** The order of the three replaces is what makes this true: & is replaced before any entity is written. */
  lemma EscapeOne(c: char)
    ensures EscapeHtml([c]) == Entity(c)
  {
    ReplaceOne(c, '&', "&amp;");
    if c == '&' {
      ReplaceAbsent("&amp;", '<', "&lt;");
      ReplaceAbsent("&amp;", '>', "&gt;");
    } else {
      ReplaceOne(c, '<', "&lt;");
      if c == '<' {
        ReplaceAbsent("&lt;", '>', "&gt;");
      } else {
        ReplaceOne(c, '>', "&gt;");
      }
    }
  }

  /** The three sequential replaces equal one simultaneous character map. */
  lemma {:induction false} EscapeIsSimultaneous(text: string)
    ensures EscapeHtml(text) == EscapeAtOnce(text)
    decreases |text|
  {
    if text == [] {
    } else {
      assert text == [text[0]] + text[1..];
      EscapeAppend([text[0]], text[1..]);
      EscapeOne(text[0]);
      EscapeIsSimultaneous(text[1..]);
    }
  }

  predicate StartsWith(s: string, prefix: string) {
    |prefix| <= |s| && s[..|prefix|] == prefix
  }

  /** What a browser shows for text with entities. */
  function Decode(s: string): string {
    if s == [] then []
    else if StartsWith(s, "&amp;") then "&" + Decode(s[5..])
    else if StartsWith(s, "&lt;") then "<" + Decode(s[4..])
    else if StartsWith(s, "&gt;") then ">" + Decode(s[4..])
    else [s[0]] + Decode(s[1..])
  }

  lemma DecodeEntity(c: char, rest: string)
    ensures Decode(Entity(c) + rest) == [c] + Decode(rest)
  {
    var e := Entity(c);
    assert (e + rest)[|e|..] == rest && (e + rest)[..|e|] == e;
    if c == '<' || c == '>' {
      assert (e + rest)[1] != 'a';
      assert !StartsWith(e + rest, "&amp;") by { assert "&amp;"[1] == 'a'; }
      assert c == '>' ==> !StartsWith(e + rest, "&lt;") by { assert "&lt;"[1] == 'l' && (c == '>' ==> (e + rest)[1] == 'g'); }
    } else if c != '&' {
      assert (e + rest)[0] == c;
      assert "&amp;"[0] == '&' && "&lt;"[0] == '&' && "&gt;"[0] == '&';
    }
  }

  lemma {:induction false} DecodeUndoesEscape(text: string)
    ensures Decode(EscapeHtml(text)) == text
    decreases |text|
  {
    EscapeIsSimultaneous(text);
    if text == [] {
    } else {
      DecodeEntity(text[0], EscapeAtOnce(text[1..]));
      EscapeIsSimultaneous(text[1..]);
      DecodeUndoesEscape(text[1..]);
    }
  }

  // ----- Tokens -----

  datatype Kind = Comment | Quoted | Number | Keyword | Plain

  datatype Token = Token(kind: Kind, text: string)

  function Class(kind: Kind): string {
    match kind
    case Comment => "hl-comment"
    case Quoted => "hl-string"
    case Number => "hl-number"
    case Keyword => "hl-keyword"
    case Plain => ""
  }

  function Open(kind: Kind): string {
    if kind == Plain then "" else "<span class=\"" + Class(kind) + "\">"
  }

  function Close(kind: Kind): string {
    if kind == Plain then "" else "</span>"
  }

  function Render(t: Token): string {
    Open(t.kind) + EscapeHtml(t.text) + Close(t.kind)
  }

  /** What each kind of token is shown as. */
  lemma Shown(text: string)
    ensures Render(Token(Comment, text)) ==
            "<span class=\"" + "hl-comment" + "\">" + EscapeHtml(text) + "</span>"
    ensures Render(Token(Quoted, text)) ==
            "<span class=\"" + "hl-string" + "\">" + EscapeHtml(text) + "</span>"
    ensures Render(Token(Number, text)) ==
            "<span class=\"" + "hl-number" + "\">" + EscapeHtml(text) + "</span>"
    ensures Render(Token(Keyword, text)) ==
            "<span class=\"" + "hl-keyword" + "\">" + EscapeHtml(text) + "</span>"
    ensures Render(Token(Plain, text)) == EscapeHtml(text)
  {
  }

  function RenderAll(toks: seq<Token>): string {
    if toks == [] then "" else RenderAll(toks[..|toks| - 1]) + Render(toks[|toks| - 1])
  }

  function Text(toks: seq<Token>): string {
    if toks == [] then "" else Text(toks[..|toks| - 1]) + toks[|toks| - 1].text
  }

  /** Remove every tag: from < through the next >. */
  function StripTags(s: string, inTag: bool := false): string {
    if s == [] then []
    else if inTag then StripTags(s[1..], s[0] != '>')
    else if s[0] == '<' then StripTags(s[1..], true)
    else [s[0]] + StripTags(s[1..], false)
  }

  function InTagAfter(s: string, inTag: bool): bool {
    if s == [] then inTag
    else InTagAfter(s[1..], if inTag then s[0] != '>' else s[0] == '<')
  }

  lemma {:induction false} StripAppend(a: string, b: string, inTag: bool)
    ensures StripTags(a + b, inTag) == StripTags(a, inTag) + StripTags(b, InTagAfter(a, inTag))
    ensures InTagAfter(a + b, inTag) == InTagAfter(b, InTagAfter(a, inTag))
    decreases |a|
  {
    if a == [] {
      assert a + b == b;
    } else {
      assert (a + b)[1..] == a[1..] + b;
      StripAppend(a[1..], b, if inTag then a[0] != '>' else a[0] == '<');
    }
  }

  lemma {:induction false} StripPlainText(s: string)
    requires '<' !in s
    ensures StripTags(s, false) == s && !InTagAfter(s, false)
    decreases |s|
  {
    if s == [] {
    } else {
      StripPlainText(s[1..]);
    }
  }

  lemma {:induction false} InsideTag(s: string)
    requires '>' !in s
    ensures StripTags(s, true) == [] && InTagAfter(s, true)
    decreases |s|
  {
    if s == [] {
    } else {
      InsideTag(s[1..]);
    }
  }

  /** A string of the form < ... > with no other > in it is one tag. */
  lemma StripOneTag(inner: string)
    requires '>' !in inner
    ensures StripTags("<" + inner + ">", false) == [] && !InTagAfter("<" + inner + ">", false)
  {
    var s := "<" + inner + ">";
    assert s[1..] == inner + ">";
    InsideTag(inner);
    StripAppend(inner, ">", true);
    assert ">"[1..] == "";
  }

  lemma {:induction false} EscapeHasNoTag(text: string)
    ensures '<' !in EscapeHtml(text)
    decreases |text|
  {
    EscapeIsSimultaneous(text);
    if text == [] {
    } else {
      EscapeIsSimultaneous(text[1..]);
      EscapeHasNoTag(text[1..]);
      assert '<' !in Entity(text[0]);
    }
  }

  lemma StripRender(t: Token)
    ensures StripTags(Render(t), false) == EscapeHtml(t.text) && !InTagAfter(Render(t), false)
  {
    var body := EscapeHtml(t.text);
    EscapeHasNoTag(t.text);
    StripPlainText(body);
    if t.kind == Plain {
      assert Render(t) == body;
    } else {
      StripOpen(t.kind);
      StripOneTag("/span");
      assert Close(t.kind) == "<" + "/span" + ">";
      StripAppend(Open(t.kind), body, false);
      StripAppend(Open(t.kind) + body, Close(t.kind), false);
    }
  }

  lemma StripOpen(kind: Kind)
    requires kind != Plain
    ensures StripTags(Open(kind), false) == [] && !InTagAfter(Open(kind), false)
  {
    var inner := "span class=\"" + Class(kind) + "\"";
    assert Open(kind) == "<" + inner + ">";
    assert '>' !in Class(kind);
    StripOneTag(inner);
  }

  /** Without its tags the HTML of any token list is the escaped text of the tokens. */
  lemma {:induction false} StripRenderAll(toks: seq<Token>)
    ensures StripTags(RenderAll(toks), false) == EscapeHtml(Text(toks)) && !InTagAfter(RenderAll(toks), false)
    decreases |toks|
  {
    if toks == [] {
    } else {
      var n := |toks| - 1;
      StripRenderAll(toks[..n]);
      StripRender(toks[n]);
      StripAppend(RenderAll(toks[..n]), Render(toks[n]), false);
      EscapeAppend(Text(toks[..n]), toks[n].text);
    }
  }

  // ----- The lexical grammar -----

  const SQL_KEYWORDS: set<string> := {
    "SELECT", "FROM", "WHERE", "JOIN", "LEFT", "RIGHT", "INNER", "OUTER", "FULL", "CROSS", "ON",
    "AND", "OR", "NOT", "GROUP", "BY", "ORDER", "HAVING", "LIMIT", "OFFSET", "AS", "DISTINCT",
    "UNION", "ALL", "INSERT", "INTO", "VALUES", "UPDATE", "SET", "DELETE", "CREATE", "DROP",
    "ALTER", "TABLE", "INDEX", "VIEW", "WITH", "CASE", "WHEN", "THEN", "ELSE", "END", "NULL",
    "IS", "IN", "EXISTS", "LIKE", "BETWEEN", "CAST", "COUNT", "SUM", "AVG", "MIN", "MAX",
    "TRUE", "FALSE", "ASC", "DESC", "PRIMARY", "KEY", "FOREIGN", "REFERENCES", "DEFAULT",
    "RETURNING", "OVER", "PARTITION", "WINDOW", "LATERAL", "NATURAL", "USING", "ILIKE"
  }

  predicate IsDigit(c: char) { '0' <= c <= '9' }

  predicate IsNumberPart(c: char) { IsDigit(c) || c == '.' || c == '_' }

  predicate IsWordStart(c: char) { 'a' <= c <= 'z' || 'A' <= c <= 'Z' || c == '_' }

  predicate IsWordPart(c: char) { IsWordStart(c) || IsDigit(c) }

  /** The character classes of the page's regular expressions, one by one. */
  lemma CharacterClasses(c: char)
    ensures IsDigit(c) <==> c in {'0', '1', '2', '3', '4', '5', '6', '7', '8', '9'}
    ensures IsNumberPart(c) <==> IsDigit(c) || c in {'.', '_'}
    ensures IsWordStart(c) <==> c in {
              'a', 'b', 'c', 'd', 'e', 'f', 'g', 'h', 'i', 'j', 'k', 'l', 'm',
              'n', 'o', 'p', 'q', 'r', 's', 't', 'u', 'v', 'w', 'x', 'y', 'z',
              'A', 'B', 'C', 'D', 'E', 'F', 'G', 'H', 'I', 'J', 'K', 'L', 'M',
              'N', 'O', 'P', 'Q', 'R', 'S', 'T', 'U', 'V', 'W', 'X', 'Y', 'Z', '_'}
    ensures IsWordPart(c) <==> IsWordStart(c) || IsDigit(c)
  {
  }

  function ToUpper(s: string): string {
    seq(|s|, i requires 0 <= i < |s| => if 'a' <= s[i] <= 'z' then s[i] - 'a' + 'A' else s[i])
  }

  predicate IsKeyword(word: string) {
    ToUpper(word) in SQL_KEYWORDS
  }

  /** k in capitals, spelled in any case; letters outside ASCII are not modelled. */
  predicate SpellsInAnyCase(word: string, k: string) {
    |word| == |k| && forall i :: 0 <= i < |k| ==>
      !('a' <= k[i] <= 'z') && (word[i] == k[i] || ('a' <= word[i] <= 'z' && word[i] as int == k[i] as int + 32))
  }

  /** A word is a keyword exactly when it spells one of the keywords in any case. */
  lemma KeywordsInAnyCase(word: string)
    ensures IsKeyword(word) <==> exists k :: k in SQL_KEYWORDS && SpellsInAnyCase(word, k)
  {
    forall k | SpellsInAnyCase(word, k) ensures ToUpper(word) == k {
    }
    assert SpellsInAnyCase(word, ToUpper(word));
  }

  /** The character at i is c; false beyond the end, where JavaScript reads undefined. */
  predicate CharAt(s: string, i: nat, c: char) {
    i < |s| && s[i] == c
  }

  predicate PairAt(s: string, i: nat, c: char, d: char) {
    CharAt(s, i, c) && CharAt(s, i + 1, d)
  }

  predicate NumberAt(s: string, i: nat)
    requires i < |s|
  {
    IsDigit(s[i]) || (s[i] == '.' && i + 1 < |s| && IsDigit(s[i + 1]))
  }

  /** Runs of characters that are not quotes, and doubled quotes. */
  predicate QuotesPaired(s: string, lo: nat, hi: nat)
    requires lo <= hi <= |s|
    decreases hi - lo
  {
    lo == hi
    || (s[lo] != '\'' && QuotesPaired(s, lo + 1, hi))
    || (lo + 1 < hi && s[lo] == '\'' && s[lo + 1] == '\'' && QuotesPaired(s, lo + 2, hi))
  }

  /** j ends the longest stretch from i whose characters all satisfy p. */
  predicate Run(s: string, i: nat, j: nat, p: char -> bool) {
    i <= j <= |s| && (forall k :: i <= k < j ==> p(s[k])) && (j < |s| ==> !p(s[j]))
  }

  predicate NotNewline(c: char) { c != '\n' }

  // What each kind of token is, as the text from i to j.

  predicate LineComment(s: string, i: nat, j: nat) {
    PairAt(s, i, '-', '-') && Run(s, i, j, NotNewline)
  }

  /** Closed by the first closing pair after the opening one, or not at all. */
  predicate BlockComment(s: string, i: nat, j: nat) {
    && PairAt(s, i, '/', '*') && i + 2 <= j <= |s|
    && ((i + 4 <= j && PairAt(s, j - 2, '*', '/') && forall k: nat :: i + 2 <= k < j - 2 ==> !PairAt(s, k, '*', '/'))
        || (j == |s| && forall k: nat :: i + 2 <= k < |s| ==> !PairAt(s, k, '*', '/')))
  }

  /** Closed by the first quote that is not part of a doubled one, or not at all. */
  predicate SingleQuoted(s: string, i: nat, j: nat) {
    && CharAt(s, i, '\'') && i + 1 <= j <= |s|
    && ((i + 2 <= j && s[j - 1] == '\'' && QuotesPaired(s, i + 1, j - 1) && !CharAt(s, j, '\''))
        || (j == |s| && QuotesPaired(s, i + 1, j)))
  }

  predicate DoubleQuoted(s: string, i: nat, j: nat) {
    && CharAt(s, i, '"') && i + 1 <= j <= |s|
    && ((i + 2 <= j && s[j - 1] == '"' && forall k :: i + 1 <= k < j - 1 ==> s[k] != '"')
        || (j == |s| && forall k :: i + 1 <= k < j ==> s[k] != '"'))
  }

  predicate Word(s: string, i: nat, j: nat) {
    i < |s| && IsWordStart(s[i]) && Run(s, i, j, IsWordPart)
  }

  /** No other token starts here. */
  predicate OtherAt(s: string, i: nat)
    requires i < |s|
  {
    !PairAt(s, i, '-', '-') && !PairAt(s, i, '/', '*') && s[i] != '\'' && s[i] != '"' &&
    !NumberAt(s, i) && !IsWordStart(s[i])
  }

  predicate IsToken(s: string, i: nat, j: nat, kind: Kind) {
    i < j <= |s| &&
    match kind
    case Comment => LineComment(s, i, j) || BlockComment(s, i, j)
    case Quoted => SingleQuoted(s, i, j) || DoubleQuoted(s, i, j)
    case Number => NumberAt(s, i) && Run(s, i, j, IsNumberPart)
    case Keyword => Word(s, i, j) && IsKeyword(s[i..j])
    case Plain => (Word(s, i, j) && !IsKeyword(s[i..j])) || (OtherAt(s, i) && j == i + 1)
  }

  /** Which text positions bound a token of which kind. */
  type Grammar = (nat, nat, Kind) -> bool

  function SqlGrammar(s: string): Grammar {
    (i: nat, j: nat, kind: Kind) => IsToken(s, i, j, kind)
  }

  /** The tokens cut s up to position i, each being a token of the grammar where it stands. */
  predicate Lexed(g: Grammar, s: string, i: nat, toks: seq<Token>)
    requires i <= |s|
    decreases |toks|
  {
    if toks == [] then i == 0 else
    var last := toks[|toks| - 1];
    |last.text| <= i && s[i - |last.text|..i] == last.text &&
    g(i - |last.text|, i, last.kind) && Lexed(g, s, i - |last.text|, toks[..|toks| - 1])
  }

  // ----- The grammar is deterministic -----

  function StringEnd(s: string, p: nat): nat
    requires p <= |s|
    decreases |s| - p
  {
    if p == |s| then p
    else if PairAt(s, p, '\'', '\'') then StringEnd(s, p + 2)
    else if s[p] == '\'' then p + 1
    else StringEnd(s, p + 1)
  }

  lemma {:induction false} StringEndIsUnique(s: string, lo: nat, hi: nat)
    requires lo <= hi <= |s| && QuotesPaired(s, lo, hi)
    requires hi < |s| ==> s[hi] == '\'' && !CharAt(s, hi + 1, '\'')
    ensures StringEnd(s, lo) == if hi == |s| then hi else hi + 1
    decreases hi - lo
  {
    if lo == hi {
    } else {
      StringEndIsUnique(s, if s[lo] == '\'' then lo + 2 else lo + 1, hi);
    }
  }

  lemma {:induction false} StringEndMeaning(s: string, p: nat)
    requires p <= |s|
    ensures p <= StringEnd(s, p) <= |s|
    ensures var e := StringEnd(s, p);
      (p < e && s[e - 1] == '\'' && QuotesPaired(s, p, e - 1) && !CharAt(s, e, '\'')) || (e == |s| && QuotesPaired(s, p, e))
    decreases |s| - p
  {
    if p == |s| || (CharAt(s, p, '\'') && !CharAt(s, p + 1, '\'')) {
    } else if s[p] == '\'' {
      StringEndMeaning(s, p + 2);
    } else {
      StringEndMeaning(s, p + 1);
    }
  }

  lemma RunIsUnique(s: string, i: nat, j: nat, k: nat, p: char -> bool)
    requires Run(s, i, j, p) && Run(s, i, k, p)
    ensures j == k
  {
  }

  lemma SingleQuotedIsUnique(s: string, i: nat, j: nat)
    requires SingleQuoted(s, i, j)
    ensures j == StringEnd(s, i + 1)
  {
    if j == |s| && QuotesPaired(s, i + 1, j) {
      StringEndIsUnique(s, i + 1, j);
    } else {
      StringEndIsUnique(s, i + 1, j - 1);
    }
  }

  lemma CommentIsUnique(s: string, i: nat, j: nat, k: nat)
    requires IsToken(s, i, j, Comment) && IsToken(s, i, k, Comment)
    ensures j == k
  {
  }

  lemma DoubleQuotedIsUnique(s: string, i: nat, j: nat, k: nat)
    requires DoubleQuoted(s, i, j) && DoubleQuoted(s, i, k)
    ensures j == k
  {
  }

  lemma TokenIsUnique(s: string, i: nat, j: nat, a: Kind, k: nat, b: Kind)
    requires IsToken(s, i, j, a) && IsToken(s, i, k, b)
    ensures j == k && a == b
  {
    assert a == Comment <==> b == Comment;
    if a == Comment {
      CommentIsUnique(s, i, j, k);
    } else if CharAt(s, i, '\'') {
      SingleQuotedIsUnique(s, i, j);
      SingleQuotedIsUnique(s, i, k);
    } else if CharAt(s, i, '"') {
      DoubleQuotedIsUnique(s, i, j, k);
    } else if NumberAt(s, i) {
      RunIsUnique(s, i, j, k, IsNumberPart);
    } else if IsWordStart(s[i]) {
      RunIsUnique(s, i, j, k, IsWordPart);
    }
  }

  /** At most one token starts at any position, and no token is empty. */
  ghost predicate Deterministic(g: Grammar) {
    && (forall i, j, a :: g(i, j, a) ==> i < j)
    && forall i, j, a, k, b :: g(i, j, a) && g(i, k, b) ==> j == k && a == b
  }

  lemma SqlGrammarIsDeterministic(s: string)
    ensures Deterministic(SqlGrammar(s))
  {
    forall i: nat, j: nat, a, k: nat, b | IsToken(s, i, j, a) && IsToken(s, i, k, b) ensures j == k && a == b {
      TokenIsUnique(s, i, j, a, k, b);
    }
  }

  lemma {:induction false} LexedSame(g: Grammar, s: string, i: nat, a: seq<Token>, j: nat, b: seq<Token>)
    requires Deterministic(g)
    requires i <= |s| && j <= |s| && Lexed(g, s, i, a) && Lexed(g, s, j, b) && |a| == |b|
    ensures i == j && a == b
    decreases |a|
  {
    if a == [] {
    } else {
      var n := |a| - 1;
      LexedSame(g, s, i - |a[n].text|, a[..n], j - |b[n].text|, b[..n]);
      assert a == a[..n] + [a[n]] && b == b[..n] + [b[n]];
    }
  }

  lemma {:induction false} LexedTake(g: Grammar, s: string, j: nat, b: seq<Token>, k: nat) returns (i: nat)
    requires Deterministic(g)
    requires j <= |s| && Lexed(g, s, j, b) && k <= |b|
    ensures i <= j && Lexed(g, s, i, b[..k]) && (k < |b| ==> i < j)
    decreases |b|
  {
    i := j;
    if k < |b| {
      var n := |b| - 1;
      assert b[..n][..k] == b[..k];
      i := LexedTake(g, s, j - |b[n].text|, b[..n], k);
    } else {
      assert b[..k] == b;
    }
  }

  lemma LexedNoShorter(g: Grammar, s: string, a: seq<Token>, b: seq<Token>)
    requires Deterministic(g) && Lexed(g, s, |s|, a) && Lexed(g, s, |s|, b)
    ensures |b| <= |a|
  {
    var k := if |a| < |b| then |a| else |b|;
    var i := LexedTake(g, s, |s|, b, k);
    if k == |a| {
      LexedSame(g, s, |s|, a, i, b[..k]);
    }
  }

  /** There is exactly one way at most to cut a text into tokens. */
  lemma LexingIsUnique(s: string, a: seq<Token>, b: seq<Token>)
    requires Lexed(SqlGrammar(s), s, |s|, a) && Lexed(SqlGrammar(s), s, |s|, b)
    ensures a == b
  {
    SqlGrammarIsDeterministic(s);
    LexedNoShorter(SqlGrammar(s), s, a, b);
    LexedNoShorter(SqlGrammar(s), s, b, a);
    LexedSame(SqlGrammar(s), s, |s|, a, |s|, b);
  }

  lemma LexedExtend(g: Grammar, s: string, i: nat, j: nat, toks: seq<Token>, kind: Kind)
    requires i <= j <= |s| && Lexed(g, s, i, toks) && g(i, j, kind)
    ensures Lexed(g, s, j, toks + [Token(kind, s[i..j])])
  {
    var t := Token(kind, s[i..j]);
    assert (toks + [t])[..|toks|] == toks;
  }

  lemma {:induction false} LexedText(g: Grammar, s: string, i: nat, toks: seq<Token>)
    requires i <= |s| && Lexed(g, s, i, toks)
    ensures Text(toks) == s[..i]
    decreases |toks|
  {
    if toks == [] {
    } else {
      var n := |toks| - 1;
      LexedText(g, s, i - |toks[n].text|, toks[..n]);
      assert s[..i] == s[..i - |toks[n].text|] + s[i - |toks[n].text|..i];
    }
  }

  /** What any lexing of a text says about its rendering. */
  lemma RenderedTextIsKept(g: Grammar, s: string, toks: seq<Token>)
    requires Lexed(g, s, |s|, toks)
    ensures Text(toks) == s
    ensures StripTags(RenderAll(toks), false) == EscapeHtml(s) && Decode(EscapeHtml(s)) == s
  {
    LexedText(g, s, |s|, toks);
    assert s[..|s|] == s;
    StripRenderAll(toks);
    DecodeUndoesEscape(s);
  }

  // ----- The highlighter -----

  method IndexOfNewline(s: string, from: nat) returns (r: int)
    requires from <= |s|
    ensures r == -1 ==> forall k :: from <= k < |s| ==> s[k] != '\n'
    ensures r != -1 ==> from <= r < |s| && s[r] == '\n' && forall k :: from <= k < r ==> s[k] != '\n'
  {
    r := from;
    while r < |s|
      invariant from <= r <= |s| && forall k :: from <= k < r ==> s[k] != '\n'
    {
      if s[r] == '\n' { return; }
      r := r + 1;
    }
    r := -1;
  }

  method IndexOfCommentEnd(s: string, from: nat) returns (r: int)
    ensures r == -1 ==> forall k: nat :: from <= k < |s| ==> !PairAt(s, k, '*', '/')
    ensures r != -1 ==> from <= r && PairAt(s, r, '*', '/') && forall k: nat :: from <= k < r ==> !PairAt(s, k, '*', '/')
  {
    r := from;
    while r < |s|
      invariant from <= r && forall k: nat :: from <= k < r && k < |s| ==> !PairAt(s, k, '*', '/')
    {
      if PairAt(s, r, '*', '/') { return; }
      r := r + 1;
    }
    r := -1;
  }

  method ScanSingleQuoted(s: string, i: nat) returns (j: nat)
    requires CharAt(s, i, '\'')
    ensures i < j && SingleQuoted(s, i, j)
  {
    j := i + 1;
    while j < |s|
      invariant i + 1 <= j <= |s| && StringEnd(s, i + 1) == StringEnd(s, j)
      decreases |s| - j
    {
      if s[j] == '\'' && j + 1 < |s| && s[j + 1] == '\'' {
        j := j + 2;
        continue;
      }
      if s[j] == '\'' {
        StringEndMeaning(s, i + 1);
        j := j + 1;
        return;
      }
      j := j + 1;
    }
    StringEndMeaning(s, i + 1);
  }

  /** One past the closing quote, which may be one past the end of the text: the slice stops at the end. */
  method ScanDoubleQuoted(s: string, i: nat) returns (j: nat)
    requires CharAt(s, i, '"')
    ensures i < j <= |s| + 1 && DoubleQuoted(s, i, if j <= |s| then j else |s|)
  {
    j := i + 1;
    while j < |s| && s[j] != '"'
      invariant i + 1 <= j <= |s| && forall k :: i + 1 <= k < j ==> s[k] != '"'
    {
      j := j + 1;
    }
    j := j + 1;
  }

  method ScanRun(s: string, i: nat, p: char -> bool) returns (j: nat)
    requires i < |s|
    ensures Run(s, i, j, p)
  {
    j := i;
    while j < |s| && p(s[j])
      invariant i <= j <= |s| && forall k :: i <= k < j ==> p(s[k])
    {
      j := j + 1;
    }
  }

  /** The token that starts at i; the position after it may be one past the end. */
  method NextToken(s: string, i: nat) returns (kind: Kind, next: nat)
    requires i < |s|
    ensures i < next <= |s| + 1 && IsToken(s, i, if next <= |s| then next else |s|, kind)
  {
    if s[i] == '-' && i + 1 < |s| && s[i + 1] == '-' {
      var end := IndexOfNewline(s, i);
      return Comment, if end == -1 then |s| else end;
    }
    if s[i] == '/' && i + 1 < |s| && s[i + 1] == '*' {
      var end := IndexOfCommentEnd(s, i + 2);
      return Comment, if end == -1 then |s| else end + 2;
    }
    if s[i] == '\'' {
      next := ScanSingleQuoted(s, i);
      return Quoted, next;
    }
    if s[i] == '"' {
      next := ScanDoubleQuoted(s, i);
      return Quoted, next;
    }
    if IsDigit(s[i]) || (s[i] == '.' && i + 1 < |s| && IsDigit(s[i + 1])) {
      next := ScanRun(s, i, IsNumberPart);
      return Number, next;
    }
    if IsWordStart(s[i]) {
      next := ScanRun(s, i, IsWordPart);
      return if IsKeyword(s[i..next]) then Keyword else Plain, next;
    }
    return Plain, i + 1;
  }

  method AppendSpan(html: string, ghost toks: seq<Token>, kind: Kind, text: string) returns (longer: string)
    requires html == RenderAll(toks)
    ensures longer == RenderAll(toks + [Token(kind, text)])
  {
    ghost var t := Token(kind, text);
    assert (toks + [t])[..|toks|] == toks;
    longer := html + (Open(kind) + EscapeHtml(text) + Close(kind));
  }

  /** The loop's invariant: the text before i is cut into tokens and html is their rendering. */
  ghost predicate Highlighted(g: Grammar, sql: string, i: nat, html: string, toks: seq<Token>) {
    html == RenderAll(toks) && i <= |sql| + 1 && Lexed(g, sql, if i <= |sql| then i else |sql|, toks)
  }

  /** One round of the loop. */
  method HighlightOne(sql: string, i: nat, before: string, ghost toks: seq<Token>)
    returns (html: string, next: nat, ghost longer: seq<Token>)
    requires i < |sql| && Highlighted(SqlGrammar(sql), sql, i, before, toks)
    ensures i < next && Highlighted(SqlGrammar(sql), sql, next, html, longer)
  {
    var kind;
    kind, next := NextToken(sql, i);
    var end := if next <= |sql| then next else |sql|;
    LexedExtend(SqlGrammar(sql), sql, i, end, toks, kind);
    html := AppendSpan(before, toks, kind, sql[i..end]);
    longer := toks + [Token(kind, sql[i..end])];
  }

  /** For every input the highlighter ends, its tokens are the one lexing of the input, and no text is lost: without tags
      the HTML is the escaped input, and with its entities decoded the input itself. */
  method HighlightSql(sql: string) returns (html: string, ghost toks: seq<Token>)
    ensures Lexed(SqlGrammar(sql), sql, |sql|, toks) && html == RenderAll(toks)
    ensures Text(toks) == sql
    ensures StripTags(html, false) == EscapeHtml(sql)
    ensures Decode(StripTags(html, false)) == sql
  {
    html, toks := "", [];
    var i := 0;
    while i < |sql|
      invariant Highlighted(SqlGrammar(sql), sql, i, html, toks)
    {
      html, i, toks := HighlightOne(sql, i, html, toks);
    }
    RenderedTextIsKept(SqlGrammar(sql), sql, toks);
  }
}
