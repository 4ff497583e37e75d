/** Init-script expansion: ${NAME} and ${NAME:-default} placeholders, SQL quoting of their values,
    and the splitting of the expanded text into statements. */
module InitScripts {
  import opened Model
  import opened Literals
  import opened Urls

  // ----- Placeholders -----

  datatype Placeholder = Placeholder(name: string, inlineDefault: Option<string>)

  /** [^}:] and [^}] of the pattern. */
  predicate NameChar(c: char) { c != '}' && c != ':' }

  predicate DefaultChar(c: char) { c != '}' }

  predicate WellFormed(p: Placeholder) {
    && p.name != [] && (forall k :: 0 <= k < |p.name| ==> NameChar(p.name[k]))
    && (p.inlineDefault.Some? ==>
          forall k :: 0 <= k < |p.inlineDefault.value| ==> DefaultChar(p.inlineDefault.value[k]))
  }

  function Raw(p: Placeholder): string {
    "${" + p.name + (if p.inlineDefault.Some? then ":-" + p.inlineDefault.value else "") + "}"
  }

  /** The pattern matches s[i..j] with these groups: the text is a well-formed placeholder, whatever way it was found. */
  predicate IsMatch(s: string, i: nat, p: Placeholder, j: nat) {
    i <= j <= |s| && s[i..j] == Raw(p) && WellFormed(p)
  }

  function NameEnd(s: string, i: nat): (e: nat)
    requires i <= |s|
    ensures i <= e <= |s| && (forall k :: i <= k < e ==> NameChar(s[k])) && (e < |s| ==> !NameChar(s[e]))
    decreases |s| - i
  {
    if i < |s| && NameChar(s[i]) then NameEnd(s, i + 1) else i
  }

  function DefaultEnd(s: string, i: nat): (e: nat)
    requires i <= |s|
    ensures i <= e <= |s| && (forall k :: i <= k < e ==> DefaultChar(s[k])) && (e < |s| ==> !DefaultChar(s[e]))
    decreases |s| - i
  {
    if i < |s| && DefaultChar(s[i]) then DefaultEnd(s, i + 1) else i
  }

  /** The matcher at one position: both character classes are read greedily, and neither can give anything back. */
  function MatchAt(s: string, i: nat): Option<(Placeholder, nat)>
    requires i <= |s|
  {
    if i + 2 > |s| || s[i] != '$' || s[i + 1] != '{' then None else
    var e := NameEnd(s, i + 2);
    if e == i + 2 || e == |s| then None
    else if s[e] == '}' then Some((Placeholder(s[i + 2..e], None), e + 1))
    else if e + 1 < |s| && s[e + 1] == '-' then
      var d := DefaultEnd(s, e + 2);
      if d == |s| then None else Some((Placeholder(s[i + 2..e], Some(s[e + 2..d])), d + 1))
    else None
  }

  lemma MatchIsFound(s: string, i: nat)
    requires i <= |s| && MatchAt(s, i).Some?
    ensures i < MatchAt(s, i).value.1 && IsMatch(s, i, MatchAt(s, i).value.0, MatchAt(s, i).value.1)
  {
    var (p, j) := MatchAt(s, i).value;
    var e := NameEnd(s, i + 2);
    assert s[i..i + 2] == "${";
    Cut(s, i, i + 2, e);
    Cut(s, i, e, j);
    if s[e] == '}' {
      assert s[e..j] == "}";
    } else {
      TailIsFound(s, e, DefaultEnd(s, e + 2));
      Associate("${", p.name, ":-" + p.inlineDefault.value, "}");
    }
  }

  lemma TailIsFound(s: string, e: nat, d: nat)
    requires e + 2 <= d < |s| && s[e] == ':' && s[e + 1] == '-' && s[d] == '}'
    ensures s[e..d + 1] == ":-" + s[e + 2..d] + "}"
  {
    assert s[e..e + 2] == ":-" && s[d..d + 1] == "}";
    Cut(s, e, e + 2, d);
    Cut(s, e, d, d + 1);
  }

  lemma Cut(s: string, a: nat, b: nat, c: nat)
    requires a <= b <= c <= |s|
    ensures s[a..c] == s[a..b] + s[b..c]
  {
  }

  lemma Associate(a: string, b: string, c: string, d: string)
    ensures a + b + c + d == a + b + (c + d)
  {
  }

  lemma NameEndIs(s: string, i: nat, e: nat)
    requires i <= e < |s| && (forall k :: i <= k < e ==> NameChar(s[k])) && !NameChar(s[e])
    ensures NameEnd(s, i) == e
  {
  }

  lemma DefaultEndIs(s: string, i: nat, e: nat)
    requires i <= e < |s| && (forall k :: i <= k < e ==> DefaultChar(s[k])) && !DefaultChar(s[e])
    ensures DefaultEnd(s, i) == e
  {
  }

  /** A part of a slice is where the slice begins plus its own place. */
  lemma PartAt(s: string, i: nat, before: string, part: string, after: string)
    requires i + |before| + |part| + |after| <= |s|
    requires s[i..i + |before| + |part| + |after|] == before + part + after
    ensures s[i + |before|..i + |before| + |part|] == part
  {
    var a, b, n := |before|, |before| + |part|, |before| + |part| + |after|;
    Middle(before, part, after);
    SliceOfSlice(s, i, n, a, b);
  }

  lemma Middle(before: string, part: string, after: string)
    ensures (before + part + after)[|before|..|before| + |part|] == part
  {
    var m := before + part;
    assert (m + after)[..|m|] == m;
    assert m[|before|..] == part;
  }

  lemma SliceOfSlice(s: string, i: nat, n: nat, a: nat, b: nat)
    requires a <= b <= n && i + n <= |s|
    ensures s[i..i + n][a..b] == s[i + a..i + b]
  {
    var x, y := s[i..i + n][a..b], s[i + a..i + b];
    assert forall k :: 0 <= k < |x| ==> x[k] == y[k];
  }

  lemma NameIsFound(s: string, i: nat, name: string, tail: string)
    requires i + 2 + |name| + |tail| <= |s| && s[i..i + 2 + |name| + |tail|] == "${" + name + tail
    requires (forall k :: 0 <= k < |name| ==> NameChar(name[k])) && tail != [] && !NameChar(tail[0])
    ensures s[i] == '$' && s[i + 1] == '{' && NameEnd(s, i + 2) == i + 2 + |name|
    ensures s[i + 2..i + 2 + |name|] == name && s[i + 2 + |name|..i + 2 + |name| + |tail|] == tail
  {
    var e := i + 2 + |name|;
    PartAt(s, i, "", "${", name + tail);
    PartAt(s, i, "${", name, tail);
    PartAt(s, i, "${" + name, tail, "");
    assert s[i] == s[i..i + 2][0] && s[i + 1] == s[i..i + 2][1];
    assert forall k :: i + 2 <= k < e ==> s[k] == s[i + 2..e][k - i - 2];
    assert s[e] == s[e..e + |tail|][0];
    NameEndIs(s, i + 2, e);
  }

  lemma DefaultIsFound(s: string, i: nat, dflt: string)
    requires i + |dflt| < |s| && s[i..i + |dflt| + 1] == dflt + "}"
    requires forall k :: 0 <= k < |dflt| ==> DefaultChar(dflt[k])
    ensures DefaultEnd(s, i) == i + |dflt| && s[i..i + |dflt|] == dflt
  {
    PartAt(s, i, "", dflt, "}");
    assert forall k :: i <= k < i + |dflt| ==> s[k] == s[i..i + |dflt|][k - i];
    assert s[i + |dflt|] == s[i..i + |dflt| + 1][|dflt|];
    DefaultEndIs(s, i, i + |dflt|);
  }

  lemma MatchIsOnlyOne(s: string, i: nat, p: Placeholder, j: nat)
    requires IsMatch(s, i, p, j)
    ensures MatchAt(s, i) == Some((p, j))
  {
    if p.inlineDefault.None? {
      assert "${" + p.name + "" + "}" == "${" + p.name + "}";
      BareIsOnlyOne(s, i, p.name, j);
    } else {
      Associate("${", p.name, ":-" + p.inlineDefault.value, "}");
      DefaultedIsOnlyOne(s, i, p.name, p.inlineDefault.value, j);
    }
  }

  lemma BareIsOnlyOne(s: string, i: nat, name: string, j: nat)
    requires i <= j <= |s| && s[i..j] == "${" + name + "}"
    requires name != [] && forall k :: 0 <= k < |name| ==> NameChar(name[k])
    ensures MatchAt(s, i) == Some((Placeholder(name, None), j))
  {
    NameIsFound(s, i, name, "}");
    assert s[j - 1] == s[j - 1..j][0];
  }

  lemma DefaultedIsOnlyOne(s: string, i: nat, name: string, dflt: string, j: nat)
    requires i <= j <= |s| && s[i..j] == "${" + name + (":-" + dflt + "}")
    requires name != [] && forall k :: 0 <= k < |name| ==> NameChar(name[k])
    requires forall k :: 0 <= k < |dflt| ==> DefaultChar(dflt[k])
    ensures MatchAt(s, i) == Some((Placeholder(name, Some(dflt)), j))
  {
    NameIsFound(s, i, name, ":-" + dflt + "}");
    TailIs(s, i + 2 + |name|, dflt);
  }

  lemma TailIs(s: string, e: nat, dflt: string)
    requires e + |dflt| + 3 <= |s| && s[e..e + |dflt| + 3] == ":-" + dflt + "}"
    requires forall k :: 0 <= k < |dflt| ==> DefaultChar(dflt[k])
    ensures s[e] == ':' && s[e + 1] == '-'
    ensures DefaultEnd(s, e + 2) == e + 2 + |dflt| && s[e + 2..e + 2 + |dflt|] == dflt
  {
    assert s[e] == s[e..e + |dflt| + 3][0] && s[e + 1] == s[e..e + |dflt| + 3][1];
    assert ":-" + (dflt + "}") + "" == ":-" + dflt + "}";
    PartAt(s, e, ":-", dflt + "}", "");
    DefaultIsFound(s, e + 2, dflt);
  }

  /** The matcher finds exactly the placeholder that stands at a position. */
  lemma MatchMeaning(s: string, i: nat, p: Placeholder, j: nat)
    requires i <= |s|
    ensures MatchAt(s, i) == Some((p, j)) <==> IsMatch(s, i, p, j)
  {
    if MatchAt(s, i) == Some((p, j)) {
      MatchIsFound(s, i);
    }
    if IsMatch(s, i, p, j) {
      MatchIsOnlyOne(s, i, p, j);
    }
  }

  // ----- One leftmost pass -----

  datatype Segment = Text(c: char) | Var(p: Placeholder)

  function RawOf(g: Segment): string {
    match g case Text(c) => [c] case Var(p) => Raw(p)
  }

  function RawAll(segs: seq<Segment>): string {
    if segs == [] then "" else RawOf(segs[0]) + RawAll(segs[1..])
  }

  function Scan(s: string): (segs: seq<Segment>)
    decreases |s|
  {
    if s == [] then [] else
    match MatchAt(s, 0)
    case Some((p, j)) => MatchIsFound(s, 0); [Var(p)] + Scan(s[j..])
    case None => [Text(s[0])] + Scan(s[1..])
  }

  /** No placeholder stands at the start of s. */
  ghost predicate NothingAt(s: string) {
    forall p, j :: !IsMatch(s, 0, p, j)
  }

  /** Leftmost, non-overlapping: the segments spell s, every variable is a placeholder,
      and no placeholder stands where a plain character was taken. */
  ghost predicate LeftmostCut(s: string, segs: seq<Segment>) {
    if segs == [] then s == [] else
    match segs[0]
    case Text(c) => s != [] && s[0] == c && NothingAt(s) && LeftmostCut(s[1..], segs[1..])
    case Var(p) => |Raw(p)| <= |s| && IsMatch(s, 0, p, |Raw(p)|) && LeftmostCut(s[|Raw(p)|..], segs[1..])
  }

  lemma {:induction false} ScanIsLeftmost(s: string)
    ensures LeftmostCut(s, Scan(s))
    decreases |s|
  {
    if s == [] {
    } else {
      match MatchAt(s, 0)
      case Some((p, j)) =>
        MatchIsFound(s, 0);
        ScanIsLeftmost(s[j..]);
        VarFirst(s, p, Scan(s[j..]));
      case None =>
        ScanIsLeftmost(s[1..]);
        NoMatchIsNone(s);
        TextFirst(s, Scan(s[1..]));
    }
  }

  lemma VarFirst(s: string, p: Placeholder, rest: seq<Segment>)
    requires |Raw(p)| <= |s| && IsMatch(s, 0, p, |Raw(p)|)
    requires LeftmostCut(s[|Raw(p)|..], rest)
    ensures LeftmostCut(s, [Var(p)] + rest)
  {
    assert ([Var(p)] + rest)[1..] == rest;
  }

  lemma TextFirst(s: string, rest: seq<Segment>)
    requires s != [] && NothingAt(s)
    requires LeftmostCut(s[1..], rest)
    ensures LeftmostCut(s, [Text(s[0])] + rest)
  {
    assert ([Text(s[0])] + rest)[1..] == rest;
  }

  lemma Halves(s: string, n: nat)
    requires n <= |s|
    ensures s[0..n] + s[n..] == s
  {
  }

  /** The segments of a cut spell the text. */
  lemma {:induction false} CutSpells(s: string, segs: seq<Segment>)
    requires LeftmostCut(s, segs)
    ensures RawAll(segs) == s
    decreases |segs|
  {
    if segs == [] {
    } else {
      match segs[0] {
        case Text(c) =>
          CutSpells(s[1..], segs[1..]);
          Halves(s, 1);
          assert s[0..1] == [c];
        case Var(p) =>
          CutSpells(s[|Raw(p)|..], segs[1..]);
          Halves(s, |Raw(p)|);
      }
    }
  }

  lemma NoMatchIsNone(s: string)
    ensures NothingAt(s) <==> MatchAt(s, 0).None?
  {
    if MatchAt(s, 0).Some? {
      MatchIsFound(s, 0);
    }
    forall p, j | IsMatch(s, 0, p, j) ensures MatchAt(s, 0).Some? {
      MatchIsOnlyOne(s, 0, p, j);
    }
  }

  lemma {:induction false} LeftmostIsScan(s: string, segs: seq<Segment>)
    requires LeftmostCut(s, segs)
    ensures segs == Scan(s)
    decreases |segs|
  {
    if segs == [] {
    } else {
      assert segs == [segs[0]] + segs[1..];
      match segs[0]
      case Text(c) =>
        NoMatchIsNone(s);
        LeftmostIsScan(s[1..], segs[1..]);
      case Var(p) =>
        MatchIsOnlyOne(s, 0, p, |Raw(p)|);
        LeftmostIsScan(s[|Raw(p)|..], segs[1..]);
    }
  }

  /** There is exactly one leftmost cut, scanning finds it, and it spells the text. */
  lemma CutIsUnique(s: string, segs: seq<Segment>)
    ensures LeftmostCut(s, segs) <==> segs == Scan(s)
    ensures LeftmostCut(s, segs) ==> RawAll(segs) == s
  {
    ScanIsLeftmost(s);
    if LeftmostCut(s, segs) {
      LeftmostIsScan(s, segs);
      CutSpells(s, segs);
    }
  }

  // ----- Values -----

  type Environment = map<string, string>

  const OAUTH_URI := "ICEBERG_OAUTH_URI"
  const ENDPOINT := "ICEBERG_ENDPOINT"

  /** None is the KeyError of an unset name without a default. */
  function EnvDefault(env: Environment, p: Placeholder): Option<string> {
    if p.name in env then Some(env[p.name])
    else if p.name == OAUTH_URI then
      var endpoint := if ENDPOINT in env then env[ENDPOINT] else Coalesce(p.inlineDefault, "");
      if endpoint == "" then None else Some(Url(endpoint, "/v1/oauth/tokens"))
    else p.inlineDefault
  }

  function Image(env: Environment, g: Segment): string {
    match g
    case Text(c) => [c]
    case Var(p) => var v := EnvDefault(env, p); if v.Some? then SqlEscape(v.value) else Raw(p)
  }

  function ImageAll(env: Environment, segs: seq<Segment>): string {
    if segs == [] then "" else Image(env, segs[0]) + ImageAll(env, segs[1..])
  }

  /** Values are inserted as they are: the pass never reads them again. */
  function ExpandInitSql(env: Environment, content: string): string {
    ImageAll(env, Scan(content))
  }

  lemma {:induction false} ImageAppend(env: Environment, a: seq<Segment>, b: seq<Segment>)
    ensures ImageAll(env, a + b) == ImageAll(env, a) + ImageAll(env, b)
    decreases |a|
  {
    if a == [] {
      assert a + b == b;
    } else {
      assert (a + b)[1..] == a[1..] + b;
      ImageAppend(env, a[1..], b);
    }
  }

  predicate Resolvable(env: Environment, g: Segment) {
    g.Var? && EnvDefault(env, g.p).Some?
  }

  /** Segments that are not resolvable placeholders come through unchanged. */
  lemma {:induction false} UnresolvedIsKept(env: Environment, segs: seq<Segment>)
    requires forall k :: 0 <= k < |segs| ==> !Resolvable(env, segs[k])
    ensures ImageAll(env, segs) == RawAll(segs)
    decreases |segs|
  {
    if segs == [] {
    } else {
      UnresolvedIsKept(env, segs[1..]);
    }
  }

  /** Wherever a resolvable placeholder stands, its escaped value takes its place, and what stands before and after it
      is expanded as if it were not there: no value is read again, and none changes how the rest is read. */
  lemma ExpansionIsLocal(env: Environment, content: string, before: seq<Segment>, p: Placeholder, after: seq<Segment>)
    requires Scan(content) == before + [Var(p)] + after && Resolvable(env, Var(p))
    ensures content == RawAll(before) + Raw(p) + RawAll(after)
    ensures ExpandInitSql(env, content) ==
            ImageAll(env, before) + SqlEscape(EnvDefault(env, p).value) + ImageAll(env, after)
  {
    ImageAppend(env, before + [Var(p)], after);
    ImageAppend(env, before, [Var(p)]);
    RawAppend(before + [Var(p)], after);
    RawAppend(before, [Var(p)]);
    OneSegment(env, Var(p));
    ScanIsLeftmost(content);
    CutSpells(content, before + [Var(p)] + after);
  }

  /** The endpoint that an unset ICEBERG_OAUTH_URI is made from; "" if there is none. */
  function OauthEndpoint(env: Environment, p: Placeholder): string {
    if "ICEBERG_ENDPOINT" in env then env["ICEBERG_ENDPOINT"]
    else if p.inlineDefault.Some? then p.inlineDefault.value else ""
  }

  /** What stands in the place of a placeholder: a set variable's escaped value, whatever the default; without one the
      escaped default; without either the placeholder itself. An unset ICEBERG_OAUTH_URI becomes the token URL on the
      endpoint, or stays if there is no endpoint. */
  lemma PlaceholderBecomes(env: Environment, content: string, before: seq<Segment>, p: Placeholder, after: seq<Segment>)
    returns (middle: string)
    requires Scan(content) == before + [Var(p)] + after
    ensures ExpandInitSql(env, content) == ImageAll(env, before) + middle + ImageAll(env, after)
    ensures p.name in env ==> middle == SqlEscape(env[p.name])
    ensures p.name !in env && p.name != "ICEBERG_OAUTH_URI" && p.inlineDefault.Some? ==>
              middle == SqlEscape(p.inlineDefault.value)
    ensures p.name !in env && p.name != "ICEBERG_OAUTH_URI" && p.inlineDefault.None? ==> middle == Raw(p)
    ensures p.name !in env && p.name == "ICEBERG_OAUTH_URI" ==> (middle == Raw(p) <==> OauthEndpoint(env, p) == "")
    ensures p.name !in env && p.name == "ICEBERG_OAUTH_URI" && OauthEndpoint(env, p) != "" ==>
              exists url :: UrlOn(url, OauthEndpoint(env, p), "/v1/oauth/tokens") && middle == SqlEscape(url)
  {
    middle := Image(env, Var(p));
    ImageAppend(env, before + [Var(p)], after);
    ImageAppend(env, before, [Var(p)]);
    OneSegment(env, Var(p));
    if p.name !in env && p.name == "ICEBERG_OAUTH_URI" && OauthEndpoint(env, p) != "" {
      var url := OauthValue(env, p);
    }
  }

  lemma OauthValue(env: Environment, p: Placeholder) returns (url: string)
    requires p.name !in env && p.name == "ICEBERG_OAUTH_URI" && OauthEndpoint(env, p) != ""
    ensures UrlOn(url, OauthEndpoint(env, p), "/v1/oauth/tokens")
    ensures Image(env, Var(p)) == SqlEscape(url) != Raw(p)
  {
    url := Url(OauthEndpoint(env, p), "/v1/oauth/tokens");
    assert url[|url| - 1] == "/v1/oauth/tokens"[15] == 's';
    EscapedEnd(url, 's');
    assert Raw(p)[|Raw(p)| - 1] == '}';
  }

  lemma EscapedEnd(v: string, c: char)
    requires v != [] && v[|v| - 1] == c && c != '\''
    ensures SqlEscape(v) != [] && SqlEscape(v)[|SqlEscape(v)| - 1] == c
  {
    assert v == v[..|v| - 1] + [c];
    EscapeAppend(v[..|v| - 1], [c]);
    EscapeOne(c);
  }

  lemma OneSegment(env: Environment, g: Segment)
    ensures ImageAll(env, [g]) == Image(env, g) && RawAll([g]) == RawOf(g)
  {
    assert [g][1..] == [];
  }

  lemma {:induction false} RawAppend(a: seq<Segment>, b: seq<Segment>)
    ensures RawAll(a + b) == RawAll(a) + RawAll(b)
    decreases |a|
  {
    if a == [] {
      assert a + b == b;
    } else {
      assert (a + b)[1..] == a[1..] + b;
      RawAppend(a[1..], b);
    }
  }

  // ----- Quoting round trip -----

  /** What a quoted template should read as: its characters and its variables' values. */
  function ValueAll(env: Environment, segs: seq<Segment>): string {
    if segs == [] then "" else
    (match segs[0] case Text(c) => [c] case Var(p) => Coalesce(EnvDefault(env, p), Raw(p))) + ValueAll(env, segs[1..])
  }

  /** The template has no quote of its own: its characters are not quotes and its variables resolve. */
  predicate Quotable(env: Environment, segs: seq<Segment>) {
    forall k :: 0 <= k < |segs| ==> if segs[k].Text? then segs[k].c != '\'' else Resolvable(env, segs[k])
  }

  lemma {:induction false} ReadTemplate(env: Environment, segs: seq<Segment>, tail: string)
    requires Quotable(env, segs)
    ensures ReadBody(ImageAll(env, segs) + tail) == Prepend(ValueAll(env, segs), ReadBody(tail))
    decreases |segs|
  {
    if segs == [] {
      assert ImageAll(env, segs) + tail == tail;
      PrependNothing(ReadBody(tail));
    } else {
      var rest := ImageAll(env, segs[1..]) + tail;
      assert ImageAll(env, segs) + tail == Image(env, segs[0]) + rest;
      match segs[0] {
        case Text(c) =>
          ReadPlain(c, rest);
          PrependTwice([c], ValueAll(env, segs[1..]), ReadBody(tail));
        case Var(p) =>
          ReadEscaped(EnvDefault(env, p).value, rest);
          PrependTwice(EnvDefault(env, p).value, ValueAll(env, segs[1..]), ReadBody(tail));
      }
      ReadTemplate(env, segs[1..], tail);
    }
  }

  lemma QuotedImage(env: Environment, before: seq<Segment>, segs: seq<Segment>, after: seq<Segment>)
    ensures ImageAll(env, before + [Text('\'')] + segs + [Text('\'')] + after) ==
            ImageAll(env, before) + ("'" + (ImageAll(env, segs) + ("'" + ImageAll(env, after))))
  {
    var quote := [Text('\'')];
    ImageAppend(env, before + quote + segs + quote, after);
    ImageAppend(env, before + quote + segs, quote);
    ImageAppend(env, before + quote, segs);
    ImageAppend(env, before, quote);
    OneSegment(env, Text('\''));
    Reassociate(ImageAll(env, before), "'", ImageAll(env, segs), "'", ImageAll(env, after));
  }

  lemma Reassociate(a: string, b: string, c: string, d: string, e: string)
    ensures a + b + c + d + e == a + (b + (c + (d + e)))
  {
  }

  /** A quoted template anywhere in a script: after expansion the SQL literal at its place reads exactly as the template
      with its variables' values, and ends at its closing quote, if and only if what follows does not make it go on. */
  lemma QuotedTemplateReadsBack(
    env: Environment, content: string, before: seq<Segment>, segs: seq<Segment>, after: seq<Segment>)
    requires Scan(content) == before + [Text('\'')] + segs + [Text('\'')] + after && Quotable(env, segs)
    ensures
      var n := |ImageAll(env, before)|;
      && n <= |ExpandInitSql(env, content)|
      && ExpandInitSql(env, content)[..n] == ImageAll(env, before)
      && (ReadLiteral(ExpandInitSql(env, content)[n..]) == Some((ValueAll(env, segs), ImageAll(env, after))) <==>
          !GoesOn(ImageAll(env, after)))
  {
    var a, m, z := ImageAll(env, before), ImageAll(env, segs), ImageAll(env, after);
    QuotedImage(env, before, segs, after);
    var body := m + ("'" + z);
    assert ExpandInitSql(env, content)[|a|..] == "'" + body;
    assert ("'" + body)[1..] == body;
    ReadTemplate(env, segs, "'" + z);
    ReadClosing(ValueAll(env, segs), z);
  }

  /** A placeholder alone inside single quotes reads back as exactly the variable's value, under the same condition. */
  lemma QuotedPlaceholderReadsBack(
    env: Environment, content: string, before: seq<Segment>, p: Placeholder, after: seq<Segment>)
    requires Scan(content) == before + [Text('\'')] + [Var(p)] + [Text('\'')] + after && Resolvable(env, Var(p))
    ensures
      var n := |ImageAll(env, before)|;
      && n <= |ExpandInitSql(env, content)|
      && (ReadLiteral(ExpandInitSql(env, content)[n..]) == Some((EnvDefault(env, p).value, ImageAll(env, after))) <==>
          !GoesOn(ImageAll(env, after)))
    ensures p.name in env ==> EnvDefault(env, p).value == env[p.name]
  {
    QuotedTemplateReadsBack(env, content, before, [Var(p)], after);
    assert [Var(p)][1..] == [];
    assert ValueAll(env, [Var(p)]) == EnvDefault(env, p).value + "";
    assert EnvDefault(env, p).value + "" == EnvDefault(env, p).value;
  }

  // ----- Statements -----

  /** The boundaries of str.splitlines. */
  predicate IsLineEnd(c: char) {
    '\n' <= c <= '\r' || '\U{1C}' <= c <= '\U{1E}' || c == '\U{85}' || c == '\U{2028}' || c == '\U{2029}'
  }

  lemma LineEnds(c: char)
    ensures IsLineEnd(c) <==>
            c in {'\n', '\U{0B}', '\U{0C}', '\r', '\U{1C}', '\U{1D}', '\U{1E}', '\U{85}', '\U{2028}', '\U{2029}'}
  {
  }

  function TrimLeft(s: string): string {
    if s != [] && IsSpace(s[0]) then TrimLeft(s[1..]) else s
  }

  function TrimRight(s: string): string {
    if s != [] && IsSpace(s[|s| - 1]) then TrimRight(s[..|s| - 1]) else s
  }

  /** str.strip */
  function Trim(s: string): string {
    TrimRight(TrimLeft(s))
  }

  /** The first line of a text, without its boundary, and what follows; a carriage return takes its newline with it. */
  function FirstLine(s: string): (string, string) {
    if s == [] then ("", "")
    else if s[0] == '\r' && |s| > 1 && s[1] == '\n' then ("", s[2..])
    else if IsLineEnd(s[0]) then ("", s[1..])
    else var (line, rest) := FirstLine(s[1..]); ([s[0]] + line, rest)
  }

  lemma {:induction false} FirstLineShortens(s: string)
    requires s != []
    ensures |FirstLine(s).1| < |s|
    decreases |s|
  {
    if IsLineEnd(s[0]) || |s| == 1 {
    } else {
      FirstLineShortens(s[1..]);
    }
  }

  function SplitLines(s: string): seq<string>
    decreases |s|
  {
    if s == [] then [] else FirstLineShortens(s); [FirstLine(s).0] + SplitLines(FirstLine(s).1)
  }

  predicate IsCode(line: string) {
    var stripped := Trim(line);
    stripped != [] && !(|stripped| >= 2 && stripped[0] == '-' && stripped[1] == '-')
  }

  predicate ExecutableSql(statement: string) {
    exists line :: line in SplitLines(statement) && IsCode(line)
  }

  /** str.split(";") */
  function Split(s: string): (pieces: seq<string>)
    ensures pieces != []
  {
    if s == [] then [""]
    else if s[0] == ';' then [""] + Split(s[1..])
    else var rest := Split(s[1..]); [[s[0]] + rest[0]] + rest[1..]
  }

  function Join(pieces: seq<string>): string {
    if pieces == [] then "" else if |pieces| == 1 then pieces[0] else pieces[0] + ";" + Join(pieces[1..])
  }

  /** A list comprehension: the chosen strings, in order, each in its new shape. */
  function Comprehension(ss: seq<string>, keep: string -> bool, shape: string -> string): seq<string> {
    if ss == [] then [] else
    Comprehension(ss[..|ss| - 1], keep, shape) + if keep(ss[|ss| - 1]) then [shape(ss[|ss| - 1])] else []
  }

  function Lower(s: string): string {
    seq(|s|, i requires 0 <= i < |s| => if 'A' <= s[i] <= 'Z' then s[i] - 'A' + 'a' else s[i])
  }

  predicate Contains(s: string, part: string) {
    (|part| <= |s| && s[..|part|] == part) || (s != [] && Contains(s[1..], part))
  }

  predicate CacheHttpfsEnabled(env: Environment) {
    Lower(if "CACHE_HTTPFS_ENABLED" in env then env["CACHE_HTTPFS_ENABLED"] else "1") !in {"0", "false", "no"}
  }

  predicate NotCacheHttpfs(statement: string) {
    !Contains(Lower(statement), "cache_httpfs")
  }

  function Same(s: string): string {
    s
  }

  /** load_init_scripts for a file that was found and read. */
  function LoadInitScripts(env: Environment, content: string): seq<string> {
    var statements := Comprehension(Split(ExpandInitSql(env, content)), ExecutableSql, Trim);
    if CacheHttpfsEnabled(env) then statements else Comprehension(statements, NotCacheHttpfs, Same)
  }

  /** k in small letters, spelled in any case; letters outside ASCII are not modelled. */
  predicate SpellsInAnyCase(s: string, k: string) {
    |s| == |k| && forall i :: 0 <= i < |k| ==>
      !('A' <= k[i] <= 'Z') && (s[i] == k[i] || ('A' <= s[i] <= 'Z' && s[i] as int + 32 == k[i] as int))
  }

  lemma LowerMeaning(s: string, k: string)
    ensures Lower(s) == k <==> SpellsInAnyCase(s, k)
  {
    assert SpellsInAnyCase(s, Lower(s));
    if SpellsInAnyCase(s, k) {
      assert forall i :: 0 <= i < |k| ==> Lower(s)[i] == k[i];
    }
  }

  predicate StandsAt(s: string, i: nat, part: string) {
    i + |part| <= |s| && s[i..i + |part|] == part
  }

  predicate SpellsAt(s: string, i: nat, k: string) {
    i + |k| <= |s| && SpellsInAnyCase(s[i..i + |k|], k)
  }

  lemma StandsBehind(s: string, i: nat, part: string)
    requires s != []
    ensures StandsAt(s[1..], i, part) <==> StandsAt(s, i + 1, part)
  {
    if i + 1 + |part| <= |s| {
      assert s[1..][i..i + |part|] == s[i + 1..i + 1 + |part|];
    }
  }

  lemma {:induction false} ContainsMeaning(s: string, part: string)
    ensures Contains(s, part) <==> exists i: nat :: StandsAt(s, i, part)
    decreases |s|
  {
    assert StandsAt(s, 0, part) <==> |part| <= |s| && s[..|part|] == part;
    if s == [] {
    } else {
      ContainsMeaning(s[1..], part);
      if Contains(s[1..], part) {
        var i: nat :| StandsAt(s[1..], i, part);
        StandsBehind(s, i, part);
      }
      forall i: nat | StandsAt(s, i, part) ensures Contains(s, part) {
        if i > 0 {
          StandsBehind(s, i - 1, part);
        }
      }
    }
  }

  /** The cache extension is on unless the variable says 0, false or no, in any case. */
  lemma CacheIsOn(env: Environment)
    ensures CacheHttpfsEnabled(env) <==>
            ("CACHE_HTTPFS_ENABLED" in env ==>
               var v := env["CACHE_HTTPFS_ENABLED"];
               !SpellsInAnyCase(v, "0") && !SpellsInAnyCase(v, "false") && !SpellsInAnyCase(v, "no"))
  {
    var v := if "CACHE_HTTPFS_ENABLED" in env then env["CACHE_HTTPFS_ENABLED"] else "1";
    LowerMeaning(v, "0");
    LowerMeaning(v, "false");
    LowerMeaning(v, "no");
    assert "1"[0] != "0"[0];
  }

  /** A text mentions the extension when its name is found there, in any case. */
  lemma MentionsCache(text: string)
    ensures NotCacheHttpfs(text) <==> forall i: nat :: !SpellsAt(text, i, "cache_httpfs")
  {
    ContainsMeaning(Lower(text), "cache_httpfs");
    forall i: nat ensures StandsAt(Lower(text), i, "cache_httpfs") <==> SpellsAt(text, i, "cache_httpfs") {
      LowerAt(text, i, "cache_httpfs");
    }
  }

  lemma LowerAt(text: string, i: nat, k: string)
    ensures StandsAt(Lower(text), i, k) <==> SpellsAt(text, i, k)
  {
    if i + |k| <= |text| {
      assert Lower(text)[i..i + |k|] == Lower(text[i..i + |k|]);
      LowerMeaning(text[i..i + |k|], k);
    }
  }

  /** Rejoining the unfiltered pieces restores the text, and no piece holds a separator. */
  lemma {:induction false} JoinRestores(s: string)
    ensures Join(Split(s)) == s
    ensures forall k :: 0 <= k < |Split(s)| ==> ';' !in Split(s)[k]
    decreases |s|
  {
    if s == [] {
    } else {
      var rest := Split(s[1..]);
      JoinRestores(s[1..]);
      assert s == [s[0]] + s[1..];
      if s[0] == ';' {
        assert ([""] + rest)[1..] == rest;
      } else if |rest| > 1 {
        assert ([[s[0]] + rest[0]] + rest[1..])[1..] == rest[1..];
      }
    }
  }

  function Chosen(ss: seq<string>, keep: string -> bool): nat {
    if ss == [] then 0 else Chosen(ss[..|ss| - 1], keep) + if keep(ss[|ss| - 1]) then 1 else 0
  }

  lemma {:induction false} ComprehensionLength(ss: seq<string>, keep: string -> bool, shape: string -> string)
    ensures |Comprehension(ss, keep, shape)| == Chosen(ss, keep)
    decreases |ss|
  {
    if ss == [] {
    } else {
      ComprehensionLength(ss[..|ss| - 1], keep, shape);
    }
  }

  /** A chosen string comes after as many others as were chosen before it. */
  lemma {:induction false} ComprehensionMeaning(ss: seq<string>, keep: string -> bool, shape: string -> string, k: nat)
    requires k < |ss| && keep(ss[k])
    ensures Chosen(ss[..k], keep) < |Comprehension(ss, keep, shape)|
    ensures Comprehension(ss, keep, shape)[Chosen(ss[..k], keep)] == shape(ss[k])
    decreases |ss|
  {
    var n := |ss| - 1;
    ComprehensionLength(ss[..n], keep, shape);
    if k == n {
    } else {
      ComprehensionMeaning(ss[..n], keep, shape, k);
      assert ss[..n][..k] == ss[..k];
    }
  }

  /** The pieces that are loaded: those with an executable line, without cache_httpfs when that is switched off. */
  function Loads(env: Environment): string -> bool {
    piece => ExecutableSql(piece) && (CacheHttpfsEnabled(env) || NotCacheHttpfs(Trim(piece)))
  }

  /** The two filters are one. */
  lemma {:induction false} FiltersFuse(env: Environment, pieces: seq<string>)
    ensures Comprehension(pieces, Loads(env), Trim) ==
            if CacheHttpfsEnabled(env) then Comprehension(pieces, ExecutableSql, Trim)
            else Comprehension(Comprehension(pieces, ExecutableSql, Trim), NotCacheHttpfs, Same)
    decreases |pieces|
  {
    if pieces == [] {
    } else {
      var n := |pieces| - 1;
      FiltersFuse(env, pieces[..n]);
      var before := Comprehension(pieces[..n], ExecutableSql, Trim);
      assert (before + [Trim(pieces[n])])[..|before|] == before;
      assert before + [] == before;
    }
  }

  /** Loaded are, in order, exactly the trimmed pieces of the expanded text that are to be loaded. */
  lemma LoadsExactly(env: Environment, content: string, k: nat)
    ensures
      var pieces := Split(ExpandInitSql(env, content));
      && |LoadInitScripts(env, content)| == Chosen(pieces, Loads(env))
      && (k < |pieces| && Loads(env)(pieces[k]) ==>
            Chosen(pieces[..k], Loads(env)) < |LoadInitScripts(env, content)| &&
            LoadInitScripts(env, content)[Chosen(pieces[..k], Loads(env))] == Trim(pieces[k]))
  {
    var pieces := Split(ExpandInitSql(env, content));
    FiltersFuse(env, pieces);
    ComprehensionLength(pieces, Loads(env), Trim);
    if k < |pieces| && Loads(env)(pieces[k]) {
      ComprehensionMeaning(pieces, Loads(env), Trim, k);
    }
  }

  /** Trimming only takes whitespace off the ends, and all of it. */
  lemma TrimMeaning(s: string) returns (a: string, b: string)
    ensures s == a + Trim(s) + b
    ensures (forall k :: 0 <= k < |a| ==> IsSpace(a[k])) && (forall k :: 0 <= k < |b| ==> IsSpace(b[k]))
    ensures Trim(s) != [] ==> !IsSpace(Trim(s)[0]) && !IsSpace(Trim(s)[|Trim(s)| - 1])
  {
    a := TrimLeftMeaning(s);
    b := TrimRightMeaning(TrimLeft(s));
  }

  lemma {:induction false} TrimLeftMeaning(s: string) returns (a: string)
    ensures s == a + TrimLeft(s) && (forall k :: 0 <= k < |a| ==> IsSpace(a[k]))
    ensures TrimLeft(s) != [] ==> !IsSpace(TrimLeft(s)[0])
    decreases |s|
  {
    a := "";
    if s == [] || !IsSpace(s[0]) {
    } else {
      a := TrimLeftMeaning(s[1..]);
      a := [s[0]] + a;
    }
  }

  lemma {:induction false} TrimRightMeaning(s: string) returns (b: string)
    ensures s == TrimRight(s) + b && (forall k :: 0 <= k < |b| ==> IsSpace(b[k]))
    ensures TrimRight(s) != [] ==> TrimRight(s)[0] == s[0] && !IsSpace(TrimRight(s)[|TrimRight(s)| - 1])
    decreases |s|
  {
    b := "";
    if s == [] || !IsSpace(s[|s| - 1]) {
    } else {
      b := TrimRightMeaning(s[..|s| - 1]);
      b := b + [s[|s| - 1]];
    }
  }

  // ----- Which pieces are executable -----

  predicate LineStart(s: string, j: nat) {
    j == 0 || (j <= |s| && IsLineEnd(s[j - 1]))
  }

  predicate Blank(s: string, i: nat, j: nat) {
    j <= |s| && forall k :: i <= k < j ==> IsSpace(s[k])
  }

  predicate CommentAt(s: string, p: nat) {
    p + 1 < |s| && s[p] == '-' && s[p + 1] == '-'
  }

  /** The first character of its line that is not white space, and no comment starts there. */
  ghost predicate CodeAt(s: string, p: nat) {
    && p < |s| && !IsSpace(s[p]) && !CommentAt(s, p)
    && exists j: nat :: j <= p && LineStart(s, j) && Blank(s, j, p)
  }

  lemma {:induction false} FirstLineMeaning(s: string) returns (end: string)
    ensures s == FirstLine(s).0 + end + FirstLine(s).1
    ensures (forall c :: c in FirstLine(s).0 ==> !IsLineEnd(c)) && (forall c :: c in end ==> IsLineEnd(c))
    ensures end == "" ==> FirstLine(s).1 == ""
    decreases |s|
  {
    if s == [] {
      end := "";
    } else if s[0] == '\r' && |s| > 1 && s[1] == '\n' {
      end := s[..2];
    } else if IsLineEnd(s[0]) {
      end := s[..1];
    } else {
      end := FirstLineMeaning(s[1..]);
    }
  }

  lemma OneStart(line: string)
    requires forall c :: c in line ==> !IsLineEnd(c)
    ensures forall j: nat :: LineStart(line, j) ==> j == 0
  {
    assert forall k :: 0 <= k < |line| ==> line[k] in line;
  }

  /** A line of code, by its first character that is not white space. */
  lemma CodeLine(line: string)
    requires forall c :: c in line ==> !IsLineEnd(c)
    ensures IsCode(line) <==> exists p: nat :: CodeAt(line, p)
  {
    var a := TrimLeftMeaning(line);
    var t := TrimLeft(line);
    if t != [] {
      assert t[0] == line[|a|];
      TrimRightAt(t, 0);
      var b := TrimRightMeaning(t);
      if CommentAt(t, 0) {
        TrimRightAt(t, 1);
      }
      assert CommentAt(Trim(line), 0) <==> CommentAt(line, |a|);
      assert LineStart(line, 0) && Blank(line, 0, |a|);
      assert IsCode(line) ==> CodeAt(line, |a|);
    }
    OneStart(line);
    forall p: nat | CodeAt(line, p) ensures p == |a| && t != [] {
      var j: nat :| j <= p && LineStart(line, j) && Blank(line, j, p);
    }
  }

  lemma CodeInFirst(line: string, end: string, rest: string, p: nat)
    requires (forall c :: c in line ==> !IsLineEnd(c)) && (forall c :: c in end ==> IsLineEnd(c))
    requires (end == "" ==> rest == "") && p < |line|
    ensures CodeAt(line + end + rest, p) <==> CodeAt(line, p)
  {
    var s := line + end + rest;
    assert forall k :: 0 <= k < |line| ==> s[k] == line[k];
    if p + 1 == |line| && end != "" {
      assert s[p + 1] == end[0] && end[0] in end;
    }
    assert CommentAt(s, p) <==> CommentAt(line, p);
    if CodeAt(s, p) {
      var j: nat :| j <= p && LineStart(s, j) && Blank(s, j, p);
      assert LineStart(line, j) && Blank(line, j, p);
    }
    if CodeAt(line, p) {
      var j: nat :| j <= p && LineStart(line, j) && Blank(line, j, p);
      assert LineStart(s, j) && Blank(s, j, p);
    }
  }

  lemma CodeInRest(front: string, rest: string, p: nat)
    requires front != [] && IsLineEnd(front[|front| - 1])
    ensures CodeAt(front + rest, |front| + p) <==> CodeAt(rest, p)
  {
    var s, n := front + rest, |front|;
    assert forall k :: 0 <= k < |rest| ==> s[n + k] == rest[k];
    assert s[n - 1] == front[n - 1];
    if CodeAt(s, n + p) {
      var j: nat :| j <= n + p && LineStart(s, j) && Blank(s, j, n + p);
      BlankInRest(front, rest, j, p);
    }
    if CodeAt(rest, p) {
      var i: nat :| i <= p && LineStart(rest, i) && Blank(rest, i, p);
      BlankBehind(front, rest, i, p);
    }
  }

  lemma BlankInRest(front: string, rest: string, j: nat, p: nat)
    requires j <= |front| + p && LineStart(front + rest, j) && Blank(front + rest, j, |front| + p)
    ensures exists i: nat :: i <= p && LineStart(rest, i) && Blank(rest, i, p)
  {
    var s, n := front + rest, |front|;
    var i := if j < n then 0 else j - n;
    forall k | i <= k < p ensures IsSpace(rest[k]) {
      assert s[n + k] == rest[k];
    }
    assert i > 0 ==> s[j - 1] == rest[i - 1];
    assert LineStart(rest, i) && Blank(rest, i, p);
  }

  lemma BlankBehind(front: string, rest: string, i: nat, p: nat)
    requires front != [] && IsLineEnd(front[|front| - 1])
    requires i <= p && LineStart(rest, i) && Blank(rest, i, p)
    ensures exists j: nat :: j <= |front| + p && LineStart(front + rest, j) && Blank(front + rest, j, |front| + p)
  {
    var s, n := front + rest, |front|;
    forall k | n + i <= k < n + p ensures IsSpace(s[k]) {
      assert s[k] == rest[k - n];
    }
    assert s[n + i - 1] == if i == 0 then front[n - 1] else rest[i - 1];
    assert LineStart(s, n + i) && Blank(s, n + i, n + p);
  }

  /** A statement is executable exactly when on some line something other than a comment comes first. */
  lemma {:induction false} ExecutableMeaning(s: string)
    ensures ExecutableSql(s) <==> exists p: nat :: CodeAt(s, p)
    decreases |s|
  {
    if s == [] {
    } else {
      FirstLineShortens(s);
      var (line, rest) := FirstLine(s);
      var end := FirstLineMeaning(s);
      CodeLine(line);
      ExecutableMeaning(rest);
      OneLineMore(line, SplitLines(rest));
      if exists p: nat :: CodeAt(line, p) {
        var p: nat :| CodeAt(line, p);
        CodeInFirst(line, end, rest, p);
      }
      if exists p: nat :: CodeAt(rest, p) {
        var p: nat :| CodeAt(rest, p);
        CodeInRest(line + end, rest, p);
      }
      forall p: nat | CodeAt(s, p) ensures ExecutableSql(s) {
        if p < |line| {
          CodeInFirst(line, end, rest, p);
        } else if p < |line + end| {
          assert s[p] == end[p - |line|] && end[p - |line|] in end;
        } else {
          CodeInRest(line + end, rest, p - |line + end|);
        }
      }
    }
  }

  lemma OneLineMore(line: string, lines: seq<string>)
    ensures (exists l :: l in [line] + lines && IsCode(l)) <==> IsCode(line) || exists l :: l in lines && IsCode(l)
  {
  }

  /** The split does not look at quotes: a text stays in one piece exactly when it holds no semicolon. */
  lemma {:induction false} SplitsAtEverySemicolon(s: string)
    ensures |Split(s)| == 1 <==> ';' !in s
    decreases |s|
  {
    if s == [] {
    } else {
      SplitsAtEverySemicolon(s[1..]);
      assert s == [s[0]] + s[1..];
    }
  }

  // ----- A quoted value inside its statement -----

  /** Which piece the text after `before` starts in, and where in it. */
  function PieceIndex(before: string): nat {
    |Split(before)| - 1
  }

  function PlaceInPiece(before: string): nat {
    |Split(before)[PieceIndex(before)]|
  }

  /** Up to the first semicolon. */
  function Head(s: string): string {
    Split(s)[0]
  }

  lemma {:induction false} HeadAppend(a: string, b: string)
    ensures Head(a + b) == if ';' in a then Head(a) else a + Head(b)
    decreases |a|
  {
    if a == [] {
      assert a + b == b;
      assert "" + Head(b) == Head(b);
    } else {
      HeadAppend(a[1..], b);
      FirstOfBoth(a, b);
      FirstOfBoth(a, Head(b));
      assert a == [a[0]] + a[1..];
    }
  }

  lemma {:induction false} PieceAround(a: string, b: string)
    ensures PieceIndex(a) < |Split(a + b)|
    ensures Split(a + b)[PieceIndex(a)] == Split(a)[PieceIndex(a)] + Head(b)
    decreases |a|
  {
    if a == [] {
      assert a + b == b;
      assert "" + Head(b) == Head(b);
    } else {
      PieceAround(a[1..], b);
      FirstOfBoth(a, b);
      PieceAroundNext(a[0], Split(a[1..]), Split(a[1..] + b), Head(b));
    }
  }

  lemma FirstOfBoth(a: string, b: string)
    requires a != []
    ensures (a + b)[0] == a[0] && (a + b)[1..] == a[1..] + b && a + b == [a[0]] + (a[1..] + b)
  {
  }

  /** One more character in front of both splits. */
  lemma PieceAroundNext(c: char, x: seq<string>, y: seq<string>, head: string)
    requires x != [] && |x| <= |y| && y[|x| - 1] == x[|x| - 1] + head
    ensures c != ';' ==> ([[c] + y[0]] + y[1..])[|x| - 1] == ([[c] + x[0]] + x[1..])[|x| - 1] + head
    ensures ([""] + y)[|x|] == ([""] + x)[|x|] + head
  {
    if |x| == 1 {
      assert [c] + (x[0] + head) == [c] + x[0] + head;
    }
  }

  /** A template without quotes of its own expands to its escaped value. */
  lemma {:induction false} QuotableIsEscaped(env: Environment, segs: seq<Segment>)
    requires Quotable(env, segs)
    ensures ImageAll(env, segs) == SqlEscape(ValueAll(env, segs))
    decreases |segs|
  {
    if segs == [] {
    } else {
      QuotableIsEscaped(env, segs[1..]);
      match segs[0] {
        case Text(c) =>
          EscapeOne(c);
          EscapeAppend([c], ValueAll(env, segs[1..]));
        case Var(p) => EscapeAppend(EnvDefault(env, p).value, ValueAll(env, segs[1..]));
      }
    }
  }

  lemma {:induction false} HeadOfEscaped(v: string)
    ensures Head(SqlEscape(v)) == SqlEscape(Head(v))
    ensures ';' in SqlEscape(v) <==> ';' in v
    decreases |v|
  {
    if v == [] {
    } else {
      HeadOfEscaped(v[1..]);
      assert v == [v[0]] + v[1..];
      EscapeOne(v[0]);
      HeadAppend([v[0]], v[1..]);
      HeadAppend(SqlEscape([v[0]]), SqlEscape(v[1..]));
      EscapeAppend([v[0]], Head(v[1..]));
      assert Head(";") == "" by { assert ";"[1..] == ""; }
    }
  }

  /** A quoted, escaped value read up to the first semicolon. */
  lemma ReadUpToSemicolon(v: string, z: string)
    ensures Reads(Head("'" + (SqlEscape(v) + ("'" + z))), v) <==> ';' !in v && AddsNothing(Head(z))
  {
    var body := SqlEscape(v) + ("'" + z);
    HeadAppend("'", body);
    HeadAppend(SqlEscape(v), "'" + z);
    HeadAppend("'", z);
    HeadOfEscaped(v);
    assert ("'" + Head(body))[1..] == Head(body);
    if ';' in v {
      ReadEscaped(Head(v), "");
      assert SqlEscape(Head(v)) + "" == SqlEscape(Head(v));
    } else {
      ReadEscaped(v, "'" + Head(z));
      ReadsClosing(v, Head(z));
    }
  }

  /** The split does not look at quotes. In the piece where a quoted template starts, the literal at its place reads as
      the template with its variables' values if and only if those hold no semicolon and what follows in the piece adds
      nothing to it. */
  lemma QuotedTemplateInItsPiece(
    env: Environment, content: string, before: seq<Segment>, segs: seq<Segment>, after: seq<Segment>)
    requires Scan(content) == before + [Text('\'')] + segs + [Text('\'')] + after && Quotable(env, segs)
    ensures
      var pieces, a := Split(ExpandInitSql(env, content)), ImageAll(env, before);
      && PieceIndex(a) < |pieces| && PlaceInPiece(a) < |pieces[PieceIndex(a)]|
      && pieces[PieceIndex(a)][PlaceInPiece(a)] == '\''
      && (Reads(pieces[PieceIndex(a)][PlaceInPiece(a)..], ValueAll(env, segs)) <==>
          ';' !in ValueAll(env, segs) && AddsNothing(Head(ImageAll(env, after))))
  {
    var a, v, z := ImageAll(env, before), ValueAll(env, segs), ImageAll(env, after);
    QuotedImage(env, before, segs, after);
    QuotableIsEscaped(env, segs);
    var literal := "'" + (SqlEscape(v) + ("'" + z));
    PieceAround(a, literal);
    HeadAppend("'", SqlEscape(v) + ("'" + z));
    ReadUpToSemicolon(v, z);
    var x := Split(a)[PieceIndex(a)];
    assert (x + Head(literal))[|x|..] == Head(literal);
  }

  // ----- ... and inside the trimmed statement that is run -----

  lemma {:induction false} TrimLeftAt(s: string, o: nat)
    requires o < |s| && !IsSpace(s[o])
    ensures |s| - |TrimLeft(s)| <= o && TrimLeft(s)[o - (|s| - |TrimLeft(s)|)..] == s[o..]
    ensures |TrimLeft(s)| <= |s|
    decreases |s|
  {
    if !IsSpace(s[0]) {
    } else {
      TrimLeftAt(s[1..], o - 1);
    }
  }

  lemma {:induction false} TrimRightAt(s: string, o: nat)
    requires o < |s| && !IsSpace(s[o])
    ensures o < |TrimRight(s)| && TrimRight(s)[o..] == TrimRight(s[o..])
    decreases |s|
  {
    var n := |s| - 1;
    if !IsSpace(s[n]) {
    } else {
      TrimRightAt(s[..n], o);
      assert s[o..][..|s[o..]| - 1] == s[..n][o..];
    }
  }

  lemma ReadsTrimmed(s: string, v: string)
    requires StartsWithQuote(s)
    ensures Reads(TrimRight(s), v) <==> Reads(s, v)
  {
    var w := TrimRightMeaning(s);
    var t := TrimRight(s);
    TrimRightAt(s, 0);
    assert t[0] == s[0] by { assert s == t + w; }
    assert s[1..] == t[1..] + w;
    ReadBeforeSpaces(t[1..], w);
  }

  /** The literal of a quoted template in the statement made of its piece, at some place. */
  ghost predicate ReadsInStatement(env: Environment, content: string, k: nat, place: nat, v: string)
    requires k < |Split(ExpandInitSql(env, content))|
  {
    var statement := Chosen(Split(ExpandInitSql(env, content))[..k], Loads(env));
    && statement < |LoadInitScripts(env, content)| && place < |LoadInitScripts(env, content)[statement]|
    && Reads(LoadInitScripts(env, content)[statement][place..], v)
  }

  /** The same in the statement that a worker runs, when that piece is one of those loaded: `place` is where the template's
      literal stands in it. */
  lemma QuotedTemplateInItsStatement(
    env: Environment, content: string, before: seq<Segment>, segs: seq<Segment>, after: seq<Segment>)
    returns (place: nat)
    requires Scan(content) == before + [Text('\'')] + segs + [Text('\'')] + after && Quotable(env, segs)
    ensures
      var pieces, k := Split(ExpandInitSql(env, content)), PieceIndex(ImageAll(env, before));
      && k < |pieces|
      && place == PlaceInPiece(ImageAll(env, before)) - (|pieces[k]| - |TrimLeft(pieces[k])|)
      && (Loads(env)(pieces[k]) ==>
            (ReadsInStatement(env, content, k, place, ValueAll(env, segs)) <==>
             ';' !in ValueAll(env, segs) && AddsNothing(Head(ImageAll(env, after)))))
  {
    var a := ImageAll(env, before);
    var pieces, k, o := Split(ExpandInitSql(env, content)), PieceIndex(a), PlaceInPiece(a);
    QuotedTemplateInItsPiece(env, content, before, segs, after);
    LoadsExactly(env, content, k);
    TrimLeftAt(pieces[k], o);
    place := o - (|pieces[k]| - |TrimLeft(pieces[k])|);
    var left := TrimLeft(pieces[k]);
    assert left[place] == left[place..][0] == pieces[k][o..][0] == '\'';
    TrimRightAt(left, place);
    ReadsTrimmed(left[place..], ValueAll(env, segs));
  }

  /** A value with a semicolon is cut in two, although it stands inside quotes. */
  lemma SemicolonCutsTheLiteral()
    ensures
      var env, content := map["X" := "a;b"], "'${X}'";
      && EnvDefault(env, Placeholder("X", None)) == Some("a;b")
      && |Split(ExpandInitSql(env, content))| > 1
      && !Reads(Split(ExpandInitSql(env, content))[0], "a;b")
  {
    var env, content, p := map["X" := "a;b"], "'${X}'", Placeholder("X", None);
    var quote := [Text('\'')];
    QuotedNameScans();
    assert Scan(content) == [] + quote + [Var(p)] + quote + [];
    QuotedImage(env, [], [Var(p)], []);
    assert ValueAll(env, [Var(p)]) == "a;b" by { assert [Var(p)][1..] == [] && "a;b" + "" == "a;b"; }
    assert ';' in "a;b" by { assert "a;b"[1] == ';'; }
    QuotableIsEscaped(env, [Var(p)]);
    HeadOfEscaped("a;b");
    SplitsAtEverySemicolon(ExpandInitSql(env, content));
    QuotedTemplateInItsPiece(env, content, [], [Var(p)], []);
    var first := Split(ExpandInitSql(env, content))[0];
    assert first[0..] == first;
  }

  lemma QuotedNameScans()
    ensures Scan("'${X}'") == [Text('\'')] + [Var(Placeholder("X", None))] + [Text('\'')]
  {
    var content, p, quote := "'${X}'", Placeholder("X", None), [Text('\'')];
    assert Raw(p) == "${X}" && WellFormed(p);
    assert IsMatch(content[1..], 0, p, 4) by { assert content[1..][0..4] == "${X}"; }
    assert content[1..][4..] == "'" && "'"[1..] == "";
    NoMatchIsNone(content);
    NoMatchIsNone("'");
    TextFirst("'", []);
    assert quote + [] == quote;
    VarFirst(content[1..], p, quote);
    TextFirst(content, [Var(p)] + quote);
    assert quote + ([Var(p)] + quote) == quote + [Var(p)] + quote;
    CutIsUnique(content, quote + [Var(p)] + quote);
  }
}
