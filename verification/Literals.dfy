/** Character string literals by section 5.3 of ISO/IEC 9075-2: two quotes stand for one; a closing quote ends the literal,
    unless a separator that contains a newline and then another quote follow: then the literal goes on. */
module Literals {
  import opened Model

  /** str.isspace, and the white space of a separator */
  predicate IsSpace(c: char) {
    '\t' <= c <= '\r' || '\U{1C}' <= c <= ' ' || c == '\U{85}' || c == '\U{A0}' || c == '\U{1680}' ||
    '\U{2000}' <= c <= '\U{200A}' || c == '\U{2028}' || c == '\U{2029}' || c == '\U{202F}' || c == '\U{205F}' ||
    c == '\U{3000}'
  }

  predicate IsNewline(c: char) {
    c == '\n' || c == '\r'
  }

  predicate AllSpaces(w: string) {
    forall k :: 0 <= k < |w| ==> IsSpace(w[k])
  }

  predicate StartsWithQuote(s: string) {
    s != [] && s[0] == '\''
  }

  predicate PairIs(s: string, i: nat, c: char, d: char) {
    i + 1 < |s| && s[i] == c && s[i + 1] == d
  }

  // ----- Separators -----

  /** One past the newline that ends a simple comment; None if there is none. */
  function LineEnd(s: string, i: nat): (e: Option<nat>)
    requires i <= |s|
    ensures e.Some? ==> i < e.value <= |s|
    decreases |s| - i
  {
    if i == |s| then None else if IsNewline(s[i]) then Some(i + 1) else LineEnd(s, i + 1)
  }

  /** One past the end of a bracketed comment with `depth` comments open inside it; None if it is not closed. */
  function BlockEnd(s: string, i: nat, depth: nat): (e: Option<nat>)
    requires i <= |s|
    ensures e.Some? ==> i < e.value <= |s|
    decreases |s| - i
  {
    if i == |s| then None
    else if PairIs(s, i, '*', '/') then if depth == 0 then Some(i + 2) else BlockEnd(s, i + 2, depth - 1)
    else if PairIs(s, i, '/', '*') then BlockEnd(s, i + 2, depth + 1)
    else BlockEnd(s, i + 1, depth)
  }

  /** The length of the comment that s starts with, if it does. */
  function CommentAt(s: string): (n: Option<nat>)
    ensures n.Some? ==> 2 < n.value <= |s|
  {
    if PairIs(s, 0, '-', '-') then LineEnd(s, 2)
    else if PairIs(s, 0, '/', '*') then BlockEnd(s, 2, 0)
    else None
  }

  /** The length of the white space and comments that s starts with. */
  function Separator(s: string): (n: nat)
    ensures n <= |s|
    decreases |s|
  {
    if s != [] && IsSpace(s[0]) then 1 + Separator(s[1..])
    else match CommentAt(s) case Some(n) => n + Separator(s[n..]) case None => 0
  }

  predicate HasNewline(s: string) {
    exists k :: 0 <= k < |s| && IsNewline(s[k])
  }

  /** What follows the quote with which a literal goes on behind a separator; None if it does not. */
  function Continuation(z: string): (rest: Option<string>)
    ensures rest.Some? ==> |rest.value| < |z|
  {
    var n := Separator(z);
    if n < |z| && z[n] == '\'' && HasNewline(z[..n]) then Some(z[n + 1..]) else None
  }

  /** z, behind a closing quote, makes the literal go on: at once with a doubled quote, or behind a separator. */
  predicate GoesOn(z: string) {
    StartsWithQuote(z) || Continuation(z).Some?
  }

  /** z, behind a closing quote, adds nothing to the literal's value: it does not go on, or only with empty parts. */
  predicate AddsNothing(z: string)
    decreases |z|
  {
    !StartsWithQuote(z) &&
    match Continuation(z)
    case None => true
    case Some(part) => StartsWithQuote(part) && AddsNothing(part[1..])
  }

  // ----- Reading -----

  /** The rest of a literal after its opening quote: its value, and what follows it. */
  function ReadBody(s: string): Option<(string, string)>
    decreases |s|
  {
    if s == [] then None
    else if s[0] != '\'' then Prepend([s[0]], ReadBody(s[1..]))
    else if |s| > 1 && s[1] == '\'' then Prepend("'", ReadBody(s[2..]))
    else match Continuation(s[1..]) case None => Some(("", s[1..])) case Some(part) => ReadBody(part)
  }

  function ReadLiteral(s: string): Option<(string, string)> {
    if s != [] && s[0] == '\'' then ReadBody(s[1..]) else None
  }

  /** The literal at the start of s reads as v. */
  predicate Reads(s: string, v: string) {
    ReadLiteral(s).Some? && ReadLiteral(s).value.0 == v
  }

  function Prepend(v: string, r: Option<(string, string)>): Option<(string, string)> {
    match r case None => None case Some((w, rest)) => Some((v + w, rest))
  }

  lemma PrependTwice(a: string, b: string, r: Option<(string, string)>)
    ensures Prepend(a, Prepend(b, r)) == Prepend(a + b, r)
  {
    if r.Some? {
      assert a + (b + r.value.0) == a + b + r.value.0;
    }
  }

  lemma PrependNothing(r: Option<(string, string)>)
    ensures Prepend("", r) == r
  {
    if r.Some? {
      assert "" + r.value.0 == r.value.0;
    }
  }

  lemma ReadPlain(c: char, rest: string)
    requires c != '\''
    ensures ReadBody([c] + rest) == Prepend([c], ReadBody(rest))
  {
    assert ([c] + rest)[1..] == rest;
  }

  lemma ReadPair(rest: string)
    ensures ReadBody("''" + rest) == Prepend("'", ReadBody(rest))
  {
    assert ("''" + rest)[2..] == rest;
  }

  lemma ReadQuote(z: string)
    ensures ReadBody("'" + z) ==
            if StartsWithQuote(z) then Prepend("'", ReadBody(z[1..]))
            else match Continuation(z) case None => Some(("", z)) case Some(part) => ReadBody(part)
  {
    assert ("'" + z)[1..] == z;
    if StartsWithQuote(z) {
      assert ("'" + z)[2..] == z[1..];
    }
  }

  // ----- Escaping -----

  function SqlEscape(v: string): string {
    if v == [] then [] else (if v[0] == '\'' then "''" else [v[0]]) + SqlEscape(v[1..])
  }

  lemma {:induction false} EscapeAppend(a: string, b: string)
    ensures SqlEscape(a + b) == SqlEscape(a) + SqlEscape(b)
    decreases |a|
  {
    if a == [] {
      assert a + b == b;
    } else {
      assert (a + b)[1..] == a[1..] + b;
      EscapeAppend(a[1..], b);
    }
  }

  lemma EscapeOne(c: char)
    ensures SqlEscape([c]) == if c == '\'' then "''" else [c]
  {
    assert [c][1..] == [];
  }

  /** Reading an escaped value gives the value and leaves the reader just after it, whatever follows. */
  lemma {:induction false} ReadEscaped(v: string, tail: string)
    ensures ReadBody(SqlEscape(v) + tail) == Prepend(v, ReadBody(tail))
    decreases |v|
  {
    if v == [] {
      assert SqlEscape(v) + tail == tail;
      PrependNothing(ReadBody(tail));
    } else {
      var rest := SqlEscape(v[1..]) + tail;
      if v[0] == '\'' {
        assert SqlEscape(v) + tail == "''" + rest;
        ReadPair(rest);
      } else {
        assert SqlEscape(v) + tail == [v[0]] + rest;
        ReadPlain(v[0], rest);
      }
      ReadEscaped(v[1..], tail);
      PrependTwice([v[0]], v[1..], ReadBody(tail));
      assert v == [v[0]] + v[1..];
    }
  }

  // ----- Where a literal ends -----

  lemma {:induction false} RestIsShorter(s: string)
    ensures ReadBody(s).Some? ==> |ReadBody(s).value.1| < |s|
    decreases |s|
  {
    if s == [] {
    } else if s[0] != '\'' {
      RestIsShorter(s[1..]);
    } else if |s| > 1 && s[1] == '\'' {
      RestIsShorter(s[2..]);
    } else if Continuation(s[1..]).Some? {
      RestIsShorter(Continuation(s[1..]).value);
    }
  }

  /** A literal ends at a closing quote unless what follows makes it go on. */
  lemma ReadClosing(v: string, z: string)
    ensures Prepend(v, ReadBody("'" + z)) == Some((v, z)) <==> !GoesOn(z)
  {
    ReadQuote(z);
    if StartsWithQuote(z) {
      RestIsShorter(z[1..]);
    } else if Continuation(z).Some? {
      RestIsShorter(Continuation(z).value);
    } else {
      assert v + "" == v;
    }
  }

  /** Its value is complete at a closing quote exactly when what follows adds nothing. */
  lemma {:induction false} AddsNothingMeaning(z: string)
    ensures ReadBody("'" + z).Some? && ReadBody("'" + z).value.0 == "" <==> AddsNothing(z)
    decreases |z|
  {
    ReadQuote(z);
    if StartsWithQuote(z) {
      NeverEmpty("'", ReadBody(z[1..]));
    } else if Continuation(z).None? {
    } else {
      var part := Continuation(z).value;
      if StartsWithQuote(part) {
        AddsNothingMeaning(part[1..]);
        assert part == "'" + part[1..];
      } else if part != [] {
        NeverEmpty([part[0]], ReadBody(part[1..]));
      }
    }
  }

  lemma NeverEmpty(v: string, r: Option<(string, string)>)
    requires v != []
    ensures Prepend(v, r).Some? ==> Prepend(v, r).value.0 != ""
  {
  }

  lemma ReadsClosing(v: string, z: string)
    ensures var r := Prepend(v, ReadBody("'" + z)); r.Some? && r.value.0 == v <==> AddsNothing(z)
  {
    AddsNothingMeaning(z);
    var r := ReadBody("'" + z);
    if r.Some? {
      assert |v + r.value.0| == |v| + |r.value.0|;
      assert r.value.0 == "" ==> v + r.value.0 == v;
    }
  }

  // ----- Whitespace behind a text -----

  lemma {:induction false} LineEndBefore(z: string, w: string, i: nat)
    requires i <= |z|
    ensures LineEnd(z, i).Some? ==> LineEnd(z + w, i) == LineEnd(z, i)
    ensures LineEnd(z, i).None? && LineEnd(z + w, i).Some? ==> |z| < LineEnd(z + w, i).value
    decreases |z| - i
  {
    if i == |z| {
    } else {
      assert (z + w)[i] == z[i];
      if !IsNewline(z[i]) {
        LineEndBefore(z, w, i + 1);
      }
    }
  }

  lemma {:induction false} BlockEndInSpaces(s: string, i: nat, depth: nat)
    requires i <= |s| && AllSpaces(s[i..])
    ensures BlockEnd(s, i, depth).None?
    decreases |s| - i
  {
    if i == |s| {
    } else {
      var here, next := s[i..], s[i + 1..];
      assert IsSpace(here[0]);
      assert forall k :: 0 <= k < |next| ==> next[k] == here[k + 1];
      BlockEndInSpaces(s, i + 1, depth);
    }
  }

  lemma PairBefore(z: string, w: string, i: nat, c: char, d: char)
    requires i < |z| && AllSpaces(w) && !IsSpace(d)
    ensures PairIs(z + w, i, c, d) <==> PairIs(z, i, c, d)
  {
    if i + 1 == |z| {
      assert w != [] ==> (z + w)[i + 1] == w[0];
    }
  }

  lemma {:induction false} BlockEndBefore(z: string, w: string, i: nat, depth: nat)
    requires i <= |z| && AllSpaces(w)
    ensures BlockEnd(z + w, i, depth) == BlockEnd(z, i, depth)
    decreases |z| - i
  {
    if i == |z| {
      assert (z + w)[i..] == w;
      BlockEndInSpaces(z + w, i, depth);
    } else {
      PairBefore(z, w, i, '*', '/');
      PairBefore(z, w, i, '/', '*');
      if PairIs(z, i, '*', '/') {
        if depth > 0 {
          BlockEndBefore(z, w, i + 2, depth - 1);
        }
      } else if PairIs(z, i, '/', '*') {
        BlockEndBefore(z, w, i + 2, depth + 1);
      } else {
        BlockEndBefore(z, w, i + 1, depth);
      }
    }
  }

  lemma CommentBefore(z: string, w: string)
    requires z != [] && AllSpaces(w)
    ensures CommentAt(z).Some? ==> CommentAt(z + w) == CommentAt(z)
    ensures CommentAt(z).None? && CommentAt(z + w).Some? ==> |z| < CommentAt(z + w).value && z[0] != '\''
  {
    PairBefore(z, w, 0, '-', '-');
    PairBefore(z, w, 0, '/', '*');
    if PairIs(z, 0, '-', '-') {
      LineEndBefore(z, w, 2);
    } else if PairIs(z, 0, '/', '*') {
      BlockEndBefore(z, w, 2, 0);
    }
  }

  /** Whitespace behind z moves the end of the separator only beyond z, and not past a quote. */
  lemma {:induction false} SeparatorBefore(z: string, w: string)
    requires AllSpaces(w)
    ensures Separator(z + w) < |z| ==> Separator(z + w) == Separator(z)
    ensures Separator(z) < |z| && z[Separator(z)] == '\'' ==> Separator(z + w) == Separator(z)
    decreases |z|
  {
    if z == [] {
    } else {
      assert (z + w)[0] == z[0];
      if IsSpace(z[0]) {
        assert (z + w)[1..] == z[1..] + w;
        SeparatorBefore(z[1..], w);
      } else {
        CommentBefore(z, w);
        if CommentAt(z).Some? {
          var n := CommentAt(z).value;
          assert (z + w)[n..] == z[n..] + w;
          SeparatorBefore(z[n..], w);
        }
      }
    }
  }

  lemma ContinuationBefore(z: string, w: string)
    requires AllSpaces(w)
    ensures Continuation(z + w) == match Continuation(z) case None => None case Some(part) => Some(part + w)
  {
    SeparatorBefore(z, w);
    var n, m := Separator(z), Separator(z + w);
    if m < |z| {
      assert m == n && (z + w)[m] == z[n] && (z + w)[..m] == z[..n] && (z + w)[m + 1..] == z[n + 1..] + w;
    } else {
      assert m < |z + w| ==> (z + w)[m] == w[m - |z|];
    }
  }

  /** Whitespace after a text does not change what its literal reads as. */
  lemma {:induction false} ReadBeforeSpaces(t: string, w: string)
    requires AllSpaces(w)
    ensures ReadBody(t + w).Some? <==> ReadBody(t).Some?
    ensures ReadBody(t).Some? ==> ReadBody(t + w).value.0 == ReadBody(t).value.0
    decreases |t|
  {
    if t == [] {
      assert t + w == w;
      NoLiteralEnd(w);
    } else {
      assert (t + w)[1..] == t[1..] + w && (t + w)[0] == t[0];
      if t[0] != '\'' {
        ReadBeforeSpaces(t[1..], w);
      } else if |t| > 1 && t[1] == '\'' {
        assert (t + w)[2..] == t[2..] + w;
        ReadBeforeSpaces(t[2..], w);
      } else {
        ContinuationBefore(t[1..], w);
        assert |t| == 1 && w != [] ==> (t + w)[1] == w[0];
        if Continuation(t[1..]).Some? {
          ReadBeforeSpaces(Continuation(t[1..]).value, w);
        }
      }
    }
  }

  lemma {:induction false} NoLiteralEnd(w: string)
    requires AllSpaces(w)
    ensures ReadBody(w).None?
    decreases |w|
  {
    if w == [] {
    } else {
      NoLiteralEnd(w[1..]);
    }
  }

  /** The literal goes on over a newline: its parts are joined. */
  lemma LiteralsAreJoined()
    ensures ReadLiteral("'a'\n'b'") == Some(("ab", ""))
  {
    var z := "\n'b'";
    assert z[1..] == "'b'" && z[..1] == "\n" && z[2..] == "b'";
    assert Separator("'b'") == 0 && Separator(z) == 1;
    assert IsNewline(z[..1][0]);
    assert Continuation(z) == Some("b'");
    assert "'a'\n'b'"[1..] == ['a'] + ("'" + z);
    ReadPlain('a', "'" + z);
    ReadQuote(z);
    assert "b'" == ['b'] + ("'" + "");
    ReadPlain('b', "'" + "");
    ReadQuote("");
    assert Separator("") == 0;
    assert ['b'] + "" == "b" && ['a'] + "b" == "ab";
  }
}
