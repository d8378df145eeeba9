/**
 Text as tokens with blanks and comments in between.
 */
module DtsLayout {
  import opened Prelude
  import G = DtsGrammar
  import opened DtsPrint
  import R = DtsRoundTrip

  // ---------------------------------------------------------------- blanks and comments

  // A comment by what stands between its marks.
  datatype Piece = Blank(c: char) | Comment(text: string)

  type Gap = seq<Piece>

  // The first closing mark behind the opening one is the comment's own.
  ghost predicate Closes(text: string) {
    forall i :: 0 <= i < |text| ==> !MarkAt(text + "*/", i)
  }

  predicate MarkAt(s: string, i: nat) { i + 1 < |s| && s[i] == '*' && s[i + 1] == '/' }

  ghost predicate GoodPiece(p: Piece) {
    match p
    case Blank(c) => c in " \r\n\t"
    case Comment(text) => Closes(text)
  }

  ghost predicate GoodGap(g: Gap) { forall i :: 0 <= i < |g| ==> GoodPiece(g[i]) }

  function PieceText(p: Piece): string {
    match p
    case Blank(c) => [c]
    case Comment(text) => "/*" + (text + "*/")
  }

  // A gap in front of a text.
  function GapOnto(g: Gap, k: string): string {
    if g == [] then k else PieceText(g[0]) + GapOnto(g[1..], k)
  }

  lemma {:induction false} CommentEndFirst(text: string, k: string)
    requires Closes(text)
    ensures G.CommentEnd(text + ("*/" + k)) == Some(k)
  {
    var s := text + ("*/" + k);
    if text == "" {
      assert s == "*/" + k && s[2..] == k;
    } else {
      assert !MarkAt(text + "*/", 0);
      assert s[0] == (text + "*/")[0] && s[1] == (text + "*/")[1];
      assert s[1..] == text[1..] + ("*/" + k);
      forall i | 0 <= i < |text| - 1 ensures !MarkAt(text[1..] + "*/", i) {
        assert text[1..] + "*/" == (text + "*/")[1..] && !MarkAt(text + "*/", i + 1);
      }
      CommentEndFirst(text[1..], k);
    }
  }

  // Blanks and comments are skipped, each comment up to the first closing mark.
  lemma PieceSkipped(p: Piece, k: string)
    requires GoodPiece(p)
    ensures G.Skip(PieceText(p) + k) == G.Skip(k)
  {
    match p
    case Blank(c) =>
      assert G.IsSpace(c);
      R.SkipBlank([c], k);
    case Comment(text) =>
      var s := "/*" + (text + "*/") + k;
      assert s[0] == '/' && s[1] == '*' && !G.IsSpace(s[0]);
      assert s[2..] == text + ("*/" + k);
      CommentEndFirst(text, k);
  }

  lemma {:induction false} GapSkipped(g: Gap, k: string)
    requires GoodGap(g)
    ensures G.Skip(GapOnto(g, k)) == G.Skip(k)
  {
    if g != [] {
      GapSkipped(g[1..], k);
      PieceSkipped(g[0], GapOnto(g[1..], k));
      hide G.Skip, GoodPiece;
    }
  }

  lemma {:induction false} CommentFound(s: string) returns (text: string)
    requires G.CommentEnd(s).Some?
    ensures Closes(text) && s == text + ("*/" + G.CommentEnd(s).value)
  {
    if s[0] == '*' && s[1] == '/' {
      text := "";
      assert s == "*/" + s[2..];
    } else {
      var rest := CommentFound(s[1..]);
      text := [s[0]] + rest;
      var whole := text + "*/";
      assert s == [s[0]] + s[1..];
      assert whole == [s[0]] + (rest + "*/");
      forall i | 0 <= i < |text| ensures !MarkAt(whole, i) {
        if i == 0 {
          assert whole[1] == (rest + "*/")[0] == s[1];
        } else {
          assert !MarkAt(rest + "*/", i - 1);
        }
      }
    }
  }

  // A piece in front of what a gap ends with.
  lemma PieceFirst(p: Piece, g: Gap, k: string, u: string)
    requires GoodPiece(p) && GoodGap(g) && k == GapOnto(g, u)
    ensures GoodGap([p] + g) && PieceText(p) + k == GapOnto([p] + g, u)
  {
    Cons(p, g);
    hide GoodPiece, PieceText;
  }

  // What is skipped is blanks and comments.
  lemma {:induction false} SkippedIsGap(s: string) returns (g: Gap)
    ensures GoodGap(g) && s == GapOnto(g, G.Skip(s))
    decreases |s|
  {
    hide GapOnto, G.CommentEnd, Closes;
    if s != "" && G.IsSpace(s[0]) {
      var rest := SkippedIsGap(s[1..]);
      g := [Blank(s[0])] + rest;
      assert s == [s[0]] + s[1..];
      PieceFirst(Blank(s[0]), rest, s[1..], G.Skip(s));
    } else if |s| >= 2 && s[0] == '/' && s[1] == '*' && G.CommentEnd(s[2..]).Some? {
      var text := CommentFound(s[2..]);
      var k := G.CommentEnd(s[2..]).value;
      var rest := SkippedIsGap(k);
      g := [Comment(text)] + rest;
      assert s == "/*" + s[2..] == PieceText(Comment(text)) + k;
      PieceFirst(Comment(text), rest, k, G.Skip(s));
    } else {
      g := [];
      NoGap(s);
    }
  }

  lemma NoGap(s: string)
    ensures GapOnto([], s) == s
  {
  }

  // ---------------------------------------------------------------- tokens

  datatype Kind = MarkKind | SlashKind | NameKind | LabelKind | RefKind | DecKind | HexKind | ByteKind | QuotedKind

  datatype Token = Token(kind: Kind, text: string)

  const MARKS: set<string> := {"/dts-v1/", "{", "}", ";", ":", "=", ",", "<", ">", "[", "]"}

  ghost predicate Hexes(s: string) { s != "" && forall i :: 0 <= i < |s| ==> G.IsHexDigit(s[i]) }

  // What a token of each kind looks like.
  ghost predicate GoodToken(t: Token) {
    match t.kind
    case MarkKind => t.text in MARKS
    case SlashKind => t.text == "/"
    case NameKind => GoodName(t.text)
    case LabelKind => GoodLabel(t.text)
    case RefKind => t.text != "" && t.text[0] == '&' && GoodLabel(t.text[1..])
    case DecKind => t.text != "" && t.text[0] != '0' && forall i :: 0 <= i < |t.text| ==> G.IsDigit(t.text[i])
    case HexKind => |t.text| > 2 && t.text[0] == '0' && (t.text[1] == 'x' || t.text[1] == 'X') && Hexes(t.text[2..])
    case ByteKind => Hexes(t.text)
    case QuotedKind =>
      var n := |t.text|;
      n >= 2 && t.text[0] == '"' && t.text[n - 1] == '"' && GoodText(t.text[1..n - 1])
  }

  // The character right behind a token would be taken as part of it.
  predicate Continues(kind: Kind, c: char) {
    match kind
    case MarkKind => false
    case SlashKind => c == '*'
    case NameKind => G.IsNameChar(c)
    case LabelKind => G.IsLabelChar(c)
    case RefKind => G.IsLabelChar(c)
    case DecKind => G.IsDigit(c)
    case HexKind => G.IsHexDigit(c)
    case ByteKind => G.IsHexDigit(c)
    case QuotedKind => false
  }

  predicate Parts(t: Token, k: string) { k == "" || !Continues(t.kind, k[0]) }

  // The token stands at the start of the text and ends there.
  ghost predicate Starts(t: Token, s: string) { GoodToken(t) && t.text <= s && Parts(t, s[|t.text|..]) }

  // What follows the tokens, each behind blanks and comments.
  ghost function Eat(toks: seq<Token>, s: string): Option<string> {
    if toks == [] then Some(s)
    else
      var u := G.Skip(s);
      if Starts(toks[0], u) then Eat(toks[1..], u[|toks[0].text|..]) else None
  }

  // Tokens, each behind its gap, in front of a rest.
  function Weave(toks: seq<Token>, gaps: seq<Gap>, k: string): string
    requires |gaps| == |toks|
  {
    if toks == [] then k else GapOnto(gaps[0], toks[0].text + Weave(toks[1..], gaps[1..], k))
  }

  ghost predicate Fits(toks: seq<Token>, gaps: seq<Gap>, k: string) {
    && |gaps| == |toks|
    && (toks != [] ==>
          && GoodToken(toks[0]) && GoodGap(gaps[0]) && Parts(toks[0], Weave(toks[1..], gaps[1..], k))
          && Fits(toks[1..], gaps[1..], k))
  }

  // No token starts with a blank or a comment.
  lemma TokenSolid(t: Token, k: string)
    requires GoodToken(t) && Parts(t, k)
    ensures G.Skip(t.text + k) == t.text + k && t.text != ""
  {
    var s := t.text + k;
    if t.kind == MarkKind {
      MarkSolid(t.text);
      assert |t.text| > 1 ==> s[1] == t.text[1];
    } else if t.kind == SlashKind {
      assert k != "" ==> s[1] == k[0];
    } else {
      TokenText(t);
    }
    assert s[0] == t.text[0];
    if t.kind != SlashKind { R.SkipSolid(s); }
  }

  lemma MarkSolid(m: string)
    requires m in MARKS
    ensures m != "" && !G.IsSpace(m[0]) && (m[0] == '/' ==> |m| >= 2 && m[1] != '*')
  {
    assert "/dts-v1/"[0] == '/' && "/dts-v1/"[1] == 'd';
  }

  lemma TokenText(t: Token)
    requires GoodToken(t) && t.kind != MarkKind && t.kind != SlashKind
    ensures t.text != "" && !G.IsSpace(t.text[0]) && t.text[0] != '/'
  {
    if t.kind == LabelKind || t.kind == NameKind { assert G.IsNameChar(t.text[0]); }
  }

  // ---------------------------------------------------------------- tokens behind gaps

  lemma OneToken(t: Token, g: Gap, k: string)
    requires GoodToken(t) && GoodGap(g) && Parts(t, k)
    ensures var u := G.Skip(GapOnto(g, t.text + k)); Starts(t, u) && u[|t.text|..] == k
  {
    GapSkipped(g, t.text + k);
    TokenSolid(t, k);
    R.Cut(t.text, k);
    hide GoodToken, G.Skip, GoodGap;
  }

  lemma {:induction false} WeaveEaten(toks: seq<Token>, gaps: seq<Gap>, k: string)
    requires Fits(toks, gaps, k)
    ensures Eat(toks, Weave(toks, gaps, k)) == Some(k)
  {
    if toks != [] {
      WeaveEaten(toks[1..], gaps[1..], k);
      OneToken(toks[0], gaps[0], Weave(toks[1..], gaps[1..], k));
      hide Starts, G.Skip, GoodToken, GoodGap;
    }
  }

  lemma {:induction false} EatenIsWeave(toks: seq<Token>, s: string) returns (gaps: seq<Gap>)
    requires Eat(toks, s).Some?
    ensures Fits(toks, gaps, Eat(toks, s).value) && s == Weave(toks, gaps, Eat(toks, s).value)
  {
    if toks == [] {
      gaps := [];
    } else {
      var u, t := G.Skip(s), toks[0];
      var k := u[|t.text|..];
      var rest := EatenIsWeave(toks[1..], k);
      var g := SkippedIsGap(s);
      assert u == t.text + k;
      gaps := [g] + rest;
      Cons(g, rest);
      hide G.Skip, GoodToken, GoodGap, Continues;
    }
  }

  // A text goes on behind the tokens with `k` exactly when it is the tokens with blanks and comments in front of each,
  // and `k`.
  lemma EatExactly(toks: seq<Token>, s: string, k: string)
    ensures Eat(toks, s) == Some(k) <==> exists gaps :: Fits(toks, gaps, k) && s == Weave(toks, gaps, k)
  {
    if Eat(toks, s) == Some(k) { var gaps := EatenIsWeave(toks, s); }
    if gaps :| Fits(toks, gaps, k) && s == Weave(toks, gaps, k) { WeaveEaten(toks, gaps, k); }
  }

  lemma {:induction false} EatAppend(a: seq<Token>, b: seq<Token>, s: string)
    ensures Eat(a + b, s) == match Eat(a, s) case Some(m) => Eat(b, m) case None => None
  {
    hide Starts, G.Skip;
    if a == [] {
      assert a + b == b;
    } else {
      assert (a + b)[1..] == a[1..] + b && (a + b)[0] == a[0];
      var u := G.Skip(s);
      if Starts(a[0], u) {
        StartsWithin(a[0], u);
        EatAppend(a[1..], b, u[|a[0].text|..]);
      }
    }
  }

  lemma StartsWithin(t: Token, s: string)
    requires Starts(t, s)
    ensures |t.text| <= |s|
  {
  }

  lemma EatOne(t: Token, s: string)
    ensures Eat([t], s) == if Starts(t, G.Skip(s)) then Some(G.Skip(s)[|t.text|..]) else None
  {
    hide Starts, G.Skip;
    assert [t][1..] == [] && [t][0] == t;
    if Starts(t, G.Skip(s)) {
      StartsWithin(t, G.Skip(s));
      assert Eat([t][1..], G.Skip(s)[|t.text|..]) == Some(G.Skip(s)[|t.text|..]);
    }
  }

  // A gap between two tokens is always enough to keep them apart.
  lemma GapParts(t: Token, g: Gap, k: string)
    requires GoodGap(g) && g != []
    ensures Parts(t, GapOnto(g, k))
  {
    assert GoodPiece(g[0]);
    var s := GapOnto(g, k);
    assert s == PieceText(g[0]) + GapOnto(g[1..], k) && s[0] == PieceText(g[0])[0];
  }

  lemma {:induction false} SpacedFits(toks: seq<Token>, gaps: seq<Gap>, k: string)
    requires |gaps| == |toks| && (forall i :: 0 <= i < |toks| ==> GoodToken(toks[i]) && GoodGap(gaps[i]))
    requires forall i :: 1 <= i < |toks| ==> gaps[i] != []
    requires toks != [] ==> Parts(toks[|toks| - 1], k)
    ensures Fits(toks, gaps, k)
  {
    hide GoodToken, GoodGap, Parts;
    if toks != [] {
      SpacedFits(toks[1..], gaps[1..], k);
      if |toks| > 1 {
        GapParts(toks[0], gaps[1], toks[1].text + Weave(toks[2..], gaps[2..], k));
        assert toks[1..][1..] == toks[2..] && gaps[1..][1..] == gaps[2..];
      }
    }
  }
}
