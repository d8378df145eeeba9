/**
 The grammar of zephyr-build/src/devicetree/dts.pest as a recogniser: each function tries one rule at the
 start of a text and gives the matched pieces with what follows them.  Choices are ordered and
 repetitions take as much as they can, as in any parsing expression grammar.
 */
module DtsGrammar {
  import opened Prelude

  datatype Result<T> = Fail | Match(val: T, rest: string)

  // ---------------------------------------------------------------- pieces of text

  datatype WordText = DecText(text: string) | HexText(text: string) | RefText(text: string)

  datatype ValueText =
    | StringText(text: string)        // with its quotes
    | WordsText(words: seq<WordText>)
    | BytesText(bytes: seq<string>)
    | PhandleText(text: string)       // with its ampersand

  datatype PropText = PropText(name: string, values: seq<ValueText>)

  // `name` is None for the root's "/".
  datatype NodeText = NodeText(labels: seq<string>, name: Option<string>, entries: seq<EntryText>)

  datatype EntryText = PropEntry(prop: PropText) | NodeEntry(node: NodeText)

  // ---------------------------------------------------------------- characters

  predicate IsSpace(c: char) { c == ' ' || c == '\r' || c == '\n' || c == '\t' }

  predicate IsDigit(c: char) { '0' <= c <= '9' }

  predicate IsHexDigit(c: char) { IsDigit(c) || 'a' <= c <= 'f' || 'A' <= c <= 'F' }

  predicate IsAlpha(c: char) { 'a' <= c <= 'z' || 'A' <= c <= 'Z' }

  predicate IsLabelChar(c: char) { IsAlpha(c) || IsDigit(c) || c == '_' }

  predicate IsNameChar(c: char) {
    IsLabelChar(c) || c == ',' || c == '.' || c == '?' || c == '-' || c == '@' || c == '#'
  }

  predicate IsStringChar(c: char) { c != '"' && c != '\n' }

  // The number of leading characters of a class.
  function Span(p: char -> bool, s: string): (n: nat)
    ensures n <= |s| && (forall i :: 0 <= i < n ==> p(s[i])) && (n < |s| ==> !p(s[n]))
  {
    if s == "" || !p(s[0]) then 0 else 1 + Span(p, s[1..])
  }

  // ---------------------------------------------------------------- blanks and comments

  // What follows the end of a comment.
  function CommentEnd(s: string): (r: Option<string>)
    ensures r.Some? ==> |r.value| < |s|
  {
    if |s| < 2 then None else if s[0] == '*' && s[1] == '/' then Some(s[2..]) else CommentEnd(s[1..])
  }

  function Skip(s: string): (r: string)
    ensures |r| <= |s|
    decreases |s|
  {
    if s != "" && IsSpace(s[0]) then Skip(s[1..])
    else if |s| >= 2 && s[0] == '/' && s[1] == '*' && CommentEnd(s[2..]).Some? then
      Skip(CommentEnd(s[2..]).value)
    else s
  }

  // ---------------------------------------------------------------- tokens

  // A literal: what follows it.
  function Lit(t: string, s: string): (r: Option<string>)
    ensures r.Some? ==> |r.value| == |s| - |t|
  {
    if t <= s then Some(s[|t|..]) else None
  }

  // A literal after blanks.
  function Sep(t: string, s: string): (r: Option<string>)
    ensures r.Some? ==> |r.value| <= |s| - |t|
  {
    Lit(t, Skip(s))
  }

  function Nodename(s: string): (r: Result<string>)
    ensures r.Match? ==> |r.rest| < |s|
  {
    var n := Span(IsNameChar, s);
    if n == 0 then Fail else Match(s[..n], s[n..])
  }

  function Label(s: string): (r: Result<string>)
    ensures r.Match? ==> |r.rest| < |s|
  {
    if s == "" || !IsAlpha(s[0]) then Fail
    else
      var n := 1 + Span(IsLabelChar, s[1..]);
      Match(s[..n], s[n..])
  }

  function Phandle(s: string): (r: Result<string>)
    ensures r.Match? ==> |r.rest| < |s|
  {
    if s == "" || s[0] != '&' then Fail
    else match Label(s[1..])
      case Fail => Fail
      case Match(lab, rest) => Match("&" + lab, rest)
  }

  function StringLit(s: string): (r: Result<string>)
    ensures r.Match? ==> |r.rest| < |s|
  {
    if s == "" || s[0] != '"' then Fail
    else
      var n := 1 + Span(IsStringChar, s[1..]);
      if n < |s| && s[n] == '"' then Match(s[..n + 1], s[n + 1..]) else Fail
  }

  function DecNumber(s: string): (r: Result<string>)
    ensures r.Match? ==> |r.rest| < |s|
  {
    if s == "" || !IsDigit(s[0]) || s[0] == '0' then Fail
    else
      var n := Span(IsDigit, s);
      Match(s[..n], s[n..])
  }

  function HexNumber(s: string): (r: Result<string>)
    ensures r.Match? ==> |r.rest| < |s|
  {
    if |s| < 2 || s[0] != '0' || (s[1] != 'x' && s[1] != 'X') then Fail
    else
      var n := Span(IsHexDigit, s[2..]);
      if n == 0 then Fail else Match(s[..2 + n], s[2 + n..])
  }

  function PlainHex(s: string): (r: Result<string>)
    ensures r.Match? ==> |r.rest| < |s|
  {
    var n := Span(IsHexDigit, s);
    if n == 0 then Fail else Match(s[..n], s[n..])
  }

  function Word(s: string): (r: Result<WordText>)
    ensures r.Match? ==> |r.rest| < |s|
  {
    match DecNumber(s)
    case Match(t, rest) => Match(DecText(t), rest)
    case Fail =>
      match HexNumber(s)
      case Match(t, rest) => Match(HexText(t), rest)
      case Fail =>
        match Phandle(s)
        case Match(t, rest) => Match(RefText(t), rest)
        case Fail => Fail
  }

  // ---------------------------------------------------------------- values

  function MoreWords(s: string): (r: (seq<WordText>, string))
    ensures |r.1| <= |s|
    decreases |s|
  {
    match Word(Skip(s))
    case Fail => ([], s)
    case Match(w, rest) => var (ws, rest') := MoreWords(rest); ([w] + ws, rest')
  }

  function MoreBytes(s: string): (r: (seq<string>, string))
    ensures |r.1| <= |s|
    decreases |s|
  {
    match PlainHex(Skip(s))
    case Fail => ([], s)
    case Match(b, rest) => var (bs, rest') := MoreBytes(rest); ([b] + bs, rest')
  }

  function Words(s: string): (r: Result<ValueText>)
    ensures r.Match? ==> |r.rest| < |s|
  {
    match Lit("<", s)
    case None => Fail
    case Some(s1) =>
      var (ws, s2) := MoreWords(s1);
      match Sep(">", s2)
      case None => Fail
      case Some(s3) => if ws == [] then Fail else Match(WordsText(ws), s3)
  }

  function Bytes(s: string): (r: Result<ValueText>)
    ensures r.Match? ==> |r.rest| < |s|
  {
    match Lit("[", s)
    case None => Fail
    case Some(s1) =>
      var (bs, s2) := MoreBytes(s1);
      match Sep("]", s2)
      case None => Fail
      case Some(s3) => if bs == [] then Fail else Match(BytesText(bs), s3)
  }

  function Value(s: string): (r: Result<ValueText>)
    ensures r.Match? ==> |r.rest| < |s|
  {
    match StringLit(s)
    case Match(t, rest) => Match(StringText(t), rest)
    case Fail =>
      var w := Words(s);
      if w.Match? then w
      else
        var b := Bytes(s);
        if b.Match? then b
        else
          match Phandle(s)
          case Match(t, rest) => Match(PhandleText(t), rest)
          case Fail => Fail
  }

  function MoreValues(s: string): (r: (seq<ValueText>, string))
    ensures |r.1| <= |s|
    decreases |s|
  {
    match Sep(",", s)
    case None => ([], s)
    case Some(s1) =>
      match Value(Skip(s1))
      case Fail => ([], s)
      case Match(v, rest) => var (vs, rest') := MoreValues(rest); ([v] + vs, rest')
  }

  // ---------------------------------------------------------------- properties and nodes

  // The part of a property after its name and an equals sign.
  function PropValues(s: string): (r: Result<seq<ValueText>>)
    ensures r.Match? ==> |r.rest| < |s|
  {
    match Sep("=", s)
    case None => Fail
    case Some(s1) =>
      match Value(Skip(s1))
      case Fail => Fail
      case Match(v, s2) =>
        var (vs, s3) := MoreValues(s2);
        match Sep(";", s3)
        case None => Fail
        case Some(s4) => Match([v] + vs, s4)
  }

  function Property(s: string): (r: Result<PropText>)
    ensures r.Match? ==> |r.rest| < |s|
  {
    match Nodename(s)
    case Fail => Fail
    case Match(name, s1) =>
      match PropValues(s1)
      case Match(vs, s2) => Match(PropText(name, vs), s2)
      case Fail =>
        match Sep(";", s1)
        case None => Fail
        case Some(s2) => Match(PropText(name, []), s2)
  }

  // Labels, each with its colon.
  function Labels(s: string): (r: (seq<string>, string))
    ensures |r.1| <= |s|
    decreases |s|
  {
    match Label(Skip(s))
    case Fail => ([], s)
    case Match(lab, s1) =>
      match Sep(":", s1)
      case None => ([], s)
      case Some(s2) => var (labs, rest) := Labels(s2); ([lab] + labs, rest)
  }

  function NameOrRoot(s: string): (r: Result<Option<string>>)
    ensures r.Match? ==> |r.rest| < |s|
  {
    match Lit("/", s)
    case Some(rest) => Match(None, rest)
    case None =>
      match Nodename(s)
      case Match(name, rest) => Match(Some(name), rest)
      case Fail => Fail
  }

  function Node(s: string): (r: Result<NodeText>)
    ensures r.Match? ==> |r.rest| < |s|
    decreases |s|, 0
  {
    var (labs, s1) := Labels(s);
    match NameOrRoot(Skip(s1))
    case Fail => Fail
    case Match(name, s2) =>
      match Sep("{", s2)
      case None => Fail
      case Some(s3) =>
        var (es, s4) := Entries(s3);
        match Sep("}", s4)
        case None => Fail
        case Some(s5) =>
          match Sep(";", s5)
          case None => Fail
          case Some(s6) => Match(NodeText(labs, name, es), s6)
  }

  function Entry(s: string): (r: Result<EntryText>)
    ensures r.Match? ==> |r.rest| < |s|
    decreases |s|, 1
  {
    match Property(s)
    case Match(p, rest) => Match(PropEntry(p), rest)
    case Fail =>
      match Node(s)
      case Match(n, rest) => Match(NodeEntry(n), rest)
      case Fail => Fail
  }

  function Entries(s: string): (r: (seq<EntryText>, string))
    ensures |r.1| <= |s|
    decreases |s|, 2
  {
    match Entry(Skip(s))
    case Fail => ([], s)
    case Match(e, rest) => var (es, rest') := Entries(rest); ([e] + es, rest')
  }

  // A whole file.
  function File(s: string): Option<NodeText> {
    match Sep("/dts-v1/", s)
    case None => None
    case Some(s1) =>
      match Sep(";", s1)
      case None => None
      case Some(s2) =>
        match Node(Skip(s2))
        case Fail => None
        case Match(n, rest) => if Skip(rest) == "" then Some(n) else None
  }
}
