/**
 BibTeX field parsing (src/tarkka/infrastructure/bibliography_bibtex.py). The functions
 say what is read from the rest of a text; the methods are the cursor loops.
 */
module BibtexFields {
  import opened Wrappers
  import opened PythonText

  datatype Field = Field(name: string, value: string)

  /** Something read, and what is left. */
  datatype Read<+T> = Read(value: T, rest: string)

  // ----- scanning, on the rest of the text

  function SkipSpaces(s: string): (r: string)
    ensures |r| <= |s|
    ensures r != [] ==> !IsSpace(r[0])
  {
    if s != [] && IsSpace(s[0]) then SkipSpaces(s[1..]) else s
  }

  function SkipSpacesAndCommas(s: string): (r: string)
    ensures |r| <= |s|
    ensures r != [] ==> !IsSpace(r[0]) && r[0] != ','
  {
    if s != [] && (IsSpace(s[0]) || s[0] == ',') then SkipSpacesAndCommas(s[1..]) else s
  }

  predicate IsNameStart(c: char) {
    'A' <= c <= 'Z' || 'a' <= c <= 'z'
  }

  predicate IsNameChar(c: char) {
    IsNameStart(c) || '0' <= c <= '9' || c == '_' || c == '-'
  }

  function NameTail(s: string): (n: nat)
    ensures n <= |s|
  {
    if s != [] && IsNameChar(s[0]) then 1 + NameTail(s[1..]) else 0
  }

  /** Length of the match of `[A-Za-z][A-Za-z0-9_-]*`, or 0. */
  function NameLength(s: string): (n: nat)
    ensures n <= |s|
  {
    if s != [] && IsNameStart(s[0]) then 1 + NameTail(s[1..]) else 0
  }

  datatype Scan = Scan(depth: nat, braces: nat, quoted: bool, escaped: bool)

  /** One character of `_balanced_body`; the text is closed when the depth reaches 0. */
  function ScanChar(st: Scan, c: char, opener: char, closer: char): Scan
    requires st.depth > 0
  {
    if st.escaped then st.(escaped := false)
    else if c == '\\' then st.(escaped := true)
    else if opener == '(' && c == '{' && !st.quoted then st.(braces := st.braces + 1)
    else if opener == '(' && c == '}' && st.braces > 0 && !st.quoted then st.(braces := st.braces - 1)
    else if opener == '(' && c == '"' && st.braces == 0 then st.(quoted := !st.quoted)
    else if opener == '(' && (st.braces > 0 || st.quoted) then st
    else if c == opener then st.(depth := st.depth + 1)
    else if c == closer then st.(depth := st.depth - 1)
    else st
  }

  /** How many characters come before the closing delimiter. */
  function CloseAt(s: string, st: Scan, opener: char, closer: char): (n: Option<nat>)
    requires st.depth > 0
    ensures n.Some? ==> n.value < |s|
  {
    if s == [] then None
    else
      var next := ScanChar(st, s[0], opener, closer);
      if next.depth == 0 then Some(0)
      else match CloseAt(s[1..], next, opener, closer)
           case None => None
           case Some(n) => Some(n + 1)
  }

  function Balanced(s: string, opener: char, closer: char): (r: Result<Read<string>>)
    ensures r.Ok? ==> |r.value.rest| < |s|
  {
    match CloseAt(s, Scan(1, 0, false, false), opener, closer)
    case None => Err
    case Some(n) => Ok(Read(s[..n], s[n + 1..]))
  }

  function QuoteAt(s: string, depth: nat, escaped: bool): (n: Option<nat>)
    ensures n.Some? ==> n.value < |s|
  {
    if s == [] then None
    else if !escaped && s[0] == '"' && depth == 0 then Some(0)
    else
      var nextEscaped := !escaped && s[0] == '\\';
      var nextDepth := if escaped || s[0] == '\\' then depth
                       else if s[0] == '{' then depth + 1
                       else if s[0] == '}' && depth > 0 then depth - 1
                       else depth;
      match QuoteAt(s[1..], nextDepth, nextEscaped)
      case None => None
      case Some(n) => Some(n + 1)
  }

  function Quoted(s: string): (r: Result<Read<string>>)
    ensures r.Ok? ==> |r.value.rest| < |s|
  {
    match QuoteAt(s, 0, false)
    case None => Err
    case Some(n) => Ok(Read(s[..n], s[n + 1..]))
  }

  /** The characters of the pattern `[A-Za-z][A-Za-z0-9_-]*`, by their codes. */
  lemma NameCharsAre(c: char)
    ensures IsNameStart(c) <==> 65 <= c as int <= 90 || 97 <= c as int <= 122
    ensures IsNameChar(c) <==>
            IsNameStart(c) || 48 <= c as int <= 57 || c as int == 95 || c as int == 45
  {
  }

  lemma TokenEndsAre(c: char)
    ensures EndsToken(c) <==> c as int in {35, 44, 13, 10, 9, 32}
  {
  }

  predicate EndsToken(c: char) {
    c == '#' || c == ',' || c == '\r' || c == '\n' || c == '\t' || c == ' '
  }

  function TokenLength(s: string): (n: nat)
    ensures n <= |s|
  {
    if s != [] && !EndsToken(s[0]) then 1 + TokenLength(s[1..]) else 0
  }

  function Atom(s: string, macros: map<string, string>): (r: Result<Read<string>>)
    ensures r.Ok? ==> |r.value.rest| < |s|
  {
    if s == [] then Err
    else if s[0] == '{' then Balanced(s[1..], '{', '}')
    else if s[0] == '"' then Quoted(s[1..])
    else
      var n := TokenLength(s);
      var token := Strip(s[..n]);
      if token == [] then Err
      else
        StripShortens(s[..n]);
        Ok(Read(if Lower(token) in macros then macros[Lower(token)] else token, s[n..]))
  }

  lemma {:induction false} StripShortens(s: string)
    ensures |Strip(s)| <= |s|
    decreases |s|
  {
    if s != [] && IsSpace(s[0]) {
      StripShortens(s[1..]);
    } else if s != [] && IsSpace(s[|s| - 1]) {
      StripShortens(s[..|s| - 1]);
    }
  }

  /** Atoms joined by `#`. */
  function Value(s: string, parts: string, macros: map<string, string>): (r: Result<Read<string>>)
    ensures r.Ok? ==> |r.value.rest| < |s|
    decreases |s|
  {
    match Atom(s, macros)
    case Err => Err
    case Ok(atom) =>
      var after := SkipSpaces(atom.rest);
      if after == [] || after[0] != '#' then Ok(Read(parts + atom.value, after))
      else Value(SkipSpaces(after[1..]), parts + atom.value, macros)
  }

  /** One `name = value` after spaces and commas have been skipped. */
  function OneField(s: string, folded: set<string>, macros: map<string, string>): (r: Result<Read<Field>>)
    ensures r.Ok? ==> |r.value.rest| < |s|
  {
    var n := NameLength(s);
    if n == 0 || Lower(s[..n]) in folded then Err
    else
      var after := SkipSpaces(s[n..]);
      if after == [] || after[0] != '=' then Err
      else
        match Value(SkipSpaces(after[1..]), [], macros)
        case Err => Err
        case Ok(value) =>
          var end := SkipSpaces(value.rest);
          if end != [] && end[0] != ',' then Err else Ok(Read(Field(s[..n], Strip(value.value)), end))
  }

  function Fields(s: string, found: seq<Field>, folded: set<string>, macros: map<string, string>): Result<seq<Field>>
    decreases |s|
  {
    var start := SkipSpacesAndCommas(s);
    if start == [] then Ok(found)
    else
      match OneField(start, folded, macros)
      case Err => Err
      case Ok(field) => Fields(field.rest, found + [field.value], folded + {Lower(field.value.name)}, macros)
  }

  // ----- writing

  /** A value that braces can delimit: plain characters, escaped characters, and balanced groups. */
  datatype Piece = Plain(c: char) | Escaped(c: char) | Group(body: seq<Piece>)

  ghost predicate Wellformed(p: Piece) {
    match p
    case Plain(c) => c != '\\' && c != '{' && c != '}'
    case Escaped(_) => true
    case Group(body) => forall q :: q in body ==> Wellformed(q)
  }

  ghost function WritePiece(p: Piece): string {
    match p
    case Plain(c) => [c]
    case Escaped(c) => ['\\', c]
    case Group(body) => "{" + WriteAll(body) + "}"
  }

  ghost function WriteAll(pieces: seq<Piece>): string {
    if pieces == [] then [] else WritePiece(pieces[0]) + WriteAll(pieces[1..])
  }

  /** One part of a value: braced, quoted, or a bare token, which may be the name of a macro. */
  datatype Part = Braced(body: seq<Piece>) | InQuotes(body: seq<Piece>) | Token(text: string)

  ghost predicate PartOk(p: Part) {
    match p
    case Braced(body) => forall q :: q in body ==> Wellformed(q)
    case InQuotes(body) => forall q :: q in body ==> Wellformed(q) && q != Plain('"')
    case Token(text) =>
      && text != [] && text[0] != '{' && text[0] != '"'
      && !IsSpace(text[0]) && !IsSpace(text[|text| - 1])
      && forall i :: 0 <= i < |text| ==> !EndsToken(text[i])
  }

  ghost function WritePart(p: Part): string {
    match p
    case Braced(body) => "{" + WriteAll(body) + "}"
    case InQuotes(body) => "\"" + WriteAll(body) + "\""
    case Token(text) => text
  }

  /** What a part stands for: the text between its delimiters, the macro's value, or the token itself. */
  ghost function Meaning(p: Part, macros: map<string, string>): string {
    match p
    case Braced(body) => WriteAll(body)
    case InQuotes(body) => WriteAll(body)
    case Token(text) => if Lower(text) in macros then macros[Lower(text)] else text
  }

  /** A nonempty list of parts, joined by ` # `. */
  ghost function WriteParts(parts: seq<Part>): string
    requires parts != []
  {
    WritePart(parts[0]) + if |parts| == 1 then [] else " # " + WriteParts(parts[1..])
  }

  ghost function Joined(parts: seq<Part>, macros: map<string, string>): string {
    if parts == [] then [] else Meaning(parts[0], macros) + Joined(parts[1..], macros)
  }

  datatype Entry = Entry(name: string, parts: seq<Part>)

  ghost predicate EntryOk(e: Entry) {
    && e.name != [] && IsNameStart(e.name[0]) && (forall i :: 0 <= i < |e.name| ==> IsNameChar(e.name[i]))
    && e.parts != [] && forall i :: 0 <= i < |e.parts| ==> PartOk(e.parts[i])
  }

  ghost function WriteEntry(e: Entry): string
    requires EntryOk(e)
  {
    e.name + " = " + WriteParts(e.parts) + ","
  }

  ghost function WriteEntries(entries: seq<Entry>): string
    requires forall i :: 0 <= i < |entries| ==> EntryOk(entries[i])
  {
    if entries == [] then [] else WriteEntry(entries[0]) + WriteEntries(entries[1..])
  }

  ghost function FieldsOf(entries: seq<Entry>, macros: map<string, string>): seq<Field> {
    seq(|entries|, i requires 0 <= i < |entries| => Field(entries[i].name, Strip(Joined(entries[i].parts, macros))))
  }

  // ----- reading back

  datatype Delimiters = Delimiters(opener: char, closer: char)

  const CURLY := Delimiters('{', '}')
  const ROUND := Delimiters('(', ')')

  /** Scanning `text` before `rest` from one state comes to scanning `rest` from another. */
  ghost predicate ScansTo(d: Delimiters, text: string, rest: string, st: Scan, next: Scan)
    requires st.depth > 0 && next.depth > 0
  {
    var n, m := CloseAt(text + rest, st, d.opener, d.closer), CloseAt(rest, next, d.opener, d.closer);
    if m.None? then n.None? else n == Some(|text| + m.value)
  }

  lemma {:induction false} ScansOn(d: Delimiters, text: string, more: string, rest: string, st: Scan, mid: Scan,
                                   next: Scan)
    requires st.depth > 0 && mid.depth > 0 && next.depth > 0
    requires ScansTo(d, text, more + rest, st, mid) && ScansTo(d, more, rest, mid, next)
    ensures ScansTo(d, text + more, rest, st, next)
  {
    assert text + (more + rest) == text + more + rest;
  }

  lemma {:induction false} ScansChar(d: Delimiters, c: char, rest: string, st: Scan)
    requires st.depth > 0 && ScanChar(st, c, d.opener, d.closer).depth > 0
    ensures ScansTo(d, [c], rest, st, ScanChar(st, c, d.opener, d.closer))
  {
    assert ([c] + rest)[1..] == rest;
  }

  lemma {:induction false} ScansEscape(d: Delimiters, c: char, rest: string, st: Scan)
    requires st.depth > 0 && !st.escaped
    ensures ScansTo(d, ['\\', c], rest, st, st)
  {
    ScansChar(d, '\\', [c] + rest, st);
    ScansChar(d, c, rest, st.(escaped := true));
    assert ['\\'] + [c] == ['\\', c];
    ScansOn(d, ['\\'], [c], rest, st, st.(escaped := true), st);
  }

  lemma {:induction false} Enclosed(d: Delimiters, opener: string, body: string, closer: string, rest: string,
                                    st: Scan, inner: Scan)
    requires st.depth > 0 && inner.depth > 0
    requires ScansTo(d, opener, body + closer + rest, st, inner)
    requires ScansTo(d, body, closer + rest, inner, inner) && ScansTo(d, closer, rest, inner, st)
    ensures ScansTo(d, opener + body + closer, rest, st, st)
  {
    hide ScansTo;
    ScansOn(d, body, closer, rest, inner, inner, st);
    ScansOn(d, opener, body + closer, rest, st, inner, st);
    assert opener + (body + closer) == opener + body + closer;
  }

  /** Scanning a well-formed piece returns to the depth it started from. */
  lemma {:induction false} ScanPiece(p: Piece, rest: string, depth: nat)
    requires Wellformed(p) && depth > 0
    ensures var st := Scan(depth, 0, false, false); ScansTo(CURLY, WritePiece(p), rest, st, st)
    decreases p, 0
  {
    hide ScansTo;
    var st := Scan(depth, 0, false, false);
    match p
    case Plain(c) => ScansChar(CURLY, c, rest, st);
    case Escaped(c) => ScansEscape(CURLY, c, rest, st);
    case Group(body) =>
      var inner := Scan(depth + 1, 0, false, false);
      ScansChar(CURLY, '{', WriteAll(body) + "}" + rest, st);
      ScanPieces(body, "}" + rest, depth + 1);
      ScansChar(CURLY, '}', rest, inner);
      Enclosed(CURLY, "{", WriteAll(body), "}", rest, st, inner);
  }

  lemma {:induction false} ScanPieces(pieces: seq<Piece>, rest: string, depth: nat)
    requires (forall q :: q in pieces ==> Wellformed(q)) && depth > 0
    ensures var st := Scan(depth, 0, false, false); ScansTo(CURLY, WriteAll(pieces), rest, st, st)
    decreases pieces, 1
  {
    var st := Scan(depth, 0, false, false);
    if pieces == [] {
      assert WriteAll(pieces) + rest == rest;
    } else {
      ScanPiece(pieces[0], WriteAll(pieces[1..]) + rest, depth);
      ScanPieces(pieces[1..], rest, depth);
      ScansOn(CURLY, WritePiece(pieces[0]), WriteAll(pieces[1..]), rest, st, st, st);
    }
  }

  /** A quoted value scans over a piece that holds no quote outside of braces. */
  lemma {:induction false} QuotePiece(p: Piece, rest: string, depth: nat)
    requires Wellformed(p) && (depth == 0 ==> p != Plain('"'))
    ensures var n, m := QuoteAt(WritePiece(p) + rest, depth, false), QuoteAt(rest, depth, false);
            if m.None? then n.None? else n == Some(|WritePiece(p)| + m.value)
    decreases p, 0
  {
    hide QuoteAt;
    match p
    case Plain(c) =>
      QuoteStep(c, rest, depth, false);
    case Escaped(c) =>
      assert WritePiece(p) + rest == ['\\'] + ([c] + rest);
      QuoteStep('\\', [c] + rest, depth, false);
      QuoteStep(c, rest, depth, true);
    case Group(body) =>
      assert WritePiece(p) + rest == ['{'] + (WriteAll(body) + (['}'] + rest));
      QuoteStep('{', WriteAll(body) + (['}'] + rest), depth, false);
      QuotePieces(body, ['}'] + rest, depth + 1);
      QuoteStep('}', rest, depth + 1, false);
  }

  lemma {:induction false} QuoteStep(c: char, rest: string, depth: nat, escaped: bool)
    requires escaped || c != '"' || depth > 0
    ensures var nextDepth := if escaped || c == '\\' then depth
                             else if c == '{' then depth + 1
                             else if c == '}' && depth > 0 then depth - 1
                             else depth;
            var n, m := QuoteAt([c] + rest, depth, escaped), QuoteAt(rest, nextDepth, !escaped && c == '\\');
            if m.None? then n.None? else n == Some(1 + m.value)
  {
    assert ([c] + rest)[1..] == rest;
  }

  lemma {:induction false} QuotePieces(pieces: seq<Piece>, rest: string, depth: nat)
    requires forall q :: q in pieces ==> Wellformed(q) && (depth == 0 ==> q != Plain('"'))
    ensures var n, m := QuoteAt(WriteAll(pieces) + rest, depth, false), QuoteAt(rest, depth, false);
            if m.None? then n.None? else n == Some(|WriteAll(pieces)| + m.value)
    decreases pieces, 1
  {
    hide QuoteAt;
    if pieces == [] {
      assert WriteAll(pieces) + rest == rest;
    } else {
      var tail := WriteAll(pieces[1..]) + rest;
      assert WriteAll(pieces) + rest == WritePiece(pieces[0]) + tail;
      assert forall q :: q in pieces[1..] ==> q in pieces;
      QuotePiece(pieces[0], tail, depth);
      QuotePieces(pieces[1..], rest, depth);
    }
  }

  /** A braced part reads back as what was written between the braces. */
  lemma {:induction false} BracedReadsBack(pieces: seq<Piece>, rest: string, macros: map<string, string>)
    requires forall q :: q in pieces ==> Wellformed(q)
    ensures Atom("{" + WriteAll(pieces) + "}" + rest, macros) == Ok(Read(WriteAll(pieces), rest))
  {
    var s, body := "{" + WriteAll(pieces) + "}" + rest, WriteAll(pieces);
    assert s[1..] == body + ("}" + rest);
    ScanPieces(pieces, "}" + rest, 1);
    assert ScanChar(Scan(1, 0, false, false), '}', '{', '}').depth == 0;
    assert s[1..][..|body|] == body && s[1..][|body| + 1..] == rest;
  }

  /** A quoted part reads back as what was written between the quotes. */
  lemma {:induction false} QuotedReadsBack(pieces: seq<Piece>, rest: string, macros: map<string, string>)
    requires forall q :: q in pieces ==> Wellformed(q) && q != Plain('"')
    ensures Atom("\"" + WriteAll(pieces) + "\"" + rest, macros) == Ok(Read(WriteAll(pieces), rest))
  {
    var s, body := "\"" + WriteAll(pieces) + "\"" + rest, WriteAll(pieces);
    assert s[1..] == body + ("\"" + rest);
    QuotePieces(pieces, "\"" + rest, 0);
    assert s[1..][..|body|] == body && s[1..][|body| + 1..] == rest;
  }

  lemma {:induction false} TokenEnds(text: string, rest: string)
    requires (forall i :: 0 <= i < |text| ==> !EndsToken(text[i])) && (rest != [] ==> EndsToken(rest[0]))
    ensures TokenLength(text + rest) == |text|
  {
    if text == [] {
      assert text + rest == rest;
    } else {
      assert (text + rest)[1..] == text[1..] + rest;
      TokenEnds(text[1..], rest);
    }
  }

  /** A token reads back as itself, or as the macro it names. */
  lemma {:induction false} TokenReadsBack(text: string, rest: string, macros: map<string, string>)
    requires PartOk(Token(text)) && (rest != [] ==> EndsToken(rest[0]))
    ensures Atom(text + rest, macros) == Ok(Read(Meaning(Token(text), macros), rest))
  {
    hide IsSpace, Lower;
    var s := text + rest;
    TokenEnds(text, rest);
    assert s[..|text|] == text && s[|text|..] == rest && s[0] == text[0];
    TrimmedIsItself(text);
  }

  /** A part reads back as what it stands for. */
  lemma {:induction false} PartReadsBack(p: Part, rest: string, macros: map<string, string>)
    requires PartOk(p) && (rest != [] ==> EndsToken(rest[0]))
    ensures Atom(WritePart(p) + rest, macros) == Ok(Read(Meaning(p, macros), rest))
  {
    hide Atom, Wellformed;
    match p
    case Braced(body) => BracedReadsBack(body, rest, macros);
    case InQuotes(body) => QuotedReadsBack(body, rest, macros);
    case Token(text) => TokenReadsBack(text, rest, macros);
  }

  lemma {:induction false} SkipNothing(s: string)
    requires s != [] && !IsSpace(s[0])
    ensures SkipSpaces(s) == s
  {
  }

  lemma {:induction false} SkipOne(s: string)
    requires s != [] && !IsSpace(s[0])
    ensures SkipSpaces(" " + s) == s
  {
    assert (" " + s)[1..] == s;
  }

  /** Parts joined by `#` read back as their concatenation. */
  lemma {:induction false} PartsReadBack(parts: seq<Part>, rest: string, before: string, macros: map<string, string>)
    requires parts != [] && forall i :: 0 <= i < |parts| ==> PartOk(parts[i])
    requires rest != [] && rest[0] == ','
    ensures Value(WriteParts(parts) + rest, before, macros) == Ok(Read(before + Joined(parts, macros), rest))
    decreases |parts|
  {
    hide Atom, WritePart, Meaning, SkipSpaces, PartOk;
    var text := WriteParts(parts) + rest;
    if |parts| == 1 {
      assert text == WritePart(parts[0]) + rest;
      PartReadsBack(parts[0], rest, macros);
      SkipNothing(rest);
      assert Joined(parts[1..], macros) == [];
      assert Joined(parts, macros) == Meaning(parts[0], macros);
    } else {
      var more := WriteParts(parts[1..]) + rest;
      var after := " # " + more;
      assert text == WritePart(parts[0]) + after;
      PartReadsBack(parts[0], after, macros);
      PartsStart(parts[1..]);
      assert more[0] == WriteParts(parts[1..])[0];
      assert after == " " + ("# " + more) && ("# " + more)[1..] == " " + more;
      SkipOne("# " + more);
      SkipOne(more);
      PartsReadBack(parts[1..], rest, before + Meaning(parts[0], macros), macros);
      assert before + Meaning(parts[0], macros) + Joined(parts[1..], macros) == before + Joined(parts, macros);
    }
  }

  lemma {:induction false} NameReadsBack(name: string, rest: string)
    requires forall i :: 0 <= i < |name| ==> IsNameChar(name[i])
    requires rest != [] && !IsNameChar(rest[0])
    ensures NameTail(name + rest) == |name|
  {
    if name == [] {
      assert name + rest == rest;
    } else {
      assert (name + rest)[1..] == name[1..] + rest;
      NameReadsBack(name[1..], rest);
    }
  }

  lemma {:induction false} EntryReadsBack(e: Entry, rest: string, folded: set<string>, macros: map<string, string>)
    requires EntryOk(e) && Lower(e.name) !in folded
    ensures OneField(WriteEntry(e) + rest, folded, macros) ==
              Ok(Read(Field(e.name, Strip(Joined(e.parts, macros))), "," + rest))
  {
    hide Value, WriteParts, Strip, Joined, SkipSpaces, PartOk;
    var s, after, value := WriteEntry(e) + rest, " = " + WriteParts(e.parts) + "," + rest,
        WriteParts(e.parts) + ("," + rest);
    assert s == e.name + after && s[0] == e.name[0] && s[1..] == e.name[1..] + after;
    assert s[..|e.name|] == e.name && s[|e.name|..] == after;
    NameReadsBack(e.name[1..], after);
    assert NameLength(s) == |e.name|;
    assert after == " " + ("= " + value) && ("= " + value)[1..] == " " + value;
    SkipOne("= " + value);
    PartsStart(e.parts);
    SkipOne(value);
    PartsReadBack(e.parts, "," + rest, [], macros);
    SkipNothing("," + rest);
    assert [] + Joined(e.parts, macros) == Joined(e.parts, macros);
  }

  lemma {:induction false} PartsStart(parts: seq<Part>)
    requires parts != [] && PartOk(parts[0])
    ensures WriteParts(parts) != [] && !IsSpace(WriteParts(parts)[0])
  {
  }

  ghost predicate DistinctNames(entries: seq<Entry>) {
    forall i, j :: 0 <= i < j < |entries| ==> Lower(entries[i].name) != Lower(entries[j].name)
  }

  /** Reading on from any point: what was found, then every entry written after it. */
  lemma {:induction false} EntriesReadBack(entries: seq<Entry>, found: seq<Field>, folded: set<string>,
                                           macros: map<string, string>)
    requires forall i :: 0 <= i < |entries| ==> EntryOk(entries[i])
    requires DistinctNames(entries) && forall i :: 0 <= i < |entries| ==> Lower(entries[i].name) !in folded
    ensures Fields(WriteEntries(entries), found, folded, macros) == Ok(found + FieldsOf(entries, macros))
    ensures Fields("," + WriteEntries(entries), found, folded, macros) == Ok(found + FieldsOf(entries, macros))
    decreases |entries|
  {
    hide OneField, WriteEntry, Lower, EntryOk, Strip, Joined;
    var text := WriteEntries(entries);
    assert ("," + text)[1..] == text;
    if entries == [] {
      assert found + FieldsOf(entries, macros) == found;
    } else {
      var e, rest := entries[0], entries[1..];
      EntryStart(e, WriteEntries(rest));
      EntryReadsBack(e, WriteEntries(rest), folded, macros);
      EntriesReadBack(rest, found + [Field(e.name, Strip(Joined(e.parts, macros)))], folded + {Lower(e.name)}, macros);
      assert found + [Field(e.name, Strip(Joined(e.parts, macros)))] + FieldsOf(rest, macros) ==
               found + FieldsOf(entries, macros);
    }
  }

  lemma EntryStart(e: Entry, rest: string)
    requires EntryOk(e)
    ensures WriteEntry(e) + rest != [] && !IsSpace((WriteEntry(e) + rest)[0]) && (WriteEntry(e) + rest)[0] != ','
  {
  }

  /** Main result: written fields read back, names as written and values stripped, with `#` concatenating. */
  lemma {:induction false} WrittenFieldsReadBack(entries: seq<Entry>, macros: map<string, string>)
    requires forall i :: 0 <= i < |entries| ==> EntryOk(entries[i])
    requires DistinctNames(entries)
    ensures Fields(WriteEntries(entries), [], {}, macros) == Ok(FieldsOf(entries, macros))
  {
    hide Fields, WriteEntries, FieldsOf;
    EntriesReadBack(entries, [], {}, macros);
    assert [] + FieldsOf(entries, macros) == FieldsOf(entries, macros);
  }

  // ----- a body between parentheses

  /**
   What parentheses can delimit: plain and escaped characters, braced groups and quoted texts in which parentheses do
   not count, and balanced parentheses.
   */
  datatype ParenPiece =
    | Bare(c: char)
    | Escape(c: char)
    | InBraces(body: seq<Piece>)
    | Quote(text: seq<Piece>)
    | Parens(parts: seq<ParenPiece>)

  ghost predicate ParenOk(p: ParenPiece) {
    match p
    case Bare(c) => c != '\\' && c != '{' && c != '"' && c != '(' && c != ')'
    case Escape(_) => true
    case InBraces(body) => forall q :: q in body ==> Wellformed(q)
    case Quote(text) => forall q :: q in text ==> q.Escaped? || (q.Plain? && q.c != '\\' && q.c != '"')
    case Parens(parts) => forall q :: q in parts ==> ParenOk(q)
  }

  ghost function WriteParen(p: ParenPiece): string {
    match p
    case Bare(c) => [c]
    case Escape(c) => ['\\', c]
    case InBraces(body) => "{" + WriteAll(body) + "}"
    case Quote(text) => "\"" + WriteAll(text) + "\""
    case Parens(parts) => "(" + WriteParens(parts) + ")"
  }

  ghost function WriteParens(parts: seq<ParenPiece>): string {
    if parts == [] then [] else WriteParen(parts[0]) + WriteParens(parts[1..])
  }

  /** Within braces nothing counts but braces. */
  lemma {:induction false} BracedPiece(p: Piece, rest: string, depth: nat, braces: nat)
    requires Wellformed(p) && depth > 0 && braces > 0
    ensures var st := Scan(depth, braces, false, false); ScansTo(ROUND, WritePiece(p), rest, st, st)
    decreases p, 0
  {
    hide ScansTo;
    var st := Scan(depth, braces, false, false);
    match p
    case Plain(c) => ScansChar(ROUND, c, rest, st);
    case Escaped(c) => ScansEscape(ROUND, c, rest, st);
    case Group(body) =>
      var inner := Scan(depth, braces + 1, false, false);
      ScansChar(ROUND, '{', WriteAll(body) + "}" + rest, st);
      BracedPieces(body, "}" + rest, depth, braces + 1);
      ScansChar(ROUND, '}', rest, inner);
      ScansOn(ROUND, WriteAll(body), "}", rest, inner, inner, st);
      assert WriteAll(body) + "}" + rest == (WriteAll(body) + "}") + rest;
      ScansOn(ROUND, "{", WriteAll(body) + "}", rest, st, inner, st);
      assert "{" + (WriteAll(body) + "}") == WritePiece(p);
  }

  lemma {:induction false} BracedPieces(pieces: seq<Piece>, rest: string, depth: nat, braces: nat)
    requires (forall q :: q in pieces ==> Wellformed(q)) && depth > 0 && braces > 0
    ensures var st := Scan(depth, braces, false, false); ScansTo(ROUND, WriteAll(pieces), rest, st, st)
    decreases pieces, 1
  {
    var st := Scan(depth, braces, false, false);
    if pieces == [] {
      assert WriteAll(pieces) + rest == rest;
    } else {
      BracedPiece(pieces[0], WriteAll(pieces[1..]) + rest, depth, braces);
      BracedPieces(pieces[1..], rest, depth, braces);
      ScansOn(ROUND, WritePiece(pieces[0]), WriteAll(pieces[1..]), rest, st, st, st);
    }
  }

  /** Within quotes nothing counts but the closing quote. */
  lemma {:induction false} QuotedText(text: seq<Piece>, rest: string, depth: nat)
    requires depth > 0 && ParenOk(Quote(text))
    ensures var st := Scan(depth, 0, true, false); ScansTo(ROUND, WriteAll(text), rest, st, st)
    decreases |text|
  {
    var st := Scan(depth, 0, true, false);
    if text == [] {
      assert WriteAll(text) + rest == rest;
    } else {
      var p, more := text[0], WriteAll(text[1..]);
      assert p in text;
      if p.Escaped? {
        ScansEscape(ROUND, p.c, more + rest, st);
      } else {
        ScansChar(ROUND, p.c, more + rest, st);
      }
      QuotedText(text[1..], rest, depth);
      ScansOn(ROUND, WritePiece(p), more, rest, st, st, st);
    }
  }

  lemma {:induction false} ParenPieceScans(p: ParenPiece, rest: string, depth: nat)
    requires ParenOk(p) && depth > 0
    ensures var st := Scan(depth, 0, false, false); ScansTo(ROUND, WriteParen(p), rest, st, st)
    decreases p, 0
  {
    hide ScansTo, Wellformed;
    var st := Scan(depth, 0, false, false);
    match p
    case Bare(c) => ScansChar(ROUND, c, rest, st);
    case Escape(c) => ScansEscape(ROUND, c, rest, st);
    case InBraces(body) =>
      var inner := Scan(depth, 1, false, false);
      ScansChar(ROUND, '{', WriteAll(body) + "}" + rest, st);
      BracedPieces(body, "}" + rest, depth, 1);
      ScansChar(ROUND, '}', rest, inner);
      Enclosed(ROUND, "{", WriteAll(body), "}", rest, st, inner);
    case Quote(text) =>
      var inner := Scan(depth, 0, true, false);
      ScansChar(ROUND, '"', WriteAll(text) + "\"" + rest, st);
      QuotedText(text, "\"" + rest, depth);
      ScansChar(ROUND, '"', rest, inner);
      Enclosed(ROUND, "\"", WriteAll(text), "\"", rest, st, inner);
    case Parens(parts) =>
      var inner := Scan(depth + 1, 0, false, false);
      ScansChar(ROUND, '(', WriteParens(parts) + ")" + rest, st);
      ParensScan(parts, ")" + rest, depth + 1);
      ScansChar(ROUND, ')', rest, inner);
      Enclosed(ROUND, "(", WriteParens(parts), ")", rest, st, inner);
  }

  lemma {:induction false} ParensScan(parts: seq<ParenPiece>, rest: string, depth: nat)
    requires (forall q :: q in parts ==> ParenOk(q)) && depth > 0
    ensures var st := Scan(depth, 0, false, false); ScansTo(ROUND, WriteParens(parts), rest, st, st)
    decreases parts, 1
  {
    var st := Scan(depth, 0, false, false);
    if parts == [] {
      assert WriteParens(parts) + rest == rest;
    } else {
      ParenPieceScans(parts[0], WriteParens(parts[1..]) + rest, depth);
      ParensScan(parts[1..], rest, depth);
      ScansOn(ROUND, WriteParen(parts[0]), WriteParens(parts[1..]), rest, st, st, st);
    }
  }

  /** A body between parentheses ends at its own parenthesis, whatever its braces and quotes hold. */
  lemma {:induction false} ParensReadBack(parts: seq<ParenPiece>, rest: string)
    requires forall q :: q in parts ==> ParenOk(q)
    ensures Balanced(WriteParens(parts) + ")" + rest, '(', ')') == Ok(Read(WriteParens(parts), rest))
  {
    hide ParenOk, WriteParens;
    var body := WriteParens(parts);
    var s := body + ")" + rest;
    assert s == body + (")" + rest);
    ParensScan(parts, ")" + rest, 1);
    assert ScanChar(Scan(1, 0, false, false), ')', '(', ')').depth == 0;
    assert CloseAt(")" + rest, Scan(1, 0, false, false), '(', ')') == Some(0);
    assert s[..|body|] == body && s[|body| + 1..] == rest;
  }

  // ----- the cursor loops

  method SkipSpace(text: string, start: nat) returns (cursor: nat)
    requires start <= |text|
    ensures start <= cursor <= |text| && text[cursor..] == SkipSpaces(text[start..])
  {
    cursor := start;
    while cursor < |text| && IsSpace(text[cursor])
      invariant start <= cursor <= |text|
      invariant SkipSpaces(text[cursor..]) == SkipSpaces(text[start..])
    {
      assert text[cursor..][1..] == text[cursor + 1..];
      cursor := cursor + 1;
    }
  }

  method SkipSpaceAndCommas(text: string, start: nat) returns (cursor: nat)
    requires start <= |text|
    ensures start <= cursor <= |text| && text[cursor..] == SkipSpacesAndCommas(text[start..])
  {
    cursor := start;
    while cursor < |text| && (IsSpace(text[cursor]) || text[cursor] == ',')
      invariant start <= cursor <= |text|
      invariant SkipSpacesAndCommas(text[cursor..]) == SkipSpacesAndCommas(text[start..])
    {
      assert text[cursor..][1..] == text[cursor + 1..];
      cursor := cursor + 1;
    }
  }

  /** What a reader returns: the value and the cursor behind it. */
  datatype At = At(value: string, cursor: nat)

  /** The cursor form of a read from `text[start..]`. */
  ghost predicate Agrees(text: string, start: nat, r: Result<At>, spec: Result<Read<string>>)
    requires start <= |text|
  {
    match spec
    case Err => r.Err?
    case Ok(read) =>
      && r.Ok? && r.value.value == read.value
      && start < r.value.cursor <= |text| && text[r.value.cursor..] == read.rest
  }

  lemma Cut(text: string, start: nat, end: nat)
    requires start <= end <= |text|
    ensures text[start..][..end - start] == text[start..end] && text[start..][end - start..] == text[end..]
  {
  }

  lemma Slices(text: string, start: nat, cursor: nat)
    requires start <= cursor < |text|
    ensures text[start..][cursor - start] == text[cursor]
    ensures text[start..][..cursor - start] == text[start..cursor]
    ensures text[start..][cursor - start + 1..] == text[cursor + 1..]
  {
  }

  method BalancedBody(text: string, start: nat, opener: char, closer: char) returns (r: Result<At>)
    requires 0 < start <= |text|
    ensures Agrees(text, start, r, Balanced(text[start..], opener, closer))
  {
    var cursor, st := start, Scan(1, 0, false, false);
    ghost var whole := CloseAt(text[start..], st, opener, closer);
    while cursor < |text|
      invariant start <= cursor <= |text| && st.depth > 0
      invariant match CloseAt(text[cursor..], st, opener, closer)
                case None => whole.None?
                case Some(n) => whole == Some(n + (cursor - start))
    {
      Slices(text, cursor, cursor);
      var next := ScanChar(st, text[cursor], opener, closer);
      if next.depth == 0 {
        Slices(text, start, cursor);
        return Ok(At(text[start..cursor], cursor + 1));
      }
      st := next;
      cursor := cursor + 1;
    }
    return Err;
  }

  method QuotedBody(text: string, start: nat) returns (r: Result<At>)
    requires start <= |text|
    ensures Agrees(text, start, r, Quoted(text[start..]))
  {
    var cursor, depth, escaped := start, 0, false;
    ghost var whole := QuoteAt(text[start..], 0, false);
    while cursor < |text|
      invariant start <= cursor <= |text| && depth >= 0
      invariant match QuoteAt(text[cursor..], depth, escaped)
                case None => whole.None?
                case Some(n) => whole == Some(n + (cursor - start))
    {
      Slices(text, cursor, cursor);
      var c := text[cursor];
      if escaped {
        escaped := false;
      } else if c == '\\' {
        escaped := true;
      } else if c == '{' {
        depth := depth + 1;
      } else if c == '}' && depth > 0 {
        depth := depth - 1;
      } else if c == '"' && depth == 0 {
        Slices(text, start, cursor);
        return Ok(At(text[start..cursor], cursor + 1));
      }
      cursor := cursor + 1;
    }
    return Err;
  }

  method ReadAtom(text: string, start: nat, macros: map<string, string>) returns (r: Result<At>)
    requires start <= |text|
    ensures Agrees(text, start, r, Atom(text[start..], macros))
  {
    hide Balanced, Quoted, Strip, Lower;
    if start >= |text| {
      return Err;
    }
    Slices(text, start, start);
    if text[start] == '{' {
      r := BalancedBody(text, start + 1, '{', '}');
      return;
    }
    if text[start] == '"' {
      r := QuotedBody(text, start + 1);
      return;
    }
    var end := start;
    while end < |text| && !EndsToken(text[end])
      invariant start <= end <= |text|
      invariant TokenLength(text[start..]) == (end - start) + TokenLength(text[end..])
    {
      Slices(text, end, end);
      end := end + 1;
    }
    Cut(text, start, end);
    var token := Strip(text[start..end]);
    if token == [] {
      return Err;
    }
    TokenNotEmpty(text[start..end]);
    return Ok(At(if Lower(token) in macros then macros[Lower(token)] else token, end));
  }

  lemma {:induction false} TokenNotEmpty(s: string)
    ensures Strip(s) != [] ==> s != []
  {
  }

  method ReadValue(text: string, start: nat, macros: map<string, string>) returns (r: Result<At>)
    requires start <= |text|
    ensures Agrees(text, start, r, Value(text[start..], [], macros))
  {
    hide Atom, SkipSpaces;
    var cursor, parts: string := start, [];
    while true
      invariant start <= cursor <= |text|
      invariant Value(text[cursor..], parts, macros) == Value(text[start..], [], macros)
      decreases |text| - cursor
    {
      var atom := ReadAtom(text, cursor, macros);
      if atom.Err? {
        return Err;
      }
      parts := parts + atom.value.value;
      var before := cursor;
      cursor := SkipSpace(text, atom.value.cursor);
      if cursor >= |text| || text[cursor] != '#' {
        assert text[cursor..] == [] || text[cursor..][0] == text[cursor];
        return Ok(At(parts, cursor));
      }
      assert text[cursor..][0] == '#' && text[cursor..][1..] == text[cursor + 1..];
      cursor := SkipSpace(text, cursor + 1);
    }
  }

  method MatchName(text: string, start: nat) returns (end: nat)
    requires start <= |text|
    ensures start <= end <= |text| && end - start == NameLength(text[start..])
  {
    end := start;
    if start < |text| && IsNameStart(text[start]) {
      assert text[start..][0] == text[start] && text[start..][1..] == text[start + 1..];
      end := start + 1;
      while end < |text| && IsNameChar(text[end])
        invariant start < end <= |text|
        invariant NameTail(text[start + 1..]) == (end - start - 1) + NameTail(text[end..])
      {
        assert text[end..][0] == text[end] && text[end..][1..] == text[end + 1..];
        end := end + 1;
      }
    }
  }

  /** `_bibtex_fields`: the cursor strictly advances with each field, so parsing ends. */
  method ReadFields(text: string, macros: map<string, string>) returns (r: Result<seq<Field>>)
    ensures r == Fields(text, [], {}, macros)
  {
    hide OneField, SkipSpacesAndCommas;
    var cursor, found, folded: set<string> := 0, [], {};
    assert text[0..] == text;
    while cursor < |text|
      invariant 0 <= cursor <= |text|
      invariant Fields(text[cursor..], found, folded, macros) == Fields(text, [], {}, macros)
    {
      var start := SkipSpaceAndCommas(text, cursor);
      if start >= |text| {
        assert text[start..] == [];
        return Ok(found);
      }
      var field := ReadField(text, start, folded, macros);
      if field.Err? {
        return Err;
      }
      found := found + [Field(field.value.name, field.value.value)];
      folded := folded + {Lower(field.value.name)};
      cursor := field.value.cursor;
    }
    EndOfFields(text, found, folded, macros);
    return Ok(found);
  }

  lemma {:induction false} EndOfFields(text: string, found: seq<Field>, folded: set<string>,
                                       macros: map<string, string>)
    ensures Fields(text[|text|..], found, folded, macros) == Ok(found)
  {
  }

  datatype FieldAt = FieldAt(name: string, value: string, cursor: nat)

  method ReadField(text: string, start: nat, folded: set<string>, macros: map<string, string>)
    returns (r: Result<FieldAt>)
    requires start < |text|
    ensures match OneField(text[start..], folded, macros)
            case Err => r.Err?
            case Ok(read) =>
              && r.Ok? && r.value.name == read.value.name && r.value.value == read.value.value
              && start < r.value.cursor <= |text| && text[r.value.cursor..] == read.rest
  {
    hide Value, SkipSpaces, Strip, Lower;
    var nameEnd := MatchName(text, start);
    var name := text[start..nameEnd];
    assert text[start..][..nameEnd - start] == name && text[start..][nameEnd - start..] == text[nameEnd..];
    if nameEnd == start || Lower(name) in folded {
      return Err;
    }
    var cursor := SkipSpace(text, nameEnd);
    if cursor >= |text| || text[cursor] != '=' {
      assert text[cursor..] == [] || text[cursor..][0] == text[cursor];
      return Err;
    }
    assert text[cursor..][0] == '=' && text[cursor..][1..] == text[cursor + 1..];
    cursor := SkipSpace(text, cursor + 1);
    var value := ReadValue(text, cursor, macros);
    if value.Err? {
      return Err;
    }
    cursor := SkipSpace(text, value.value.cursor);
    assert text[cursor..] == [] || text[cursor..][0] == text[cursor];
    if cursor < |text| && text[cursor] != ',' {
      return Err;
    }
    return Ok(FieldAt(name, Strip(value.value.value), cursor));
  }
}
