/** Space and comments between tokens, and what is written inside string literals. */
module Layout {
  import opened Wrappers
  import opened Syntax
  import opened Lexer
  import opened Values
  import opened Marks
  import Printer
  import SI = SourceInversion

  // ----- between tokens -----

  /** Space, and perhaps a comment up to the end of the line. */
  datatype Blank = Blank(space: string, comment: Option<string>)

  function BlankText(b: Blank): string {
    b.space + match b.comment case Some(text) => "#" + text case None => ""
  }

  /** Tokens with blanks before each of them and after them, and then more text. */
  function Laid(ts: seq<Token>, blanks: seq<Blank>, tail: string): string
    requires |blanks| == |ts| + 1
  {
    BlankText(blanks[0]) + if ts == [] then tail else Spelling(ts[0]) + Laid(ts[1..], blanks[1..], tail)
  }

  predicate IsBlank(b: Blank, beforeLineEnd: bool) {
    && (forall c :: c in b.space ==> c in {' ', '\t', '\r'})
    && (b.comment.Some? ==> beforeLineEnd && '\n' !in b.comment.value)
  }

  /** Comments stand at the ends of lines, and no two tokens run together. */
  predicate WellLaid(ts: seq<Token>, blanks: seq<Blank>, tail: string)
    requires |blanks| == |ts| + 1
  {
    && IsBlank(blanks[0], if ts == [] then tail == "" || tail[0] == '\n' else ts[0] == NEWLINE)
    && (ts != [] ==> Ends(ts[0], Laid(ts[1..], blanks[1..], tail)) && WellLaid(ts[1..], blanks[1..], tail))
  }

  /** Tokens in front of what the rest lexes to. */
  function Before(ts: seq<Token>, rest: Option<seq<Token>>): Option<seq<Token>> {
    if rest.Some? then Some(ts + rest.value) else None
  }

  lemma {:induction false} SpaceSkipped(space: string, rest: string)
    requires forall c :: c in space ==> c in {' ', '\t', '\r'}
    ensures LexAll(space + rest) == LexAll(rest)
  {
    if space == [] {
      assert space + rest == rest;
    } else {
      assert (space + rest)[1..] == space[1..] + rest;
      assert space[0] in space && (space + rest)[0] == space[0];
      forall c | c in space[1..] ensures c in {' ', '\t', '\r'} { assert c in space; }
      SpaceSkipped(space[1..], rest);
    }
  }

  lemma {:induction false} LineLengthOf(text: string, rest: string)
    requires '\n' !in text && (rest == [] || rest[0] == '\n')
    ensures LineLength(text + rest) == |text|
  {
    if text == [] {
      assert text + rest == rest;
    } else {
      assert (text + rest)[1..] == text[1..] + rest;
      assert text[0] in text;
      LineLengthOf(text[1..], rest);
    }
  }

  lemma BlankSkipped(b: Blank, rest: string)
    requires IsBlank(b, rest == [] || rest[0] == '\n')
    ensures LexAll(BlankText(b) + rest) == LexAll(rest)
  {
    if b.comment.Some? {
      var text := b.comment.value;
      var comment := "#" + (text + rest);
      assert BlankText(b) + rest == b.space + comment;
      SpaceSkipped(b.space, comment);
      LineLengthOf(text, rest);
      assert comment[1..] == text + rest && comment[1 + |text|..] == rest;
      assert LexAll(comment) == LexAll(rest);
    } else {
      assert BlankText(b) + rest == b.space + rest;
      SpaceSkipped(b.space, rest);
    }
  }

  lemma TokenLexed(t: Token, rest: string)
    requires Spellable(t) && Ends(t, rest)
    ensures LexAll(Spelling(t) + rest) == Cons(t, LexAll(rest))
  {
    hide First, Ends, IsSpace;
    var s := Spelling(t) + rest;
    if t == NEWLINE {
      assert s[1..] == rest;
    } else {
      TokenFirst(t, rest);
      SpellingHead(t);
      hide Spelling, Spellable;
    }
  }

  /** Space and comments change no token, wherever they stand between tokens, and none is needed where
      tokens cannot run together; the text after them is lexed on its own. */
  lemma {:induction false} LaidTokensLex(ts: seq<Token>, blanks: seq<Blank>, tail: string)
    requires |blanks| == |ts| + 1 && WellLaid(ts, blanks, tail)
    requires forall i :: 0 <= i < |ts| ==> Spellable(ts[i])
    ensures LexAll(Laid(ts, blanks, tail)) == Before(ts, LexAll(tail))
    decreases |ts|
  {
    hide LexAll, Spelling, Spellable, Ends, BlankText, IsBlank;
    if ts == [] {
      BlankSkipped(blanks[0], tail);
      assert LexAll(tail).Some? ==> ts + LexAll(tail).value == LexAll(tail).value;
    } else {
      var rest := Laid(ts[1..], blanks[1..], tail);
      SpellingStarts(ts[0], rest);
      BlankAnywhere(blanks[0], ts[0] == NEWLINE, (Spelling(ts[0]) + rest) == [] || (Spelling(ts[0]) + rest)[0] == '\n');
      BlankSkipped(blanks[0], Spelling(ts[0]) + rest);
      TokenLexed(ts[0], rest);
      LaidTokensLex(ts[1..], blanks[1..], tail);
      assert LexAll(tail).Some? ==> [ts[0]] + (ts[1..] + LexAll(tail).value) == ts + LexAll(tail).value;
    }
  }

  lemma LayoutLexes(ts: seq<Token>, blanks: seq<Blank>)
    requires |blanks| == |ts| + 1 && WellLaid(ts, blanks, "") && forall i :: 0 <= i < |ts| ==> Spellable(ts[i])
    ensures LexAll(Laid(ts, blanks, "")) == Some(ts + [EOF])
  {
    LaidTokensLex(ts, blanks, "");
    NothingLexed();
    hide LexAll, Laid, WellLaid, Spellable;
  }

  // ----- texts that are refused -----

  /** What begins a token, a comment or space. */
  predicate IsKnown(c: char) {
    IsNamePart(c) || c in "\n\t\r \"#|${}[](),:+-*/=<>"
  }

  /** A character that begins nothing is refused wherever it stands between tokens, an exclamation mark
      among them unless an equals sign follows. */
  lemma UnknownCharactersAreRefused(ts: seq<Token>, blanks: seq<Blank>, c: char, more: string)
    requires !IsKnown(c) && (c == '!' && more != "" ==> more[0] != '=')
    requires |blanks| == |ts| + 1 && WellLaid(ts, blanks, [c] + more)
    requires forall i :: 0 <= i < |ts| ==> Spellable(ts[i])
    ensures LexAll(Laid(ts, blanks, [c] + more)).None?
  {
    LaidTokensLex(ts, blanks, [c] + more);
    NothingBegins(c, more);
    hide LexAll, Laid, WellLaid, Spellable;
  }

  lemma NothingBegins(c: char, more: string)
    requires !IsKnown(c) && (c == '!' && more != "" ==> more[0] != '=')
    ensures LexAll([c] + more).None?
  {
    var s := [c] + more;
    assert First(s) == LexError by {
      assert |s| > 1 ==> s[1] == more[0];
    }
  }

  /** A string literal that is not closed is refused, whatever is in it. */
  lemma UnclosedStringsAreRefused(ts: seq<Token>, blanks: seq<Blank>, text: string)
    requires |blanks| == |ts| + 1 && WellLaid(ts, blanks, "\"" + Escape(text))
    requires forall i :: 0 <= i < |ts| ==> Spellable(ts[i])
    ensures LexAll(Laid(ts, blanks, "\"" + Escape(text))).None?
  {
    LaidTokensLex(ts, blanks, "\"" + Escape(text));
    NothingCloses(text);
    hide LexAll, Laid, WellLaid, Spellable;
  }

  lemma NothingCloses(text: string)
    ensures LexAll("\"" + Escape(text)).None?
  {
    var s := "\"" + Escape(text);
    EscapedRead(text, "");
    assert s[1..] == Escape(text) && Escape(text) + "" == Escape(text);
    assert StringBody("") == LexError;
    assert First(s) == LexError by { hide StringBody, Escape; }
    hide StringBody, Escape, First;
  }

  lemma BlankAnywhere(b: Blank, before: bool, after: bool)
    requires IsBlank(b, before) && (before ==> after)
    ensures IsBlank(b, after)
  {
  }

  lemma SpellingStarts(t: Token, rest: string)
    ensures t == NEWLINE ==> (Spelling(t) + rest)[0] == '\n'
  {
  }

  lemma NothingLexed()
    ensures LexAll("") == Some([EOF])
  {
  }

  /** However a program is laid out, in whatever style, its text parses to it. */
  lemma LaidOutProgramsParse(style: Printer.Style, program: seq<Stmt>, blanks: seq<Blank>)
    requires Printer.BlockPrintable(program) && SI.BlockNamed(program)
    requires var ts := SI.TokensOf(style, program); |blanks| == |ts| + 1 && WellLaid(ts, blanks, "")
    ensures SI.ParseSource(Laid(SI.TokensOf(style, program), blanks, "")) == Some(program)
  {
    SI.TokensParse(style, program);
    LayoutLexes(SI.TokensOf(style, program), blanks);
    hide Laid, WellLaid;
  }

  // ----- inside a string literal -----

  /** Text as it stands, a variable's mark, a dollar sign before no name, or a backslash that escapes
      nothing. */
  datatype Piece = Plainly(text: string) | Mark(name: string) | Dollar | Kept(c: char)

  function PieceSource(p: Piece): string {
    match p
    case Plainly(text) => Escape(text)
    case Mark(name) => "$" + name
    case Dollar => "$"
    case Kept(c) => ['\\', c]
  }

  /** What a piece is to the interpreter. */
  function PieceText(p: Piece): string {
    match p case Plainly(text) => text case Mark(name) => "${" + name + "}" case Dollar => "$" case Kept(c) => ['\\', c]
  }

  function Source(ps: seq<Piece>): string {
    if ps == [] then "" else PieceSource(ps[0]) + Source(ps[1..])
  }

  function TextOf(ps: seq<Piece>): string {
    if ps == [] then "" else PieceText(ps[0]) + TextOf(ps[1..])
  }

  /** A mark's name ends where the next piece begins. */
  predicate WellPieced(ps: seq<Piece>) {
    ps != [] ==>
      && (ps[0].Mark? ==> IsName(ps[0].name) && (Source(ps[1..]) == "" || !IsNamePart(Source(ps[1..])[0])))
      && (ps[0].Dollar? ==> Source(ps[1..]) == "" || !IsNameStart(Source(ps[1..])[0]))
      && (ps[0].Kept? ==> ps[0].c !in {'n', 't', '\\', '"', '$'})
      && WellPieced(ps[1..])
  }

  lemma {:induction false} EscapedRead(text: string, more: string)
    ensures StringBody(Escape(text) + more) == Prepend(text, StringBody(more))
  {
    hide EscapeChar, StringBody;
    if text == [] {
      assert Escape(text) + more == more;
      PrependNothing(StringBody(more));
    } else {
      EscapedRead(text[1..], more);
      OneEscaped(text[0], Escape(text[1..]) + more);
      assert Escape(text) + more == EscapeChar(text[0]) + (Escape(text[1..]) + more);
      PrependTwice([text[0]], text[1..], StringBody(more));
      assert [text[0]] + text[1..] == text;
    }
  }

  lemma MarkRead(name: string, more: string)
    requires IsName(name) && (more == "" || !IsNamePart(more[0]))
    ensures StringBody("$" + name + more) == Prepend("${" + name + "}", StringBody(more))
  {
    var s := "$" + name + more;
    assert s[1..] == name + more;
    NameLengthOf(name, more);
    assert s[1..|name| + 1] == name && s[|name| + 1..] == more;
    hide NameLength, Prepend;
  }

  lemma DollarRead(more: string)
    requires more == "" || !IsNameStart(more[0])
    ensures StringBody("$" + more) == Prepend("$", StringBody(more))
  {
    var s := "$" + more;
    assert s[1..] == more;
  }

  lemma KeptRead(c: char, more: string)
    requires c !in {'n', 't', '\\', '"', '$'}
    ensures StringBody(['\\', c] + more) == Prepend(['\\', c], StringBody(more))
  {
    var s := ['\\', c] + more;
    assert s[2..] == more;
  }

  /** A string literal stands for its pieces' texts: a dollar sign before a name is a mark for the
      interpreter, escapes are what they stand for, and any other backslash stays. */
  lemma {:induction false} PiecesRead(ps: seq<Piece>, rest: string)
    requires WellPieced(ps)
    ensures StringBody(Source(ps) + (['"'] + rest)) == Lexed(TextOf(ps), rest)
  {
    hide *;
    if ps == [] {
      NoPieces(rest);
      QuoteEnds(rest);
    } else {
      FirstPiece(ps, rest);
      PiecesRead(ps[1..], rest);
      PieceRead(ps[0], Source(ps[1..]) + (['"'] + rest));
      LexedPrepend(PieceText(ps[0]), TextOf(ps[1..]), rest);
    }
  }

  lemma NoPieces(rest: string)
    ensures Source([]) + (['"'] + rest) == ['"'] + rest && TextOf([]) == ""
  {
  }

  lemma FirstPiece(ps: seq<Piece>, rest: string)
    requires ps != [] && WellPieced(ps)
    ensures var p, more := ps[0], Source(ps[1..]) + (['"'] + rest);
      && WellPieced(ps[1..]) && Source(ps) + (['"'] + rest) == PieceSource(p) + more
      && TextOf(ps) == PieceText(p) + TextOf(ps[1..]) && PieceReads(p, more)
  {
    hide IsName, IsNamePart, IsNameStart;
    var more := Source(ps[1..]) + (['"'] + rest);
    QuoteIsNoName();
    assert Source(ps[1..]) != "" ==> more[0] == Source(ps[1..])[0];
    assert Source(ps[1..]) == "" ==> more[0] == '"';
  }

  predicate PieceReads(p: Piece, more: string) {
    && (p.Mark? ==> IsName(p.name) && (more == "" || !IsNamePart(more[0])))
    && (p.Dollar? ==> more == "" || !IsNameStart(more[0]))
    && (p.Kept? ==> p.c !in {'n', 't', '\\', '"', '$'})
  }

  lemma QuoteIsNoName()
    ensures !IsNamePart('"') && !IsNameStart('"')
  {
  }

  lemma LexedPrepend(a: string, b: string, rest: string)
    ensures Prepend(a, Lexed(b, rest)) == Lexed(a + b, rest)
  {
  }

  lemma PieceRead(p: Piece, more: string)
    requires PieceReads(p, more)
    ensures StringBody(PieceSource(p) + more) == Prepend(PieceText(p), StringBody(more))
  {
    hide StringBody, Prepend, IsName, IsNamePart, IsNameStart;
    match p
    case Plainly(text) => EscapedRead(text, more);
    case Mark(name) => MarkRead(name, more);
    case Dollar => DollarRead(more);
    case Kept(c) => KeptRead(c, more);
  }

  // ----- from a literal to its value -----

  /** An escape takes the dollar sign of a mark out of the lexer's reach, and not out of the
      interpreter's: the literal of `${name}`, every dollar sign escaped, is replaced all the same. */
  lemma EscapedMarkIsReplaced(py: Runtime, name: string, heap: Heap)
    requires name != "" && forall i :: 0 <= i < |name| ==> IsWordPart(name[i])
    ensures var text := "${" + name + "}";
      && StringBody(Escape(text) + "\"") == Lexed(text, "")
      && Interpolate(py, text, map[], heap) == Gives("")
  {
    var text := "${" + name + "}";
    QuotingInverts(text, "");
    assert ['"'] + "" == "\"";
    MarkFound(name, "");
    assert text + "" == text;
    assert Interpolate(py, "", map[], heap) == Gives("") && "" + "" == "";
    hide MarkAt, Escape, StringBody;
  }
}
