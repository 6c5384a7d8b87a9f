/** From source text to tokens, and the text that lexes to given tokens. */
module Lexer {
  import opened Wrappers
  import opened Syntax

  datatype Lexed<+T> = Lexed(value: T, rest: string) | LexError

  predicate IsAlpha(c: char) {
    'a' <= c <= 'z' || 'A' <= c <= 'Z'
  }

  predicate IsNameStart(c: char) {
    c == '_' || IsAlpha(c)
  }

  predicate IsNamePart(c: char) {
    IsNameStart(c) || IsDigit(c)
  }

  predicate IsNumberPart(c: char) {
    IsDigit(c) || c == '.'
  }

  // ----- spans -----

  /** The length of the longest name-like beginning of a text. */
  function NameLength(s: string): (n: nat)
    ensures n <= |s|
  {
    if s != [] && IsNamePart(s[0]) then 1 + NameLength(s[1..]) else 0
  }

  function NumberLength(s: string): (n: nat)
    ensures n <= |s|
  {
    if s != [] && IsNumberPart(s[0]) then 1 + NumberLength(s[1..]) else 0
  }

  function LineLength(s: string): (n: nat)
    ensures n <= |s|
  {
    if s != [] && s[0] != '\n' then 1 + LineLength(s[1..]) else 0
  }

  // ----- strings -----

  /** What an escaped character stands for. */
  function Unescape(c: char): string {
    match c
    case 'n' => "\n"
    case 't' => "\t"
    case '\\' => "\\"
    case '"' => "\""
    case '$' => "$"
    case _ => ['\\', c]
  }

  /** The inside of a string literal and its closing quote: escapes are replaced, and a dollar sign
      before a name becomes an interpolation marker. */
  function StringBody(s: string): (r: Lexed<string>)
    ensures r.Lexed? ==> |r.rest| < |s|
    decreases |s|
  {
    if s == [] then LexError
    else if s[0] == '"' then Lexed([], s[1..])
    else if s[0] == '\\' then
      if |s| == 1 then LexError else Prepend(Unescape(s[1]), StringBody(s[2..]))
    else if s[0] == '$' then
      if |s| > 1 && IsNameStart(s[1]) then
        var n := NameLength(s[1..]);
        Prepend("${" + s[1..n + 1] + "}", StringBody(s[n + 1..]))
      else Prepend("$", StringBody(s[1..]))
    else Prepend([s[0]], StringBody(s[1..]))
  }

  function Prepend(text: string, r: Lexed<string>): (p: Lexed<string>)
    ensures p.Lexed? ==> r.Lexed? && p.rest == r.rest
  {
    if r.Lexed? then Lexed(text + r.value, r.rest) else LexError
  }

  // ----- tokens -----

  function Keyword(word: string): Option<Token> {
    match word
    case "let" => Some(LET) case "if" => Some(IF) case "elif" => Some(ELIF) case "else" => Some(ELSE)
    case "for" => Some(FOR) case "in" => Some(IN) case "fn" => Some(FN) case "return" => Some(RETURN)
    case "try" => Some(TRY) case "catch" => Some(CATCH) case "import" => Some(IMPORT)
    case "true" => Some(TRUE) case "false" => Some(FALSE) case "null" => Some(NULL)
    case "and" => Some(AND) case "or" => Some(OR) case "not" => Some(NOT)
    case _ => None
  }

  /** The token of one character on its own. */
  function Symbol(c: char): Option<Token> {
    match c
    case '|' => Some(PIPE) case '$' => Some(DOLLAR)
    case '{' => Some(LBRACE) case '}' => Some(RBRACE)
    case '[' => Some(LBRACKET) case ']' => Some(RBRACKET)
    case '(' => Some(LPAREN) case ')' => Some(RPAREN)
    case ',' => Some(COMMA) case ':' => Some(COLON)
    case '+' => Some(PLUS) case '-' => Some(MINUS) case '*' => Some(STAR) case '/' => Some(SLASH)
    case '=' => Some(ASSIGN) case '<' => Some(LT) case '>' => Some(GT)
    case _ => None
  }

  /** The token of two characters of which the second is an equals sign. */
  function Symbol2(c: char): Option<Token> {
    match c
    case '=' => Some(EQ) case '!' => Some(NE) case '<' => Some(LE) case '>' => Some(GE)
    case _ => None
  }

  /** A word: a keyword, a name, or two names with a dot between them. */
  function Word(s: string): (r: Lexed<Token>)
    requires s != [] && IsNameStart(s[0])
    ensures r.Lexed? && |r.rest| < |s|
  {
    var n := NameLength(s);
    if n + 1 < |s| && s[n] == '.' && IsAlpha(s[n + 1]) then
      var m := n + 1 + NameLength(s[n + 1..]);
      Lexed(DOTTED(s[..m]), s[m..])
    else
      var word := Keyword(s[..n]);
      Lexed(if word.Some? then word.value else IDENT(s[..n]), s[n..])
  }

  /** A number, with a minus sign if a digit follows it. */
  function NumberToken(s: string): (r: Lexed<Token>)
    requires s != [] && (IsDigit(s[0]) || s[0] == '-')
    ensures r.Lexed? && |r.rest| < |s|
  {
    var n := 1 + NumberLength(s[1..]);
    Lexed(NUMBER(s[..n]), s[n..])
  }

  predicate StartsNumber(s: string) {
    s != [] && (IsDigit(s[0]) || (s[0] == '-' && |s| > 1 && IsDigit(s[1])))
  }

  /** The first token of a text that begins with neither a newline, nor space, nor a comment. */
  function First(s: string): (r: Lexed<Token>)
    requires s != []
    ensures r.Lexed? ==> |r.rest| < |s|
  {
    if s[0] == '"' then
      var body := StringBody(s[1..]);
      if body.Lexed? then Lexed(STRING(body.value), body.rest) else LexError
    else if StartsNumber(s) then NumberToken(s)
    else if IsNameStart(s[0]) then Word(s)
    else if |s| > 1 && s[1] == '=' && Symbol2(s[0]).Some? then Lexed(Symbol2(s[0]).value, s[2..])
    else
      var symbol := Symbol(s[0]);
      if symbol.Some? then Lexed(symbol.value, s[1..]) else LexError
  }

  predicate IsSpace(c: char) {
    c == ' ' || c == '\t' || c == '\r'
  }

  /** All the tokens of a text, and the end. */
  function LexAll(s: string): Option<seq<Token>>
    decreases |s|
  {
    if s == [] then Some([EOF])
    else if s[0] == '\n' then Cons(NEWLINE, LexAll(s[1..]))
    else if IsSpace(s[0]) then LexAll(s[1..])
    else if s[0] == '#' then LexAll(s[1 + LineLength(s[1..])..])
    else
      var first := First(s);
      if first.Lexed? then Cons(first.value, LexAll(first.rest)) else None
  }

  function Cons(t: Token, ts: Option<seq<Token>>): Option<seq<Token>> {
    if ts.Some? then Some([t] + ts.value) else None
  }

  // ----- quoting -----

  /** A text with backslashes, quotes, newlines, tabs and dollar signs escaped. */
  function Escape(s: string): string {
    if s == [] then []
    else EscapeChar(s[0]) + Escape(s[1..])
  }

  function EscapeChar(c: char): (e: string)
    ensures e != []
  {
    match c
    case '\\' => "\\\\"
    case '"' => "\\\""
    case '\n' => "\\n"
    case '\t' => "\\t"
    case '$' => "\\$"
    case _ => [c]
  }

  lemma OneEscaped(c: char, more: string)
    ensures StringBody(EscapeChar(c) + more) == Prepend([c], StringBody(more))
  {
    var e := EscapeChar(c);
    var all := e + more;
    assert all[|e|..] == more;
    if |e| == 2 {
      assert all[0] == '\\' && Unescape(all[1]) == [c];
      assert all[2..] == more;
    } else {
      assert all[1..] == more;
    }
  }

  lemma QuoteEnds(rest: string)
    ensures StringBody(['"'] + rest) == Lexed([], rest)
  {
    assert (['"'] + rest)[1..] == rest;
  }

  /** For every text, lexing its quoted form gives back the text and stops just past the closing
      quote, whatever follows. */
  lemma {:induction false} QuotingInverts(s: string, rest: string)
    ensures StringBody(Escape(s) + (['"'] + rest)) == Lexed(s, rest)
  {
    hide EscapeChar, StringBody;
    var end := ['"'] + rest;
    if s == [] {
      assert Escape(s) + end == end;
      QuoteEnds(rest);
    } else {
      QuotingInverts(s[1..], rest);
      var more := Escape(s[1..]) + end;
      OneEscaped(s[0], more);
      assert Escape(s) + end == EscapeChar(s[0]) + more;
      assert [s[0]] + s[1..] == s;
    }
  }

  // ----- spelling tokens -----

  predicate IsName(s: string) {
    s != [] && IsNameStart(s[0]) && forall i | 0 <= i < |s| :: IsNamePart(s[i])
  }

  /** A name that is not a keyword. */
  predicate IsIdent(s: string) {
    IsName(s) && Keyword(s).None?
  }

  /** The length of a text's part before its first dot. */
  function BeforeDot(s: string): (n: nat)
    ensures n <= |s|
  {
    if s == [] || s[0] == '.' then 0 else 1 + BeforeDot(s[1..])
  }

  /** Two names with a dot between them, the second beginning with a letter. */
  predicate IsDotted(s: string) {
    var n := BeforeDot(s);
    n + 1 < |s| && IsName(s[..n]) && IsName(s[n + 1..]) && IsAlpha(s[n + 1])
  }

  /** A token that some text lexes to. */
  predicate Spellable(t: Token) {
    match t
    case NUMBER(text) => IsNumeral(text)
    case IDENT(name) => IsIdent(name)
    case DOTTED(name) => IsDotted(name)
    case EOF => false
    case _ => true
  }

  /** The text of a token, without what separates it from the next. */
  function Spelling(t: Token): string {
    match t
    case STRING(text) => ['"'] + (Escape(text) + ['"'])
    case NUMBER(text) => text
    case IDENT(name) => name
    case DOTTED(name) => name
    case LET => "let" case IF => "if" case ELIF => "elif" case ELSE => "else" case FOR => "for" case IN => "in"
    case FN => "fn" case RETURN => "return" case TRY => "try" case CATCH => "catch" case IMPORT => "import"
    case TRUE => "true" case FALSE => "false" case NULL => "null" case AND => "and" case OR => "or" case NOT => "not"
    case PIPE => "|" case ASSIGN => "=" case DOLLAR => "$" case LBRACE => "{" case RBRACE => "}"
    case LBRACKET => "[" case RBRACKET => "]" case LPAREN => "(" case RPAREN => ")" case COMMA => "," case COLON => ":"
    case PLUS => "+" case MINUS => "-" case STAR => "*" case SLASH => "/"
    case EQ => "==" case NE => "!=" case LT => "<" case GT => ">" case LE => "<=" case GE => ">="
    case NEWLINE => "\n"
    case EOF => ""
  }

  /** The text of a token list: every token followed by a space. */
  function Text(ts: seq<Token>): string {
    if ts == [] then [] else Spelling(ts[0]) + ([' '] + Text(ts[1..]))
  }

  lemma {:induction false} NameLengthOf(name: string, rest: string)
    requires (forall i :: 0 <= i < |name| ==> IsNamePart(name[i])) && (rest == [] || !IsNamePart(rest[0]))
    ensures NameLength(name + rest) == |name|
  {
    if name == [] {
      assert name + rest == rest;
    } else {
      assert (name + rest)[1..] == name[1..] + rest;
      NameLengthOf(name[1..], rest);
    }
  }

  lemma {:induction false} NumberLengthOf(digits: string, rest: string)
    requires (forall i :: 0 <= i < |digits| ==> IsNumberPart(digits[i])) && (rest == [] || !IsNumberPart(rest[0]))
    ensures NumberLength(digits + rest) == |digits|
  {
    if digits == [] {
      assert digits + rest == rest;
    } else {
      assert (digits + rest)[1..] == digits[1..] + rest;
      NumberLengthOf(digits[1..], rest);
    }
  }

  lemma NameFirst(name: string, rest: string)
    requires IsName(name) && (rest == [] || (!IsNamePart(rest[0]) && rest[0] != '.'))
    ensures First(name + rest) == Lexed(if Keyword(name).Some? then Keyword(name).value else IDENT(name), rest)
  {
    NameLengthOf(name, rest);
    assert (name + rest)[..|name|] == name && (name + rest)[|name|..] == rest;
  }

  lemma DottedFirst(name: string, rest: string)
    requires IsDotted(name) && (rest == [] || !IsNamePart(rest[0]))
    ensures First(name + rest) == Lexed(DOTTED(name), rest)
  {
    var n := BeforeDot(name);
    BeforeDotEnds(name);
    var head, tail := name[..n], name[n + 1..];
    var s := name + rest;
    assert s == head + (['.'] + tail + rest);
    NameLengthOf(head, ['.'] + tail + rest);
    assert s[n + 1..] == tail + rest;
    NameLengthOf(tail, rest);
    assert s[..|name|] == name && s[|name|..] == rest;
  }

  lemma {:induction false} BeforeDotEnds(s: string)
    ensures BeforeDot(s) < |s| ==> s[BeforeDot(s)] == '.'
  {
    if s != [] && s[0] != '.' { BeforeDotEnds(s[1..]); }
  }

  lemma NumberFirst(text: string, rest: string)
    requires IsNumeral(text) && (rest == [] || !IsNumberPart(rest[0]))
    ensures First(text + rest) == Lexed(NUMBER(text), rest)
  {
    var s := text + rest;
    assert s[1..] == text[1..] + rest;
    NumberLengthOf(text[1..], rest);
    assert s[..|text|] == text && s[|text|..] == rest;
  }

  lemma StringFirst(text: string, rest: string)
    ensures First(Spelling(STRING(text)) + rest) == Lexed(STRING(text), rest)
  {
    hide StringBody, Escape;
    var s := Spelling(STRING(text)) + rest;
    QuotingInverts(text, rest);
    assert s[1..] == Escape(text) + (['"'] + rest);
  }

  predicate IsKeyword(t: Token) {
    t in {LET, IF, ELIF, ELSE, FOR, IN, FN, RETURN, TRY, CATCH, IMPORT, TRUE, FALSE, NULL, AND, OR, NOT}
  }

  lemma KeywordSpelling(t: Token)
    requires IsKeyword(t)
    ensures IsName(Spelling(t)) && Keyword(Spelling(t)) == Some(t)
  {
  }

  /** A character that begins neither a string, nor a number, nor a word. */
  predicate IsSign(c: char) {
    c != '"' && !IsDigit(c) && !IsNameStart(c)
  }

  /** The text of a symbol is one character or two. */
  predicate SpellsSymbol(x: string, t: Token) {
    || (|x| == 1 && IsSign(x[0]) && Symbol(x[0]) == Some(t))
    || (|x| == 2 && IsSign(x[0]) && x[0] != '-' && x[1] == '=' && Symbol2(x[0]) == Some(t))
  }

  predicate IsSymbol(t: Token) {
    !t.STRING? && !t.NUMBER? && !t.IDENT? && !t.DOTTED? && !IsKeyword(t) && t != NEWLINE && t != EOF
  }

  lemma SymbolSpelling(t: Token)
    requires IsSymbol(t)
    ensures SpellsSymbol(Spelling(t), t)
  {
  }

  /** No equals sign makes two characters of the symbol, and no digit a number of it. */
  predicate EndsSymbol(t: Token, rest: string) {
    rest == [] || ((t in {ASSIGN, LT, GT} ==> rest[0] != '=') && (t == MINUS ==> !IsDigit(rest[0])))
  }

  lemma SignOf(c: char, t: Token)
    requires Symbol(c) == Some(t)
    ensures Symbol2(c).Some? ==> t in {ASSIGN, LT, GT}
    ensures c == '-' ==> t == MINUS
  {
  }

  /** A symbol's text, where it ends, is read as that symbol. */
  lemma SymbolFirst(x: string, t: Token, rest: string)
    requires SpellsSymbol(x, t) && EndsSymbol(t, rest)
    ensures First(x + rest) == Lexed(t, rest)
  {
    hide Symbol, Symbol2;
    var s := x + rest;
    assert s[|x|..] == rest;
    assert |x| == 1 && rest != [] ==> s[1] == rest[0];
    if |x| == 1 { SignOf(x[0], t); }
  }

  /** The token ends where this follows: no longer token begins with its text. */
  predicate Ends(t: Token, rest: string) {
    if rest == [] || t.STRING? || t == NEWLINE then true
    else if t.NUMBER? then !IsNumberPart(rest[0])
    else if t.DOTTED? then !IsNamePart(rest[0])
    else if t.IDENT? || IsKeyword(t) then !IsNamePart(rest[0]) && rest[0] != '.'
    else EndsSymbol(t, rest)
  }

  /** A token's text, where the token ends, is read as that token. */
  lemma TokenFirst(t: Token, rest: string)
    requires Spellable(t) && t != NEWLINE && Ends(t, rest)
    ensures var s := Spelling(t) + rest; s != [] && First(s) == Lexed(t, rest)
  {
    if IsKeyword(t) {
      KeywordSpelling(t);
      NameFirst(Spelling(t), rest);
    } else if t.STRING? {
      StringFirst(t.text, rest);
    } else if t.NUMBER? {
      NumberFirst(t.text, rest);
    } else if t.IDENT? {
      NameFirst(t.name, rest);
    } else if t.DOTTED? {
      DottedFirst(t.name, rest);
    } else {
      SymbolSpelling(t);
      SymbolFirst(Spelling(t), t, rest);
    }
    hide First, Spelling;
  }

  /** A text whose first character is not skipped. */
  predicate BeginsToken(s: string) {
    s != [] && s[0] != '\n' && !IsSpace(s[0]) && s[0] != '#'
  }

  /** The characters a token's text can begin with are not skipped. */
  lemma SpellingHead(t: Token)
    requires Spellable(t) && t != NEWLINE
    ensures BeginsToken(Spelling(t))
  {
    if IsKeyword(t) { KeywordSpelling(t); }
    if t.DOTTED? { assert t.name[..BeforeDot(t.name)][0] == t.name[0]; }
  }

  /** The text of spellable tokens lexes back to them, with the end after them. */
  lemma {:induction false} SpellingInverts(ts: seq<Token>)
    requires forall i :: 0 <= i < |ts| ==> Spellable(ts[i])
    ensures LexAll(Text(ts)) == Some(ts + [EOF])
  {
    if ts == [] {
      assert ts + [EOF] == [EOF];
    } else {
      SpellingInverts(ts[1..]);
      hide Spelling, LexAll;
      NextSpelled(ts[0], Text(ts[1..]));
      assert [ts[0]] + (ts[1..] + [EOF]) == ts + [EOF];
    }
  }

  /** The spelling of a token, and the space after it, lex to that token. */
  lemma NextSpelled(t: Token, rest: string)
    requires Spellable(t)
    ensures LexAll(Spelling(t) + ([' '] + rest)) == Cons(t, LexAll(rest))
  {
    hide First;
    var after := [' '] + rest;
    var s := Spelling(t) + after;
    assert after[1..] == rest;
    assert LexAll(after) == LexAll(rest);
    if t == NEWLINE {
      assert s[1..] == after;
    } else {
      TokenFirst(t, after);
      SpellingHead(t);
    }
  }

  // ----- the loops -----

  method SkipName(source: string, start: nat) returns (i: nat)
    requires start <= |source|
    ensures i == start + NameLength(source[start..]) <= |source|
  {
    i := start;
    while i < |source| && IsNamePart(source[i])
      invariant start <= i <= |source|
      invariant start + NameLength(source[start..]) == i + NameLength(source[i..])
    {
      assert source[i..][1..] == source[i + 1..];
      i := i + 1;
    }
  }

  method SkipNumber(source: string, start: nat) returns (i: nat)
    requires start <= |source|
    ensures i == start + NumberLength(source[start..]) <= |source|
  {
    i := start;
    while i < |source| && IsNumberPart(source[i])
      invariant start <= i <= |source|
      invariant start + NumberLength(source[start..]) == i + NumberLength(source[i..])
    {
      assert source[i..][1..] == source[i + 1..];
      i := i + 1;
    }
  }

  method SkipLine(source: string, start: nat) returns (i: nat)
    requires start <= |source|
    ensures i == start + LineLength(source[start..]) <= |source|
  {
    i := start;
    while i < |source| && source[i] != '\n'
      invariant start <= i <= |source|
      invariant start + LineLength(source[start..]) == i + LineLength(source[i..])
    {
      assert source[i..][1..] == source[i + 1..];
      i := i + 1;
    }
  }

  lemma PrependTwice(a: string, b: string, r: Lexed<string>)
    ensures Prepend(a, Prepend(b, r)) == Prepend(a + b, r)
  {
    if r.Lexed? { assert a + (b + r.value) == (a + b) + r.value; }
  }

  lemma PrependNothing(r: Lexed<string>)
    ensures Prepend("", r) == r
  {
    if r.Lexed? { assert "" + r.value == r.value; }
  }

  lemma PrependEnd(a: string, rest: string)
    ensures Prepend(a, Lexed("", rest)) == Lexed(a, rest)
  {
    assert a + "" == a;
  }

  lemma PrependError(a: string)
    ensures Prepend(a, LexError) == LexError
  {
  }

  /** The reading of a string from a place in it, by the character there. */
  lemma BodyAt(source: string, i: nat)
    requires i < |source|
    ensures
      var c, body := source[i], StringBody(source[i..]);
      if c == '"' then body == Lexed("", source[i + 1..])
      else if c == '\\' then
        body == if i + 1 == |source| then LexError else Prepend(Unescape(source[i + 1]), StringBody(source[i + 2..]))
      else if c == '$' && i + 1 < |source| && IsNameStart(source[i + 1]) then
        var end := i + 1 + NameLength(source[i + 1..]);
        body == Prepend("${" + source[i + 1..end] + "}", StringBody(source[end..]))
      else body == Prepend([c], StringBody(source[i + 1..]))
  {
    hide Unescape, Prepend, NameLength;
    var s := source[i..];
    assert s[1..] == source[i + 1..];
    if |s| > 1 { assert s[2..] == source[i + 2..]; }
    var n := NameLength(s[1..]);
    assert s[n + 1..] == source[i + 1 + n..] && s[1..n + 1] == source[i + 1..i + 1 + n];
  }

  /** What has been read goes in front of what is still to be read. */
  lemma ReadMore(read: string, more: string, rest: Lexed<string>, whole: Lexed<string>)
    requires whole == Prepend(read, Prepend(more, rest))
    ensures whole == Prepend(read + more, rest)
  {
    PrependTwice(read, more, rest);
  }

  /** A string literal from its opening quote: finished parts and the part being read, joined at the
      closing quote. */
  method LexString(source: string, start: nat) returns (r: Lexed<string>)
    requires start < |source|
    ensures r == StringBody(source[start + 1..])
  {
    hide Unescape, Prepend, StringBody;
    var i := start + 1;
    var parts, buf := "", "";
    ghost var whole := StringBody(source[i..]);
    PrependNothing(whole);
    assert parts + buf == "";
    while i < |source|
      invariant start < i <= |source|
      invariant whole == Prepend(parts + buf, StringBody(source[i..]))
    {
      ghost var read := parts + buf;
      var c := source[i];
      BodyAt(source, i);
      if c == '"' {
        PrependEnd(read, source[i + 1..]);
        return Lexed(parts + buf, source[i + 1..]);
      } else if c == '\\' {
        i := i + 1;
        if i >= |source| {
          PrependError(read);
          return LexError;
        }
        ReadMore(read, Unescape(source[i]), StringBody(source[i + 1..]), whole);
        buf := buf + Unescape(source[i]);
        assert read + Unescape(source[i]) == parts + buf;
        i := i + 1;
      } else if c == '$' && i + 1 < |source| && IsNameStart(source[i + 1]) {
        var end := SkipName(source, i + 1);
        var mark := "${" + source[i + 1..end] + "}";
        ReadMore(read, mark, StringBody(source[end..]), whole);
        assert (parts + buf + mark) + "" == read + mark;
        parts, buf, i := parts + buf + mark, "", end;
      } else {
        ReadMore(read, [c], StringBody(source[i + 1..]), whole);
        buf := buf + [c];
        assert read + [c] == parts + buf;
        i := i + 1;
      }
    }
    assert source[i..] == "";
    NothingToClose();
    PrependError(parts + buf);
    r := LexError;
  }

  lemma NothingToClose()
    ensures StringBody("") == LexError
  {
  }

  /** One token that is neither a newline, nor space, nor a comment. */
  method LexToken(source: string, start: nat) returns (r: Lexed<Token>)
    requires start < |source|
    ensures r == First(source[start..])
  {
    ghost var s := source[start..];
    assert s[1..] == source[start + 1..];
    var c := source[start];
    if c == '"' {
      var body := LexString(source, start);
      return if body.Lexed? then Lexed(STRING(body.value), body.rest) else LexError;
    }
    if IsDigit(c) || (c == '-' && start + 1 < |source| && IsDigit(source[start + 1])) {
      var end := SkipNumber(source, start + 1);
      assert s[..end - start] == source[start..end] && s[end - start..] == source[end..];
      return Lexed(NUMBER(source[start..end]), source[end..]);
    }
    if IsNameStart(c) {
      r := LexWord(source, start);
      return;
    }
    assert |s| > 1 ==> s[2..] == source[start + 2..];
    if start + 1 < |source| && source[start + 1] == '=' && Symbol2(c).Some? {
      return Lexed(Symbol2(c).value, source[start + 2..]);
    }
    var symbol := Symbol(c);
    return if symbol.Some? then Lexed(symbol.value, source[start + 1..]) else LexError;
  }

  predicate DotAt(source: string, i: nat) {
    i + 1 < |source| && source[i] == '.' && IsAlpha(source[i + 1])
  }

  /** The word at a place, in terms of the places where its parts end. */
  lemma PlainWordAt(source: string, start: nat, i: nat)
    requires start < |source| && IsNameStart(source[start])
    requires i == start + NameLength(source[start..]) && !DotAt(source, i)
    ensures var word := source[start..i];
      Word(source[start..]) == Lexed(if Keyword(word).Some? then Keyword(word).value else IDENT(word), source[i..])
  {
    hide Keyword, NameLength, IsNameStart, IsAlpha;
    SliceOfSuffix(source, start, i - start);
  }

  lemma DottedWordAt(source: string, start: nat, i: nat, end: nat)
    requires start < |source| && IsNameStart(source[start])
    requires i == start + NameLength(source[start..]) && DotAt(source, i)
    requires end == i + 1 + NameLength(source[i + 1..])
    ensures Word(source[start..]) == Lexed(DOTTED(source[start..end]), source[end..])
  {
    hide Keyword, NameLength, IsNameStart, IsAlpha;
    SliceOfSuffix(source, start, i - start + 1);
    SliceOfSuffix(source, start, end - start);
  }

  lemma SliceOfSuffix(source: string, start: nat, k: nat)
    requires start + k <= |source|
    ensures source[start..][k..] == source[start + k..] && source[start..][..k] == source[start..start + k]
  {
  }

  method LexWord(source: string, start: nat) returns (r: Lexed<Token>)
    requires start < |source| && IsNameStart(source[start])
    ensures r == Word(source[start..])
  {
    hide Keyword, NameLength, Word;
    var i := SkipName(source, start);
    if DotAt(source, i) {
      var end := SkipName(source, i + 1);
      DottedWordAt(source, start, i, end);
      return Lexed(DOTTED(source[start..end]), source[end..]);
    }
    PlainWordAt(source, start, i);
    var word := source[start..i];
    var keyword := Keyword(word);
    r := Lexed(if keyword.Some? then keyword.value else IDENT(word), source[i..]);
  }

  function After(before: seq<Token>, rest: Option<seq<Token>>): Option<seq<Token>> {
    if rest.Some? then Some(before + rest.value) else None
  }

  lemma AfterCons(before: seq<Token>, t: Token, rest: Option<seq<Token>>)
    ensures After(before, Cons(t, rest)) == After(before + [t], rest)
  {
    if rest.Some? { assert before + ([t] + rest.value) == (before + [t]) + rest.value; }
  }

  /** What is left after a token is the end of the source. */
  lemma FirstLeavesTheEnd(s: string)
    requires s != [] && First(s).Lexed?
    ensures First(s).rest == s[|s| - |First(s).rest|..]
  {
    hide StringBody;
    if s[0] == '"' { StringLeavesTheEnd(s[1..]); }
  }

  lemma {:induction false} StringLeavesTheEnd(s: string)
    requires StringBody(s).Lexed?
    ensures StringBody(s).rest == s[|s| - |StringBody(s).rest|..]
    decreases |s|
  {
    if s[0] == '"' {
    } else if s[0] == '\\' {
      StringLeavesTheEnd(s[2..]);
    } else if s[0] == '$' && |s| > 1 && IsNameStart(s[1]) {
      StringLeavesTheEnd(s[NameLength(s[1..]) + 1..]);
    } else {
      StringLeavesTheEnd(s[1..]);
    }
  }

  /** The tokens of a source text in one pass, ended by EOF, or nothing if a character cannot begin
      a token or a string is not closed. */
  method Tokenize(source: string) returns (tokens: Option<seq<Token>>)
    ensures tokens == LexAll(source)
  {
    hide First;
    var i, found := 0, [];
    ghost var whole := LexAll(source);
    assert source[0..] == source;
    assert whole.Some? ==> [] + whole.value == whole.value;
    while i < |source|
      invariant i <= |source|
      invariant whole == After(found, LexAll(source[i..]))
    {
      ghost var here := source[i..];
      if source[i] == '\n' {
        assert here[1..] == source[i + 1..];
        AfterCons(found, NEWLINE, LexAll(source[i + 1..]));
        found, i := found + [NEWLINE], i + 1;
      } else if IsSpace(source[i]) {
        assert here[1..] == source[i + 1..];
        i := i + 1;
      } else if source[i] == '#' {
        assert here[1..] == source[i + 1..];
        var end := SkipLine(source, i + 1);
        assert here[end - i..] == source[end..];
        i := end;
      } else {
        var first := LexToken(source, i);
        if first == LexError { return None; }
        FirstLeavesTheEnd(here);
        var next := |source| - |first.rest|;
        assert source[next..] == first.rest;
        AfterCons(found, first.value, LexAll(first.rest));
        found, i := found + [first.value], next;
      }
    }
    assert source[i..] == [];
    tokens := Some(found + [EOF]);
  }
}
