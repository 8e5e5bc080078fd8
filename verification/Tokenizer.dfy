/** The Geatafile tokenizer: bare and quoted arguments, structural braces,
    comments, and the line each token starts on. */
module Tokenizer {
  import opened Basics
  import opened Json

  datatype Kind = Text(text: string) | Open | Close
  datatype Token = Token(line: nat, kind: Kind, quoted: bool)

  datatype Problem = Unterminated | InvalidString | NoSpaceAfterQuote | QuoteInsideArgument
  datatype Result = Ok(tokens: seq<Token>) | Err(line: nat, problem: Problem)

  /** `char::is_whitespace`. */
  predicate White(c: char) {
    var n := c as int;
    || 9 <= n <= 13 || n == 32 || n == 0x85 || n == 0xA0 || n == 0x1680 || 0x2000 <= n <= 0x200A
    || n == 0x2028 || n == 0x2029 || n == 0x202F || n == 0x205F || n == 0x3000
  }

  predicate Delimiter(c: char) { White(c) || c == '{' || c == '}' || c == '#' }

  // ---------- meaning of a text, from a position on ----------

  predicate BareChar(c: char) { !Delimiter(c) && c != QUOTE }

  /** Where the bare argument that includes `i` ends. */
  function BareEnd(s: string, i: nat): (end: nat)
    requires i <= |s|
    ensures i <= end <= |s| && (end < |s| ==> !BareChar(s[end])) && forall j :: i <= j < end ==> BareChar(s[j])
    decreases |s| - i
  {
    if i == |s| || !BareChar(s[i]) then i else BareEnd(s, i + 1)
  }

  /** Where the next line starts. */
  function LineEnd(s: string, i: nat): (end: nat)
    requires i <= |s|
    ensures i <= end <= |s|
    decreases |s| - i
  {
    if i == |s| then i else if s[i] == '\n' then i + 1 else LineEnd(s, i + 1)
  }

  /** Where the literal scanned from `i` closes. */
  function CloseFrom(s: string, i: nat, escaped: bool): (r: Option<nat>)
    requires i <= |s|
    ensures r.Some? ==> i <= r.value < |s|
    decreases |s| - i
  {
    if i == |s| then None
    else if !escaped && s[i] == QUOTE then Some(i)
    else CloseFrom(s, i + 1, !escaped && s[i] == BACKSLASH)
  }

  function Newlines(s: string, start: nat, end: nat): nat
    requires start <= end <= |s|
  {
    if start == end then 0 else Newlines(s, start, end - 1) + if s[end - 1] == '\n' then 1 else 0
  }

  /** What is read at one position: nothing but layout, one token, or an error;
      then the position and line where reading goes on. */
  datatype Piece = Layout | One(token: Token) | Bad(line: nat, problem: Problem)
  datatype Move = Move(piece: Piece, next: nat, line: nat)

  /** The quoted argument whose opening quote is at `i`. */
  function QuotedMove(s: string, i: nat, line: nat): (m: Move)
    requires i < |s|
    ensures i < m.next <= |s| && m.line >= line
  {
    var end := CloseFrom(s, i + 1, false);
    if end.None? then Move(Bad(line, Unterminated), |s|, line)
    else
      var value, after := Unescape(s[i + 1..end.value]), line + Newlines(s, i + 1, end.value);
      var next := end.value + 1;
      if value.None? then Move(Bad(line, InvalidString), next, after)
      else if next < |s| && !Delimiter(s[next]) then Move(Bad(after, NoSpaceAfterQuote), next, after)
      else Move(One(Token(line, Text(value.value), true)), next, after)
  }

  function BareMove(s: string, i: nat, line: nat): (m: Move)
    requires i < |s| && BareChar(s[i])
    ensures i < m.next <= |s| && m.line == line
  {
    var end := BareEnd(s, i + 1);
    if end < |s| && s[end] == QUOTE then Move(Bad(line, QuoteInsideArgument), end, line)
    else Move(One(Token(line, Text(s[i..end]), false)), end, line)
  }

  function MoveAt(s: string, i: nat, line: nat): (m: Move)
    requires i < |s|
    ensures i < m.next <= |s| && m.line >= line
  {
    if White(s[i]) then Move(Layout, i + 1, if s[i] == '\n' then line + 1 else line)
    else if s[i] == '#' then Move(Layout, LineEnd(s, i + 1), line + Newlines(s, i + 1, LineEnd(s, i + 1)))
    else if s[i] == '{' then Move(One(Token(line, Open, false)), i + 1, line)
    else if s[i] == '}' then Move(One(Token(line, Close, false)), i + 1, line)
    else if s[i] == QUOTE then QuotedMove(s, i, line)
    else BareMove(s, i, line)
  }

  function Then(p: Piece, rest: Result): Result {
    match p
    case Layout => rest
    case One(t) => if rest.Ok? then Ok([t] + rest.tokens) else rest
    case Bad(line, problem) => Err(line, problem)
  }

  /** The tokens of `s` from position `i`, which is on line `line`. */
  function Lex(s: string, i: nat, line: nat): Result
    requires i <= |s|
    decreases |s| - i
  {
    if i == |s| then Ok([]) else var m := MoveAt(s, i, line); Then(m.piece, Lex(s, m.next, m.line))
  }

  // ---------- the cursor loop ----------

  function Join(done: seq<Token>, rest: Result): Result { if rest.Ok? then Ok(done + rest.tokens) else rest }

  lemma JoinThen(done: seq<Token>, t: Token, rest: Result)
    ensures Join(done, Then(One(t), rest)) == Join(done + [t], rest)
  {
    if rest.Ok? { assert done + ([t] + rest.tokens) == (done + [t]) + rest.tokens; }
  }

  /** `tokenize`: one pass with a cursor, a line counter and a growing list. */
  method Tokenize(input: string) returns (r: Result)
    ensures r == Lex(input, 0, 1)
  {
    var i, line: nat := 0, 1;
    var tokens: seq<Token> := [];
    while i < |input|
      invariant 0 <= i <= |input|
      invariant Lex(input, 0, 1) == Join(tokens, Lex(input, i, line))
      decreases |input| - i
    {
      var move := ReadPiece(input, i, line);
      if move.piece.Bad? { return Err(move.piece.line, move.piece.problem); }
      if move.piece.One? {
        JoinThen(tokens, move.piece.token, Lex(input, move.next, move.line));
        tokens := tokens + [move.piece.token];
      }
      i, line := move.next, move.line;
    }
    r := Ok(tokens);
  }

  method ReadPiece(input: string, i: nat, line: nat) returns (move: Move)
    requires i < |input|
    ensures move == MoveAt(input, i, line)
  {
    var c := input[i];
    if White(c) {
      move := Move(Layout, i + 1, if c == '\n' then line + 1 else line);
    } else if c == '#' {
      var end, after := SkipComment(input, i + 1, line);
      move := Move(Layout, end, after);
    } else if c == '{' {
      move := Move(One(Token(line, Open, false)), i + 1, line);
    } else if c == '}' {
      move := Move(One(Token(line, Close, false)), i + 1, line);
    } else if c == QUOTE {
      move := ReadQuoted(input, i, line);
    } else {
      move := ReadBare(input, i, line);
    }
  }

  method SkipComment(input: string, start: nat, line: nat) returns (end: nat, after: nat)
    requires start <= |input|
    ensures end == LineEnd(input, start) && after == line + Newlines(input, start, end)
  {
    end, after := start, line;
    while end < |input| && input[end] != '\n'
      invariant start <= end <= |input| && LineEnd(input, start) == LineEnd(input, end)
      invariant after == line + Newlines(input, start, end)
    {
      end := end + 1;
    }
    if end < |input| { end, after := end + 1, after + 1; }
  }

  method ReadBare(input: string, i: nat, line: nat) returns (move: Move)
    requires i < |input| && BareChar(input[i])
    ensures move == BareMove(input, i, line)
  {
    var end := i + 1;
    while end < |input| && !Delimiter(input[end])
      invariant i < end <= |input| && BareEnd(input, i + 1) == BareEnd(input, end)
    {
      if input[end] == QUOTE { return Move(Bad(line, QuoteInsideArgument), end, line); }
      end := end + 1;
    }
    move := Move(One(Token(line, Text(input[i..end]), false)), end, line);
  }

  /** The scan for the closing quote, counting raw newlines on the way. */
  method ReadQuoted(input: string, i: nat, line: nat) returns (move: Move)
    requires i < |input|
    ensures move == QuotedMove(input, i, line)
  {
    var end, after, escaped := i + 1, line, false;
    while end < |input| && (escaped || input[end] != QUOTE)
      invariant i < end <= |input| && CloseFrom(input, i + 1, false) == CloseFrom(input, end, escaped)
      invariant after == line + Newlines(input, i + 1, end)
    {
      if input[end] == '\n' { after := after + 1; }
      escaped := !escaped && input[end] == BACKSLASH;
      end := end + 1;
    }
    if end == |input| { return Move(Bad(line, Unterminated), end, line); }
    var value := Unescape(input[i + 1..end]);
    if value.None? { return Move(Bad(line, InvalidString), end + 1, after); }
    if end + 1 < |input| && !Delimiter(input[end + 1]) { return Move(Bad(after, NoSpaceAfterQuote), end + 1, after); }
    move := Move(One(Token(line, Text(value.value), true)), end + 1, after);
  }

  // ---------- printing ----------

  /** A piece of a laid-out file. */
  datatype Item =
    | Bare(text: string) | Quote(value: string) | Brace(open: bool)
    | Comment(text: string) | LastComment(text: string) | Newline | Blank(c: char)

  predicate BareText(s: string) { s != "" && forall i :: 0 <= i < |s| ==> !Delimiter(s[i]) && s[i] != QUOTE }

  predicate ValidItem(i: Item) {
    match i
    case Bare(text) => BareText(text)
    case Comment(text) => forall j :: 0 <= j < |text| ==> text[j] != '\n'
    case LastComment(text) => forall j :: 0 <= j < |text| ==> text[j] != '\n'
    case Blank(c) => White(c) && c != '\n'
    case _ => true
  }

  predicate Argument(i: Item) { i.Bare? || i.Quote? }

  /** Valid items in which no argument touches the next one, and only the last may
      be a comment without a line end. */
  predicate WellLaidOut(items: seq<Item>) {
    && (forall i :: 0 <= i < |items| ==> ValidItem(items[i]))
    && (forall i :: 0 <= i < |items| - 1 && Argument(items[i]) ==> !Argument(items[i + 1]))
    && (forall i :: 0 <= i < |items| - 1 ==> !items[i].LastComment?)
  }

  function PrintItem(i: Item): string {
    match i
    case Bare(text) => text
    case Quote(value) => Quoted(value)
    case Brace(open) => if open then "{" else "}"
    case Comment(text) => "#" + text + "\n"
    case LastComment(text) => "#" + text
    case Newline => "\n"
    case Blank(c) => [c]
  }

  function Print(items: seq<Item>): string { if items == [] then "" else PrintItem(items[0]) + Print(items[1..]) }

  function TokensOf(items: seq<Item>, line: nat): seq<Token> {
    if items == [] then []
    else
      match items[0]
      case Bare(text) => [Token(line, Text(text), false)] + TokensOf(items[1..], line)
      case Quote(value) => [Token(line, Text(value), true)] + TokensOf(items[1..], line)
      case Brace(open) => [Token(line, if open then Open else Close, false)] + TokensOf(items[1..], line)
      case Blank(_) => TokensOf(items[1..], line)
      case LastComment(_) => TokensOf(items[1..], line)
      case _ => TokensOf(items[1..], line + 1)
  }

  /** `text` stands in `s` at position `i`. */
  predicate Stands(s: string, i: nat, text: string) { i + |text| <= |s| && s[i..i + |text|] == text }

  predicate Ends(s: string, i: nat) { i == |s| || (i < |s| && Delimiter(s[i])) }

  lemma {:induction false} BareEndIs(s: string, i: nat, end: nat)
    requires i <= end <= |s| && Ends(s, end) && forall j :: i <= j < end ==> BareChar(s[j])
    ensures BareEnd(s, i) == end
    decreases end - i
  {
    if i < end { BareEndIs(s, i + 1, end); }
  }

  lemma {:induction false} LineEndIs(s: string, i: nat, end: nat)
    requires i <= end < |s| && s[end] == '\n' && forall j :: i <= j < end ==> s[j] != '\n'
    ensures LineEnd(s, i) == end + 1
    decreases end - i
  {
    if i < end { LineEndIs(s, i + 1, end); }
  }

  lemma {:induction false} NoNewlines(s: string, start: nat, end: nat)
    requires start <= end <= |s| && forall j :: start <= j < end ==> s[j] != '\n'
    ensures Newlines(s, start, end) == 0
    decreases end
  {
    if start < end { NoNewlines(s, start, end - 1); }
  }

  lemma {:induction false} CloseIsQuoteEnd(s: string, i: nat, escaped: bool)
    requires i <= |s|
    ensures CloseFrom(s, i, escaped) == Shift(QuoteEnd(s[i..], escaped), i)
    decreases |s| - i
  {
    if i < |s| {
      assert s[i..][1..] == s[i + 1..];
      CloseIsQuoteEnd(s, i + 1, !escaped && s[i] == BACKSLASH);
    }
  }

  lemma EscapeCharNoNewline(c: char)
    ensures forall j :: 0 <= j < |EscapeChar(c)| ==> EscapeChar(c)[j] != '\n'
  {}

  lemma {:induction false} EscapeNoNewline(s: string)
    ensures forall j :: 0 <= j < |Escape(s)| ==> Escape(s)[j] != '\n'
    decreases |s|
  {
    if s != "" {
      EscapeCharNoNewline(s[0]);
      EscapeNoNewline(s[1..]);
    }
  }

  lemma BareItem(s: string, i: nat, text: string, line: nat)
    requires BareText(text) && Stands(s, i, text) && Ends(s, i + |text|)
    ensures MoveAt(s, i, line) == Move(One(Token(line, Text(text), false)), i + |text|, line)
  {
    var end := i + |text|;
    forall j | i <= j < end ensures BareChar(s[j]) { assert s[j] == s[i..end][j - i]; }
    BareEndIs(s, i + 1, end);
  }

  lemma CommentItem(s: string, i: nat, text: string, line: nat)
    requires (forall j :: 0 <= j < |text| ==> text[j] != '\n') && Stands(s, i, "#" + text + "\n")
    ensures MoveAt(s, i, line) == Move(Layout, i + |text| + 2, line + 1)
  {
    var all, end := "#" + text + "\n", i + 1 + |text|;
    var here := s[i..i + |all|];
    forall j | i + 1 <= j < end ensures s[j] != '\n' { assert s[j] == here[j - i] == text[j - i - 1]; }
    assert s[i] == here[0] && s[end] == here[|text| + 1];
    LineEndIs(s, i + 1, end);
    NoNewlines(s, i + 1, end);
  }

  lemma {:induction false} LineEndsText(s: string, i: nat)
    requires i <= |s| && forall j :: i <= j < |s| ==> s[j] != '\n'
    ensures LineEnd(s, i) == |s|
    decreases |s| - i
  {
    if i < |s| { LineEndsText(s, i + 1); }
  }

  lemma LastCommentItem(s: string, i: nat, text: string, line: nat)
    requires (forall j :: 0 <= j < |text| ==> text[j] != '\n') && Stands(s, i, "#" + text) && i + 1 + |text| == |s|
    ensures MoveAt(s, i, line) == Move(Layout, |s|, line)
  {
    var here := s[i..i + 1 + |text|];
    forall j | i + 1 <= j < |s| ensures s[j] != '\n' { assert s[j] == here[j - i] == text[j - i - 1]; }
    assert s[i] == here[0];
    LineEndsText(s, i + 1);
    NoNewlines(s, i + 1, |s|);
  }

  lemma Enclosed(s: string, i: nat, e: string, c: char)
    requires Stands(s, i, [c] + e + [c])
    ensures s[i] == c && s[i + 1..i + 1 + |e|] == e
    ensures s[i + 1..] == e + ([c] + s[i + 2 + |e|..])
  {
    var here := s[i..i + 2 + |e|];
    assert s[i] == here[0] && s[i + 1 + |e|] == here[|e| + 1];
    assert s[i + 1..i + 1 + |e|] == here[1..|e| + 1] == e;
  }

  /** The literal behind the quote at `i` closes where it was closed. */
  lemma {:induction false} QuoteCloses(s: string, i: nat, e: string)
    requires Stands(s, i, [QUOTE] + e + [QUOTE]) && QuoteEnd(e + ([QUOTE] + s[i + 2 + |e|..]), false) == Some(|e|)
    ensures CloseFrom(s, i + 1, false) == Some(i + 1 + |e|) && s[i] == QUOTE && s[i + 1..i + 1 + |e|] == e
  {
    Enclosed(s, i, e, QUOTE);
    CloseIsQuoteEnd(s, i + 1, false);
  }

  /** What stands between the quotes of a printed literal. */
  lemma {:induction false} LiteralText(value: string, rest: string) returns (e: string)
    ensures Quoted(value) == [QUOTE] + e + [QUOTE] && QuoteEnd(e + ([QUOTE] + rest), false) == Some(|e|)
    ensures Unescape(e) == Some(value) && forall j :: 0 <= j < |e| ==> e[j] != '\n'
  {
    e := Escape(value);
    QuoteEndOfEscaped(value, rest);
    UnescapeEscape(value);
    EscapeNoNewline(value);
  }

  lemma SliceNoNewlines(s: string, i: nat, end: nat, e: string)
    requires i <= end <= |s| && s[i..end] == e && forall j :: 0 <= j < |e| ==> e[j] != '\n'
    ensures Newlines(s, i, end) == 0
  {
    forall j | i <= j < end ensures s[j] != '\n' { assert s[j] == e[j - i]; }
    NoNewlines(s, i, end);
  }

  lemma {:induction false} QuotedIs(s: string, i: nat, end: nat, value: string, line: nat)
    requires i < end < |s| && s[i] == QUOTE && CloseFrom(s, i + 1, false) == Some(end) && Ends(s, end + 1)
    requires Unescape(s[i + 1..end]) == Some(value) && Newlines(s, i + 1, end) == 0
    ensures MoveAt(s, i, line) == Move(One(Token(line, Text(value), true)), end + 1, line)
  {}

  /** Everything that reading a printed literal needs to know. */
  lemma {:induction false} LiteralAt(s: string, i: nat, value: string) returns (end: nat)
    requires Stands(s, i, Quoted(value))
    ensures i < end < |s| && end + 1 == i + |Quoted(value)| && s[i] == QUOTE && CloseFrom(s, i + 1, false) == Some(end)
    ensures Unescape(s[i + 1..end]) == Some(value) && Newlines(s, i + 1, end) == 0
  {
    var e := LiteralText(value, s[i + |Quoted(value)|..]);
    QuoteCloses(s, i, e);
    end := i + 1 + |e|;
    SliceNoNewlines(s, i + 1, end, e);
  }

  lemma {:induction false} QuoteItem(s: string, i: nat, value: string, line: nat)
    requires Stands(s, i, Quoted(value)) && Ends(s, i + |Quoted(value)|)
    ensures MoveAt(s, i, line) == Move(One(Token(line, Text(value), true)), i + |Quoted(value)|, line)
  {
    var end := LiteralAt(s, i, value);
    QuotedIs(s, i, end, value, line);
  }

  function PieceOf(i: Item, line: nat): Piece {
    match i
    case Bare(text) => One(Token(line, Text(text), false))
    case Quote(value) => One(Token(line, Text(value), true))
    case Brace(open) => One(Token(line, if open then Open else Close, false))
    case _ => Layout
  }

  function LineAfter(i: Item, line: nat): nat { if i.Newline? || i.Comment? then line + 1 else line }

  /** A printed item is read back as one piece. */
  lemma ItemReads(s: string, at: nat, i: Item, line: nat)
    requires ValidItem(i) && Stands(s, at, PrintItem(i)) && (Argument(i) ==> Ends(s, at + |PrintItem(i)|))
    requires i.LastComment? ==> at + |PrintItem(i)| == |s|
    ensures at < |s| && MoveAt(s, at, line) == Move(PieceOf(i, line), at + |PrintItem(i)|, LineAfter(i, line))
  {
    match i
    case Bare(text) => BareItem(s, at, text, line);
    case Quote(value) => QuoteItem(s, at, value, line);
    case Comment(text) => CommentItem(s, at, text, line);
    case LastComment(text) => LastCommentItem(s, at, text, line);
    case Brace(open) => assert s[at] == s[at..at + 1][0];
    case Newline => assert s[at] == s[at..at + 1][0];
    case Blank(c) => assert s[at] == s[at..at + 1][0];
  }

  lemma PrintStartsWithDelimiter(items: seq<Item>, rest: string)
    requires items != [] && ValidItem(items[0]) && !Argument(items[0])
    ensures PrintBefore(items, rest) != "" && Delimiter(PrintBefore(items, rest)[0])
  {}

  lemma TokensUnfold(items: seq<Item>, line: nat)
    requires items != []
    ensures Ok(TokensOf(items, line)) ==
              Then(PieceOf(items[0], line), Ok(TokensOf(items[1..], LineAfter(items[0], line))))
  {}

  lemma WellLaidOutTail(items: seq<Item>)
    requires items != [] && WellLaidOut(items)
    ensures WellLaidOut(items[1..]) && ValidItem(items[0])
    ensures Argument(items[0]) && |items| > 1 ==> ValidItem(items[1]) && !Argument(items[1])
    ensures items[0].LastComment? ==> items[1..] == []
  {
    var rest := items[1..];
    assert forall j :: 0 <= j < |rest| ==> rest[j] == items[j + 1];
  }

  lemma Divide(s: string, at: nat, text: string, rest: string)
    requires at <= |s| && s[at..] == text + rest
    ensures Stands(s, at, text) && s[at + |text|..] == rest
  {
    var here := s[at..];
    assert s[at..at + |text|] == here[..|text|] && s[at + |text|..] == here[|text|..];
  }

  lemma SuffixStarts(s: string, next: nat, rest: string)
    requires next <= |s| && s[next..] == rest
    ensures |rest| == |s| - next && (rest != "" ==> s[next] == rest[0])
  {}

  /** What may follow a layout: an argument must end, a comment must end the text. */
  predicate Separated(items: seq<Item>, rest: string) {
    items == [] ||
    var last := items[|items| - 1];
    (Argument(last) ==> rest == "" || Delimiter(rest[0])) && (last.LastComment? ==> rest == "")
  }

  /** A layout printed in front of a text. */
  function PrintBefore(items: seq<Item>, rest: string): string {
    if items == [] then rest else PrintItem(items[0]) + PrintBefore(items[1..], rest)
  }

  lemma {:induction false} PrintThenRest(items: seq<Item>, rest: string)
    ensures Print(items) + rest == PrintBefore(items, rest)
    decreases |items|
  {
    if items != [] {
      PrintThenRest(items[1..], rest);
      Associate(PrintItem(items[0]), Print(items[1..]), rest);
    }
  }

  /** What follows an argument, or a comment without a line end. */
  lemma {:induction false} RestOfLayout(items: seq<Item>, rest: string)
    requires items != [] && WellLaidOut(items) && Separated(items, rest)
    ensures var tail := PrintBefore(items[1..], rest);
            && (Argument(items[0]) ==> tail == "" || Delimiter(tail[0])) && (items[0].LastComment? ==> tail == "")
    ensures Separated(items[1..], rest)
  {
    WellLaidOutTail(items);
    if Argument(items[0]) && |items| > 1 { PrintStartsWithDelimiter(items[1..], rest); }
  }

  lemma StandsBefore(s: string, at: nat, text: string, rest: string, argument: bool, last: bool)
    requires at <= |s| && s[at..] == text + rest && (argument ==> rest == "" || Delimiter(rest[0])) &&
             (last ==> rest == "")
    ensures Stands(s, at, text) && s[at + |text|..] == rest
    ensures (argument ==> Ends(s, at + |text|)) && (last ==> at + |text| == |s|)
  {
    Divide(s, at, text, rest);
    SuffixStarts(s, at + |text|, rest);
  }

  lemma FirstAndTail(items: seq<Item>, rest: string) returns (text: string, tail: string)
    requires items != []
    ensures text == PrintItem(items[0]) && tail == PrintBefore(items[1..], rest)
    ensures PrintBefore(items, rest) == text + tail
  {
    text, tail := PrintItem(items[0]), PrintBefore(items[1..], rest);
  }

  /** Where the first item of a printed layout stands. */
  lemma {:induction false} FirstStands(s: string, at: nat, items: seq<Item>, rest: string)
    requires items != [] && WellLaidOut(items) && Separated(items, rest)
    requires at <= |s| && s[at..] == PrintBefore(items, rest)
    ensures var next := at + |PrintItem(items[0])|;
            && Stands(s, at, PrintItem(items[0])) && s[next..] == PrintBefore(items[1..], rest)
            && (Argument(items[0]) ==> Ends(s, next)) && (items[0].LastComment? ==> next == |s|)
  {
    RestOfLayout(items, rest);
    var text, tail := FirstAndTail(items, rest);
    StandsBefore(s, at, text, tail, Argument(items[0]), items[0].LastComment?);
  }

  lemma {:induction false} LexOne(s: string, at: nat, line: nat, m: Move, rest: Result)
    requires at < |s| && MoveAt(s, at, line) == m && Lex(s, m.next, m.line) == rest
    ensures Lex(s, at, line) == Then(m.piece, rest)
  {}

  lemma {:induction false} FirstReads(s: string, at: nat, items: seq<Item>, rest: string, line: nat)
    requires items != [] && WellLaidOut(items) && Separated(items, rest)
    requires at <= |s| && s[at..] == PrintBefore(items, rest)
    ensures var next := at + |PrintItem(items[0])|;
            && at < next <= |s| && s[next..] == PrintBefore(items[1..], rest)
            && WellLaidOut(items[1..]) && Separated(items[1..], rest)
            && MoveAt(s, at, line) == Move(PieceOf(items[0], line), next, LineAfter(items[0], line))
  {
    WellLaidOutTail(items);
    RestOfLayout(items, rest);
    FirstStands(s, at, items, rest);
    ItemReads(s, at, items[0], line);
  }

  /** The line on which a layout ends. */
  function LastLine(items: seq<Item>, line: nat): nat {
    if items == [] then line else LastLine(items[1..], LineAfter(items[0], line))
  }

  lemma ThenJoin(p: Piece, tokens: seq<Token>, rest: Result)
    requires !p.Bad?
    ensures Then(p, Join(tokens, rest)) == Join(if p.One? then [p.token] + tokens else tokens, rest)
  {
    if p.One? && rest.Ok? { assert [p.token] + (tokens + rest.tokens) == ([p.token] + tokens) + rest.tokens; }
  }

  lemma LexJoin(s: string, at: nat, next: nat, items: seq<Item>, line: nat, more: Result)
    requires items != [] && at < next <= |s|
    requires MoveAt(s, at, line) == Move(PieceOf(items[0], line), next, LineAfter(items[0], line))
    requires var after := LineAfter(items[0], line); Lex(s, next, after) == Join(TokensOf(items[1..], after), more)
    ensures Lex(s, at, line) == Join(TokensOf(items, line), more)
  {
    var piece, after := PieceOf(items[0], line), LineAfter(items[0], line);
    LexOne(s, at, line, Move(piece, next, after), Join(TokensOf(items[1..], after), more));
    ThenJoin(piece, TokensOf(items[1..], after), more);
    TokensUnfold(items, line);
  }

  lemma {:induction false} PrintedFrom(s: string, at: nat, items: seq<Item>, rest: string, line: nat) returns (end: nat)
    requires WellLaidOut(items) && Separated(items, rest) && at <= |s| && s[at..] == PrintBefore(items, rest)
    ensures end <= |s| && s[end..] == rest
    ensures Lex(s, at, line) == Join(TokensOf(items, line), Lex(s, end, LastLine(items, line)))
    decreases |items|
  {
    if items == [] {
      end := at;
    } else {
      var next, after := at + |PrintItem(items[0])|, LineAfter(items[0], line);
      FirstReads(s, at, items, rest, line);
      end := PrintedFrom(s, next, items[1..], rest, after);
      LexJoin(s, at, next, items, line, Lex(s, end, LastLine(items[1..], after)));
    }
  }

  lemma {:induction false} PrintedBefore(items: seq<Item>, rest: string, line: nat) returns (end: nat)
    requires WellLaidOut(items) && Separated(items, rest)
    ensures var s := Print(items) + rest;
            end <= |s| && s[end..] == rest &&
            Lex(s, 0, line) == Join(TokensOf(items, line), Lex(s, end, LastLine(items, line)))
  {
    var s := Print(items) + rest;
    PrintThenRest(items, rest);
    assert s[0..] == s;
    end := PrintedFrom(s, 0, items, rest, line);
  }

  /** Tokenizing the printed form of any layout gives its tokens back, on the
      lines where the layout puts them. */
  lemma PrintedFormTokenizes(items: seq<Item>, line: nat)
    requires WellLaidOut(items)
    ensures Lex(Print(items), 0, line) == Ok(TokensOf(items, line))
  {
    var end := PrintedBefore(items, "", line);
    assert Print(items) + "" == Print(items);
  }

  // ---------- what is refused, and where ----------

  /** A literal without its closing quote. */
  predicate NeverCloses(rest: string) { rest != "" && rest[0] == QUOTE && QuoteEnd(rest[1..], false).None? }

  /** A literal `body` that closes, and what follows it. */
  predicate Closes(rest: string, body: string) {
    && |rest| >= |body| + 2 && rest[0] == QUOTE && rest[1..|body| + 1] == body && rest[|body| + 1] == QUOTE
    && QuoteEnd(rest[1..], false) == Some(|body|)
  }

  /** The first thing in `rest` cannot be read; the error is on the `lines`-th line after. */
  predicate Broken(rest: string, body: string, problem: Problem, lines: nat) {
    match problem
    case Unterminated => NeverCloses(rest) && lines == 0
    case InvalidString => Closes(rest, body) && Unescape(body).None? && lines == 0
    case NoSpaceAfterQuote =>
      && Closes(rest, body) && Unescape(body).Some? && |rest| > |body| + 2 && !Delimiter(rest[|body| + 2])
      && lines == Newlines(body, 0, |body|)
    case QuoteInsideArgument => BareText(body) && |rest| > |body| && rest[..|body|] == body && rest[|body|] == QUOTE &&
                                lines == 0
  }

  lemma {:induction false} NewlinesOfSlice(s: string, start: nat, end: nat, body: string)
    requires start <= end <= |s| && body == s[start..end]
    ensures Newlines(s, start, end) == Newlines(body, 0, |body|)
    decreases end
  {
    if start < end {
      var front := s[start..end - 1];
      NewlinesOfSlice(s, start, end - 1, front);
      NewlinesOfPrefix(body, |front|, front);
    }
  }

  lemma {:induction false} NewlinesOfPrefix(s: string, n: nat, front: string)
    requires n <= |s| && front == s[..n]
    ensures Newlines(s, 0, n) == Newlines(front, 0, n)
    decreases n
  {
    if n > 0 {
      assert front[..n - 1] == s[..n - 1];
      NewlinesOfPrefix(s, n - 1, s[..n - 1]);
      NewlinesOfPrefix(front, n - 1, s[..n - 1]);
    }
  }

  lemma {:induction false} BareEndAtQuote(s: string, i: nat, end: nat)
    requires i <= end < |s| && s[end] == QUOTE && forall j :: i <= j < end ==> BareChar(s[j])
    ensures BareEnd(s, i) == end
    decreases end - i
  {
    if i < end { BareEndAtQuote(s, i + 1, end); }
  }

  lemma BrokenLiteral(s: string, at: nat, rest: string, body: string, problem: Problem, lines: nat, line: nat)
    requires at < |s| && s[at..] == rest && Broken(rest, body, problem, lines) && !problem.QuoteInsideArgument?
    ensures MoveAt(s, at, line).piece == Bad(line + lines, problem)
  {
    assert s[at] == rest[0] && s[at + 1..] == rest[1..];
    CloseIsQuoteEnd(s, at + 1, false);
    if !problem.Unterminated? {
      assert s[at + 1..at + 1 + |body|] == rest[1..|body| + 1];
      NewlinesOfSlice(s, at + 1, at + 1 + |body|, body);
      if problem.NoSpaceAfterQuote? { assert s[at + |body| + 2] == rest[|body| + 2]; }
    }
  }

  lemma BrokenArgument(s: string, at: nat, rest: string, body: string, line: nat)
    requires at < |s| && s[at..] == rest && Broken(rest, body, QuoteInsideArgument, 0)
    ensures MoveAt(s, at, line).piece == Bad(line, QuoteInsideArgument)
  {
    var end := at + |body|;
    assert s[end] == rest[|body|];
    forall j | at <= j < end ensures BareChar(s[j]) { assert s[j] == rest[j - at] == rest[..|body|][j - at]; }
    BareEndAtQuote(s, at + 1, end);
  }

  /** A text that is well laid out up to something that cannot be read is refused for
      exactly that, on the line where it stands. */
  lemma BrokenTextIsRefused(items: seq<Item>, rest: string, body: string, problem: Problem, lines: nat, line: nat)
    requires WellLaidOut(items) && Separated(items, rest) && Broken(rest, body, problem, lines)
    ensures Lex(Print(items) + rest, 0, line) == Err(LastLine(items, line) + lines, problem)
  {
    var s := Print(items) + rest;
    var at := PrintedBefore(items, rest, line);
    BrokenFrom(s, at, rest, body, problem, lines, LastLine(items, line));
  }

  lemma {:induction false} BrokenFrom(s: string, at: nat, rest: string, body: string, problem: Problem, lines: nat,
                                      line: nat)
    requires at <= |s| && s[at..] == rest && Broken(rest, body, problem, lines)
    ensures Lex(s, at, line) == Err(line + lines, problem)
  {
    if problem.QuoteInsideArgument? {
      BrokenArgument(s, at, rest, body, line);
    } else {
      BrokenLiteral(s, at, rest, body, problem, lines, line);
    }
  }

  // ---------- every accepted file has a printed form ----------

  predicate ValidToken(t: Token) {
    match t.kind
    case Text(text) => t.quoted || BareText(text)
    case _ => !t.quoted
  }

  /** Tokens as the tokenizer produces them: printable, and in line order. */
  predicate ValidTokens(ts: seq<Token>, line: nat) {
    && (forall i :: 0 <= i < |ts| ==> ValidToken(ts[i]) && ts[i].line >= line)
    && (forall i :: 0 <= i < |ts| - 1 ==> ts[i].line <= ts[i + 1].line)
  }

  lemma ValidCons(t: Token, rest: Result, line: nat, after: nat)
    requires ValidToken(t) && t.line == line <= after && rest.Ok? && ValidTokens(rest.tokens, after)
    ensures ValidTokens([t] + rest.tokens, line)
  {
    var all := [t] + rest.tokens;
    forall i | 0 <= i < |all| ensures ValidToken(all[i]) && all[i].line >= line {
      if i > 0 { assert all[i] == rest.tokens[i - 1]; }
    }
    forall i | 0 <= i < |all| - 1 ensures all[i].line <= all[i + 1].line {
      if i > 0 { assert all[i] == rest.tokens[i - 1] && all[i + 1] == rest.tokens[i]; }
    }
  }

  lemma MoveIsValid(s: string, i: nat, line: nat)
    requires i < |s|
    ensures var m := MoveAt(s, i, line); m.piece.One? ==> ValidToken(m.piece.token) && m.piece.token.line == line
  {
    if BareChar(s[i]) {
      var end := BareEnd(s, i + 1);
      forall j | 0 <= j < |s[i..end]| ensures BareChar(s[i..end][j]) { assert s[i..end][j] == s[i + j]; }
    }
  }

  lemma {:induction false} LexIsValid(s: string, i: nat, line: nat)
    requires i <= |s|
    ensures Lex(s, i, line).Ok? ==> ValidTokens(Lex(s, i, line).tokens, line)
    decreases |s| - i
  {
    if i < |s| {
      var m := MoveAt(s, i, line);
      LexIsValid(s, m.next, m.line);
      MoveIsValid(s, i, line);
      var rest := Lex(s, m.next, m.line);
      if rest.Ok? && m.piece.One? { ValidCons(m.piece.token, rest, line, m.line); }
    }
  }

  function ItemOf(t: Token): Item {
    match t.kind
    case Open => Brace(true)
    case Close => Brace(false)
    case Text(text) => if t.quoted then Quote(text) else Bare(text)
  }

  function LineBreaks(n: nat): seq<Item> { if n == 0 then [] else [Newline] + LineBreaks(n - 1) }

  /** A normal form: each token on its own line number, followed by one space. */
  function NormalForm(ts: seq<Token>, line: nat): seq<Item> {
    if ts == [] then []
    else
      var t := ts[0];
      LineBreaks(if t.line >= line then t.line - line else 0) + ([ItemOf(t), Blank(' ')] + NormalForm(ts[1..], t.line))
  }

  lemma {:induction false} LineBreaksTokens(n: nat, rest: seq<Item>, line: nat)
    ensures TokensOf(LineBreaks(n) + rest, line) == TokensOf(rest, line + n)
    ensures forall i :: 0 <= i < |LineBreaks(n)| ==> LineBreaks(n)[i] == Newline
    decreases n
  {
    if n == 0 {
      assert LineBreaks(0) + rest == rest;
    } else {
      assert (LineBreaks(n) + rest)[1..] == LineBreaks(n - 1) + rest;
      LineBreaksTokens(n - 1, rest, line + 1);
    }
  }

  lemma ValidTail(ts: seq<Token>, line: nat)
    requires ts != [] && ValidTokens(ts, line)
    ensures ValidTokens(ts[1..], ts[0].line)
  {
    LinesOrdered(ts, line, |ts| - 1);
    forall i | 0 <= i < |ts[1..]| ensures ValidToken(ts[1..][i]) && ts[1..][i].line >= ts[0].line {
      LinesOrdered(ts, line, i + 1);
    }
    forall i | 0 <= i < |ts[1..]| - 1 ensures ts[1..][i].line <= ts[1..][i + 1].line {
      assert ts[1..][i] == ts[i + 1] && ts[1..][i + 1] == ts[i + 2];
    }
  }

  lemma {:induction false} LinesOrdered(ts: seq<Token>, line: nat, i: nat)
    requires ValidTokens(ts, line) && i < |ts|
    ensures ts[0].line <= ts[i].line
    decreases i
  {
    if i > 0 { LinesOrdered(ts, line, i - 1); }
  }

  lemma TokenThenSpace(t: Token, tail: seq<Item>)
    requires ValidToken(t)
    ensures TokensOf([ItemOf(t), Blank(' ')] + tail, t.line) == [t] + TokensOf(tail, t.line)
  {
    var rest := [ItemOf(t), Blank(' ')] + tail;
    assert rest[1..] == [Blank(' ')] + tail;
    assert ([Blank(' ')] + tail)[1..] == tail;
  }

  lemma {:induction false} NormalFormTokens(ts: seq<Token>, line: nat)
    requires ValidTokens(ts, line)
    ensures TokensOf(NormalForm(ts, line), line) == ts
    decreases |ts|
  {
    if ts != [] {
      var t, tail := ts[0], NormalForm(ts[1..], ts[0].line);
      assert ValidToken(t) && t.line >= line;
      ValidTail(ts, line);
      NormalFormTokens(ts[1..], t.line);
      LineBreaksTokens(t.line - line, [ItemOf(t), Blank(' ')] + tail, line);
      TokenThenSpace(t, tail);
      FirstAndRest(ts);
    }
  }

  lemma FirstAndRest(ts: seq<Token>)
    requires ts != []
    ensures [ts[0]] + ts[1..] == ts
  {}

  lemma WellLaidOutJoin(a: seq<Item>, b: seq<Item>)
    requires WellLaidOut(a) && WellLaidOut(b) && (a == [] || (!Argument(a[|a| - 1]) && !a[|a| - 1].LastComment?))
    ensures WellLaidOut(a + b)
  {}

  lemma TokenLaidOut(t: Token)
    requires ValidToken(t)
    ensures WellLaidOut([ItemOf(t), Blank(' ')])
  {
    var two := [ItemOf(t), Blank(' ')];
    assert White(' ') && ValidItem(two[0]) && ValidItem(two[1]);
  }

  lemma BreaksLaidOut(n: nat)
    ensures WellLaidOut(LineBreaks(n)) && forall i :: 0 <= i < |LineBreaks(n)| ==> LineBreaks(n)[i] == Newline
  {
    LineBreaksTokens(n, [], 0);
  }

  lemma {:induction false} LineLaidOut(n: nat, t: Token, tail: seq<Item>)
    requires ValidToken(t) && WellLaidOut(tail)
    ensures WellLaidOut(LineBreaks(n) + ([ItemOf(t), Blank(' ')] + tail))
  {
    TokenLaidOut(t);
    BreaksLaidOut(n);
    WellLaidOutJoin([ItemOf(t), Blank(' ')], tail);
    WellLaidOutJoin(LineBreaks(n), [ItemOf(t), Blank(' ')] + tail);
  }

  lemma {:induction false} NormalFormIsWellLaidOut(ts: seq<Token>, line: nat)
    requires ValidTokens(ts, line)
    ensures WellLaidOut(NormalForm(ts, line))
    decreases |ts|
  {
    if ts != [] {
      var t := ts[0];
      assert ValidToken(t) && t.line >= line;
      ValidTail(ts, line);
      NormalFormIsWellLaidOut(ts[1..], t.line);
      LineLaidOut(t.line - line, t, NormalForm(ts[1..], t.line));
    }
  }

  /** Any accepted file can be rewritten in the normal form: it tokenizes to the
      same tokens, quoting and line numbers included. */
  lemma NormalFormKeepsTokens(input: string)
    requires Lex(input, 0, 1).Ok?
    ensures Lex(Print(NormalForm(Lex(input, 0, 1).tokens, 1)), 0, 1) == Lex(input, 0, 1)
  {
    var ts := Lex(input, 0, 1).tokens;
    LexIsValid(input, 0, 1);
    NormalFormIsWellLaidOut(ts, 1);
    NormalFormTokens(ts, 1);
    PrintedFormTokenizes(NormalForm(ts, 1), 1);
  }
}
