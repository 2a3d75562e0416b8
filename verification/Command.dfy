/** internal/process/process.go, parseCommand: splitting a command line, and writing one. */
module Command {
  import opened Common

  /** commandScanner; quoteChar is NO_QUOTE outside quotes. */
  datatype Scan = Scan(current: string, quoteChar: char, inQuotes: bool, quoted: bool)

  const NO_QUOTE := '\0'
  const FRESH := Scan("", NO_QUOTE, false, false)

  predicate IsBlank(c: char) {
    c == ' ' || c == '\t'
  }

  predicate IsQuote(c: char) {
    c == '"' || c == '\''
  }

  /** The argument finish closes off: none, or one. */
  function Finished(s: Scan): seq<string> {
    if s.current == "" && !s.quoted then [] else [s.current]
  }

  function Reset(s: Scan): Scan {
    if s.current == "" && !s.quoted then s else s.(current := "", quoted := false)
  }

  /** step: the state after one character, and the argument it completes. */
  function Stepped(s: Scan, c: char): (Scan, seq<string>) {
    if IsQuote(c) && !s.inQuotes then (s.(inQuotes := true, quoteChar := c, quoted := true), [])
    else if s.inQuotes && c == s.quoteChar then (s.(inQuotes := false, quoteChar := NO_QUOTE), [])
    else if IsBlank(c) && !s.inQuotes then (Reset(s), Finished(s))
    else (s.(current := s.current + [c]), [])
  }

  /** The arguments found from state s on. */
  function Parse(s: Scan, cmd: string): seq<string>
    decreases |cmd|
  {
    if cmd == "" then Finished(s)
    else if cmd[0] == '\\' && s.quoteChar != '\'' && |cmd| > 1 then
      Parse(s.(current := s.current + [cmd[1]]), cmd[2..])
    else
      var (t, arg) := Stepped(s, cmd[0]);
      arg + Parse(t, cmd[1..])
  }

  class CommandScanner {
    var current: string
    var quoteChar: char
    var inQuotes: bool
    var quoted: bool

    constructor ()
      ensures View() == FRESH
    {
      current, quoteChar, inQuotes, quoted := "", NO_QUOTE, false, false;
    }

    function View(): Scan
      reads this
    {
      Scan(current, quoteChar, inQuotes, quoted)
    }

    method Append(c: char)
      modifies this`current
      ensures current == old(current) + [c]
    {
      current := current + [c];
    }

    method Step(c: char) returns (arg: string, complete: bool)
      modifies this
      ensures View() == Stepped(old(View()), c).0
      ensures Stepped(old(View()), c).1 == if complete then [arg] else []
    {
      if IsQuote(c) && !inQuotes {
        inQuotes, quoteChar, quoted := true, c, true;
      } else if inQuotes && c == quoteChar {
        inQuotes, quoteChar := false, NO_QUOTE;
      } else if IsBlank(c) && !inQuotes {
        arg, complete := Finish();
        return;
      } else {
        Append(c);
      }
      arg, complete := "", false;
    }

    method Finish() returns (arg: string, complete: bool)
      modifies this`current, this`quoted
      ensures View() == Reset(old(View()))
      ensures Finished(old(View())) == if complete then [arg] else []
    {
      if |current| == 0 && !quoted {
        return "", false;
      }
      arg := current;
      current, quoted := "", false;
      complete := true;
    }
  }

  method ParseCommand(cmd: string) returns (parts: seq<string>)
    ensures parts == Parse(FRESH, cmd)
  {
    parts := [];
    var scan := new CommandScanner();
    var i := 0;
    while i < |cmd|
      invariant 0 <= i <= |cmd| && fresh(scan)
      invariant parts + Parse(scan.View(), cmd[i..]) == Parse(FRESH, cmd)
    {
      assert cmd[i..][1..] == cmd[i + 1..];
      if cmd[i] == '\\' && scan.quoteChar != '\'' && i + 1 < |cmd| {
        assert cmd[i..][2..] == cmd[i + 2..] && cmd[i..][1] == cmd[i + 1];
        scan.Append(cmd[i + 1]);
        i := i + 2;
        continue;
      }
      var arg, complete := scan.Step(cmd[i]);
      if complete { parts := parts + [arg]; }
      i := i + 1;
    }
    assert cmd[i..] == "";
    var arg, complete := scan.Finish();
    if complete { parts := parts + [arg]; }
  }

  // ---------------------------------------------------------------- writing a command

  /** A character as written where a backslash escapes: as it is, or behind a backslash. */
  datatype Piece = Plain(c: char) | Escaped(c: char)

  /** A stretch of one argument: outside quotes, in double quotes, or in single quotes. */
  datatype Segment = Bare(pieces: seq<Piece>) | Double(pieces: seq<Piece>) | Single(text: string)

  function Write(pieces: seq<Piece>): string {
    if pieces == [] then ""
    else (match pieces[0] case Plain(c) => [c] case Escaped(c) => ['\\', c]) + Write(pieces[1..])
  }

  function Text(pieces: seq<Piece>): string {
    if pieces == [] then "" else [pieces[0].c] + Text(pieces[1..])
  }

  /** Outside quotes a character may stand for itself unless the scanner gives it a meaning. */
  predicate Ordinary(c: char) {
    c != ' ' && c != '\t' && c != '"' && c != '\'' && c != '\\'
  }

  /** p may be written so where the scanner is: outside quotes or in double quotes. */
  predicate Fits(p: Piece, inQuotes: bool) {
    p.Plain? ==> if inQuotes then p.c != '"' && p.c != '\\' else Ordinary(p.c)
  }

  predicate Legal(s: Segment) {
    match s
    case Bare(pieces) => forall p :: p in pieces ==> Fits(p, false)
    case Double(pieces) => forall p :: p in pieces ==> Fits(p, true)
    case Single(text) => '\'' !in text
  }

  function WriteSegment(s: Segment): string {
    match s
    case Bare(pieces) => Write(pieces)
    case Double(pieces) => "\"" + Write(pieces) + "\""
    case Single(text) => "'" + text + "'"
  }

  function Meaning(s: Segment): string {
    match s
    case Bare(pieces) => Text(pieces)
    case Double(pieces) => Text(pieces)
    case Single(text) => text
  }

  function WriteWord(word: seq<Segment>): string {
    if word == [] then "" else WriteSegment(word[0]) + WriteWord(word[1..])
  }

  function WordMeaning(word: seq<Segment>): string {
    if word == [] then "" else Meaning(word[0]) + WordMeaning(word[1..])
  }

  predicate HasQuotes(word: seq<Segment>) {
    exists s :: s in word && !s.Bare?
  }

  /** Segments that may be written so, an empty argument with quotes. */
  predicate Writable(word: seq<Segment>) {
    && (forall s :: s in word ==> Legal(s))
    && (WordMeaning(word) != "" || HasQuotes(word))
  }

  predicate AllBlank(gap: string) {
    forall c :: c in gap ==> c == ' ' || c == '\t'
  }

  /** gaps[i] stands before words[i], the last gap after them all; words never touch. */
  predicate LaidOut(words: seq<seq<Segment>>, gaps: seq<string>) {
    && |gaps| == |words| + 1
    && (forall g :: g in gaps ==> AllBlank(g))
    && (forall i :: 0 < i < |words| ==> gaps[i] != "")
  }

  function WriteCommand(words: seq<seq<Segment>>, gaps: seq<string>): string
    requires |gaps| == |words| + 1
  {
    if words == [] then gaps[0] else gaps[0] + WriteWord(words[0]) + WriteCommand(words[1..], gaps[1..])
  }

  function Meanings(words: seq<seq<Segment>>): seq<string> {
    if words == [] then [] else [WordMeaning(words[0])] + Meanings(words[1..])
  }

  // ---------------------------------------------------------------- reading it back

  lemma ParsePlain(s: Scan, c: char, rest: string)
    requires c != '\\' || s.quoteChar == '\''
    ensures Parse(s, [c] + rest) == Stepped(s, c).1 + Parse(Stepped(s, c).0, rest)
  {
  }

  lemma ReadPiece(s: Scan, p: Piece, rest: string)
    requires s.quoteChar == (if s.inQuotes then '"' else NO_QUOTE) && Fits(p, s.inQuotes)
    ensures Parse(s, Write([p]) + rest) == Parse(s.(current := s.current + [p.c]), rest)
  {
    var t := s.(current := s.current + [p.c]);
    assert Write([p][1..]) == "";
    if p.Plain? {
      assert Write([p]) == [p.c];
      ParsePlain(s, p.c, rest);
      assert Stepped(s, p.c) == (t, []);
      hide *;
    } else {
      assert Write([p]) == ['\\', p.c];
      var cmd := Write([p]) + rest;
      assert cmd == ['\\', p.c] + rest;
      hide Stepped, Write;
      assert cmd[2..] == rest;
    }
  }

  lemma {:induction false} ReadPieces(s: Scan, pieces: seq<Piece>, rest: string)
    requires s.quoteChar == (if s.inQuotes then '"' else NO_QUOTE)
    requires forall p :: p in pieces ==> Fits(p, s.inQuotes)
    ensures Parse(s, Write(pieces) + rest) == Parse(s.(current := s.current + Text(pieces)), rest)
    decreases |pieces|
  {
    hide Parse, Fits;
    if pieces == [] {
      assert Write(pieces) + rest == rest && s.current + "" == s.current;
    } else {
      var p, others := pieces[0], pieces[1..];
      var t := s.(current := s.current + [p.c]);
      assert Write(pieces) + rest == Write([p]) + (Write(others) + rest);
      ReadPiece(s, p, Write(others) + rest);
      ReadPieces(t, others, rest);
      assert t.current + Text(others) == s.current + Text(pieces);
    }
  }

  lemma {:induction false} ReadSingle(s: Scan, text: string, rest: string)
    requires s.inQuotes && s.quoteChar == '\'' && '\'' !in text
    ensures Parse(s, text + rest) == Parse(s.(current := s.current + text), rest)
    decreases |text|
  {
    hide Parse;
    if text == "" {
      assert text + rest == rest && s.current + "" == s.current;
    } else {
      var t := s.(current := s.current + [text[0]]);
      assert text + rest == [text[0]] + (text[1..] + rest);
      assert text[0] in text;
      ParsePlain(s, text[0], text[1..] + rest);
      ReadSingle(t, text[1..], rest);
      assert t.current + text[1..] == s.current + text;
    }
  }

  lemma Opening(s: Scan, quote: char, body: string)
    requires !s.inQuotes && s.quoteChar == NO_QUOTE && IsQuote(quote)
    ensures Parse(s, [quote] + body) == Parse(s.(inQuotes := true, quoteChar := quote, quoted := true), body)
  {
    ParsePlain(s, quote, body);
    hide Parse;
  }

  lemma Closing(s: Scan, quote: char, text: string, rest: string)
    requires !s.inQuotes && s.quoteChar == NO_QUOTE && IsQuote(quote)
    ensures Parse(Scan(s.current + text, quote, true, true), [quote] + rest) ==
            Parse(s.(current := s.current + text, quoted := true), rest)
  {
    ParsePlain(Scan(s.current + text, quote, true, true), quote, rest);
    hide Parse;
  }

  lemma ReadSegment(s: Scan, segment: Segment, rest: string)
    requires !s.inQuotes && s.quoteChar == NO_QUOTE && Legal(segment)
    ensures Parse(s, WriteSegment(segment) + rest) ==
            Parse(s.(current := s.current + Meaning(segment), quoted := s.quoted || !segment.Bare?), rest)
  {
    hide Parse, Fits, Stepped, Write, Text;
    match segment
    case Bare(pieces) => ReadPieces(s, pieces, rest);
    case Double(pieces) =>
      var body := Write(pieces) + ("\"" + rest);
      assert WriteSegment(segment) + rest == ['"'] + body;
      Opening(s, '"', body);
      ReadPieces(s.(inQuotes := true, quoteChar := '"', quoted := true), pieces, "\"" + rest);
      Closing(s, '"', Text(pieces), rest);
    case Single(text) =>
      var body := text + ("'" + rest);
      assert WriteSegment(segment) + rest == ['\''] + body;
      Opening(s, '\'', body);
      ReadSingle(s.(inQuotes := true, quoteChar := '\'', quoted := true), text, "'" + rest);
      Closing(s, '\'', text, rest);
  }

  /** A quote that is never closed runs to the end of the command, and makes an argument even of nothing. */
  lemma UnclosedQuoteCounts(text: string)
    requires '\'' !in text
    ensures Parse(FRESH, "'" + text) == [text]
  {
    var open := FRESH.(inQuotes := true, quoteChar := '\'', quoted := true);
    ParsePlain(FRESH, '\'', text);
    ReadSingle(open, text, "");
    assert text + "" == text && open.current + text == text;
  }

  /** A backslash with nothing behind it stands for itself. */
  lemma LastBackslashStands(pieces: seq<Piece>)
    requires forall p :: p in pieces ==> Fits(p, false)
    ensures Parse(FRESH, Write(pieces) + "\\") == [Text(pieces) + "\\"]
  {
    ReadPieces(FRESH, pieces, "\\");
    assert FRESH.current + Text(pieces) == Text(pieces);
    var read := FRESH.(current := Text(pieces));
    assert Parse(read, "\\") == Parse(read.(current := read.current + ['\\']), "");
  }

  /** The first segment, then what the others and rest say. */
  lemma WordSplits(word: seq<Segment>, rest: string)
    requires word != []
    ensures WriteWord(word) + rest == WriteSegment(word[0]) + (WriteWord(word[1..]) + rest)
  {
  }

  lemma MeaningSplits(read: string, word: seq<Segment>)
    requires word != []
    ensures (read + Meaning(word[0])) + WordMeaning(word[1..]) == read + WordMeaning(word)
  {
  }

  lemma QuotesOf(word: seq<Segment>)
    requires word != []
    ensures HasQuotes(word) <==> !word[0].Bare? || HasQuotes(word[1..])
  {
  }

  lemma {:induction false} ReadWord(s: Scan, word: seq<Segment>, rest: string)
    requires !s.inQuotes && s.quoteChar == NO_QUOTE && forall g :: g in word ==> Legal(g)
    ensures Parse(s, WriteWord(word) + rest) ==
            Parse(s.(current := s.current + WordMeaning(word), quoted := s.quoted || HasQuotes(word)), rest)
    decreases |word|
  {
    if word == [] {
      hide Parse;
      assert WriteWord(word) + rest == rest && s.current + "" == s.current;
    } else {
      hide *;
      var first, others := word[0], word[1..];
      var t := s.(current := s.current + Meaning(first), quoted := s.quoted || !first.Bare?);
      WordSplits(word, rest);
      ReadSegment(s, first, WriteWord(others) + rest);
      ReadWord(t, others, rest);
      MeaningSplits(s.current, word);
      QuotesOf(word);
    }
  }

  lemma {:induction false} ReadGap(gap: string, rest: string)
    requires AllBlank(gap)
    ensures Parse(FRESH, gap + rest) == Parse(FRESH, rest)
  {
    if gap == "" {
      assert gap + rest == rest;
    } else {
      assert gap + rest == [gap[0]] + (gap[1..] + rest);
      assert gap[0] in gap;
      ParsePlain(FRESH, gap[0], gap[1..] + rest);
      assert forall c :: c in gap[1..] ==> c in gap;
      ReadGap(gap[1..], rest);
    }
  }

  /** A blank or the end of the command closes off the argument in progress. */
  lemma CloseWord(s: Scan, gap: string, rest: string)
    requires !s.inQuotes && s.quoteChar == NO_QUOTE && (s.current != "" || s.quoted)
    requires AllBlank(gap) && (gap == "" ==> rest == "")
    ensures Parse(s, gap + rest) == [s.current] + Parse(FRESH, rest)
  {
    if gap == "" {
      assert gap + rest == "" && Parse(FRESH, rest) == [];
    } else {
      assert gap + rest == [gap[0]] + (gap[1..] + rest);
      assert forall c :: c in gap[1..] ==> c in gap;
      ReadGap(gap[1..], rest);
      assert gap[0] in gap;
      ParsePlain(s, gap[0], gap[1..] + rest);
    }
  }

  /** What stands after the first gap. */
  function AfterGap(words: seq<seq<Segment>>, gaps: seq<string>): string
    requires |gaps| == |words| + 1
  {
    if words == [] then "" else WriteWord(words[0]) + WriteCommand(words[1..], gaps[1..])
  }

  lemma EndsHere(words: seq<seq<Segment>>, gaps: seq<string>)
    requires |gaps| == |words| + 1
    ensures AfterGap(words, gaps) ==
            if words == [] then "" else WriteWord(words[0]) + WriteCommand(words[1..], gaps[1..])
  {
  }

  lemma GapFirst(words: seq<seq<Segment>>, gaps: seq<string>)
    requires |gaps| == |words| + 1
    ensures WriteCommand(words, gaps) == gaps[0] + AfterGap(words, gaps)
  {
  }

  /** After a word, what follows is read as it would be read from the start. */
  lemma ReadLater(s: Scan, words: seq<seq<Segment>>, gaps: seq<string>)
    requires !s.inQuotes && s.quoteChar == NO_QUOTE && (s.current != "" || s.quoted)
    requires |gaps| == |words| + 1 && AllBlank(gaps[0]) && (words != [] ==> gaps[0] != "")
    ensures Parse(s, WriteCommand(words, gaps)) == [s.current] + Parse(FRESH, WriteCommand(words, gaps))
  {
    var after := AfterGap(words, gaps);
    hide *;
    GapFirst(words, gaps);
    assert words == [] ==> after == "" by { EndsHere(words, gaps); }
    CloseWord(s, gaps[0], after);
    ReadGap(gaps[0], after);
  }

  /**
   * parseCommand undoes writing: whatever way each argument is cut into segments and each segment
   * quoted or escaped, and whatever blanks separate them, the arguments come back.
   */
  lemma {:induction false} ParseUndoesWriting(words: seq<seq<Segment>>, gaps: seq<string>)
    requires LaidOut(words, gaps) && forall w :: w in words ==> Writable(w)
    ensures Parse(FRESH, WriteCommand(words, gaps)) == Meanings(words)
  {
    FirstGapBlank(words, gaps);
    hide *;
    GapFirst(words, gaps);
    EndsHere(words, gaps);
    ReadGap(gaps[0], AfterGap(words, gaps));
    if words == [] {
      NothingLeft();
    } else {
      var word, later := words[0], WriteCommand(words[1..], gaps[1..]);
      WordIsWritable(words);
      var pending := FRESH.(current := FRESH.current + WordMeaning(word), quoted := FRESH.quoted || HasQuotes(word));
      ReadWord(FRESH, word, later);
      TailLaidOut(words, gaps);
      ReadLater(pending, words[1..], gaps[1..]);
      ParseUndoesWriting(words[1..], gaps[1..]);
      FirstMeaning(words);
    }
  }

  lemma FirstGapBlank(words: seq<seq<Segment>>, gaps: seq<string>)
    requires LaidOut(words, gaps)
    ensures |gaps| == |words| + 1 && AllBlank(gaps[0])
  {
    assert gaps[0] in gaps;
  }

  lemma WordIsWritable(words: seq<seq<Segment>>)
    requires words != [] && forall w :: w in words ==> Writable(w)
    ensures forall g :: g in words[0] ==> Legal(g)
    ensures FRESH.current + WordMeaning(words[0]) != "" || (FRESH.quoted || HasQuotes(words[0]))
    ensures !FRESH.inQuotes && FRESH.quoteChar == NO_QUOTE
    ensures forall w :: w in words[1..] ==> Writable(w)
  {
    assert words[0] in words;
  }

  lemma FirstMeaning(words: seq<seq<Segment>>)
    requires words != []
    ensures Meanings(words) == [FRESH.current + WordMeaning(words[0])] + Meanings(words[1..])
  {
    assert "" + WordMeaning(words[0]) == WordMeaning(words[0]);
  }

  lemma NothingLeft()
    ensures Parse(FRESH, "") == [] && Meanings([]) == []
  {
  }

  lemma TailLaidOut(words: seq<seq<Segment>>, gaps: seq<string>)
    requires LaidOut(words, gaps) && words != []
    ensures LaidOut(words[1..], gaps[1..]) && AllBlank(gaps[1]) && (words[1..] != [] ==> gaps[1] != "")
  {
  }

  // ---------------------------------------------------------------- every list can be written

  /** In double quotes, with the two characters that need it escaped. */
  function Quoted(arg: string): seq<Piece> {
    if arg == "" then []
    else [if arg[0] == '"' || arg[0] == '\\' then Escaped(arg[0]) else Plain(arg[0])] + Quoted(arg[1..])
  }

  lemma {:induction false} QuotedMeans(arg: string)
    ensures Legal(Double(Quoted(arg))) && Text(Quoted(arg)) == arg
  {
    if arg != "" {
      QuotedMeans(arg[1..]);
      assert arg == [arg[0]] + arg[1..];
    }
  }

  function QuoteAll(args: seq<string>): (words: seq<seq<Segment>>)
    ensures |words| == |args|
  {
    if args == [] then [] else [[Double(Quoted(args[0]))]] + QuoteAll(args[1..])
  }

  lemma {:induction false} QuoteAllMeans(args: seq<string>)
    ensures Meanings(QuoteAll(args)) == args
    ensures forall w :: w in QuoteAll(args) ==> Writable(w)
  {
    if args != [] {
      QuoteAllMeans(args[1..]);
      QuotedMeans(args[0]);
      var word := [Double(Quoted(args[0]))];
      assert word[0] in word;
      assert WordMeaning(word) == args[0] + "" == args[0];
      assert args == [args[0]] + args[1..];
    }
  }

  /** Any list of arguments at all, empty ones included, has a command that means it. */
  lemma EveryListCanBeWritten(args: seq<string>) returns (cmd: string)
    ensures Parse(FRESH, cmd) == args
  {
    var words := QuoteAll(args);
    var gaps := seq(|args| + 1, _ => " ");
    QuoteAllMeans(args);
    ParseUndoesWriting(words, gaps);
    cmd := WriteCommand(words, gaps);
  }
}
