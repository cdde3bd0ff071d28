/**
 * Python's `shlex.quote` and a reader for the POSIX shell words it produces.
 * The reader is the partner of `Quote`: reading back a quoted word yields the
 * original string, so a `chmod` line or an `export` built from quoted parts
 * reaches the sandbox's shell argument by argument.
 */
module Shell {
  import opened Wrappers
  import Text

  /** The characters `shlex.quote` leaves bare: ASCII `[\w@%+=:,./-]`. */
  predicate IsSafe(c: char) {
    ('a' <= c <= 'z') || ('A' <= c <= 'Z') || ('0' <= c <= '9')
    || c == '_' || c == '@' || c == '%' || c == '+' || c == '=' || c == ':'
    || c == ',' || c == '.' || c == '/' || c == '-'
  }

  predicate AllSafe(s: string) {
    forall k :: 0 <= k < |s| ==> IsSafe(s[k])
  }

  lemma {:induction false} AllSafeAppend(a: string, b: string)
    requires AllSafe(a) && AllSafe(b)
    ensures AllSafe(a + b)
  {
    assert forall k :: |a| <= k < |a + b| ==> (a + b)[k] == b[k - |a|];
  }

  /** Each `'` becomes `'"'"'`: close the single quotes, a double-quoted `'`, reopen. */
  function EscapeChar(c: char): string
  {
    if c == '\'' then "'\"'\"'" else [c]
  }

  function Escape(s: string): string
  {
    if s == [] then [] else EscapeChar(s[0]) + Escape(s[1..])
  }

  /** `shlex.quote(s)`. */
  function Quote(s: string): string
  {
    if s == [] then "''"
    else if AllSafe(s) then s
    else "'" + Escape(s) + "'"
  }

  /** Record one consumed character producing `out` in front of the rest of the word. */
  function Step(out: string, r: Option<(string, nat)>): Option<(string, nat)>
  {
    if r.None? then None else Some((out + r.value.0, r.value.1 + 1))
  }

  /*
   * The reader of one shell word, one function per quoting state. Each
   * returns the word's value and how many characters it spans. An unquoted
   * space or the end of the input ends a word; an unterminated quote, an
   * unquoted character that `Quote` never leaves bare, or an escape or
   * expansion inside double quotes is not modelled and gives None.
   */

  /** Reads a word from the start of `s`, outside any quotes. */
  function ReadWord(s: string): (r: Option<(string, nat)>)
    decreases |s|, 1
  {
    if s == [] || s[0] == ' ' then Some(("", 0))
    else if s[0] == '\'' then Step("", ReadSingle(s[1..]))
    else if s[0] == '"' then Step("", ReadDouble(s[1..]))
    else if IsSafe(s[0]) then Step([s[0]], ReadWord(s[1..]))
    else None
  }

  /** The rest of a word after an opening `'`. */
  function ReadSingle(s: string): (r: Option<(string, nat)>)
    decreases |s|, 0
  {
    if s == [] then None
    else if s[0] == '\'' then Step("", ReadWord(s[1..]))
    else Step([s[0]], ReadSingle(s[1..]))
  }

  /** The rest of a word after an opening `"`. */
  function ReadDouble(s: string): (r: Option<(string, nat)>)
    decreases |s|, 0
  {
    if s == [] then None
    else if s[0] == '"' then Step("", ReadWord(s[1..]))
    else if s[0] == '\\' || s[0] == '$' || s[0] == '`' then None
    else Step([s[0]], ReadDouble(s[1..]))
  }

  /** Splits `s` into words at unquoted spaces. */
  function Words(s: string): Option<seq<string>>
    decreases |s|
  {
    if s == [] then Some([])
    else if s[0] == ' ' then Words(s[1..])
    else
      match ReadWord(s)
      case None => None
      case Some((w, n)) =>
        if n == 0 || n > |s| then None
        else
          match Words(s[n..])
          case None => None
          case Some(ws) => Some([w] + ws)
  }

  predicate EndsWord(rest: string) {
    rest == [] || rest[0] == ' '
  }

  // One step of the reader, for each transition the quoted words use.

  lemma {:induction false} ReadsSafe(c: char, t: string)
    requires IsSafe(c)
    ensures ReadWord([c] + t) == Step([c], ReadWord(t))
  {
    assert ([c] + t)[1..] == t;
  }

  lemma {:induction false} ReadsOpeningQuote(t: string)
    ensures ReadWord("'" + t) == Step("", ReadSingle(t))
  {
    assert ("'" + t)[1..] == t;
  }

  lemma {:induction false} ReadsClosingQuote(t: string)
    ensures ReadSingle("'" + t) == Step("", ReadWord(t))
  {
    assert ("'" + t)[1..] == t;
  }

  lemma {:induction false} ReadsQuotedChar(c: char, t: string)
    requires c != '\''
    ensures ReadSingle([c] + t) == Step([c], ReadSingle(t))
  {
    assert ([c] + t)[1..] == t;
  }

  lemma {:induction false} ConsAppend(x: string, v: string)
    requires x != []
    ensures [x[0]] + (x[1..] + v) == x + v
  {
    assert x == [x[0]] + x[1..];
  }

  /** Safe characters in front of a word become part of it. */
  lemma {:induction false} SafePrefixReads(p: string, t: string, v: string, m: nat)
    requires AllSafe(p) && ReadWord(t) == Some((v, m))
    ensures ReadWord(p + t) == Some((p + v, |p| + m))
    decreases |p|
  {
    if p == [] {
      assert p + t == t && p + v == v;
    } else {
      ConsAppend(p, t);
      ConsAppend(p, v);
      ReadsSafe(p[0], p[1..] + t);
      SafePrefixReads(p[1..], t, v, m);
    }
  }

  lemma {:induction false} SafeReadsBack(x: string, rest: string)
    requires AllSafe(x) && EndsWord(rest)
    ensures ReadWord(x + rest) == Some((x, |x|))
  {
    SafePrefixReads(x, rest, "", 0);
    assert x + "" == x;
  }

  lemma {:induction false} ReadsOpeningDoubleQuote(t: string)
    ensures ReadWord("\"" + t) == Step("", ReadDouble(t))
  {
    assert ("\"" + t)[1..] == t;
  }

  lemma {:induction false} ReadsClosingDoubleQuote(t: string)
    ensures ReadDouble("\"" + t) == Step("", ReadWord(t))
  {
    assert ("\"" + t)[1..] == t;
  }

  lemma {:induction false} ReadsDoubleQuotedQuote(t: string)
    ensures ReadDouble("'" + t) == Step("'", ReadDouble(t))
  {
    assert ("'" + t)[1..] == t;
  }

  /** The five characters `'"'"'` read, inside single quotes, as one `'`. */
  lemma {:induction false} EscapedQuoteReadsBack(more: string, v: string, m: nat)
    requires ReadSingle(more) == Some((v, m))
    ensures ReadSingle("'\"'\"'" + more) == Some(("'" + v, m + 5))
  {
    // close the quotes, read `"'"` in double quotes, reopen
    var t4 := "'" + more;
    var t3 := "\"" + t4;
    var t2 := "'" + t3;
    var t1 := "\"" + t2;
    assert "'\"'\"'" + more == "'" + t1;
    assert "" + v == v && "" + ("'" + v) == "'" + v;
    ReadsOpeningQuote(more);
    ReadsClosingDoubleQuote(t4);
    ReadsDoubleQuotedQuote(t3);
    ReadsOpeningDoubleQuote(t2);
    ReadsClosingQuote(t1);
  }

  /** One escaped character read inside single quotes. */
  lemma {:induction false} EscapeCharReads(c: char, more: string, v: string, m: nat)
    requires ReadSingle(more) == Some((v, m))
    ensures ReadSingle(EscapeChar(c) + more) == Some(([c] + v, |EscapeChar(c)| + m))
  {
    if c == '\'' {
      EscapedQuoteReadsBack(more, v, m);
    } else {
      ReadsQuotedChar(c, more);
    }
  }

  lemma {:induction false} EscapeConsAppend(x: string, t: string)
    requires x != []
    ensures Escape(x) + t == EscapeChar(x[0]) + (Escape(x[1..]) + t)
    ensures |Escape(x)| == |EscapeChar(x[0])| + |Escape(x[1..])|
  {
    var e, tail := EscapeChar(x[0]), Escape(x[1..]);
    assert Escape(x) == e + tail;
    Text.Associative(e, tail, t);
  }

  /** The inductive step of `EscapeReads`: one more character in front. */
  lemma {:induction false} EscapeConsReads(x: string, t: string, v: string, m: nat)
    requires x != []
    requires ReadSingle(Escape(x[1..]) + t) == Some((x[1..] + v, |Escape(x[1..])| + m))
    ensures ReadSingle(Escape(x) + t) == Some((x + v, |Escape(x)| + m))
  {
    EscapeConsAppend(x, t);
    ConsAppend(x, v);
    EscapeCharReads(x[0], Escape(x[1..]) + t, x[1..] + v, |Escape(x[1..])| + m);
  }

  /** Inside single quotes, an escaped string reads as the string itself. */
  lemma {:induction false} EscapeReads(x: string, t: string, v: string, m: nat)
    requires ReadSingle(t) == Some((v, m))
    ensures ReadSingle(Escape(x) + t) == Some((x + v, |Escape(x)| + m))
    decreases |x|
  {
    if x == [] {
      assert Escape(x) + t == t && x + v == v;
    } else {
      EscapeReads(x[1..], t, v, m);
      EscapeConsReads(x, t, v, m);
    }
  }

  /** A closing `'` followed by the end of the word. */
  lemma {:induction false} ClosingQuoteEndsWord(rest: string)
    requires EndsWord(rest)
    ensures ReadSingle("'" + rest) == Some(("", 1))
  {
    assert ReadWord(rest) == Some(("", 0));
    ReadsClosingQuote(rest);
    assert "" + "" == "";
  }

  lemma {:induction false} EmptyQuotesReadBack(rest: string)
    requires EndsWord(rest)
    ensures ReadWord("''" + rest) == Some(("", 2))
  {
    ClosingQuoteEndsWord(rest);
    ReadsOpeningQuote("'" + rest);
    assert "''" + rest == "'" + ("'" + rest);
    assert "" + "" == "";
  }

  lemma {:induction false} EscapedReadsBack(x: string, rest: string)
    requires EndsWord(rest)
    ensures ReadWord("'" + Escape(x) + "'" + rest) == Some((x, |Escape(x)| + 2))
  {
    var closing := "'" + rest;
    var body := Escape(x) + closing;
    ClosingQuoteEndsWord(rest);
    EscapeReads(x, closing, "", 1);
    ReadsOpeningQuote(body);
    assert "'" + Escape(x) + "'" + rest == "'" + body;
    assert "" + (x + "") == x;
  }

  /** Reading back a quoted string gives the string, and the word ends where the quoting ends. */
  lemma {:induction false} QuoteReadsBack(x: string, rest: string)
    requires EndsWord(rest)
    ensures ReadWord(Quote(x) + rest) == Some((x, |Quote(x)|))
  {
    if x == [] {
      EmptyQuotesReadBack(rest);
    } else if AllSafe(x) {
      SafeReadsBack(x, rest);
    } else {
      EscapedReadsBack(x, rest);
    }
  }

  /** The words of `Quote(x) + rest` are `x` followed by the words of `rest`. */
  lemma {:induction false} QuotedWords(x: string, rest: string)
    requires EndsWord(rest)
    ensures Words(Quote(x) + rest) == match Words(rest)
                                      case None => None
                                      case Some(ws) => Some([x] + ws)
  {
    var s := Quote(x) + rest;
    QuoteReadsBack(x, rest);
    assert s[0] != ' ';
    assert |Quote(x)| > 0;
    assert s[|Quote(x)|..] == rest;
  }

  /** Joining quoted arguments with spaces: the shell sees exactly those arguments. */
  function QuoteArgs(args: seq<string>): string
  {
    if args == [] then ""
    else if |args| == 1 then Quote(args[0])
    else Quote(args[0]) + " " + QuoteArgs(args[1..])
  }

  lemma {:induction false} QuoteArgsWords(args: seq<string>)
    ensures Words(QuoteArgs(args)) == Some(args)
  {
    if args == [] {
    } else if |args| == 1 {
      QuotedWords(args[0], "");
      assert Quote(args[0]) + "" == Quote(args[0]);
      assert Words("") == Some([]);
      assert [args[0]] + [] == args;
    } else {
      var rest := QuoteArgs(args[1..]);
      QuoteArgsWords(args[1..]);
      assert Words(" " + rest) == Words(rest) by {
        assert (" " + rest)[1..] == rest;
      }
      QuotedWords(args[0], " " + rest);
      assert Quote(args[0]) + " " + rest == Quote(args[0]) + (" " + rest);
      assert [args[0]] + args[1..] == args;
    }
  }

  // ---------------------------------------------------------------------
  // shlex.split in POSIX mode
  // ---------------------------------------------------------------------

  /** The separators `shlex` splits on. */
  predicate IsLexSpace(c: char) {
    c == ' ' || c == '\t' || c == '\r' || c == '\n'
  }

  /**
   * The states of `shlex`'s reader: between words, inside an unquoted
   * word, inside single or double quotes, and just after a backslash that
   * was met outside quotes or inside double quotes.
   */
  datatype LexState = Between | InWord | InSingle | InDouble | EscWord | EscDouble

  /** The reader's state, the word read so far and the finished words. */
  datatype Lexer = Lexer(st: LexState, token: string, words: seq<string>)

  /**
   * One character of `shlex`'s reader. A word ends only at an unquoted
   * separator, so quoted and unquoted pieces join into one word. Inside
   * double quotes a backslash drops only before `\` or `"`.
   */
  function Next(lx: Lexer, c: char): Lexer {
    var Lexer(st, token, words) := lx;
    match st
    case Between =>
      if IsLexSpace(c) then lx
      else if c == '\\' then Lexer(EscWord, "", words)
      else if c == '\'' then Lexer(InSingle, "", words)
      else if c == '"' then Lexer(InDouble, "", words)
      else Lexer(InWord, [c], words)
    case InWord =>
      if IsLexSpace(c) then Lexer(Between, "", words + [token])
      else if c == '\\' then Lexer(EscWord, token, words)
      else if c == '\'' then Lexer(InSingle, token, words)
      else if c == '"' then Lexer(InDouble, token, words)
      else Lexer(InWord, token + [c], words)
    case InSingle =>
      if c == '\'' then Lexer(InWord, token, words) else Lexer(InSingle, token + [c], words)
    case InDouble =>
      if c == '"' then Lexer(InWord, token, words)
      else if c == '\\' then Lexer(EscDouble, token, words)
      else Lexer(InDouble, token + [c], words)
    case EscWord => Lexer(InWord, token + [c], words)
    case EscDouble => Lexer(InDouble, token + (if c == '\\' || c == '"' then [c] else ['\\', c]), words)
  }

  /**
   * The end of the input: a word in progress is kept even when empty
   * (`""`); ending inside quotes ("No closing quotation") or right after a
   * backslash ("No escaped character") raises, which is None.
   */
  function Finish(lx: Lexer): Option<seq<string>> {
    match lx.st
    case Between => Some(lx.words)
    case InWord => Some(lx.words + [lx.token])
    case _ => None
  }

  /** `shlex.split` (POSIX mode, no comments) of `s`, continuing from `lx`. */
  function Lex(s: string, lx: Lexer): Option<seq<string>>
    decreases |s|
  {
    if s == [] then Finish(lx) else Lex(s[1..], Next(lx, s[0]))
  }

  /** `shlex.split(s)`; None where it raises. */
  function Split(s: string): Option<seq<string>> {
    Lex(s, Lexer(Between, "", []))
  }

  /** `\` and `"` prefixed with `\`: the escaping that survives a double-quoted word. */
  function EscapeDoubleChar(c: char): string {
    if c == '\\' || c == '"' then ['\\', c] else [c]
  }

  function EscapeDouble(s: string): string
    decreases |s|
  {
    if s == [] then [] else EscapeDoubleChar(s[0]) + EscapeDouble(s[1..])
  }

  lemma {:induction false} LexCons(c: char, t: string, lx: Lexer)
    ensures Lex([c] + t, lx) == Lex(t, Next(lx, c))
  {
    assert ([c] + t)[0] == c && ([c] + t)[1..] == t;
  }

  /** The inductive step of `DoubleReadsEscaped`: one more character in front. */
  lemma {:induction false} DoubleReadsEscapedChar(c: char, r: string, token: string, words: seq<string>)
    ensures Lex(EscapeDoubleChar(c) + r, Lexer(InDouble, token, words)) == Lex(r, Lexer(InDouble, token + [c], words))
  {
    if c == '\\' || c == '"' {
      assert EscapeDoubleChar(c) + r == ['\\'] + ([c] + r);
      LexCons('\\', [c] + r, Lexer(InDouble, token, words));
      LexCons(c, r, Lexer(EscDouble, token, words));
    } else {
      LexCons(c, r, Lexer(InDouble, token, words));
    }
  }

  lemma {:induction false} EscapeDoubleCons(x: string, t: string)
    requires x != []
    ensures EscapeDouble(x) + t == EscapeDoubleChar(x[0]) + (EscapeDouble(x[1..]) + t)
  {
    Text.Associative(EscapeDoubleChar(x[0]), EscapeDouble(x[1..]), t);
  }

  /** Inside double quotes, escaped text reads as the text itself. */
  lemma {:induction false} DoubleReadsEscaped(x: string, t: string, token: string, words: seq<string>)
    ensures Lex(EscapeDouble(x) + t, Lexer(InDouble, token, words)) == Lex(t, Lexer(InDouble, token + x, words))
    decreases |x|
  {
    if x == [] {
      assert EscapeDouble(x) + t == t && token + x == token;
    } else {
      EscapeDoubleCons(x, t);
      DoubleReadsEscapedChar(x[0], EscapeDouble(x[1..]) + t, token, words);
      DoubleReadsEscaped(x[1..], t, token + [x[0]], words);
      ConsAppend(x, "");
      Text.Associative(token, [x[0]], x[1..]);
      assert x + "" == x;
    }
  }

  /** A character `shlex` keeps as it is outside quotes. */
  predicate IsPlain(c: char) {
    !IsLexSpace(c) && c != '\\' && c != '\'' && c != '"'
  }

  predicate AllPlain(w: string) {
    forall k :: 0 <= k < |w| ==> IsPlain(w[k])
  }

  /** Plain characters extend the word being read. */
  lemma {:induction false} WordReadsPlain(w: string, t: string, token: string, words: seq<string>)
    requires AllPlain(w)
    ensures Lex(w + t, Lexer(InWord, token, words)) == Lex(t, Lexer(InWord, token + w, words))
    decreases |w|
  {
    if w == [] {
      assert w + t == t && token + w == token;
    } else {
      ConsAppend(w, t);
      LexCons(w[0], w[1..] + t, Lexer(InWord, token, words));
      WordReadsPlain(w[1..], t, token + [w[0]], words);
      ConsAppend(w, "");
      Text.Associative(token, [w[0]], w[1..]);
      assert w + "" == w;
    }
  }

  /** A plain word followed by a space is one finished word. */
  lemma {:induction false} PlainWordThenSpace(w: string, rest: string, words: seq<string>)
    requires w != [] && AllPlain(w)
    ensures Lex(w + " " + rest, Lexer(Between, "", words)) == Lex(rest, Lexer(Between, "", words + [w]))
  {
    var tail := w[1..] + (" " + rest);
    assert w + " " + rest == [w[0]] + tail by {
      ConsAppend(w, " " + rest);
      Text.Associative(w, " ", rest);
    }
    LexCons(w[0], tail, Lexer(Between, "", words));
    WordReadsPlain(w[1..], " " + rest, [w[0]], words);
    assert [w[0]] + w[1..] == w;
    LexCons(' ', rest, Lexer(InWord, w, words));
  }

  /** `bash -c ` followed by anything: the first two words are `bash` and `-c`. */
  lemma {:induction false} SplitBashPrefix(rest: string)
    ensures Split("bash -c " + rest) == Lex(rest, Lexer(Between, "", ["bash", "-c"]))
  {
    assert "bash -c " + rest == "bash" + " " + ("-c" + " " + rest);
    PlainWordThenSpace("bash", "-c" + " " + rest, []);
    PlainWordThenSpace("-c", rest, ["bash"]);
    assert [] + ["bash"] == ["bash"];
    assert ["bash"] + ["-c"] == ["bash", "-c"];
  }

  /** `bash -c "<escaped x>"` splits into `bash`, `-c` and `x` itself. */
  lemma {:induction false} SplitBashC(x: string)
    ensures Split("bash -c \"" + EscapeDouble(x) + "\"") == Some(["bash", "-c", x])
  {
    var ws := ["bash", "-c"];
    var tail := "\"";
    var body := EscapeDouble(x) + tail;
    assert "bash -c \"" + EscapeDouble(x) + "\"" == "bash -c " + (['"'] + body);
    SplitBashPrefix(['"'] + body);
    LexCons('"', body, Lexer(Between, "", ws));
    DoubleReadsEscaped(x, tail, "", ws);
    assert "" + x == x;
    assert tail == ['"'] + [];
    LexCons('"', [], Lexer(InDouble, x, ws));
    assert ws + [x] == ["bash", "-c", x];
  }

  /** A double-quoted piece of escaped text, read from between words, is the word read so far. */
  lemma {:induction false} QuotedPieceReads(x: string, rest: string, words: seq<string>)
    ensures Lex(['"'] + (EscapeDouble(x) + (['"'] + rest)), Lexer(Between, "", words))
            == Lex(rest, Lexer(InWord, x, words))
  {
    LexCons('"', EscapeDouble(x) + (['"'] + rest), Lexer(Between, "", words));
    DoubleReadsEscaped(x, ['"'] + rest, "", words);
    assert "" + x == x;
    LexCons('"', rest, Lexer(InDouble, x, words));
  }

  /**
   * A bare `"` after escaped text closes the quoting: `bash -c "x" "y"`,
   * with `x` and `y` escaped, splits into `bash`, `-c`, `x` and `y`.
   */
  lemma {:induction false} SplitBashCPair(x: string, y: string)
    ensures Split("bash -c \"" + EscapeDouble(x) + "\" \"" + EscapeDouble(y) + "\"")
            == Some(["bash", "-c", x, y])
  {
    var ws := ["bash", "-c"];
    var second := ['"'] + (EscapeDouble(y) + (['"'] + []));
    var first := ['"'] + (EscapeDouble(x) + (['"'] + ([' '] + second)));
    assert "bash -c \"" + EscapeDouble(x) + "\" \"" + EscapeDouble(y) + "\"" == "bash -c " + first;
    SplitBashPrefix(first);
    QuotedPieceReads(x, [' '] + second, ws);
    LexCons(' ', second, Lexer(InWord, x, ws));
    QuotedPieceReads(y, [], ws + [x]);
    assert ws + [x] + [y] == ["bash", "-c", x, y];
  }

  /**
   * Example beside `SplitBashCPair`: a bare `"` inside the double-quoted
   * word closes the quoting, and the rest goes on as further words: `bash -c "a" "b"` splits into `bash`,
   * `-c`, `a` and `b`, so the last word is `b` alone.
   */
  lemma {:induction false} SplitBareQuote(script: string)
    requires script == "bash -c \"a\" \"b\""
    ensures Split(script) == Some(["bash", "-c", "a", "b"])
  {
    var ws := ["bash", "-c"];
    var t7 := "";
    var t6 := ['"'] + t7;
    var t5 := ['b'] + t6;
    var t4 := ['"'] + t5;
    var t3 := [' '] + t4;
    var t2 := ['"'] + t3;
    var t1 := ['a'] + t2;
    var t0 := ['"'] + t1;
    assert script == "bash -c " + t0;
    SplitBashPrefix(t0);
    LexCons('"', t1, Lexer(Between, "", ws));
    LexCons('a', t2, Lexer(InDouble, "", ws));
    assert Next(Lexer(InDouble, "", ws), 'a') == Lexer(InDouble, "a", ws) by { assert "" + ['a'] == "a"; }
    LexCons('"', t3, Lexer(InDouble, "a", ws));
    LexCons(' ', t4, Lexer(InWord, "a", ws));
    assert ws + ["a"] == ["bash", "-c", "a"];
    LexCons('"', t5, Lexer(Between, "", ["bash", "-c", "a"]));
    LexCons('b', t6, Lexer(InDouble, "", ["bash", "-c", "a"]));
    assert Next(Lexer(InDouble, "", ["bash", "-c", "a"]), 'b') == Lexer(InDouble, "b", ["bash", "-c", "a"]) by {
      assert "" + ['b'] == "b";
    }
    LexCons('"', t7, Lexer(InDouble, "b", ["bash", "-c", "a"]));
    assert ["bash", "-c", "a"] + ["b"] == ["bash", "-c", "a", "b"];
  }
}
