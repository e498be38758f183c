/** Token recognition of the POSIX.1-2017 Shell Command Language (sections 2.2.2, 2.2.3 and 2.3),
    for text whose unquoted part needs no expansion. */
module ShellWords {
  import opened Common

  datatype Token =
    | Word(text: string)
    | IoNumber(text: string)
    | Operator(text: string)

  datatype Mode = Unquoted | Single | Double

  /** The word being read: its value after quote removal, and whether any of it was quoted. */
  datatype Partial = NoWord | InWord(text: string, quoted: bool)

  predicate Blank(c: char) { c == ' ' || c == '\t' }

  predicate OperatorStart(c: char) { c == '|' || c == '&' || c == ';' || c == '<' || c == '>' || c == '(' || c == ')' }

  /** Unquoted characters that would start an escape, an expansion, a comment or a line. */
  predicate Special(c: char) {
    c == '\\' || c == '$' || c == '`' || c == '*' || c == '?' || c == '[' || c == '#' || c == '~' || c == '\n'
  }

  predicate Ordinary(c: char) { !Blank(c) && !OperatorStart(c) && !Special(c) && c != '\'' && c != '"' }

  /** Length of the operator that starts `s`, the longest one possible. */
  function OperatorLength(s: string): (n: nat)
    requires s != "" && OperatorStart(s[0])
    ensures 1 <= n <= |s|
  {
    if |s| >= 3 && s[0] == '<' && s[1] == '<' && s[2] == '-' then 3
    else if |s| >= 2 && (
      || (s[0] == s[1] && (s[0] == '|' || s[0] == '&' || s[0] == ';' || s[0] == '<' || s[0] == '>'))
      || (s[0] == '<' && (s[1] == '&' || s[1] == '>'))
      || (s[0] == '>' && (s[1] == '&' || s[1] == '|'))) then 2
    else 1
  }

  function Push(p: Partial, c: char, quoted: bool): Partial {
    match p
    case NoWord => InWord([c], quoted)
    case InWord(t, q) => InWord(t + [c], q || quoted)
  }

  /** An opening quote begins a word even if nothing is inside it. */
  function OpenQuote(p: Partial): Partial {
    match p
    case NoWord => InWord("", true)
    case InWord(t, _) => InWord(t, true)
  }

  function Flush(p: Partial): seq<Token> {
    match p
    case NoWord => []
    case InWord(t, _) => [Word(t)]
  }

  /** The word before `<` or `>`: unquoted digits there are an IO number. */
  function FlushBefore(p: Partial, c: char): seq<Token> {
    match p
    case NoWord => []
    case InWord(t, q) =>
      if (c == '<' || c == '>') && !q && t != "" && (forall x :: x in t ==> '0' <= x <= '9') then [IoNumber(t)]
        else [Word(t)]
  }

  function Prepend(ts: seq<Token>, r: Option<seq<Token>>): Option<seq<Token>> {
    match r
    case None => None
    case Some(more) => Some(ts + more)
  }

  /** The tokens of `s` read on from a mode and a partial word; `None` when a quote is left
      open or the text needs an expansion. */
  function Lex(s: string, mode: Mode, p: Partial): Option<seq<Token>>
    decreases |s|
  {
    if s == "" then (if mode == Unquoted then Some(Flush(p)) else None)
    else
      var c := s[0];
      match mode
      case Single => if c == '\'' then Lex(s[1..], Unquoted, p) else Lex(s[1..], Single, Push(p, c, true))
      case Double =>
        if c == '"' then Lex(s[1..], Unquoted, p)
        else if c == '$' || c == '`' || c == '\\' then None
        else Lex(s[1..], Double, Push(p, c, true))
      case Unquoted =>
        if c == '\'' then Lex(s[1..], Single, OpenQuote(p))
        else if c == '"' then Lex(s[1..], Double, OpenQuote(p))
        else if Blank(c) then Prepend(Flush(p), Lex(s[1..], Unquoted, NoWord))
        else if OperatorStart(c) then
          var n := OperatorLength(s);
          Prepend(FlushBefore(p, c) + [Operator(s[..n])], Lex(s[n..], Unquoted, NoWord))
        else if Special(c) then None
        else Lex(s[1..], Unquoted, Push(p, c, false))
  }

  function Tokens(command: string): Option<seq<Token>> { Lex(command, Unquoted, NoWord) }

  // ---- reading known text ----

  function Extend(p: Partial, text: string, quoted: bool): Partial {
    match p
    case NoWord => InWord(text, quoted)
    case InWord(t, q) => InWord(t + text, q || quoted)
  }

  /** A run of ordinary characters joins the current word. */
  lemma {:induction false} LexOrdinary(text: string, rest: string, p: Partial)
    requires text != "" && forall c :: c in text ==> Ordinary(c)
    ensures Lex(text + rest, Unquoted, p) == Lex(rest, Unquoted, Extend(p, text, false))
    decreases |text|
  {
    assert text[0] in text;
    assert (text + rest)[1..] == text[1..] + rest;
    if |text| == 1 {
      assert text == [text[0]] && text[1..] + rest == rest;
    } else {
      assert text == [text[0]] + text[1..];
      assert p.InWord? ==> p.text + [text[0]] + text[1..] == p.text + text;
      LexOrdinary(text[1..], rest, Push(p, text[0], false));
    }
  }

  /** Inside single quotes every character but the quote stands for itself. */
  lemma {:induction false} LexSingle(text: string, rest: string, t: string)
    requires forall c :: c in text ==> c != '\''
    ensures Lex(text + rest, Single, InWord(t, true)) == Lex(rest, Single, InWord(t + text, true))
    decreases |text|
  {
    if text == "" {
      assert text + rest == rest && t + text == t;
    } else {
      assert text[0] in text;
      assert (text + rest)[1..] == text[1..] + rest;
      assert forall c :: c in text[1..] ==> c in text;
      LexSingle(text[1..], rest, t + [text[0]]);
      assert t + text == t + [text[0]] + text[1..];
    }
  }

  lemma LexBlank(rest: string, p: Partial)
    ensures Lex(" " + rest, Unquoted, p) == Prepend(Flush(p), Lex(rest, Unquoted, NoWord))
  {
    assert (" " + rest)[1..] == rest;
  }

  /** A word between blanks. */
  lemma LexWord(text: string, rest: string)
    requires text != "" && forall c :: c in text ==> Ordinary(c)
    ensures Lex(text + " " + rest, Unquoted, NoWord) == Prepend([Word(text)], Lex(rest, Unquoted, NoWord))
  {
    LexOrdinary(text, " " + rest, NoWord);
    assert text + " " + rest == text + (" " + rest);
    LexBlank(rest, InWord(text, false));
  }

  lemma LexLastWord(text: string)
    requires text != "" && forall c :: c in text ==> Ordinary(c)
    ensures Lex(text, Unquoted, NoWord) == Some([Word(text)])
  {
    LexOrdinary(text, "", NoWord);
    assert text + "" == text;
  }

  /** An operator followed by a blank. */
  lemma LexOperator(op: string, rest: string)
    requires op == "|" || op == ">" || op == "&&"
    ensures Lex(op + " " + rest, Unquoted, NoWord) == Prepend([Operator(op)], Lex(rest, Unquoted, NoWord))
  {
    var s := op + " " + rest;
    assert s[0] == op[0] && s[|op|] == ' ' && (|op| == 2 ==> s[1] == op[1]);
    assert OperatorLength(s) == |op|;
    assert s[..|op|] == op && s[|op|..] == " " + rest;
    LexBlank(rest, NoWord);
    PrependNothing(Lex(rest, Unquoted, NoWord));
    assert [] + [Operator(op)] == [Operator(op)];
  }

  lemma PrependNothing(r: Option<seq<Token>>)
    ensures Prepend([], r) == r
  {
    if r.Some? {
      assert [] + r.value == r.value;
    }
  }

  lemma PrependTwice(a: seq<Token>, b: seq<Token>, r: Option<seq<Token>>)
    ensures Prepend(a, Prepend(b, r)) == Prepend(a + b, r)
  {
    if r.Some? {
      assert a + (b + r.value) == a + b + r.value;
    }
  }
}
