/** How the agent builds its command lines, and what a shell reads in them. */
module Commands {
  import opened Common
  import opened Payloads
  import opened ShellWords
  import Numerals

  // ---- quoting ----

  function Replace(s: string, c: char, with: string): string {
    if s == "" then "" else (if s[0] == c then with else [s[0]]) + Replace(s[1..], c, with)
  }

  /** `shell_quote`. */
  function ShellQuote(value: string): string {
    "'" + Replace(value, '\'', "'\"'\"'") + "'"
  }

  lemma LexEscapedQuote(rest: string, t: string)
    ensures Lex("'\"'\"'" + rest, Single, InWord(t, true)) == Lex(rest, Single, InWord(t + "'", true))
  {
    var s := "'\"'\"'" + rest;
    var w, w' := InWord(t, true), InWord(t + "'", true);
    var s1, s2, s3, s4 := "\"'\"'" + rest, "'\"'" + rest, "\"'" + rest, "'" + rest;
    assert s[1..] == s1 && s1[1..] == s2 && s2[1..] == s3 && s3[1..] == s4 && s4[1..] == rest;
    assert Push(w, '\'', true) == w';
    assert Lex(s, Single, w) == Lex(s1, Unquoted, w);
    assert Lex(s1, Unquoted, w) == Lex(s2, Double, w);
    assert Lex(s2, Double, w) == Lex(s3, Double, w');
    assert Lex(s3, Double, w') == Lex(s4, Unquoted, w');
    assert Lex(s4, Unquoted, w') == Lex(rest, Single, w');
  }

  lemma {:induction false} LexReplaced(v: string, rest: string, t: string)
    ensures Lex(Replace(v, '\'', "'\"'\"'") + rest, Single, InWord(t, true)) == Lex(rest, Single, InWord(t + v, true))
    decreases |v|
  {
    hide Lex;
    if v == "" {
      assert Replace(v, '\'', "'\"'\"'") + rest == rest && t + v == t;
    } else {
      var tail := Replace(v[1..], '\'', "'\"'\"'") + rest;
      var head := if v[0] == '\'' then "'\"'\"'" else [v[0]];
      assert Replace(v, '\'', "'\"'\"'") + rest == head + tail;
      hide Replace;
      assert t + v == t + [v[0]] + v[1..];
      LexReplaced(v[1..], rest, t + [v[0]]);
      if v[0] == '\'' {
        LexEscapedQuote(tail, t);
      } else {
        LexSingle([v[0]], tail, t);
      }
    }
  }

  /** A quoted value is read back verbatim, as (part of) one word, whatever it contains. */
  lemma QuoteReadsBack(v: string, rest: string, p: Partial)
    ensures Lex(ShellQuote(v) + rest, Unquoted, p) == Lex(rest, Unquoted, Extend(p, v, true))
  {
    var s := ShellQuote(v) + rest;
    var inner := Replace(v, '\'', "'\"'\"'") + ("'" + rest);
    assert s[0] == '\'' && s[1..] == inner;
    LexReplaced(v, "'" + rest, OpenQuote(p).text);
    assert ("'" + rest)[1..] == rest;
    assert "" + v == v;
  }

  lemma QuotedWord(v: string, rest: string)
    ensures Lex(ShellQuote(v) + " " + rest, Unquoted, NoWord) == Prepend([Word(v)], Lex(rest, Unquoted, NoWord))
    ensures Tokens(ShellQuote(v)) == Some([Word(v)])
  {
    hide Lex, ShellQuote;
    QuoteReadsBack(v, " " + rest, NoWord);
    assert ShellQuote(v) + " " + rest == ShellQuote(v) + (" " + rest);
    LexBlank(rest, InWord(v, true));
    QuoteReadsBack(v, "", NoWord);
    assert ShellQuote(v) + "" == ShellQuote(v);
    LexEnd(InWord(v, true));
  }

  lemma LexEnd(p: Partial)
    ensures Lex("", Unquoted, p) == Some(Flush(p))
  {}

  // ---- push file ----

  function PushFileCommand(destination: string, content: string, permissions: Option<string>): string {
    var dest, data := ShellQuote(destination), ShellQuote(content);
    match permissions
    case Some(perms) => "echo " + data + " | base64 -d > " + dest + " && chmod " + ShellQuote(perms) + " " + dest
    case None => "echo " + data + " | base64 -d > " + dest
  }

  function PushFileTokens(destination: string, content: string, permissions: Option<string>): seq<Token> {
    [Word("echo"), Word(content), Operator("|"), Word("base64"), Word("-d"), Operator(">"), Word(destination)]
    + match permissions
      case Some(perms) => [Operator("&&"), Word("chmod"), Word(perms), Word(destination)]
      case None => []
  }

  lemma ReadPrefix(data: string, rest: string)
    ensures Tokens("echo " + ShellQuote(data) + " | base64 -d > " + rest)
              == Prepend([Word("echo"), Word(data), Operator("|"), Word("base64"), Word("-d"), Operator(">")],
                Tokens(rest))
  {
    hide Lex, ShellQuote, OperatorLength;
    var r5 := "> " + rest;
    var r4 := "-d " + r5;
    var r3 := "base64 " + r4;
    var r2 := "| " + r3;
    var r1 := ShellQuote(data) + " " + r2;
    assert "echo " + ShellQuote(data) + " | base64 -d > " + rest == "echo" + " " + r1;
    LexWord("echo", r1);
    QuotedWord(data, r2);
    LexOperator("|", r3);
    LexWord("base64", r4);
    LexWord("-d", r5);
    LexOperator(">", rest);
    assert "|" + " " + r3 == r2 && "base64" + " " + r4 == r3 && "-d" + " " + r5 == r4 && ">" + " " + rest == r5;
    PrependSix(Word("echo"), Word(data), Operator("|"), Word("base64"), Word("-d"), Operator(">"), Tokens(rest));
  }

  lemma PrependSix(a: Token, b: Token, c: Token, d: Token, e: Token, f: Token, r: Option<seq<Token>>)
    ensures Prepend([a], Prepend([b], Prepend([c], Prepend([d], Prepend([e], Prepend([f], r))))))
        == Prepend([a, b, c, d, e, f], r)
  {
    if r.Some? {
      assert [a] + ([b] + ([c] + ([d] + ([e] + ([f] + r.value))))) == [a, b, c, d, e, f] + r.value;
    }
  }

  lemma ReadChmod(perms: string, dest: string)
    ensures Tokens("&& chmod " + ShellQuote(perms) + " " + ShellQuote(dest))
              == Some([Operator("&&"), Word("chmod"), Word(perms), Word(dest)])
  {
    hide Lex, ShellQuote, OperatorLength;
    var r2 := ShellQuote(perms) + " " + ShellQuote(dest);
    var r1 := "chmod " + r2;
    assert "&& chmod " + ShellQuote(perms) + " " + ShellQuote(dest) == "&&" + " " + r1;
    assert "chmod" + " " + r2 == r1;
    LexOperator("&&", r1);
    LexWord("chmod", r2);
    QuotedWord(perms, ShellQuote(dest));
    QuotedWord(dest, "");
    assert [Operator("&&")] + ([Word("chmod")] + ([Word(perms)] + [Word(dest)]))
      == [Operator("&&"), Word("chmod"), Word(perms), Word(dest)];
  }

  /** The push-file command always reads as the same fixed line: content, destination and
      permissions are one word each, verbatim. */
  lemma PushFileReadsBack(destination: string, content: string, permissions: Option<string>)
    ensures Tokens(PushFileCommand(destination, content, permissions))
        == Some([Word("echo"), Word(content), Operator("|"), Word("base64"), Word("-d"), Operator(">"),
                 Word(destination)]
                + match permissions
                  case Some(perms) => [Operator("&&"), Word("chmod"), Word(perms), Word(destination)]
                  case None => [])
  {
    hide Lex, ShellQuote;
    var dest := ShellQuote(destination);
    match permissions
    case None =>
      ReadPrefix(content, dest);
      QuotedWord(destination, "");
      assert [Word("echo"), Word(content), Operator("|"), Word("base64"), Word("-d"), Operator(">")]
          + [Word(destination)]
        == PushFileTokens(destination, content, permissions);
    case Some(perms) =>
      var tail := "&& chmod " + ShellQuote(perms) + " " + dest;
      ReadPrefix(content, dest + " " + tail);
      QuotedWord(destination, tail);
      ReadChmod(perms, destination);
      assert PushFileCommand(destination, content, permissions)
        == "echo " + ShellQuote(content) + " | base64 -d > " + (dest + " " + tail);
      var chmod := [Operator("&&"), Word("chmod"), Word(perms), Word(destination)];
      assert [Word("echo"), Word(content), Operator("|"), Word("base64"), Word("-d"), Operator(">")]
          + ([Word(destination)] + chmod)
        == PushFileTokens(destination, content, permissions);
  }

  // ---- packages ----

  predicate PackageChar(c: char) {
    'a' <= c <= 'z' || 'A' <= c <= 'Z' || '0' <= c <= '9' || c == '.' || c == '_' || c == '-'
  }

  /** `sanitize_package`. */
  function Sanitize(package: string): string {
    var clean := Filter(package, PackageChar);
    if clean == "" then "invalid" else clean
  }

  lemma {:induction false} FilterAll(s: string)
    requires forall c :: c in s ==> PackageChar(c)
    ensures Filter(s, PackageChar) == s
  {
    if s != "" {
      assert s[0] in s;
      FilterAll(s[1..]);
    }
  }

  lemma {:induction false} FilterPackage(s: string)
    ensures Filter(s, PackageChar)
         == Filter(s, (c: char) => 'a' <= c <= 'z' || 'A' <= c <= 'Z' || '0' <= c <= '9'
                                   || c == '.' || c == '_' || c == '-')
  {
    if s != "" {
      FilterPackage(s[1..]);
    }
  }

  lemma InvalidIsAllowed()
    ensures forall c :: c in "invalid" ==> PackageChar(c)
  {}

  lemma PackageCharsOrdinary()
    ensures forall c :: PackageChar(c) ==> Ordinary(c)
  {}

  /** The result is a non-empty word of allowed characters; names already made of those are kept. */
  lemma SanitizeAllowsOnly(package: string)
    ensures Sanitize(package) != "" && forall c :: c in Sanitize(package) ==> PackageChar(c) && Ordinary(c)
    ensures package != "" && (forall c :: c in package ==> PackageChar(c)) <==> Sanitize(package) == package
    ensures var kept := Filter(package, (c: char) => 'a' <= c <= 'z' || 'A' <= c <= 'Z' || '0' <= c <= '9'
                                                     || c == '.' || c == '_' || c == '-');
      Sanitize(package) == if kept == "" then "invalid" else kept
  {
    FilterPackage(package);
    FilterMembers(package, PackageChar);
    InvalidIsAllowed();
    PackageCharsOrdinary();
    hide PackageChar, Ordinary;
    if forall c :: c in package ==> PackageChar(c) {
      FilterAll(package);
    }
  }

  /** `package_cmd` for the managers run through bash. `action` is "install" or "remove". */
  function UnixPackageCommand(m: PackageManager, action: string, package: string): string
    requires !m.Winget? && !m.Chocolatey?
  {
    var pkg := Sanitize(package);
    match m
    case Apt => "apt-get " + action + " -y " + pkg + " 2>&1"
    case Dnf => "dnf " + action + " -y " + pkg + " 2>&1"
    case Pacman =>
      "pacman " + (if action == "install" then "-S --noconfirm" else "-R --noconfirm") + " " + pkg + " 2>&1"
    case Homebrew => "brew " + action + " " + pkg + " 2>&1"
  }

  function Words(ws: seq<string>): seq<Token> { Map(ws, (w: string) => Word(w)) }

  /** `2>&1`, once the blank before it was read. */
  function Redirect(): seq<Token> { [IoNumber("2"), Operator(">&"), Word("1")] }

  lemma LexRedirect()
    ensures Tokens("2>&1") == Some(Redirect())
  {
    var w2, w1 := InWord("2", false), InWord("1", false);
    var s := "2>&1";
    assert s[1..] == ">&1" && ">&1"[2..] == "1" && ">&1"[..2] == ">&" && "1"[1..] == "";
    assert Push(NoWord, '2', false) == w2 && Push(NoWord, '1', false) == w1;
    assert OperatorLength(">&1") == 2;
    assert Lex("", Unquoted, w1) == Some([Word("1")]);
    assert Lex("1", Unquoted, NoWord) == Some([Word("1")]);
    assert FlushBefore(w2, '>') == [IoNumber("2")];
    assert Lex(">&1", Unquoted, w2) == Prepend([IoNumber("2")] + [Operator(">&")], Some([Word("1")]));
    assert Lex(s, Unquoted, NoWord) == Lex(">&1", Unquoted, w2);
    assert [IoNumber("2")] + [Operator(">&")] + [Word("1")] == Redirect();
  }

  predicate OrdinaryWord(w: string) { w != "" && forall c :: c in w ==> Ordinary(c) }

  /** Words each followed by one blank. */
  function Line(ws: seq<string>, rest: string): string {
    if ws == [] then rest else ws[0] + " " + Line(ws[1..], rest)
  }

  lemma {:induction false} ReadLine(ws: seq<string>, rest: string)
    requires forall w :: w in ws ==> OrdinaryWord(w)
    ensures Tokens(Line(ws, rest)) == Prepend(Words(ws), Tokens(rest))
  {
    hide Lex;
    if ws == [] {
      PrependNothing(Tokens(rest));
    } else {
      assert ws[0] in ws;
      LexWord(ws[0], Line(ws[1..], rest));
      ReadLine(ws[1..], rest);
      PrependTwice([Word(ws[0])], Words(ws[1..]), Tokens(rest));
      assert Words(ws) == [Word(ws[0])] + Words(ws[1..]);
    }
  }

  function PackageWords(m: PackageManager, action: string, package: string): seq<string>
    requires !m.Winget? && !m.Chocolatey?
  {
    match m
    case Apt => ["apt-get", action, "-y", Sanitize(package)]
    case Dnf => ["dnf", action, "-y", Sanitize(package)]
    case Pacman => ["pacman", if action == "install" then "-S" else "-R", "--noconfirm", Sanitize(package)]
    case Homebrew => ["brew", action, Sanitize(package)]
  }

  lemma LineOfFour(a: string, b: string, c: string, d: string, rest: string)
    ensures Line([a, b, c, d], rest) == a + " " + b + " " + c + " " + d + " " + rest
    ensures Line([a, b, c], rest) == a + " " + b + " " + c + " " + rest
  {
    var l1, l2, l3 := [b, c, d], [c, d], [d];
    assert [a, b, c, d][1..] == l1 && l1[1..] == l2 && l2[1..] == l3 && l3[1..] == [];
    assert Line(l3, rest) == d + " " + Line([], rest);
    assert Line(l2, rest) == c + " " + Line(l3, rest);
    assert Line(l1, rest) == b + " " + Line(l2, rest);
    var k1, k2 := [b, c], [c];
    assert [a, b, c][1..] == k1 && k1[1..] == k2 && k2[1..] == [];
    assert Line(k2, rest) == c + " " + Line([], rest);
    assert Line(k1, rest) == b + " " + Line(k2, rest);
  }

  lemma Glue(a: string, b: string, c: string, d: string, e: string)
    ensures (a + " ") + b + (" " + c + " ") + d + (" " + e) == a + " " + b + " " + c + " " + d + " " + e
    ensures (a + " ") + b + (" " + c) + " " + d + (" " + e) == a + " " + b + " " + c + " " + d + " " + e
    ensures (a + " ") + b + " " + c + (" " + e) == a + " " + b + " " + c + " " + e
  {}

  lemma GlueWith(a': string, c': string, e': string, a: string, b: string, c: string, d: string, e: string)
    requires a' == a + " " && c' == " " + c + " " && e' == " " + e
    ensures a' + b + c' + d + e' == a + " " + b + " " + c + " " + d + " " + e
    ensures a' + b + " " + d + e' == a + " " + b + " " + d + " " + e
  {
    Glue(a, b, c, d, e);
  }

  lemma CommandIsLine(m: PackageManager, action: string, package: string)
    requires !m.Winget? && !m.Chocolatey?
    ensures UnixPackageCommand(m, action, package) == Line(PackageWords(m, action, package), "2>&1")
  {
    hide Sanitize, Line;
    var pkg := Sanitize(package);
    match m
    case Apt =>
      GlueWith("apt-get ", " -y ", " 2>&1", "apt-get", action, "-y", pkg, "2>&1");
      LineOfFour("apt-get", action, "-y", pkg, "2>&1");
    case Dnf =>
      GlueWith("dnf ", " -y ", " 2>&1", "dnf", action, "-y", pkg, "2>&1");
      LineOfFour("dnf", action, "-y", pkg, "2>&1");
    case Pacman =>
      if action == "install" {
        PacmanLine("-S", "-S --noconfirm", pkg);
      } else {
        PacmanLine("-R", "-R --noconfirm", pkg);
      }
    case Homebrew =>
      GlueWith("brew ", "   ", " 2>&1", "brew", action, " ", pkg, "2>&1");
      LineOfFour("brew", action, pkg, "", "2>&1");
  }

  lemma PacmanLine(flag: string, flags: string, pkg: string)
    requires flags == flag + " --noconfirm"
    ensures "pacman " + flags + " " + pkg + " 2>&1" == Line(["pacman", flag, "--noconfirm", pkg], "2>&1")
  {
    hide Line;
    GlueWith("pacman ", " --noconfirm ", " 2>&1", "pacman", flag, "--noconfirm", pkg, "2>&1");
    LineOfFour("pacman", flag, "--noconfirm", pkg, "2>&1");
    assert flags + " " == flag + " --noconfirm ";
  }

  lemma ProgramNames()
    ensures OrdinaryWord("apt-get") && OrdinaryWord("dnf") && OrdinaryWord("pacman") && OrdinaryWord("brew")
  {}

  lemma ActionNames()
    ensures OrdinaryWord("install") && OrdinaryWord("remove") && OrdinaryWord("upgrade")
  {}

  lemma FlagNames()
    ensures OrdinaryWord("-y") && OrdinaryWord("-S") && OrdinaryWord("-R") && OrdinaryWord("--noconfirm")
  {}

  lemma PackageWordsOrdinary(m: PackageManager, action: string, package: string)
    requires !m.Winget? && !m.Chocolatey? && (action == "install" || action == "remove")
    ensures forall w :: w in PackageWords(m, action, package) ==> OrdinaryWord(w)
  {
    hide Sanitize;
    SanitizeAllowsOnly(package);
    assert OrdinaryWord(Sanitize(package));
    ProgramNames();
    ActionNames();
    FlagNames();
    hide OrdinaryWord;
  }

  /** Install and remove commands read as a fixed line in which the package is one word. */
  lemma PackageCommandReadsBack(m: PackageManager, action: string, package: string)
    requires !m.Winget? && !m.Chocolatey? && (action == "install" || action == "remove")
    ensures var pkg := Sanitize(package);
      var line := match m
        case Apt => [Word("apt-get"), Word(action), Word("-y"), Word(pkg)]
        case Dnf => [Word("dnf"), Word(action), Word("-y"), Word(pkg)]
        case Pacman =>
          [Word("pacman"), Word(if action == "install" then "-S" else "-R"), Word("--noconfirm"), Word(pkg)]
        case Homebrew => [Word("brew"), Word(action), Word(pkg)];
      Tokens(UnixPackageCommand(m, action, package)) == Some(line + [IoNumber("2"), Operator(">&"), Word("1")])
  {
    hide Lex, Sanitize, Line, UnixPackageCommand, PackageWords, OrdinaryWord;
    CommandIsLine(m, action, package);
    PackageWordsOrdinary(m, action, package);
    ReadLine(PackageWords(m, action, package), "2>&1");
    LexRedirect();
    WordsOf(m, action, package);
  }

  lemma WordsOf(m: PackageManager, action: string, package: string)
    requires !m.Winget? && !m.Chocolatey?
    ensures var pkg := Sanitize(package);
      Words(PackageWords(m, action, package)) == match m
        case Apt => [Word("apt-get"), Word(action), Word("-y"), Word(pkg)]
        case Dnf => [Word("dnf"), Word(action), Word("-y"), Word(pkg)]
        case Pacman =>
          [Word("pacman"), Word(if action == "install" then "-S" else "-R"), Word("--noconfirm"), Word(pkg)]
        case Homebrew => [Word("brew"), Word(action), Word(pkg)]
  {
    hide Sanitize;
  }

  // ---- patches ----

  datatype Platform = Linux | MacOs

  function JoinWords(ws: seq<string>): string {
    if ws == [] then "" else if |ws| == 1 then ws[0] else ws[0] + " " + JoinWords(ws[1..])
  }

  /** `patch_cmd` off Windows. */
  function PatchCommand(os: Platform, ids: seq<string>): string {
    (if os == MacOs then "brew upgrade " else "apt-get install -y ") + JoinWords(Map(ids, Sanitize)) + " 2>&1"
  }

  lemma {:induction false} JoinedLine(ws: seq<string>, rest: string)
    ensures JoinWords(ws) + " " + rest == if ws == [] then " " + rest else Line(ws, rest)
  {
    if |ws| == 1 {
      assert ws[1..] == [];
    } else if ws != [] {
      JoinedLine(ws[1..], rest);
    }
  }

  /** A patch command reads as its fixed words, then one word per patch id in order. */
  lemma PatchCommandReadsBack(os: Platform, ids: seq<string>)
    ensures var head := if os == MacOs then ["brew", "upgrade"] else ["apt-get", "install", "-y"];
      Tokens(PatchCommand(os, ids)) == Some(Words(head) + Words(Map(ids, Sanitize)) + Redirect())
  {
    hide Lex, Sanitize, JoinWords;
    var ws := Map(ids, Sanitize);
    var tail := JoinWords(ws) + " 2>&1";
    var head := if os == MacOs then ["brew", "upgrade"] else ["apt-get", "install", "-y"];
    forall w | w in ws
      ensures OrdinaryWord(w)
    {
      var i :| 0 <= i < |ids| && w == Sanitize(ids[i]);
      SanitizeAllowsOnly(ids[i]);
    }
    JoinedLine(ws, "2>&1");
    assert tail == JoinWords(ws) + " " + "2>&1";
    LexRedirect();
    if ws == [] {
      LexBlank("2>&1", NoWord);
      PrependNothing(Tokens("2>&1"));
      assert Words(ws) == [] && [] + Redirect() == Redirect();
    } else {
      ReadLine(ws, "2>&1");
    }
    assert Tokens(tail) == Some(Words(ws) + Redirect());
    ReadHead(os, tail);
    assert PatchCommand(os, ids) == (if os == MacOs then "brew upgrade " else "apt-get install -y ") + tail;
    assert Words(head) + (Words(ws) + Redirect()) == Words(head) + Words(ws) + Redirect();
  }

  lemma LineOfTwo(a: string, b: string, rest: string)
    ensures Line([a, b], rest) == a + " " + b + " " + rest
  {
    assert [a, b][1..] == [b] && [b][1..] == [];
    assert Line([b], rest) == b + " " + Line([], rest);
  }

  lemma ReadHead(os: Platform, tail: string)
    ensures var head := if os == MacOs then ["brew", "upgrade"] else ["apt-get", "install", "-y"];
      Tokens((if os == MacOs then "brew upgrade " else "apt-get install -y ") + tail)
        == Prepend(Words(head), Tokens(tail))
  {
    hide Lex, Line;
    ProgramNames();
    ActionNames();
    FlagNames();
    hide OrdinaryWord;
    match os
    case MacOs =>
      LineOfTwo("brew", "upgrade", tail);
      ReadLine(["brew", "upgrade"], tail);
      assert "brew upgrade " == "brew" + " " + "upgrade" + " ";
    case Linux =>
      LineOfFour("apt-get", "install", "-y", "", tail);
      ReadLine(["apt-get", "install", "-y"], tail);
      assert "apt-get install -y " == "apt-get" + " " + "install" + " " + "-y" + " ";
  }

  // ---- reboot ----

  /** `reboot_cmd` off Windows: whole minutes, rounded down. */
  function RebootCommand(delaySeconds: nat): string { "shutdown -r +" + Numerals.Decimal(delaySeconds / 60) }

  lemma RebootReadsBack(delaySeconds: nat)
    ensures Tokens(RebootCommand(delaySeconds))
        == Some([Word("shutdown"), Word("-r"), Word("+" + Numerals.Decimal(delaySeconds / 60))])
  {
    hide Lex;
    var n := Numerals.Decimal(delaySeconds / 60);
    Numerals.DecimalRoundTrip(delaySeconds / 60);
    LexLastWord("+" + n);
    LexWord("-r", "+" + n);
    LexWord("shutdown", "-r +" + n);
    assert [Word("shutdown")] + ([Word("-r")] + [Word("+" + n)]) == [Word("shutdown"), Word("-r"), Word("+" + n)];
    assert RebootCommand(delaySeconds) == "shutdown" + " " + ("-r +" + n);
    assert "-r +" + n == "-r" + " " + ("+" + n);
  }

  // ---- from a job to its process ----

  /** What `execute_script` is called with; the limit is in seconds. */
  datatype Command = Command(shell: ShellType, line: string, limit: nat)

  /** `package_cmd`. */
  function PackageCommand(m: PackageManager, action: string, package: string): Command {
    match m
    case Winget => Command(Cmd, "winget " + action + " --accept-source-agreements " + Sanitize(package), 600)
    case Chocolatey => Command(Cmd, "choco " + action + " -y " + Sanitize(package), 600)
    case _ => Command(Bash, UnixPackageCommand(m, action, package), 600)
  }

  /** `execute_job` off Windows; an inventory is collected without a process. */
  function CommandOf(os: Platform, p: JobPayload): Option<Command> {
    match p
    case RunScript(shell, script) => Some(Command(shell, script, 300))
    case InstallPackage(m, package, _) => Some(PackageCommand(m, "install", package))
    case UninstallPackage(m, package) => Some(PackageCommand(m, "remove", package))
    case PushFile(destination, content, permissions) =>
      Some(Command(Bash, PushFileCommand(destination, content, permissions), 300))
    case Reboot(delay) => Some(Command(Bash, RebootCommand(delay), 30))
    case CollectInventory => None
    case RunPatchUpdate(ids) => Some(Command(Bash, PatchCommand(os, ids), 600))
  }

  /** The program and its arguments. */
  function Argv(c: Command): seq<string> {
    match c.shell
    case Bash => ["bash", "-c", c.line]
    case Sh => ["sh", "-c", c.line]
    case Powershell => ["powershell", "-Command", c.line]
    case Cmd => ["cmd", "/C", c.line]
  }

  /** Bash is given one line, which it reads as these tokens, and may take this long. */
  predicate RunsBash(c: Option<Command>, tokens: seq<Token>, limit: nat) {
    && c.Some? && c.value.limit == limit
    && Argv(c.value) == ["bash", "-c", c.value.line] && Tokens(c.value.line) == Some(tokens)
  }

  /** A script goes as it is to the interpreter the job names. */
  lemma ScriptRuns(os: Platform, script: string)
    ensures forall shell :: CommandOf(os, RunScript(shell, script)) == Some(Command(shell, script, 300))
    ensures Argv(CommandOf(os, RunScript(Bash, script)).value) == ["bash", "-c", script]
    ensures Argv(CommandOf(os, RunScript(Sh, script)).value) == ["sh", "-c", script]
    ensures Argv(CommandOf(os, RunScript(Powershell, script)).value) == ["powershell", "-Command", script]
    ensures Argv(CommandOf(os, RunScript(Cmd, script)).value) == ["cmd", "/C", script]
  {}

  /** Installing and removing run the manager the job names, on that package, whatever version it asks for. */
  lemma PackagesRun(os: Platform, package: string, version: Option<string>)
    ensures var pkg, tail := Sanitize(package), [IoNumber("2"), Operator(">&"), Word("1")];
      && RunsBash(CommandOf(os, InstallPackage(Apt, package, version)),
           [Word("apt-get"), Word("install"), Word("-y"), Word(pkg)] + tail, 600)
      && RunsBash(CommandOf(os, InstallPackage(Dnf, package, version)),
           [Word("dnf"), Word("install"), Word("-y"), Word(pkg)] + tail, 600)
      && RunsBash(CommandOf(os, InstallPackage(Pacman, package, version)),
           [Word("pacman"), Word("-S"), Word("--noconfirm"), Word(pkg)] + tail, 600)
      && RunsBash(CommandOf(os, InstallPackage(Homebrew, package, version)),
           [Word("brew"), Word("install"), Word(pkg)] + tail, 600)
      && RunsBash(CommandOf(os, UninstallPackage(Apt, package)),
           [Word("apt-get"), Word("remove"), Word("-y"), Word(pkg)] + tail, 600)
      && RunsBash(CommandOf(os, UninstallPackage(Dnf, package)),
           [Word("dnf"), Word("remove"), Word("-y"), Word(pkg)] + tail, 600)
      && RunsBash(CommandOf(os, UninstallPackage(Pacman, package)),
           [Word("pacman"), Word("-R"), Word("--noconfirm"), Word(pkg)] + tail, 600)
      && RunsBash(CommandOf(os, UninstallPackage(Homebrew, package)),
           [Word("brew"), Word("remove"), Word(pkg)] + tail, 600)
  {
    hide Sanitize, UnixPackageCommand, Lex;
    PackageCommandReadsBack(Apt, "install", package);
    PackageCommandReadsBack(Dnf, "install", package);
    PackageCommandReadsBack(Pacman, "install", package);
    PackageCommandReadsBack(Homebrew, "install", package);
    PackageCommandReadsBack(Apt, "remove", package);
    PackageCommandReadsBack(Dnf, "remove", package);
    PackageCommandReadsBack(Pacman, "remove", package);
    PackageCommandReadsBack(Homebrew, "remove", package);
    assert "install"[0] != "remove"[0];
  }

  /** The two Windows managers go through `cmd`. */
  lemma WindowsManagersRun(os: Platform, package: string, version: Option<string>)
    ensures forall p :: p in [InstallPackage(Winget, package, version), UninstallPackage(Winget, package),
                              InstallPackage(Chocolatey, package, version), UninstallPackage(Chocolatey, package)] ==>
              CommandOf(os, p).Some? && CommandOf(os, p).value.limit == 600
    ensures Argv(CommandOf(os, InstallPackage(Winget, package, version)).value)
         == ["cmd", "/C", "winget install" + " --accept-source-agreements " + Sanitize(package)]
    ensures Argv(CommandOf(os, UninstallPackage(Winget, package)).value)
         == ["cmd", "/C", "winget remove" + " --accept-source-agreements " + Sanitize(package)]
    ensures Argv(CommandOf(os, InstallPackage(Chocolatey, package, version)).value)
         == ["cmd", "/C", "choco install" + " -y " + Sanitize(package)]
    ensures Argv(CommandOf(os, UninstallPackage(Chocolatey, package)).value)
         == ["cmd", "/C", "choco remove" + " -y " + Sanitize(package)]
  {
    hide Sanitize;
    assert "winget " + "install" == "winget install" && "winget " + "remove" == "winget remove";
    assert "choco " + "install" == "choco install" && "choco " + "remove" == "choco remove";
  }

  /** Files, restarts and patches, and the one job without a process. */
  lemma OthersRun(os: Platform, destination: string, content: string, permissions: Option<string>, delay: U32,
      ids: seq<string>)
    ensures RunsBash(CommandOf(os, PushFile(destination, content, permissions)),
              [Word("echo"), Word(content), Operator("|"), Word("base64"), Word("-d"), Operator(">"), Word(destination)]
              + (match permissions
                 case Some(perms) => [Operator("&&"), Word("chmod"), Word(perms), Word(destination)]
                 case None => []),
              300)
    ensures RunsBash(CommandOf(os, Reboot(delay)),
              [Word("shutdown"), Word("-r"), Word("+" + Numerals.Decimal(delay / 60))], 30)
    ensures RunsBash(CommandOf(os, RunPatchUpdate(ids)),
              (match os
               case MacOs => [Word("brew"), Word("upgrade")]
               case Linux => [Word("apt-get"), Word("install"), Word("-y")])
              + Words(Map(ids, Sanitize)) + [IoNumber("2"), Operator(">&"), Word("1")],
              600)
    ensures CommandOf(os, CollectInventory) == None
  {
    hide Sanitize, PushFileCommand, RebootCommand, PatchCommand, Lex, Numerals.Decimal;
    PushFileReadsBack(destination, content, permissions);
    RebootReadsBack(delay);
    PatchCommandReadsBack(os, ids);
    assert Words(["brew", "upgrade"]) == [Word("brew"), Word("upgrade")];
    assert Words(["apt-get", "install", "-y"]) == [Word("apt-get"), Word("install"), Word("-y")];
  }
}
