/**
 Quoting an argument vector for a remote shell (agent-remote-client lib.rs and agent-remote-server exec.rs:
 shell_quote; agent-remote-client transfer.rs: ssh_argv), against the token rules of the POSIX.1-2017 Shell Command
 Language, sections 2.2.1 (escape character), 2.2.2 (single quotes) and 2.3 (token recognition).
 */
module ShellQuote {
  import opened Prelude

  // ---- the shell's side ----

  datatype LexState =
    | Between                                // no token begun
    | InWord(word: string)
    | InQuote(word: string)
    | Escaped(word: string, begun: bool)     // after an unquoted backslash

  /** Characters that, unquoted, do more than stand for themselves (section 2.2); NUL cannot occur. */
  predicate Special(c: char) {
    c in "|&;<>()$`\"*?[#~=%\t\n"
  }

  /** The words of a simple command line, or None if the line is incomplete or asks for more than splitting. */
  function Lex(s: string, st: LexState): Option<seq<string>>
    decreases |s|
  {
    if s == "" then
      match st
      case Between => Some([])
      case InWord(w) => Some([w])
      case _ => None
    else
      var c, rest := s[0], s[1..];
      match st
      case Between =>
        if c == ' ' then Lex(rest, Between)
        else if c == '\'' then Lex(rest, InQuote(""))
        else if c == '\\' then Lex(rest, Escaped("", false))
        else if Special(c) then None
        else Lex(rest, InWord([c]))
      case InWord(w) =>
        if c == ' ' then
          var more := Lex(rest, Between);
          if more.Some? then Some([w] + more.value) else None
        else if c == '\'' then Lex(rest, InQuote(w))
        else if c == '\\' then Lex(rest, Escaped(w, true))
        else if Special(c) then None
        else Lex(rest, InWord(w + [c]))
      case InQuote(w) =>
        if c == '\'' then Lex(rest, InWord(w)) else Lex(rest, InQuote(w + [c]))
      case Escaped(w, begun) =>
        if c == '\n' then Lex(rest, if begun then InWord(w) else Between) else Lex(rest, InWord(w + [c]))
  }

  // ---- the program's side ----

  /** Every quote becomes: close, escaped quote, reopen. */
  function ReplaceQuotes(s: string): string {
    if s == "" then "" else (if s[0] == '\'' then "'\\''" else [s[0]]) + ReplaceQuotes(s[1..])
  }

  function Quote(s: string): string {
    if s == "" then "''" else "'" + ReplaceQuotes(s) + "'"
  }

  /** The quoted arguments, one space between each two. */
  function Command(argv: seq<string>): string {
    if argv == [] then ""
    else if |argv| == 1 then Quote(argv[0])
    else Quote(argv[0]) + " " + Command(argv[1..])
  }

  function SshArgv(host: string, remote: seq<string>): seq<string> {
    ["ssh", "-o", "BatchMode=yes", "-o", "ServerAliveInterval=30", "-o", "ServerAliveCountMax=4", host, Command(remote)]
  }

  // ---- round trip ----

  lemma StepInQuote(c: char, rest: string, w: string)
    requires c != '\''
    ensures Lex([c] + rest, InQuote(w)) == Lex(rest, InQuote(w + [c]))
  {
    assert ([c] + rest)[1..] == rest;
  }

  lemma CloseQuote(rest: string, w: string)
    ensures Lex("'" + rest, InQuote(w)) == Lex(rest, InWord(w))
  {
    assert ("'" + rest)[1..] == rest;
  }

  lemma OpenQuote(rest: string, w: string)
    ensures Lex("'" + rest, InWord(w)) == Lex(rest, InQuote(w))
    ensures Lex("'" + rest, Between) == Lex(rest, InQuote(""))
  {
    assert ("'" + rest)[1..] == rest;
  }

  lemma Escape(rest: string, w: string)
    ensures Lex("\\'" + rest, InWord(w)) == Lex(rest, InWord(w + "'"))
  {
    assert ("\\'" + rest)[1..] == "'" + rest;
    assert ("'" + rest)[1..] == rest;
  }

  /** Close, escaped quote, reopen: the quote joins the word. */
  lemma QuoteInQuote(rest: string, w: string)
    ensures Lex("'\\''" + rest, InQuote(w)) == Lex(rest, InQuote(w + "'"))
  {
    hide Lex;
    assert "'\\''" + rest == "'" + ("\\'" + ("'" + rest));
    CloseQuote("\\'" + ("'" + rest), w);
    Escape("'" + rest, w);
    OpenQuote(rest, w + "'");
  }

  lemma {:induction false} LexBody(s: string, rest: string, w: string)
    ensures Lex(ReplaceQuotes(s) + "'" + rest, InQuote(w)) == Lex(rest, InWord(w + s))
    decreases |s|
  {
    hide Lex;
    if s == "" {
      assert ReplaceQuotes(s) + "'" + rest == "'" + rest && w + s == w;
      CloseQuote(rest, w);
    } else {
      var tail := ReplaceQuotes(s[1..]) + "'" + rest;
      LexBody(s[1..], rest, w + [s[0]]);
      assert w + [s[0]] + s[1..] == w + s;
      if s[0] == '\'' {
        assert ReplaceQuotes(s) + "'" + rest == "'\\''" + tail;
        QuoteInQuote(tail, w);
      } else {
        assert ReplaceQuotes(s) + "'" + rest == [s[0]] + tail;
        StepInQuote(s[0], tail, w);
      }
    }
  }

  /** A quoted argument is read as one word, itself. */
  lemma LexQuoted(s: string, rest: string)
    ensures Lex(Quote(s) + rest, Between) == Lex(rest, InWord(s))
  {
    hide Lex;
    assert Quote(s) + rest == "'" + (ReplaceQuotes(s) + "'" + rest);
    OpenQuote(ReplaceQuotes(s) + "'" + rest, "");
    LexBody(s, rest, "");
    assert "" + s == s;
  }

  /** Round trip: the shell splits the command line into exactly the arguments it was built from. */
  lemma {:induction false} LexCommand(argv: seq<string>)
    ensures Lex(Command(argv), Between) == Some(argv)
  {
    if argv == [] {
    } else if |argv| == 1 {
      LexQuoted(argv[0], "");
      assert Quote(argv[0]) + "" == Quote(argv[0]);
      assert argv == [argv[0]];
    } else {
      LexCommand(argv[1..]);
      LexQuoted(argv[0], " " + Command(argv[1..]));
      assert Quote(argv[0]) + " " + Command(argv[1..]) == Quote(argv[0]) + (" " + Command(argv[1..]));
      assert (" " + Command(argv[1..]))[1..] == Command(argv[1..]);
      assert [argv[0]] + argv[1..] == argv;
    }
  }

  /**
   What ssh hands to the remote shell becomes the remote argv again; the host is the argument before it, nothing else
   depends on either, and two invocations agree if and only if host and remote argv do.
   */
  lemma SshRoundTrip(host: string, remote: seq<string>, host2: string, other: seq<string>)
    ensures var argv := SshArgv(host, remote); Lex(argv[|argv| - 1], Between) == Some(remote)
    ensures var argv := SshArgv(host, remote); argv[|argv| - 2] == host
    ensures var argv, argv2 := SshArgv(host, remote), SshArgv(host2, other);
      |argv| == |argv2| && argv[..|argv| - 2] == argv2[..|argv| - 2]
    ensures SshArgv(host, remote) == SshArgv(host2, other) <==> host == host2 && remote == other
  {
    hide Lex, Command;
    LexCommand(remote);
    LexCommand(other);
    var a, b := SshArgv(host, remote), SshArgv(host2, other);
    assert a[7] == host && b[7] == host2 && a[8] == Command(remote) && b[8] == Command(other);
  }
}
