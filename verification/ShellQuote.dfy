/** Quoting for the shell, against a lexer for the POSIX Shell Command Language. */
module ShellQuote {
  import opened Substitute

  // ----- the shell's side -----

  datatype Token = Word(text: string) | Op(text: string)

  /** The result of splitting a command into tokens and removing its quotes.  `Unclear` stands
      for text whose meaning depends on more than quoting: expansions, redirections, comments,
      and quotes that are not closed. */
  datatype Lexed = Tokens(tokens: seq<Token>) | Unclear

  /** The word being read, if any; an empty quoted string is a word too. */
  datatype Current = Nothing | Reading(text: string)

  function Text(cur: Current): string {
    match cur case Nothing => "" case Reading(t) => t
  }

  function Finish(cur: Current): seq<Token> {
    match cur case Nothing => [] case Reading(t) => [Word(t)]
  }

  function Prepend(ts: seq<Token>, l: Lexed): Lexed {
    match l case Unclear => Unclear case Tokens(us) => Tokens(ts + us)
  }

  predicate IsBlank(c: char) {
    c == ' ' || c == '\t'
  }

  predicate NeedsMore(c: char) {
    c in "\"$`<>()#"
  }

  /** Characters that stand for themselves in a word. */
  predicate IsPlain(c: char) {
    !IsBlank(c) && !NeedsMore(c) && c !in "'\\;&|\n"
  }

  /** Token recognition (section 2.3 of the POSIX.1-2017 Shell Command Language) with backslash
      (2.2.1) and single quotes (2.2.2).  `quoted` is set between single quotes. */
  function Lex(s: string, cur: Current, quoted: bool): Lexed
    decreases |s|
  {
    if s == [] then (if quoted then Unclear else Tokens(Finish(cur)))
    else
      var c := s[0];
      if quoted then
        if c == '\'' then Lex(s[1..], cur, false) else Lex(s[1..], Reading(Text(cur) + [c]), true)
      else if c == '\'' then Lex(s[1..], Reading(Text(cur)), true)
      else if c == '\\' then
        if |s| == 1 then Unclear
        else if s[1] == '\n' then Lex(s[2..], cur, false)
        else Lex(s[2..], Reading(Text(cur) + [s[1]]), false)
      else if IsBlank(c) then Prepend(Finish(cur), Lex(s[1..], Nothing, false))
      else if c == '\n' then Prepend(Finish(cur) + [Op("\n")], Lex(s[1..], Nothing, false))
      else if c == ';' || c == '&' || c == '|' then
        if |s| > 1 && s[1] == c then Prepend(Finish(cur) + [Op([c, c])], Lex(s[2..], Nothing, false))
        else Prepend(Finish(cur) + [Op([c])], Lex(s[1..], Nothing, false))
      else if NeedsMore(c) then Unclear
      else Lex(s[1..], Reading(Text(cur) + [c]), false)
  }

  function LexCommand(s: string): Lexed {
    Lex(s, Nothing, false)
  }

  // ----- quoting -----

  /** A single quote inside a quoted string: leave the quotes, escape it, enter them again. */
  const ESCAPED := "'\\''"

  function ShellSingleQuote(s: string): string {
    "'" + ReplaceChar(s, '\'', ESCAPED) + "'"
  }

  /** The other quoting function: a shortcut for strings without quotes, and a byte loop. */
  method Quote(s: string) returns (r: string)
    ensures r == ShellSingleQuote(s)
  {
    if '\'' !in s {
      ReplaceCharNothing(s, '\'', ESCAPED);
      return "'" + s + "'";
    }
    r := "'";
    for i := 0 to |s|
      invariant r == "'" + ReplaceChar(s[..i], '\'', ESCAPED)
    {
      assert s[..i + 1] == s[..i] + [s[i]];
      ReplaceCharConcat(s[..i], [s[i]], '\'', ESCAPED);
      ReplaceOne(s[i]);
      if s[i] == '\'' {
        r := r + ESCAPED;
      } else {
        r := r + [s[i]];
      }
    }
    assert s[..|s|] == s;
    r := r + "'";
  }

  lemma ReplaceOne(c: char)
    ensures ReplaceChar([c], '\'', ESCAPED) == if c == '\'' then ESCAPED else [c]
  {
    assert [c][1..] == [];
  }

  /** Between quotes, the escaped text reads back as the text. */
  lemma {:induction false} EscapedReadsBack(s: string, rest: string, cur: Current)
    ensures Lex(ReplaceChar(s, '\'', ESCAPED) + "'" + rest, cur, true)
            == Lex(rest, if s == [] then cur else Reading(Text(cur) + s), false)
    decreases |s|
  {
    hide Lex;
    if s == [] {
      assert ReplaceChar(s, '\'', ESCAPED) + "'" + rest == "'" + rest;
      QuotedStep('\'', rest, cur);
    } else {
      var tail := ReplaceChar(s[1..], '\'', ESCAPED) + "'" + rest;
      var t := Text(cur) + [s[0]];
      EscapedReadsBack(s[1..], rest, Reading(t));
      assert t + s[1..] == Text(cur) + s;
      if s[0] == '\'' {
        assert ReplaceChar(s, '\'', ESCAPED) + "'" + rest == ESCAPED + tail;
        EscapeStep(tail, cur);
      } else {
        assert ReplaceChar(s, '\'', ESCAPED) + "'" + rest == [s[0]] + tail;
        QuotedStep(s[0], tail, cur);
      }
      if s[1..] == [] { assert s == [s[0]]; }
    }
  }

  lemma QuotedStep(c: char, tail: string, cur: Current)
    ensures Lex([c] + tail, cur, true) ==
            if c == '\'' then Lex(tail, cur, false) else Lex(tail, Reading(Text(cur) + [c]), true)
  {
    assert ([c] + tail)[1..] == tail;
  }

  lemma EscapeStep(tail: string, cur: Current)
    ensures Lex(ESCAPED + tail, cur, true) == Lex(tail, Reading(Text(cur) + "'"), true)
  {
    var a, b := "\\''" + tail, "'" + tail;
    assert (ESCAPED + tail)[1..] == a && a[2..] == b && b[1..] == tail;
    assert Lex(ESCAPED + tail, cur, true) == Lex(a, cur, false);
    assert Lex(a, cur, false) == Lex(b, Reading(Text(cur) + "'"), false);
    assert Lex(b, Reading(Text(cur) + "'"), false) == Lex(tail, Reading(Text(cur) + "'"), true);
  }

  /** A quoted string adds exactly the string to the word being read, wherever it stands. */
  lemma QuoteReadsBack(s: string, rest: string, cur: Current)
    ensures Lex(ShellSingleQuote(s) + rest, cur, false) == Lex(rest, Reading(Text(cur) + s), false)
  {
    var body := ReplaceChar(s, '\'', ESCAPED) + "'" + rest;
    assert ShellSingleQuote(s) + rest == "'" + body;
    assert ("'" + body)[1..] == body;
    EscapedReadsBack(s, rest, Reading(Text(cur)));
    assert Text(cur) + [] == Text(cur);
  }

  /** Every string, the empty one included, comes back as the one word it is. */
  lemma QuoteIsOneWord(s: string)
    ensures LexCommand(ShellSingleQuote(s)) == Tokens([Word(s)])
  {
    QuoteReadsBack(s, [], Nothing);
    assert ShellSingleQuote(s) + [] == ShellSingleQuote(s);
    assert "" + s == s;
  }

  // ----- the rest of a command -----

  predicate AllPlain(w: string) {
    forall c :: c in w ==> IsPlain(c)
  }

  lemma {:induction false} PlainReadsBack(w: string, rest: string, cur: Current)
    requires AllPlain(w) && w != []
    ensures Lex(w + rest, cur, false) == Lex(rest, Reading(Text(cur) + w), false)
    decreases |w|
  {
    var s := w + rest;
    assert w[0] in w && IsPlain(s[0]);
    assert s[1..] == w[1..] + rest;
    var t := Text(cur) + [w[0]];
    if |w| == 1 {
      assert w == [w[0]] && w[1..] + rest == rest;
    } else {
      PlainReadsBack(w[1..], rest, Reading(t));
      assert t + w[1..] == Text(cur) + w;
    }
  }

  // ----- pieces of a command -----

  /** Wherever `piece` stands after `cur`, it completes the tokens `ts` and leaves `next`. */
  ghost predicate Reads(piece: string, ts: seq<Token>, cur: Current, next: Current) {
    forall rest :: Lex(piece + rest, cur, false) == Prepend(ts, Lex(rest, next, false))
  }

  lemma ReadsThen(p: string, q: string, ts: seq<Token>, us: seq<Token>, a: Current, b: Current, c: Current)
    requires Reads(p, ts, a, b) && Reads(q, us, b, c)
    ensures Reads(p + q, ts + us, a, c)
  {
    hide Lex;
    forall rest ensures Lex(p + q + rest, a, false) == Prepend(ts + us, Lex(rest, c, false)) {
      assert p + q + rest == p + (q + rest);
      PrependTwice(ts, us, Lex(rest, c, false));
    }
  }

  lemma PrependTwice(a: seq<Token>, b: seq<Token>, l: Lexed)
    ensures Prepend(a, Prepend(b, l)) == Prepend(a + b, l)
  {
    if l.Tokens? { assert a + (b + l.tokens) == a + b + l.tokens; }
  }

  lemma PrependNothing(l: Lexed)
    ensures Prepend([], l) == l
  {
    if l.Tokens? { assert [] + l.tokens == l.tokens; }
  }

  lemma ReadsQuoted(s: string, cur: Current)
    ensures Reads(ShellSingleQuote(s), [], cur, Reading(Text(cur) + s))
  {
    hide Lex;
    forall rest ensures Lex(ShellSingleQuote(s) + rest, cur, false) == Prepend([], Lex(rest, Reading(Text(cur) + s), false)) {
      QuoteReadsBack(s, rest, cur);
      PrependNothing(Lex(rest, Reading(Text(cur) + s), false));
    }
  }

  lemma ReadsPlain(w: string, cur: Current)
    requires AllPlain(w) && w != []
    ensures Reads(w, [], cur, Reading(Text(cur) + w))
  {
    hide Lex;
    forall rest ensures Lex(w + rest, cur, false) == Prepend([], Lex(rest, Reading(Text(cur) + w), false)) {
      PlainReadsBack(w, rest, cur);
      PrependNothing(Lex(rest, Reading(Text(cur) + w), false));
    }
  }

  lemma ReadsBlank(cur: Current)
    ensures Reads(" ", Finish(cur), cur, Nothing)
  {
    forall rest ensures Lex(" " + rest, cur, false) == Prepend(Finish(cur), Lex(rest, Nothing, false)) {
      assert (" " + rest)[1..] == rest;
    }
  }

  lemma ReadsSemicolon(cur: Current)
    ensures Reads("; ", Finish(cur) + [Op(";")], cur, Nothing)
  {
    forall rest ensures Lex("; " + rest, cur, false) == Prepend(Finish(cur) + [Op(";")], Lex(rest, Nothing, false)) {
      assert ("; " + rest)[1..] == " " + rest && (" " + rest)[1..] == rest;
      PrependNothing(Lex(rest, Nothing, false));
    }
  }

  lemma ReadsAnd()
    ensures Reads("&& ", [Op("&&")], Nothing, Nothing)
  {
    forall rest ensures Lex("&& " + rest, Nothing, false) == Prepend([Op("&&")], Lex(rest, Nothing, false)) {
      assert ("&& " + rest)[2..] == " " + rest && (" " + rest)[1..] == rest;
      PrependNothing(Lex(rest, Nothing, false));
    }
  }

  /** A plain word and a space. */
  lemma ReadsWord(w: string)
    requires AllPlain(w) && w != []
    ensures Reads(w + " ", [Word(w)], Nothing, Nothing)
  {
    hide Reads;
    ReadsPlain(w, Nothing);
    assert "" + w == w;
    ReadsBlank(Reading(w));
    ReadsThen(w, " ", [], [Word(w)], Nothing, Reading(w), Nothing);
    assert [] + [Word(w)] == [Word(w)];
  }

  lemma ReadsAll(s: string, ts: seq<Token>, next: Current)
    requires Reads(s, ts, Nothing, next)
    ensures LexCommand(s) == Tokens(ts + Finish(next))
  {
    assert s + [] == s;
    assert Lex(s + [], Nothing, false) == Prepend(ts, Lex([], next, false));
  }

  // ----- a delayed command -----

  /** Every argument quoted, each after a space. */
  function Arguments(argv: seq<string>): string {
    if argv == [] then []
    else Arguments(argv[..|argv| - 1]) + " " + ShellSingleQuote(argv[|argv| - 1])
  }

  function SleepScript(dur: string, argv: seq<string>): string {
    "sleep " + ShellSingleQuote(dur) + "; exec" + Arguments(argv)
  }

  method WrapWithSleep(dur: string, argv: seq<string>) returns (r: seq<string>)
    ensures r == ["/bin/sh", "-c", SleepScript(dur, argv)]
  {
    var sb := "sleep ";
    sb := sb + ShellSingleQuote(dur);
    sb := sb + "; exec";
    ghost var head := sb;
    for i := 0 to |argv|
      invariant sb == head + Arguments(argv[..i])
    {
      assert argv[..i + 1][..i] == argv[..i];
      sb := sb + " ";
      sb := sb + ShellSingleQuote(argv[i]);
    }
    assert argv[..|argv|] == argv;
    r := ["/bin/sh", "-c", sb];
  }

  function Words(argv: seq<string>): seq<Token> {
    seq(|argv|, i requires 0 <= i < |argv| => Word(argv[i]))
  }

  /** The last word read, before it is delimited. */
  function LastOf(argv: seq<string>, before: string): Current {
    Reading(if argv == [] then before else argv[|argv| - 1])
  }

  /** The words that are complete when the last argument is being read. */
  function Completed(before: string, argv: seq<string>): seq<Token> {
    if argv == [] then [] else [Word(before)] + Words(argv[..|argv| - 1])
  }

  /** The arguments read back one by one, whatever is in them. */
  lemma {:induction false} ReadsArguments(before: string, argv: seq<string>)
    ensures Reads(Arguments(argv), Completed(before, argv), Reading(before), LastOf(argv, before))
    decreases |argv|
  {
    hide Reads, Lex, ShellSingleQuote;
    if argv == [] {
      ReadsNothing(Reading(before));
    } else {
      var n := |argv| - 1;
      ReadsArguments(before, argv[..n]);
      AllWords(argv[..n], before);
      ReadsOneMore(Arguments(argv[..n]), Completed(before, argv[..n]), Reading(before), LastOf(argv[..n], before), argv[n]);
    }
  }

  lemma ReadsNothing(cur: Current)
    ensures Reads([], [], cur, cur)
  {
    hide Lex;
    forall rest ensures Lex([] + rest, cur, false) == Prepend([], Lex(rest, cur, false)) {
      assert [] + rest == rest;
      PrependNothing(Lex(rest, cur, false));
    }
  }

  lemma SleepWords()
    ensures AllPlain("sleep") && AllPlain("exec")
  {
  }

  /** One more quoted argument after a space completes the word before it. */
  lemma ReadsOneMore(s: string, done: seq<Token>, start: Current, cur: Current, w: string)
    requires Reads(s, done, start, cur)
    ensures Reads(s + " " + ShellSingleQuote(w), done + Finish(cur), start, Reading(w))
  {
    hide Reads, ShellSingleQuote;
    ReadsBlank(cur);
    ReadsThen(s, " ", done, Finish(cur), start, cur, Nothing);
    ReadsQuoted(w, Nothing);
    assert "" + w == w;
    ReadsThen(s + " ", ShellSingleQuote(w), done + Finish(cur), [], start, Nothing, Reading(w));
    assert done + Finish(cur) + [] == done + Finish(cur);
  }

  /** For every duration and every argument list, empty arguments included, the shell sees
      `sleep`, the duration, `;`, `exec` and exactly the arguments. */
  lemma SleepScriptReadsBack(dur: string, argv: seq<string>)
    ensures LexCommand(SleepScript(dur, argv)) ==
            Tokens([Word("sleep"), Word(dur), Op(";"), Word("exec")] + Words(argv))
  {
    hide Reads, Lex, Arguments, ShellSingleQuote, Completed, LastOf;
    var head := [Word("sleep"), Word(dur), Op(";")];
    var start := "sleep " + ShellSingleQuote(dur) + "; exec";
    ReadsSleep(dur);
    ReadsArguments("exec", argv);
    ReadsThen(start, Arguments(argv), head, Completed("exec", argv), Nothing, Reading("exec"), LastOf(argv, "exec"));
    ReadsAll(SleepScript(dur, argv), head + Completed("exec", argv), LastOf(argv, "exec"));
    AllWords(argv, "exec");
    assert head + Completed("exec", argv) + Finish(LastOf(argv, "exec")) == head + ([Word("exec")] + Words(argv));
  }

  lemma ReadsSleep(dur: string)
    ensures Reads("sleep " + ShellSingleQuote(dur) + "; exec", [Word("sleep"), Word(dur), Op(";")], Nothing, Reading("exec"))
  {
    hide Reads, Lex, ShellSingleQuote, AllPlain;
    var q := ShellSingleQuote(dur);
    SleepWords();
    ReadsWord("sleep");
    ReadsQuoted(dur, Nothing);
    assert "" + dur == dur && "" + "exec" == "exec" && "sleep" + " " == "sleep ";
    assert [Word("sleep")] + [] == [Word("sleep")];
    ReadsThen("sleep ", q, [Word("sleep")], [], Nothing, Nothing, Reading(dur));
    ReadsSemicolon(Reading(dur));
    ReadsThen("sleep " + q, "; ", [Word("sleep")], [Word(dur)] + [Op(";")], Nothing, Reading(dur), Nothing);
    ReadsPlain("exec", Nothing);
    var head := [Word("sleep")] + ([Word(dur)] + [Op(";")]);
    assert head + [] == [Word("sleep"), Word(dur), Op(";")];
    ReadsThen("sleep " + q + "; ", "exec", head, [], Nothing, Nothing, Reading("exec"));
    assert "sleep " + q + "; " + "exec" == "sleep " + q + "; exec";
  }

  lemma AllWords(argv: seq<string>, before: string)
    ensures Completed(before, argv) + Finish(LastOf(argv, before)) == [Word(before)] + Words(argv)
  {
    if argv != [] {
      assert Words(argv) == Words(argv[..|argv| - 1]) + [Word(argv[|argv| - 1])];
    }
  }

  // ----- an init script with its configuration -----

  /** Sources a configuration file if it is readable. */
  function SourceIfReadable(path: string): string {
    "[ -r " + path + " ] && . " + path + "; "
  }

  /** The command that sources the two configuration files and runs the script. */
  function InitScript(rcConf: string, confDir: string, name: string, script: string, action: string): string {
    "set -a; "
    + SourceIfReadable(ShellSingleQuote(rcConf))
    + SourceIfReadable(ShellSingleQuote(confDir) + "/" + ShellSingleQuote(name))
    + "set +a; exec " + ShellSingleQuote(script) + " " + ShellSingleQuote(action)
  }

  function Sourcing(path: string): seq<Token> {
    [Word("["), Word("-r"), Word(path), Word("]"), Op("&&"), Word("."), Word(path), Op(";")]
  }

  /** `text` reads as the one word `path`. */
  lemma ReadsSource(text: string, path: string)
    requires Reads(text, [], Nothing, Reading(path))
    ensures Reads(SourceIfReadable(text), Sourcing(path), Nothing, Nothing)
  {
    hide Reads;
    ReadsWord("["); ReadsWord("-r"); ReadsWord("]"); ReadsWord(".");
    ReadsAnd(); ReadsBlank(Reading(path)); ReadsSemicolon(Reading(path));
    var s1, t1 := "[" + " " + ("-r" + " "), [Word("[")] + [Word("-r")];
    ReadsThen("[" + " ", "-r" + " ", [Word("[")], [Word("-r")], Nothing, Nothing, Nothing);
    ReadsThen(text, " ", [], [Word(path)], Nothing, Reading(path), Nothing);
    var s2, t2 := s1 + (text + " "), t1 + ([] + [Word(path)]);
    ReadsThen(s1, text + " ", t1, [] + [Word(path)], Nothing, Nothing, Nothing);
    var s3, t3 := s2 + ("]" + " "), t2 + [Word("]")];
    ReadsThen(s2, "]" + " ", t2, [Word("]")], Nothing, Nothing, Nothing);
    var s4, t4 := s3 + "&& ", t3 + [Op("&&")];
    ReadsThen(s3, "&& ", t3, [Op("&&")], Nothing, Nothing, Nothing);
    var s5, t5 := s4 + ("." + " "), t4 + [Word(".")];
    ReadsThen(s4, "." + " ", t4, [Word(".")], Nothing, Nothing, Nothing);
    ReadsThen(text, "; ", [], [Word(path)] + [Op(";")], Nothing, Reading(path), Nothing);
    ReadsThen(s5, text + "; ", t5, [] + ([Word(path)] + [Op(";")]), Nothing, Nothing, Nothing);
    assert s5 + (text + "; ") == SourceIfReadable(text);
    assert t5 + ([] + ([Word(path)] + [Op(";")])) == Sourcing(path);
  }

  lemma ReadsSetting(flag: string)
    requires AllPlain(flag) && flag != []
    ensures Reads("set" + " " + flag + "; ", [Word("set"), Word(flag), Op(";")], Nothing, Nothing)
  {
    hide Reads;
    ReadsWord("set"); ReadsPlain(flag, Nothing); ReadsSemicolon(Reading(flag));
    assert "" + flag == flag;
    ReadsThen("set" + " ", flag, [Word("set")], [], Nothing, Nothing, Reading(flag));
    ReadsThen("set" + " " + flag, "; ", [Word("set")] + [], [Word(flag)] + [Op(";")], Nothing, Reading(flag), Nothing);
    assert [Word("set")] + [] + ([Word(flag)] + [Op(";")]) == [Word("set"), Word(flag), Op(";")];
  }

  /** Paths are read as whole words even where a directory and a name are quoted apart. */
  lemma ReadsPath(dir: string, name: string)
    ensures Reads(ShellSingleQuote(dir) + "/" + ShellSingleQuote(name), [], Nothing, Reading(dir + "/" + name))
  {
    hide Reads, ShellSingleQuote;
    ReadsQuoted(dir, Nothing);
    assert "" + dir == dir;
    ReadsPlain("/", Reading(dir));
    ReadsThen(ShellSingleQuote(dir), "/", [], [], Nothing, Reading(dir), Reading(dir + "/"));
    ReadsQuoted(name, Reading(dir + "/"));
    ReadsThen(ShellSingleQuote(dir) + "/", ShellSingleQuote(name), [] + [], [], Nothing, Reading(dir + "/"), Reading(dir + "/" + name));
    var none: seq<Token> := [];
    assert none + none + none == none;
  }

  lemma ReadsExec(script: string, action: string)
    ensures Reads("exec" + " " + ShellSingleQuote(script) + " " + ShellSingleQuote(action),
                  [Word("exec"), Word(script)], Nothing, Reading(action))
  {
    hide Reads, ShellSingleQuote;
    ReadsWord("exec"); ReadsQuoted(script, Nothing); ReadsQuoted(action, Nothing); ReadsBlank(Reading(script));
    assert "" + script == script && "" + action == action;
    ReadsThen("exec" + " ", ShellSingleQuote(script), [Word("exec")], [], Nothing, Nothing, Reading(script));
    ReadsThen("exec" + " " + ShellSingleQuote(script), " ", [Word("exec")] + [], [Word(script)], Nothing, Reading(script), Nothing);
    ReadsThen("exec" + " " + ShellSingleQuote(script) + " ", ShellSingleQuote(action),
              [Word("exec")] + [] + [Word(script)], [], Nothing, Nothing, Reading(action));
    assert [Word("exec")] + [] + [Word(script)] + [] == [Word("exec"), Word(script)];
  }

  /** Whatever characters the paths, the name and the action contain, the shell sees the same
      commands with each of them as one word. */
  lemma InitScriptReadsBack(rcConf: string, confDir: string, name: string, script: string, action: string)
    ensures LexCommand(InitScript(rcConf, confDir, name, script, action)) ==
            Tokens([Word("set"), Word("-a"), Op(";")] + Sourcing(rcConf) + Sourcing(confDir + "/" + name)
                   + [Word("set"), Word("+a"), Op(";"), Word("exec"), Word(script), Word(action)])
  {
    hide Reads, Lex, ShellSingleQuote, SourceIfReadable, Sourcing;
    ReadsSetting("-a");
    ReadsQuoted(rcConf, Nothing);
    assert "" + rcConf == rcConf;
    ReadsSource(ShellSingleQuote(rcConf), rcConf);
    var path := ShellSingleQuote(confDir) + "/" + ShellSingleQuote(name);
    ReadsPath(confDir, name);
    ReadsSource(path, confDir + "/" + name);
    ReadsSetting("+a");
    ReadsExec(script, action);
    var s1, t1 := "set" + " " + "-a" + "; ", [Word("set"), Word("-a"), Op(";")];
    var s2, t2 := SourceIfReadable(ShellSingleQuote(rcConf)), Sourcing(rcConf);
    var s3, t3 := SourceIfReadable(path), Sourcing(confDir + "/" + name);
    var s4, t4 := "set" + " " + "+a" + "; ", [Word("set"), Word("+a"), Op(";")];
    var s5, t5 := "exec" + " " + ShellSingleQuote(script) + " " + ShellSingleQuote(action), [Word("exec"), Word(script)];
    ReadsThen(s1, s2, t1, t2, Nothing, Nothing, Nothing);
    ReadsThen(s1 + s2, s3, t1 + t2, t3, Nothing, Nothing, Nothing);
    ReadsThen(s1 + s2 + s3, s4, t1 + t2 + t3, t4, Nothing, Nothing, Nothing);
    ReadsThen(s1 + s2 + s3 + s4, s5, t1 + t2 + t3 + t4, t5, Nothing, Nothing, Reading(action));
    assert s1 + s2 + s3 + s4 + s5 == InitScript(rcConf, confDir, name, script, action);
    ReadsAll(InitScript(rcConf, confDir, name, script, action), t1 + t2 + t3 + t4 + t5, Reading(action));
    assert t1 + t2 + t3 + t4 + t5 + [Word(action)] == t1 + t2 + t3 + [Word("set"), Word("+a"), Op(";"), Word("exec"), Word(script), Word(action)];
  }
}
