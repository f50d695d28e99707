/** The command builder of `docker_runner.py`: single-quote escaping of the
    user's code and the two `sh -c "echo '…' > file && …"` templates. */
module DockerCommand {
  import opened Wrappers
  import PyText
  import ShellWords

  /** What every single quote of the code is replaced with: close the
      quoted region, a backslash-escaped quote, reopen the region. */
  const EscapedQuote: string := "'\\''"

  /** `code.replace("'", "'\\''")`. */
  function Escape(code: string): string
  {
    PyText.Replace(code, "'", EscapedQuote)
  }

  /** The image of one character under the escaping. */
  function EscapeChar(c: char): string
  {
    if c == '\'' then EscapedQuote else [c]
  }

  /** Escaping works character by character from the front. */
  lemma EscapeCons(c: char, s: string)
    ensures Escape([c] + s) == EscapeChar(c) + Escape(s)
  {
  }

  /** Escaping a concatenation escapes each part: each quote is handled on
      its own and nothing else moves. */
  lemma {:induction false} EscapeConcat(a: string, b: string)
    ensures Escape(a + b) == Escape(a) + Escape(b)
    decreases |a|
  {
    if a == [] {
      assert a + b == b;
    } else {
      assert a + b == [a[0]] + (a[1..] + b);
      assert a == [a[0]] + a[1..];
      EscapeCons(a[0], a[1..] + b);
      EscapeCons(a[0], a[1..]);
      EscapeConcat(a[1..], b);
    }
  }

  /** Every quote grows by three characters; nothing else changes length. */
  lemma {:induction false} EscapeLength(s: string)
    ensures |Escape(s)| == |s| + 3 * multiset(s)['\'']
    decreases |s|
  {
    if s != [] {
      assert s == [s[0]] + s[1..];
      EscapeCons(s[0], s[1..]);
      EscapeLength(s[1..]);
      assert multiset(s) == multiset{s[0]} + multiset(s[1..]);
    }
  }

  /** Code without a single quote is spliced in as it is. */
  lemma EscapeQuoteFree(s: string)
    requires '\'' !in s
    ensures Escape(s) == s
  {
  }

  /** Inside single quotes, `'\''` closes the region, adds a literal quote
      and reopens the region. */
  lemma ScanEscapedQuote(tail: string)
    ensures ShellWords.ScanQuoted(EscapedQuote + tail)
         == ShellWords.Prepend('\'', ShellWords.ScanQuoted(tail))
  {
    var u := EscapedQuote + tail;
    var u1 := u[1..];
    assert u1 == "\\''" + tail;
    assert u1[0] == '\\' && u1[1] == '\'';
    var u3 := u1[2..];
    assert u3 == "'" + tail;
    assert u3[1..] == tail;
    assert ShellWords.ScanQuoted(u) == ShellWords.ScanUnquoted(u1);
    assert ShellWords.ScanUnquoted(u1) == ShellWords.Prepend('\'', ShellWords.ScanUnquoted(u3));
  }

  /** Inside single quotes any other character is literal. */
  lemma ScanOrdinary(c: char, tail: string)
    requires c != '\''
    ensures ShellWords.ScanQuoted([c] + tail) == ShellWords.Prepend(c, ShellWords.ScanQuoted(tail))
  {
  }

  /** The escaped code read inside single quotes gives back the code, and
      the region closes exactly at the quote placed after it: whatever
      follows is read as if the code were not there. */
  lemma {:induction false} EscapeRoundTrip(code: string, t: string)
    ensures ShellWords.ScanQuoted(Escape(code) + "'" + t)
         == ShellWords.PrependAll(code, ShellWords.ScanUnquoted(t))
    decreases |code|
  {
    if code == [] {
      assert Escape(code) + "'" + t == "'" + t;
      ShellWords.CloseQuote(t);
      var w := ShellWords.ScanUnquoted(t);
      if w.Some? {
        assert code + w.value.value == w.value.value;
      }
    } else {
      var c, rest := code[0], code[1..];
      assert code == [c] + rest;
      EscapeCons(c, rest);
      var tail := Escape(rest) + "'" + t;
      assert Escape(code) + "'" + t == EscapeChar(c) + tail;
      var w := ShellWords.ScanUnquoted(t);
      EscapeRoundTrip(rest, t);
      assert ShellWords.Prepend(c, ShellWords.PrependAll(rest, w)) == ShellWords.PrependAll(code, w) by {
        if w.Some? {
          assert [c] + (rest + w.value.value) == code + w.value.value;
        }
      }
      if c == '\'' {
        ScanEscapedQuote(tail);
      } else {
        ScanOrdinary(c, tail);
      }
    }
  }

  /** The single-quoted argument the templates give to `echo`. */
  function QuotedArgument(code: string): string
  {
    "'" + Escape(code) + "'"
  }

  /** Under POSIX single-quote and backslash rules the quoted argument is
      one word whose value is exactly the code, for every code (empty, one
      quote, many quotes), and the word ends where the template says. */
  lemma EchoArgumentRoundTrip(code: string, t: string)
    requires t == [] || ShellWords.IsDelimiter(t[0])
    ensures ShellWords.ScanUnquoted(QuotedArgument(code) + t) == Some(ShellWords.Word(code, t))
  {
    var u := QuotedArgument(code) + t;
    assert u[1..] == Escape(code) + "'" + t;
    EscapeRoundTrip(code, t);
    assert code + [] == code;
  }

  /** Without the escaping a quote in the code closes the region early and
      the rest of the code is read as shell syntax: here `;r;` ends the word
      and starts a second command `r`. With it the same code is one word. */
  lemma UnescapedCodeLeavesQuotes()
    ensures ShellWords.ScanUnquoted("'" + "';r;'" + "'") == Some(ShellWords.Word("", ";r;''"))
    ensures ShellWords.ScanUnquoted(QuotedArgument("';r;'")) == Some(ShellWords.Word("';r;'", ""))
  {
    var s := "'" + "';r;'" + "'";
    assert s[0] == '\'' && s[1..] == "';r;''";
    assert s[1..][0] == '\'' && s[1..][1..] == ";r;''";
    assert ShellWords.IsDelimiter(s[1..][1..][0]);
    assert ShellWords.ScanUnquoted(s) == ShellWords.ScanQuoted(s[1..]);
    assert ShellWords.ScanQuoted(s[1..]) == ShellWords.ScanUnquoted(s[1..][1..]);
    EchoArgumentRoundTrip("';r;'", "");
    assert QuotedArgument("';r;'") + "" == QuotedArgument("';r;'");
  }

  /** The outer `sh -c "…"` wrapper around the inner script. */
  const ShellOpen: string := "sh -c \""
  const ShellClose: string := "\""

  /** The placeholder of the C template. */
  const Placeholder: string := "$CODE"

  /** What runs after the file is written: compile, with diagnostics merged
      into the output, then run the binary. */
  const CTail: string := " > /tmp/main.c && " + "gcc /tmp/main.c " + "-o /tmp/main " + "2>&1 && " + "/tmp/main"
  /** What runs after the file is written: the interpreter. */
  const PythonTail: string := " > /tmp/main.py && " + "python3 /tmp/main.py"

  /** The C template before substitution, the literal
      `sh -c "echo '$CODE' > /tmp/main.c && gcc /tmp/main.c -o /tmp/main 2>&1 && /tmp/main"`
      written out piece by piece. */
  const CTemplate: string := ShellOpen + "echo '" + Placeholder + "'" + CTail + ShellClose

  /** The inner script as written between the outer double quotes. */
  function Script(code: string, tail: string): string
  {
    "echo " + (QuotedArgument(code) + tail)
  }

  /** Substituting into the C template puts the inserted text between the
      fixed prefix and suffix exactly once; a `$CODE` inside the inserted
      text is not substituted again. */
  lemma SubstituteOnce(inserted: string)
    ensures PyText.Replace(CTemplate, Placeholder, inserted)
         == ShellOpen + "echo '" + inserted + "'" + CTail + ShellClose
  {
    var a := ShellOpen + "echo '";
    var b := "'" + CTail + ShellClose;
    PyText.Regroup(a, Placeholder, "'", CTail, ShellClose);
    PyText.Regroup(a, inserted, "'", CTail, ShellClose);
    assert '$' !in a;
    assert '$' !in b by {
      assert '$' !in CTail;
    }
    ReplaceBetween(a, b, Placeholder, inserted);
  }

  /** One occurrence of the pattern between two texts that cannot start an
      occurrence is replaced, and nothing else is. */
  lemma ReplaceBetween(a: string, b: string, pat: string, inserted: string)
    requires |pat| > 0 && pat[0] !in a && pat[0] !in b
    ensures PyText.Replace(a + pat + b, pat, inserted) == a + inserted + b
  {
    assert a + pat + b == a + (pat + b);
    PyText.ReplaceSkipsPrefix(a, pat + b, pat, inserted);
    PyText.ReplaceAtFront(pat, b, inserted);
  }

  /** The command written as the outer wrapper around the inner script. */
  lemma CommandIsWrappedScript(escaped: string, code: string, tail: string)
    requires escaped == Escape(code)
    ensures ShellOpen + "echo '" + escaped + "'" + tail + ShellClose
         == ShellOpen + Script(code, tail) + ShellClose
  {
  }

  /** The command for `language`, or `None` when the language is not
      supported. Both templates write the code to a file through the quoted
      `echo` argument and then build or run it. */
  function BuildCommand(code: string, language: string): (cmd: Option<string>)
    ensures cmd.Some? <==> language == "c" || language == "python"
    ensures language == "c" ==> cmd == Some(ShellOpen + Script(code, CTail) + ShellClose)
    ensures language == "python" ==> cmd == Some(ShellOpen + Script(code, PythonTail) + ShellClose)
  {
    if language == "c" then
      var escaped := Escape(code);
      SubstituteOnce(escaped);
      CommandIsWrappedScript(escaped, code, CTail);
      Some(PyText.Replace(CTemplate, Placeholder, escaped))
    else if language == "python" then
      var escaped := Escape(code);
      CommandIsWrappedScript(escaped, code, PythonTail);
      Some(ShellOpen + "echo '" + escaped + "'" + PythonTail + ShellClose)
    else None
  }

  /** In the inner script built for either language, the word after `echo`
      is exactly the code, and what follows it is the fixed tail of the
      template, whatever the code contains. */
  lemma ScriptRoundTrip(code: string, tail: string)
    requires tail == CTail || tail == PythonTail
    ensures Script(code, tail)[..5] == "echo "
    ensures ShellWords.ScanUnquoted(Script(code, tail)[5..]) == Some(ShellWords.Word(code, tail))
  {
    var arg := QuotedArgument(code) + tail;
    assert |"echo "| == 5;
    assert Script(code, tail)[..5] == "echo " && Script(code, tail)[5..] == arg;
    assert tail[0] == ' ';
    EchoArgumentRoundTrip(code, tail);
  }
}
