/** A reference model of how a POSIX shell reads one word, limited to the
    two quoting rules the command builder relies on: section 2.2.1
    "Escape Character (Backslash)" and section 2.2.2 "Single-Quotes" of the
    Shell Command Language of POSIX.1-2017. Double quotes, parameter,
    command and arithmetic expansion, and pathname expansion are not part
    of this model: an unquoted character that would start one of them makes
    the scanner give up (`None`) rather than guess. */
module ShellWords {
  import opened Wrappers

  /** The word read so far (quotes removed) and the input left after it. */
  datatype Word = Word(value: string, rest: string)

  /** Unquoted characters that end a word: blanks, newline and the
      characters that start an operator. */
  predicate IsDelimiter(c: char)
  {
    c == ' ' || c == '\t' || c == '\n' ||
    c == ';' || c == '&' || c == '|' || c == '<' || c == '>' || c == '(' || c == ')'
  }

  /** Unquoted characters whose meaning (another quoting form, an expansion,
      a comment or a pattern) this model does not cover. */
  predicate IsUnmodelled(c: char)
  {
    c == '"' || c == '$' || c == '`' || c == '*' || c == '?' || c == '[' || c == '#' || c == '~'
  }

  function Prepend(c: char, w: Option<Word>): Option<Word>
  {
    match w
    case None => None
    case Some(Word(v, r)) => Some(Word([c] + v, r))
  }

  /** Prepends a whole string to the value of a word. */
  function PrependAll(s: string, w: Option<Word>): Option<Word>
  {
    match w
    case None => None
    case Some(Word(v, r)) => Some(Word(s + v, r))
  }

  /** Reads a word from `s` outside quotes. A backslash keeps the next
      character literally, except that backslash-newline is removed (line
      continuation) and a backslash with nothing after it is an error here;
      a single quote opens a quoted region. */
  function ScanUnquoted(s: string): (w: Option<Word>)
    ensures w.Some? ==> |w.value.rest| <= |s|
    ensures w.Some? && w.value.rest != [] ==> IsDelimiter(w.value.rest[0])
    decreases |s|
  {
    if s == [] then Some(Word([], []))
    else if IsDelimiter(s[0]) then Some(Word([], s))
    else if s[0] == '\'' then ScanQuoted(s[1..])
    else if s[0] == '\\' then
      if |s| == 1 then None
      else if s[1] == '\n' then ScanUnquoted(s[2..])
      else Prepend(s[1], ScanUnquoted(s[2..]))
    else if IsUnmodelled(s[0]) then None
    else Prepend(s[0], ScanUnquoted(s[1..]))
  }

  /** Reads the inside of a single-quoted region: every character up to the
      next single quote is literal, a backslash included; a region that is
      never closed is an error. */
  function ScanQuoted(s: string): (w: Option<Word>)
    ensures w.Some? ==> |w.value.rest| < |s|
    ensures w.Some? && w.value.rest != [] ==> IsDelimiter(w.value.rest[0])
    decreases |s|
  {
    if s == [] then None
    else if s[0] == '\'' then ScanUnquoted(s[1..])
    else Prepend(s[0], ScanQuoted(s[1..]))
  }

  /** A single quote closes the quoted region, and reading goes on outside
      quotes. */
  lemma CloseQuote(t: string)
    ensures ScanQuoted("'" + t) == ScanUnquoted(t)
  {
    assert ("'" + t)[1..] == t;
  }
}
