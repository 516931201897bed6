/**
 The shell lines of the connection guide (src/lib/agent-connection-guide.ts), read by the quoting rules of the POSIX
 shell (POSIX.1-2017 XCU, section 2.2) as far as these lines need them: a word is split at blanks; inside single quotes
 every character stands for itself; a backslash outside quotes makes the next character stand for itself.
 */
module ShellQuoting {
  import opened Prelude

  // ----- writing -----

  /** Every single quote becomes: close, escaped quote, open. */
  function Escape(value: string): string {
    if value == "" then ""
    else (if value[0] == '\'' then ['\'', '\\', '\'', '\''] else [value[0]]) + Escape(value[1..])
  }

  function Shell(value: string): string {
    "'" + Escape(value) + "'"
  }

  function Login(base: string): string {
    "artifact-site login --base " + Shell(base)
  }

  function Verify(base: string): string {
    "artifact-site whoami --base " + Shell(base)
  }

  function Publish(base: string): string {
    "artifact-site publish dist/ --base " + Shell(base) + " --share none"
  }

  // ----- reading -----

  /** Outside quotes, one of these ends the command, begins an expansion or a redirection, or has another special
      meaning (section 2.2: | & ; < > ( ) $ ` " and the characters * ? [ # ~ = %, line breaks and the backslash). */
  predicate Special(c: char) {
    c in {'|', '&', ';', '<', '>', '(', ')', '$', '`', '"', '*', '?', '[', '#', '~', '=', '%', '\n'}
  }

  /** None: the reader meets a special character outside quotes, or the quotes do not close. Otherwise the words.
      `word` is the word being read, if one has begun; `quoted`: inside single quotes. */
  function Words(line: string, word: Option<string>, quoted: bool): Option<seq<string>> {
    if line == "" then
      if quoted then None else if word.Some? then Some([word.value]) else Some([])
    else
      var c, soFar := line[0], if word.Some? then word.value else "";
      if quoted then
        if c == '\'' then Words(line[1..], Some(soFar), false) else Words(line[1..], Some(soFar + [c]), true)
      else if c == '\'' then Words(line[1..], Some(soFar), true)
      else if c == '\\' then
        if |line| < 2 || line[1] == '\n' then None else Words(line[2..], Some(soFar + [line[1]]), false)
      else if c == ' ' || c == '\t' then
        match Words(line[1..], None, false)
        case None => None
        case Some(more) => Some((if word.Some? then [word.value] else []) + more)
      else if Special(c) then None
      else Words(line[1..], Some(soFar + [c]), false)
  }

  /** The words of a whole line. */
  function Tokens(line: string): Option<seq<string>> {
    Words(line, None, false)
  }

  // ----- what the reader makes of the writer's lines -----

  /** Characters that stand for themselves outside quotes. */
  predicate Literal(s: string) {
    forall i :: 0 <= i < |s| ==> s[i] !in {'\'', '\\', ' ', '\t'} && !Special(s[i])
  }

  lemma {:induction false} ReadEscaped(value: string, soFar: string, rest: string)
    ensures Words(Escape(value) + "'" + rest, Some(soFar), true) == Words(rest, Some(soFar + value), false)
  {
    var line := Escape(value) + "'" + rest;
    if value == "" {
      assert line == "'" + rest && line[1..] == rest && soFar + value == soFar;
    } else {
      var more := Escape(value[1..]) + "'" + rest;
      assert soFar + [value[0]] + value[1..] == soFar + value;
      ReadEscaped(value[1..], soFar + [value[0]], rest);
      if value[0] == '\'' {
        assert line == ['\'', '\\', '\'', '\''] + more;
        assert line[1..] == ['\\', '\'', '\''] + more;
        assert line[1..][2..] == ['\''] + more;
        assert line[1..][2..][1..] == more;
        assert Words(line, Some(soFar), true) == Words(line[1..], Some(soFar), false);
        assert Words(line[1..], Some(soFar), false) == Words(line[1..][2..], Some(soFar + ['\'']), false);
        assert Words(line[1..][2..], Some(soFar + ['\'']), false) == Words(more, Some(soFar + ['\'']), true);
      } else {
        assert line == [value[0]] + more && line[1..] == more;
      }
    }
  }

  lemma {:induction false} ReadLiteral(s: string, soFar: string, rest: string)
    requires Literal(s)
    ensures Words(s + rest, Some(soFar), false) == Words(rest, Some(soFar + s), false)
  {
    if s == "" {
      assert s + rest == rest && soFar + s == soFar;
    } else {
      var c := s[0];
      assert c !in {'\'', '\\', ' ', '\t'} && !Special(c);
      assert (s + rest)[1..] == s[1..] + rest;
      assert soFar + [c] + s[1..] == soFar + s;
      ReadLiteral(s[1..], soFar + [c], rest);
    }
  }

  lemma FirstCharacter(s: string, rest: string)
    requires Literal(s) && s != ""
    ensures Words(s + rest, None, false) == Words(rest, Some(s), false)
  {
    var c := s[0];
    assert c !in {'\'', '\\', ' ', '\t'} && !Special(c);
    assert (s + rest)[1..] == s[1..] + rest && "" + [c] == [c] && [c] + s[1..] == s;
    ReadLiteral(s[1..], [c], rest);
  }

  /** A literal word followed by a space. */
  lemma ReadWord(s: string, rest: string, words: seq<string>)
    requires Literal(s) && s != "" && Words(rest, None, false) == Some(words)
    ensures Words(s + ([' '] + rest), None, false) == Some([s] + words)
  {
    FirstCharacter(s, [' '] + rest);
    assert ([' '] + rest)[1..] == rest;
  }

  lemma ReadLast(s: string)
    requires Literal(s) && s != ""
    ensures Words(s, None, false) == Some([s])
  {
    FirstCharacter(s, "");
    assert s + "" == s;
  }

  /** Three literal words, each followed by a space. */
  lemma ReadThree(a: string, b: string, c: string, rest: string, words: seq<string>)
    requires Literal(a) && Literal(b) && Literal(c) && a != "" && b != "" && c != ""
    requires Words(rest, None, false) == Some(words)
    ensures Words(a + [' '] + b + [' '] + c + [' '] + rest, None, false) == Some([a, b, c] + words)
  {
    ReadWord(c, rest, words);
    ReadWord(b, c + ([' '] + rest), [c] + words);
    ReadWord(a, b + ([' '] + (c + ([' '] + rest))), [b] + ([c] + words));
    assert a + [' '] + b + [' '] + c + [' '] + rest == a + ([' '] + (b + ([' '] + (c + ([' '] + rest)))));
    assert [a, b, c] + words == [a] + ([b] + ([c] + words));
  }

  lemma ReadShell(value: string, rest: string)
    ensures Words(Shell(value) + rest, None, false) == Words(rest, Some(value), false)
  {
    var line := Shell(value) + rest;
    assert line[1..] == Escape(value) + "'" + rest;
    ReadEscaped(value, "", rest);
    assert "" + value == value;
  }

  /** A quoted value is read as one word, equal to the value. */
  lemma QuotedIsOneWord(value: string)
    ensures Tokens(Shell(value)) == Some([value])
  {
    ReadShell(value, "");
    assert Shell(value) + "" == Shell(value);
  }

  lemma ThreeAndOne(a: string, b: string, c: string, base: string)
    requires Literal(a) && Literal(b) && Literal(c) && a != "" && b != "" && c != ""
    ensures Tokens(a + [' '] + b + [' '] + c + [' '] + Shell(base)) == Some([a, b, c, base])
  {
    QuotedIsOneWord(base);
    ReadThree(a, b, c, Shell(base), [base]);
    assert [a, b, c] + [base] == [a, b, c, base];
  }

  /** `artifact-site login` gets the address as one word, equal to the input. */
  lemma LoginWords(base: string)
    ensures Tokens(Login(base)) == Some(["artifact-site", "login", "--base", base])
  {
    ThreeAndOne("artifact-site", "login", "--base", base);
    assert "artifact-site" + [' '] + "login" + [' '] + "--base" + [' '] == "artifact-site login --base ";
  }

  lemma VerifyWords(base: string)
    ensures Tokens(Verify(base)) == Some(["artifact-site", "whoami", "--base", base])
  {
    ThreeAndOne("artifact-site", "whoami", "--base", base);
    assert "artifact-site" + [' '] + "whoami" + [' '] + "--base" + [' '] == "artifact-site whoami --base ";
  }

  lemma ReadQuotedThen(value: string, rest: string, words: seq<string>)
    requires Words(rest, None, false) == Some(words)
    ensures Words(Shell(value) + ([' '] + rest), None, false) == Some([value] + words)
  {
    ReadShell(value, [' '] + rest);
    assert ([' '] + rest)[1..] == rest;
  }

  /** An option with a quoted value, then an option with a literal one. */
  lemma ReadOptions(flag: string, value: string, flag': string, value': string)
    requires Literal(flag) && Literal(flag') && Literal(value') && flag != "" && flag' != "" && value' != ""
    ensures Words(flag + ([' '] + (Shell(value) + ([' '] + (flag' + ([' '] + value'))))), None, false)
         == Some([flag, value, flag', value'])
  {
    ReadLast(value');
    ReadWord(flag', value', [value']);
    ReadQuotedThen(value, flag' + ([' '] + value'), [flag'] + [value']);
    ReadWord(flag, Shell(value) + ([' '] + (flag' + ([' '] + value'))), [value] + ([flag'] + [value']));
    assert [flag] + ([value] + ([flag'] + [value'])) == [flag, value, flag', value'];
  }

  lemma ThreeAndOptions(a: string, b: string, c: string, flag: string, value: string, flag': string, value': string)
    requires Literal(a) && Literal(b) && Literal(c) && a != "" && b != "" && c != ""
    requires Literal(flag) && Literal(flag') && Literal(value') && flag != "" && flag' != "" && value' != ""
    ensures Tokens(a + [' '] + b + [' '] + c + [' ']
                   + (flag + ([' '] + (Shell(value) + ([' '] + (flag' + ([' '] + value')))))))
         == Some([a, b, c, flag, value, flag', value'])
  {
    ReadOptions(flag, value, flag', value');
    ReadThree(a, b, c, flag + ([' '] + (Shell(value) + ([' '] + (flag' + ([' '] + value'))))),
              [flag, value, flag', value']);
    assert [a, b, c] + [flag, value, flag', value'] == [a, b, c, flag, value, flag', value'];
  }

  lemma PublishWords(base: string)
    ensures Tokens(Publish(base)) == Some(["artifact-site", "publish", "dist/", "--base", base, "--share", "none"])
  {
    ThreeAndOptions("artifact-site", "publish", "dist/", "--base", base, "--share", "none");
    PublishParts(base);
  }

  lemma PublishParts(base: string)
    ensures Publish(base)
         == "artifact-site" + [' '] + "publish" + [' '] + "dist/" + [' ']
            + ("--base" + ([' '] + (Shell(base) + ([' '] + ("--share" + ([' '] + "none"))))))
  {
    var start, address := "artifact-site" + [' '] + "publish" + [' '] + "dist/" + [' '], Shell(base);
    assert start + ("--base" + [' ']) == "artifact-site publish dist/ --base ";
    assert [' '] + ("--share" + ([' '] + "none")) == " --share none";
    assert start + ("--base" + ([' '] + (address + " --share none")))
        == (start + ("--base" + [' '])) + address + " --share none";
  }
}
