/** JSON.parse, and JSON.stringify for values made of strings and arrays. */
module Json {
  import opened Prelude

  datatype Value =
    | Null
    | Bool(b: bool)
    | Number(literal: string)
    | Text(s: string)
    | List(items: seq<Value>)
    | Object(members: seq<(string, Value)>)

  // ----- printing -----

  function Hex(n: nat): (c: char)
    requires n < 16
    ensures HexValue(c) == Some(n)
  {
    if n < 10 then '0' + n as char else 'a' + (n - 10) as char
  }

  function EscapeChar(c: char): string {
    if c == '"' then ['\\', '"']
    else if c == '\\' then ['\\', '\\']
    else if c as int == 8 then ['\\', 'b']
    else if c as int == 9 then ['\\', 't']
    else if c as int == 10 then ['\\', 'n']
    else if c as int == 12 then ['\\', 'f']
    else if c as int == 13 then ['\\', 'r']
    else if c as int < 32 then ['\\', 'u', '0', '0', Hex(c as int / 16), Hex(c as int % 16)]
    else [c]
  }

  function Escape(s: string): string {
    if s == "" then "" else EscapeChar(s[0]) + Escape(s[1..])
  }

  /** Values made of strings and arrays. */
  predicate Plain(v: Value) {
    v.Text? || (v.List? && forall i :: 0 <= i < |v.items| ==> Plain(v.items[i]))
  }

  function Stringify(v: Value): string
    requires Plain(v)
  {
    match v
    case Text(s) => ['"'] + Escape(s) + ['"']
    case List(items) => if items == [] then "[]" else ['['] + StringifyItems(items) + [']']
  }

  function StringifyItems(items: seq<Value>): string
    requires items != [] && forall i :: 0 <= i < |items| ==> Plain(items[i])
  {
    if |items| == 1 then Stringify(items[0]) else Stringify(items[0]) + [','] + StringifyItems(items[1..])
  }

  // ----- parsing -----

  function Skip(s: string): (r: string)
    ensures |r| <= |s|
  {
    if s != "" && s[0] as int in {9, 10, 13, 32} then Skip(s[1..]) else s
  }

  function Code(s: string): Option<nat> {
    if |s| < 4 || exists i :: 0 <= i < 4 && HexValue(s[i]).None? then None
    else
      Some(((HexValue(s[0]).value * 16 + HexValue(s[1]).value) * 16 + HexValue(s[2]).value) * 16 + HexValue(s[3]).value)
  }

  /** The character an escape stands for, after the backslash. */
  function Unescape(s: string): (r: Option<(char, string)>)
    ensures r.Some? ==> |r.value.1| < |s|
  {
    if s == "" then None
    else if s[0] in {'"', '\\', '/'} then Some((s[0], s[1..]))
    else if s[0] == 'b' then Some((8 as char, s[1..]))
    else if s[0] == 't' then Some((9 as char, s[1..]))
    else if s[0] == 'n' then Some((10 as char, s[1..]))
    else if s[0] == 'f' then Some((12 as char, s[1..]))
    else if s[0] == 'r' then Some((13 as char, s[1..]))
    else if s[0] != 'u' || Code(s[1..]).None? then None
    else
      var high := Code(s[1..]).value;
      if high < 0xD800 || 0xE000 <= high < 0x10000 then Some((high as char, s[5..]))
      else if high < 0xDC00 && |s| > 7 && s[5] == '\\' && s[6] == 'u' && Code(s[7..]).Some? then
        var low := Code(s[7..]).value;
        if 0xDC00 <= low < 0xE000 then Some((((high - 0xD800) * 1024 + low - 0xDC00 + 0x10000) as char, s[11..]))
        else None
      else None
  }

  /** The rest of a string literal, up to its closing quote. */
  function ParseChars(s: string): (r: Option<(string, string)>)
    ensures r.Some? ==> |r.value.1| < |s|
    decreases |s|
  {
    if s == "" || s[0] as int < 32 then None
    else if s[0] == '"' then Some(("", s[1..]))
    else
      match if s[0] == '\\' then Unescape(s[1..]) else Some((s[0], s[1..]))
      case None => None
      case Some((c, rest)) =>
        match ParseChars(rest)
        case None => None
        case Some((more, end)) => Some(([c] + more, end))
  }

  function DigitCount(s: string): (n: nat)
    ensures n <= |s|
  {
    if s != "" && '0' <= s[0] <= '9' then 1 + DigitCount(s[1..]) else 0
  }

  /** The length of the number literal at the head of `s`, or 0. */
  function NumberLength(s: string): (n: nat)
    ensures n <= |s|
  {
    var sign := if s != "" && s[0] == '-' then 1 else 0;
    var whole := DigitCount(s[sign..]);
    if whole == 0 || (whole > 1 && s[sign] == '0') then 0
    else
      var a := sign + whole;
      var fraction := if |s| > a && s[a] == '.' then DigitCount(s[a + 1..]) else 0;
      if |s| > a && s[a] == '.' && fraction == 0 then 0
      else
        var b := if |s| > a && s[a] == '.' then a + 1 + fraction else a;
        if |s| > b && s[b] in {'e', 'E'} then
          var c := if |s| > b + 1 && s[b + 1] in {'+', '-'} then b + 2 else b + 1;
          if DigitCount(s[c..]) == 0 then 0 else c + DigitCount(s[c..])
        else b
  }

  function ParseValue(s: string): (r: Option<(Value, string)>)
    ensures r.Some? ==> |r.value.1| < |s|
    decreases |s|, 0
  {
    var t := Skip(s);
    if t == "" then None
    else if t[0] == '"' then
      match ParseChars(t[1..])
      case None => None
      case Some((text, rest)) => Some((Text(text), rest))
    else if t[0] == '[' then
      var u := Skip(t[1..]);
      if u != "" && u[0] == ']' then Some((List([]), u[1..]))
      else
        match ParseItems(t[1..])
        case None => None
        case Some((items, rest)) => Some((List(items), rest))
    else if t[0] == '{' then
      var u := Skip(t[1..]);
      if u != "" && u[0] == '}' then Some((Object([]), u[1..]))
      else
        match ParseMembers(t[1..])
        case None => None
        case Some((members, rest)) => Some((Object(members), rest))
    else if "null" <= t then Some((Null, t[4..]))
    else if "true" <= t then Some((Bool(true), t[4..]))
    else if "false" <= t then Some((Bool(false), t[5..]))
    else if NumberLength(t) == 0 then None
    else Some((Number(t[..NumberLength(t)]), t[NumberLength(t)..]))
  }

  function ParseItems(s: string): (r: Option<(seq<Value>, string)>)
    ensures r.Some? ==> |r.value.1| < |s|
    decreases |s|, 1
  {
    match ParseValue(s)
    case None => None
    case Some((v, rest)) =>
      var u := Skip(rest);
      if u == "" then None
      else if u[0] == ']' then Some(([v], u[1..]))
      else if u[0] != ',' then None
      else
        match ParseItems(u[1..])
        case None => None
        case Some((more, end)) => Some(([v] + more, end))
  }

  function ParseMembers(s: string): (r: Option<(seq<(string, Value)>, string)>)
    ensures r.Some? ==> |r.value.1| < |s|
    decreases |s|, 1
  {
    var t := Skip(s);
    if t == "" || t[0] != '"' then None
    else
      match ParseChars(t[1..])
      case None => None
      case Some((key, rest)) =>
        var u := Skip(rest);
        if u == "" || u[0] != ':' then None
        else
          match ParseValue(u[1..])
          case None => None
          case Some((v, rest')) =>
            var w := Skip(rest');
            if w == "" then None
            else if w[0] == '}' then Some(([(key, v)], w[1..]))
            else if w[0] != ',' then None
            else
              match ParseMembers(w[1..])
              case None => None
              case Some((more, end)) => Some(([(key, v)] + more, end))
  }

  function Parse(s: string): Option<Value> {
    match ParseValue(s)
    case None => None
    case Some((v, rest)) => if Skip(rest) == "" then Some(v) else None
  }

  // ----- the round trip -----

  lemma UnescapeEscaped(c: char, rest: string)
    ensures
      var e := EscapeChar(c) + rest;
      && e != "" && e[0] != '"' && e[0] as int >= 32
      && (if e[0] == '\\' then Unescape(e[1..]) == Some((c, rest)) else e[0] == c && e[1..] == rest)
  {
    var e := EscapeChar(c) + rest;
    if |EscapeChar(c)| == 6 {
      assert e[1..][1..] == ['0', '0', Hex(c as int / 16), Hex(c as int % 16)] + rest;
      assert e[1..][5..] == rest;
    } else if |EscapeChar(c)| == 2 {
      assert e[1..][1..] == rest;
    } else {
      assert e[1..] == rest;
    }
  }

  lemma {:induction false} ParseEscaped(s: string, rest: string)
    ensures ParseChars(Escape(s) + ['"'] + rest) == Some((s, rest))
  {
    var t := Escape(s) + ['"'] + rest;
    if s == "" {
      assert t == ['"'] + rest && t[1..] == rest;
    } else {
      var more := Escape(s[1..]) + ['"'] + rest;
      assert t == EscapeChar(s[0]) + more;
      UnescapeEscaped(s[0], more);
      ParseEscaped(s[1..], rest);
      assert [s[0]] + s[1..] == s;
    }
  }

  lemma ParseText(s: string, rest: string)
    ensures ParseValue(['"'] + Escape(s) + ['"'] + rest) == Some((Text(s), rest))
  {
    assert (['"'] + Escape(s) + ['"'] + rest)[1..] == Escape(s) + ['"'] + rest;
    ParseEscaped(s, rest);
  }

  lemma ParseEmptyList(rest: string)
    ensures ParseValue(['[', ']'] + rest) == Some((List([]), rest))
  {
    assert (['[', ']'] + rest)[1..] == [']'] + rest && ([']'] + rest)[1..] == rest;
  }

  lemma {:induction false} ParseStringified(v: Value, rest: string)
    requires Plain(v)
    ensures ParseValue(Stringify(v) + rest) == Some((v, rest))
    decreases v, 1
  {
    match v
    case Text(s) =>
      ParseText(s, rest);
    case List(items) =>
      if items == [] {
        ParseEmptyList(rest);
      } else {
        ParseNonEmptyList(items, rest);
      }
  }

  lemma {:induction false} ParseNonEmptyList(items: seq<Value>, rest: string)
    requires items != [] && forall i :: 0 <= i < |items| ==> Plain(items[i])
    ensures ParseValue(['['] + StringifyItems(items) + [']'] + rest) == Some((List(items), rest))
    decreases items, 1
  {
    var body := StringifyItems(items) + [']'] + rest;
    ItemsOpen(items, [']'] + rest);
    assert body == StringifyItems(items) + ([']'] + rest);
    ParseStringifiedItems(items, rest);
    ParseList(body);
    assert ['['] + StringifyItems(items) + [']'] + rest == ['['] + body;
  }

  /** A bracket that is not closed at once opens a list of values. */
  lemma ParseList(body: string)
    requires body != "" && body[0] in {'"', '['} && ParseItems(body).Some?
    ensures ParseValue(['['] + body) == Some((List(ParseItems(body).value.0), ParseItems(body).value.1))
  {
    assert (['['] + body)[1..] == body;
  }

  /** A printed value begins with its own bracket or quote. */
  lemma StringifyOpens(v: Value)
    requires Plain(v)
    ensures Stringify(v) != "" && Stringify(v)[0] in {'"', '['}
  {
  }

  lemma ItemsOpen(items: seq<Value>, rest: string)
    requires items != [] && forall i :: 0 <= i < |items| ==> Plain(items[i])
    ensures StringifyItems(items) + rest != "" && (StringifyItems(items) + rest)[0] in {'"', '['}
  {
    StringifyOpens(items[0]);
  }

  lemma {:induction false} ParseStringifiedItems(items: seq<Value>, rest: string)
    requires items != [] && forall i :: 0 <= i < |items| ==> Plain(items[i])
    ensures ParseItems(StringifyItems(items) + [']'] + rest) == Some((items, rest))
    decreases items, 0
  {
    var t := StringifyItems(items) + [']'] + rest;
    if |items| == 1 {
      assert t == Stringify(items[0]) + ([']'] + rest);
      ParseStringified(items[0], [']'] + rest);
      assert ([']'] + rest)[1..] == rest && [items[0]] == items;
    } else {
      var more := StringifyItems(items[1..]) + [']'] + rest;
      assert t == Stringify(items[0]) + ([','] + more);
      ParseStringified(items[0], [','] + more);
      assert ([','] + more)[1..] == more;
      ParseStringifiedItems(items[1..], rest);
      assert [items[0]] + items[1..] == items;
    }
  }

  /** What was printed parses back. */
  lemma ParseStringify(v: Value)
    requires Plain(v)
    ensures Parse(Stringify(v)) == Some(v)
  {
    ParseStringified(v, "");
    assert Stringify(v) + "" == Stringify(v);
  }
}
