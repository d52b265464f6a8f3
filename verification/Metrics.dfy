/** Escaping of label values in the Prometheus text exposition format. */
module Metrics {
  import opened Wrappers

  /** Replacing every occurrence of one character. */
  function ReplaceAll(s: string, c: char, to: string): string {
    if s == "" then "" else (if s[0] == c then to else [s[0]]) + ReplaceAll(s[1..], c, to)
  }

  function EscapeLabelValue(value: string): string {
    ReplaceAll(ReplaceAll(ReplaceAll(value, '\\', "\\\\"), '\n', "\\n"), '"', "\\\"")
  }

  function EscapeChar(c: char): string {
    if c == '\\' then "\\\\" else if c == '\n' then "\\n" else if c == '"' then "\\\"" else [c]
  }

  /** One pass over the value, each character on its own. */
  function EscapeOnePass(value: string): string {
    if value == "" then "" else EscapeChar(value[0]) + EscapeOnePass(value[1..])
  }

  /** Reading a label value: a backslash and the character behind it stand for one character. */
  function Unescape(s: string): Option<string> {
    if s == "" then Some("")
    else if s[0] != '\\' then Prepend(s[0], Unescape(s[1..]))
    else if |s| == 1 then None
    else if s[1] == '\\' then Prepend('\\', Unescape(s[2..]))
    else if s[1] == 'n' then Prepend('\n', Unescape(s[2..]))
    else if s[1] == '"' then Prepend('"', Unescape(s[2..]))
    else None
  }

  function Prepend(c: char, rest: Option<string>): Option<string> {
    match rest
    case Some(s) => Some([c] + s)
    case None => None
  }

  /** Text that may stand between the quotes of a label: no raw line feed, no quote that a reader would take as the end. */
  predicate Quotable(s: string) {
    if s == "" then true
    else if s[0] == '\\' then |s| >= 2 && s[1] in {'\\', 'n', '"'} && Quotable(s[2..])
    else s[0] != '\n' && s[0] != '"' && Quotable(s[1..])
  }

  lemma {:induction false} ReplaceConcat(a: string, b: string, c: char, to: string)
    ensures ReplaceAll(a + b, c, to) == ReplaceAll(a, c, to) + ReplaceAll(b, c, to)
  {
    if a == "" {
      assert a + b == b;
    } else {
      assert (a + b)[1..] == a[1..] + b;
      ReplaceConcat(a[1..], b, c, to);
    }
  }

  lemma ReplaceOne(x: char, c: char, to: string)
    ensures ReplaceAll([x], c, to) == if x == c then to else [x]
  {
    assert [x][1..] == "";
  }

  lemma ReplaceTwo(x: char, y: char, c: char, to: string)
    ensures ReplaceAll([x, y], c, to) == (if x == c then to else [x]) + (if y == c then to else [y])
  {
    assert [x, y] == [x] + [y];
    ReplaceConcat([x], [y], c, to);
    ReplaceOne(x, c, to);
    ReplaceOne(y, c, to);
  }

  /** The three passes, one character at a time. */
  lemma EscapeOfChar(c: char)
    ensures EscapeLabelValue([c]) == EscapeChar(c)
  {
    ReplaceOne(c, '\\', "\\\\");
    if c == '\\' {
      ReplaceTwo('\\', '\\', '\n', "\\n");
      ReplaceTwo('\\', '\\', '"', "\\\"");
      assert ['\\', '\\'] == "\\\\" == ['\\'] + ['\\'];
    } else {
      ReplaceOne(c, '\n', "\\n");
      if c == '\n' {
        ReplaceTwo('\\', 'n', '"', "\\\"");
        assert ['\\', 'n'] == "\\n" == ['\\'] + ['n'];
      } else {
        ReplaceOne(c, '"', "\\\"");
      }
    }
  }

  lemma EscapeConcat(a: string, b: string)
    ensures EscapeLabelValue(a + b) == EscapeLabelValue(a) + EscapeLabelValue(b)
  {
    ReplaceConcat(a, b, '\\', "\\\\");
    var a1, b1 := ReplaceAll(a, '\\', "\\\\"), ReplaceAll(b, '\\', "\\\\");
    ReplaceConcat(a1, b1, '\n', "\\n");
    ReplaceConcat(ReplaceAll(a1, '\n', "\\n"), ReplaceAll(b1, '\n', "\\n"), '"', "\\\"");
  }

  /** The three whole-string replacements amount to a single pass: none touches what another put in. */
  lemma {:induction false} EscapeIsOnePass(value: string)
    ensures EscapeLabelValue(value) == EscapeOnePass(value)
  {
    if value != "" {
      assert value == [value[0]] + value[1..];
      EscapeConcat([value[0]], value[1..]);
      EscapeOfChar(value[0]);
      EscapeIsOnePass(value[1..]);
    }
  }

  lemma {:induction false} OnePassReadsBack(value: string)
    ensures Unescape(EscapeOnePass(value)) == Some(value)
    ensures Quotable(EscapeOnePass(value))
  {
    if value != "" {
      OnePassReadsBack(value[1..]);
      var rest, s := EscapeOnePass(value[1..]), EscapeOnePass(value);
      assert value == [value[0]] + value[1..];
      assert s == EscapeChar(value[0]) + rest;
      if value[0] in {'\\', '\n', '"'} {
        assert s[0] == EscapeChar(value[0])[0] && s[1] == EscapeChar(value[0])[1] && s[2..] == rest;
      } else {
        assert s[1..] == rest;
      }
    }
  }

  /** Every value survives escaping, and the escaped text is safe between quotes. */
  lemma EscapeReadsBack(value: string)
    ensures Unescape(EscapeLabelValue(value)) == Some(value)
    ensures Quotable(EscapeLabelValue(value))
  {
    EscapeIsOnePass(value);
    OnePassReadsBack(value);
  }
}
