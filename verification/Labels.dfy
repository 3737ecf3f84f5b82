/** Escaping of label values in the Prometheus text exposition format 0.0.4. */
module Labels {
  import opened Wrappers

  /** `str::replace` of one character by a string. */
  function Replace(s: string, c: char, into: string): string {
    if s == [] then [] else (if s[0] == c then into else [s[0]]) + Replace(s[1..], c, into)
  }

  /** Three whole-string replacements, the backslash first. */
  function EscapeLabel(value: string): string {
    Replace(Replace(Replace(value, '\\', "\\\\"), '"', "\\\""), '\n', "\\n")
  }

  function EscapeChar(c: char): string {
    if c == '\\' then "\\\\" else if c == '"' then "\\\"" else if c == '\n' then "\\n" else [c]
  }

  function EscapeEach(value: string): string {
    if value == [] then [] else EscapeChar(value[0]) + EscapeEach(value[1..])
  }

  /** How a reader of the format reads a quoted value: up to the closing quote, undoing the escapes; the value and
      what comes after the quote, or None for a raw newline, an unknown escape or a missing quote. */
  function ReadQuoted(text: string): Option<(string, string)> {
    if text == [] || text[0] == '\n' then None
    else if text[0] == '"' then Some(([], text[1..]))
    else if text[0] == '\\' then
      if |text| < 2 then None
      else
        var c := if text[1] == 'n' then '\n' else text[1];
        if text[1] !in {'\\', '"', 'n'} then None
        else match ReadQuoted(text[2..])
             case None => None
             case Some((value, rest)) => Some(([c] + value, rest))
    else match ReadQuoted(text[1..])
         case None => None
         case Some((value, rest)) => Some(([text[0]] + value, rest))
  }

  lemma {:induction false} ReplaceAppends(s: string, t: string, c: char, into: string)
    ensures Replace(s + t, c, into) == Replace(s, c, into) + Replace(t, c, into)
  {
    if s == [] {
      assert s + t == t;
    } else {
      assert (s + t)[1..] == s[1..] + t;
      ReplaceAppends(s[1..], t, c, into);
    }
  }

  lemma ReplaceOne(x: char, c: char, into: string)
    ensures Replace([x], c, into) == (if x == c then into else [x])
  {
    assert [x][1..] == [];
    assert Replace([], c, into) == [];
  }

  lemma ReplaceTwo(x: char, y: char, c: char, into: string)
    ensures Replace([x, y], c, into) == (if x == c then into else [x]) + (if y == c then into else [y])
  {
    assert [x, y][1..] == [y];
    ReplaceOne(y, c, into);
  }

  /** A character goes through the three replacements as through one substitution: a later replacement never touches
      what an earlier one put in. */
  lemma EscapeLabelOne(x: char)
    ensures EscapeLabel([x]) == EscapeChar(x)
  {
    ReplaceOne(x, '\\', "\\\\");
    ReplaceOne(x, '"', "\\\"");
    ReplaceOne(x, '\n', "\\n");
    ReplaceTwo('\\', '\\', '"', "\\\"");
    ReplaceTwo('\\', '\\', '\n', "\\n");
    ReplaceTwo('\\', '"', '\n', "\\n");
  }

  lemma {:induction false} EscapeLabelIsEscapeEach(value: string)
    ensures EscapeLabel(value) == EscapeEach(value)
  {
    if value == [] {
    } else {
      var first, rest := [value[0]], value[1..];
      assert value == first + rest;
      ReplaceAppends(first, rest, '\\', "\\\\");
      ReplaceAppends(Replace(first, '\\', "\\\\"), Replace(rest, '\\', "\\\\"), '"', "\\\"");
      ReplaceAppends(Replace(Replace(first, '\\', "\\\\"), '"', "\\\""),
                     Replace(Replace(rest, '\\', "\\\\"), '"', "\\\""), '\n', "\\n");
      EscapeLabelOne(value[0]);
      EscapeLabelIsEscapeEach(rest);
    }
  }

  /** Reading one escaped character. */
  lemma ReadQuotedEscapeChar(c: char, tail: string)
    ensures ReadQuoted(EscapeChar(c) + tail) ==
            match ReadQuoted(tail) case None => None case Some((value, rest)) => Some(([c] + value, rest))
  {
    var text := EscapeChar(c) + tail;
    assert text[|EscapeChar(c)|..] == tail;
  }

  lemma {:induction false} ReadQuotedEscapeEach(value: string, rest: string)
    ensures ReadQuoted(EscapeEach(value) + "\"" + rest) == Some((value, rest))
  {
    if value == [] {
    } else {
      var tail := EscapeEach(value[1..]) + "\"" + rest;
      assert EscapeEach(value) + "\"" + rest == EscapeChar(value[0]) + tail;
      ReadQuotedEscapeChar(value[0], tail);
      ReadQuotedEscapeEach(value[1..], rest);
      assert value == [value[0]] + value[1..];
    }
  }

  /** A reader that starts after the opening quote gets exactly the name back, and stops exactly at the closing quote,
      whatever follows it: no name can break out of its quotes or its line. */
  lemma LabelReadsBack(value: string, rest: string)
    ensures ReadQuoted(EscapeLabel(value) + "\"" + rest) == Some((value, rest))
  {
    EscapeLabelIsEscapeEach(value);
    ReadQuotedEscapeEach(value, rest);
  }

  /** So distinct relay names have distinct labels. */
  lemma LabelsInjective(a: string, b: string)
    requires EscapeLabel(a) == EscapeLabel(b)
    ensures a == b
  {
    LabelReadsBack(a, []);
    LabelReadsBack(b, []);
  }

  lemma {:induction false} EscapeEachHasNoNewline(value: string)
    ensures '\n' !in EscapeEach(value)
  {
    if value == [] {
    } else {
      EscapeEachHasNoNewline(value[1..]);
    }
  }

  lemma LabelHasNoNewline(value: string)
    ensures '\n' !in EscapeLabel(value)
  {
    EscapeLabelIsEscapeEach(value);
    EscapeEachHasNoNewline(value);
  }

  /** The order of the replacements matters: with the backslash last, the label of a quote would close its own
      quotes. */
  lemma BackslashLastBreaks()
    ensures ReadQuoted(Replace(Replace("\"", '"', "\\\""), '\\', "\\\\") + "\"") == Some(("\\", "\""))
  {
    ReplaceOne('"', '"', "\\\"");
    ReplaceTwo('\\', '"', '\\', "\\\\");
    var text := "\\\\" + "\"" + "\"";
    assert text[2..] == "\"\"";
    assert ReadQuoted("\"\"") == Some(([], "\"")) by {
      assert "\"\""[1..] == "\"";
    }
    assert ['\\'] + [] == "\\";
  }
}
