/**
 * Properties of the pretty-printer's layout: the sorted key order of
 * dictionaries, the empty containers, and the indentation of nested lines.
 */
module Printing {
  import opened Wrappers
  import opened Text
  import opened JJ

  /** Empty containers print on one line. */
  lemma EmptyContainers(space: string, spacer: string, show: Node -> string)
    ensures PrettyNode(Arr([]), space, spacer, show) == "[]"
    ensures PrettyNode(Obj(map[]), space, spacer, show) == "{}"
  {
  }

  /**
   * A dictionary prints its entries in the one strictly ascending listing of
   * its keys, whatever order it holds them in.
   */
  lemma PrettyObjSortedOrder(fields: map<string, Node>, keys: seq<string>, space: string, spacer: string,
                             show: Node -> string)
    requires |fields| > 0
    requires StrictlySorted(keys)
    requires forall k :: k in keys <==> k in fields
    ensures forall i :: 0 <= i < |keys| ==> keys[i] in fields
    ensures PrettyObj(fields, space, spacer, show)
         == "{\n" + Join(EntryLines(fields, keys, space + spacer, spacer, show), ",\n") + "\n" + space + "}"
  {
    SortedKeysUnique(fields.Keys, keys);
  }

  // ---------------------------------------------------------------------------
  // Indentation
  // ---------------------------------------------------------------------------

  predicate NoNewline(s: string) {
    '\n' !in s
  }

  /** Empty, or not ending in a line break. */
  predicate EndsClean(s: string) {
    |s| == 0 || s[|s| - 1] != '\n'
  }

  /** Every line after the first begins with `space`. */
  predicate Indented(s: string, space: string) {
    forall i :: 0 <= i < |s| - 1 && s[i] == '\n' ==> space <= s[i + 1..]
  }

  /** Every line strictly between the first and the last begins with `indent`. */
  predicate InnerLinesIndented(s: string, indent: string) {
    forall i, j :: 0 <= i < j < |s| && s[i] == '\n' && s[j] == '\n' ==> indent <= s[i + 1..]
  }

  /** Every line of every text in `lines` after its first begins with `indent`; each text begins with it too. */
  predicate LinesIndented(lines: seq<string>, indent: string) {
    forall j :: 0 <= j < |lines| ==>
      Indented(lines[j], indent) && EndsClean(lines[j]) && indent <= lines[j] && |lines[j]| > 0
  }

  /** The last line of `s` is `line`. */
  predicate LastLine(s: string, line: string) {
    NoNewline(line) && |line| < |s| && s[|s| - |line| - 1..] == "\n" + line
  }

  /** No string and no key anywhere in the tree holds a line break. */
  predicate NoNewlines(n: Node)
    decreases n
  {
    match n
    case Str(s) => NoNewline(s)
    case Arr(items) => forall j :: 0 <= j < |items| ==> NoNewlines(items[j])
    case Obj(fields) => forall k :: k in fields ==> NoNewline(k) && NoNewlines(fields[k])
    case _ => true
  }

  /** The scalar descriptions are single lines. */
  ghost predicate ShowsOneLine(show: Node -> string) {
    forall m :: NoNewline(show(m))
  }

  lemma PrefixOfConcat(p: string, a: string, b: string)
    requires p <= a
    ensures p <= a + b
  {
    assert (a + b)[..|p|] == a[..|p|];
  }

  lemma PrefixTransitive(p: string, q: string, r: string)
    requires p <= q && q <= r
    ensures p <= r
  {
    assert r[..|p|] == q[..|p|];
  }

  lemma IndentedConcat(a: string, b: string, space: string)
    requires Indented(a, space) && Indented(b, space)
    requires |a| > 0 && |b| > 0 && a[|a| - 1] == '\n' ==> space <= b
    ensures Indented(a + b, space)
  {
    forall i | 0 <= i < |a + b| - 1 && (a + b)[i] == '\n'
      ensures space <= (a + b)[i + 1..]
    {
      if i < |a| - 1 {
        BreakInLeft(a, b, space, i);
      } else if i == |a| - 1 {
        assert (a + b)[i + 1..] == b;
      } else {
        BreakInRight(a, b, space, i);
      }
    }
  }

  lemma BreakInLeft(a: string, b: string, space: string, i: nat)
    requires Indented(a, space) && i < |a| - 1 && a[i] == '\n'
    ensures space <= (a + b)[i + 1..]
  {
    assert (a + b)[i + 1..] == a[i + 1..] + b;
    PrefixOfConcat(space, a[i + 1..], b);
  }

  lemma BreakInRight(a: string, b: string, space: string, i: nat)
    requires Indented(b, space) && |a| <= i < |a + b| - 1 && (a + b)[i] == '\n'
    ensures space <= (a + b)[i + 1..]
  {
    var k := i - |a|;
    assert b[k] == (a + b)[i];
    assert (a + b)[i + 1..] == b[k + 1..];
  }

  lemma IndentedWeaken(s: string, space: string, deeper: string)
    requires space <= deeper && Indented(s, deeper)
    ensures Indented(s, space)
  {
    forall i | 0 <= i < |s| - 1 && s[i] == '\n'
      ensures space <= s[i + 1..]
    {
      PrefixTransitive(space, deeper, s[i + 1..]);
    }
  }

  /** A line: a break-free prefix that starts with the indentation, then a value laid out one level deeper. */
  lemma LineIndented(prefix: string, value: string, space: string, deeper: string)
    requires NoNewline(prefix) && space <= deeper && deeper <= prefix
    requires Indented(value, deeper) && EndsClean(value)
    ensures Indented(prefix + value, space) && EndsClean(prefix + value)
    ensures space <= prefix + value
    ensures deeper != "" ==> |prefix + value| > 0
  {
    assert Indented(prefix, deeper);
    if |prefix| > 0 {
      assert prefix[|prefix| - 1] in prefix;
    }
    IndentedConcat(prefix, value, deeper);
    IndentedWeaken(prefix + value, space, deeper);
    PrefixTransitive(space, deeper, prefix);
    PrefixOfConcat(space, prefix, value);
    if |value| > 0 {
      assert (prefix + value)[|prefix + value| - 1] == value[|value| - 1];
    } else {
      assert prefix + value == prefix;
    }
  }

  /** Indented, clean lines joined by ",\n" give an indented, clean text that starts with the indentation. */
  lemma {:induction false} JoinIndented(lines: seq<string>, space: string)
    requires LinesIndented(lines, space)
    ensures Indented(Join(lines, ",\n"), space) && EndsClean(Join(lines, ",\n"))
    ensures |lines| > 0 ==> space <= Join(lines, ",\n") && |Join(lines, ",\n")| > 0
  {
    if |lines| > 1 {
      var init := lines[..|lines| - 1];
      var last := lines[|lines| - 1];
      JoinIndented(init, space);
      var j0 := Join(init, ",\n");
      assert Join(lines, ",\n") == j0 + ",\n" + last;
      SeparatedIndented(j0, last, space);
    }
  }

  /** Two indented, clean, non-empty texts separated by ",\n" give one. */
  lemma SeparatedIndented(a: string, b: string, space: string)
    requires Indented(a, space) && EndsClean(a) && space <= a && |a| > 0
    requires Indented(b, space) && EndsClean(b) && space <= b && |b| > 0
    ensures var t := a + ",\n" + b;
            Indented(t, space) && EndsClean(t) && space <= t && |t| > 0
  {
    assert Indented(",\n", space);
    IndentedConcat(a, ",\n", space);
    IndentedConcat(a + ",\n", b, space);
    PrefixOfConcat(space, a, ",\n" + b);
    assert a + ",\n" + b == a + (",\n" + b);
    assert (a + ",\n" + b)[|a + ",\n" + b| - 1] == b[|b| - 1];
  }

  /** The closing line of a container: a break, the indentation, the bracket. */
  lemma ClosingIndented(body: string, space: string, close: char)
    requires NoNewline(space) && close != '\n'
    requires Indented(body, space) && EndsClean(body)
    ensures Indented(body + "\n" + space + [close], space) && EndsClean(body + "\n" + space + [close])
  {
    var tail := "\n" + space + [close];
    forall i | 1 <= i < |tail|
      ensures tail[i] != '\n'
    {
      if i - 1 < |space| {
        assert tail[i] == space[i - 1];
        assert space[i - 1] in space;
      }
    }
    assert tail[1..] == space + [close];
    IndentedConcat(body, tail, space);
    assert body + "\n" + space + [close] == body + tail;
    assert (body + tail)[|body + tail| - 1] == close;
  }

  /** A dictionary entry line: the indentation, the quoted key, then the value laid out one level deeper. */
  lemma EntryLineIndented(key: string, value: string, space: string, deeper: string)
    requires NoNewline(key) && NoNewline(deeper) && space <= deeper && deeper != ""
    requires Indented(value, deeper) && EndsClean(value)
    ensures var line := deeper + "\"" + key + "\": " + value;
            Indented(line, space) && EndsClean(line) && space <= line && |line| > 0
  {
    var prefix := deeper + "\"" + key + "\": ";
    assert NoNewline(prefix);
    PrefixOfConcat(deeper, deeper, "\"" + key + "\": ");
    assert prefix == deeper + ("\"" + key + "\": ");
    LineIndented(prefix, value, space, deeper);
  }

  /** A non-empty container: the opening bracket, a body, the closing line. */
  lemma ContainerIndented(open: char, body: string, space: string, close: char)
    requires open != '\n' && close != '\n' && NoNewline(space)
    requires Indented(body, space) && EndsClean(body) && space <= body && |body| > 0
    ensures var text := [open] + "\n" + body + "\n" + space + [close];
            Indented(text, space) && EndsClean(text)
  {
    var head := [open] + "\n";
    assert Indented(head, space);
    IndentedConcat(head, body, space);
    var hb := head + body;
    assert hb[|hb| - 1] == body[|body| - 1];
    ClosingIndented(hb, space, close);
  }

  /** A text ending in a break, the indentation and a bracket has that closing line as its last line. */
  lemma ClosingLine(front: string, space: string, close: char)
    requires NoNewline(space) && close != '\n'
    ensures LastLine(front + "\n" + space + [close], space + [close])
  {
    var tail := space + [close];
    assert front + "\n" + space + [close] == front + ("\n" + tail);
  }

  /**
   * The lines of a container: when its body is laid out at `deeper`, every
   * line strictly between the opening and the closing line begins with
   * `deeper`.
   */
  lemma ContainerLayout(open: char, body: string, space: string, close: char, deeper: string)
    requires open != '\n' && close != '\n' && NoNewline(space)
    requires Indented(body, deeper) && EndsClean(body) && deeper <= body
    ensures InnerLinesIndented([open] + "\n" + body + "\n" + space + [close], deeper)
  {
    var rest := "\n" + (space + [close]);
    assert [open] + "\n" + body + "\n" + space + [close] == [open, '\n'] + body + rest;
    assert NoNewline(rest[1..]) by {
      assert rest[1..] == space + [close];
    }
    BracketedLayout([open, '\n'], body, rest, deeper);
  }

  /** A one-line head ending in a break, a body laid out at `deeper`, then a break and a last line. */
  lemma BracketedLayout(head: string, body: string, rest: string, deeper: string)
    requires |head| == 2 && head[0] != '\n' && head[1] == '\n'
    requires Indented(body, deeper) && EndsClean(body) && deeper <= body
    requires |rest| > 0 && rest[0] == '\n' && NoNewline(rest[1..])
    ensures InnerLinesIndented(head + body + rest, deeper)
  {
    var text := head + body + rest;
    assert text[0] == head[0];
    AfterHead(head, body, rest, deeper);
    LastLineHasNoBreak(head + body, rest);
    forall i, j | 0 <= i < j < |text| && text[i] == '\n' && text[j] == '\n'
      ensures deeper <= text[i + 1..]
    {
      if 2 <= i < 2 + |body| {
        BodyBreak(head, body, rest, deeper, i);
      }
    }
  }

  lemma AfterHead(head: string, body: string, rest: string, deeper: string)
    requires |head| == 2 && deeper <= body
    ensures deeper <= (head + body + rest)[2..]
  {
    assert (head + body + rest)[2..] == body + rest;
    PrefixOfConcat(deeper, body, rest);
  }

  lemma LastLineHasNoBreak(front: string, rest: string)
    requires |rest| > 0 && NoNewline(rest[1..])
    ensures forall j :: |front| < j < |front + rest| ==> (front + rest)[j] != '\n'
  {
    forall j | |front| < j < |front + rest|
      ensures (front + rest)[j] != '\n'
    {
      assert (front + rest)[j] == rest[1..][j - |front| - 1];
    }
  }

  lemma BodyBreak(head: string, body: string, rest: string, deeper: string, i: nat)
    requires |head| == 2 && 2 <= i < 2 + |body| && (head + body + rest)[i] == '\n'
    requires Indented(body, deeper) && EndsClean(body)
    ensures deeper <= (head + body + rest)[i + 1..]
  {
    var k := i - 2;
    assert body[k] == (head + body + rest)[i];
    assert (head + body + rest)[i + 1..] == body[k + 1..] + rest;
    PrefixOfConcat(deeper, body[k + 1..], rest);
  }

  /**
   * Nested values are laid out one `spacer` deeper than their container: when
   * no string, key, indentation or scalar description holds a line break,
   * every line after the first begins with the indentation the value was
   * printed at, and the text does not end in a line break.
   */
  lemma PrettyNodeIndented(n: Node, space: string, spacer: string, show: Node -> string)
    requires NoNewlines(n) && NoNewline(space) && NoNewline(spacer) && ShowsOneLine(show)
    ensures Indented(PrettyNode(n, space, spacer, show), space)
    ensures EndsClean(PrettyNode(n, space, spacer, show))
    decreases n, 2
  {
    match n
    case Arr(items) => PrettyArrIndented(items, space, spacer, show);
    case Obj(fields) => PrettyObjIndented(fields, space, spacer, show);
    case Str(s) =>
      assert NoNewline("\"" + s + "\"");
    case Null =>
    case _ =>
      assert NoNewline(show(n));
      var t := show(n);
      if |t| > 0 {
        assert t[|t| - 1] in t;
      }
  }

  /**
   * An array's elements sit one `spacer` deeper than the array: every line
   * between "[" and the closing line begins with `space + spacer`, and the
   * closing line is `space + "]"`.
   */
  lemma PrettyArrIndented(items: seq<Node>, space: string, spacer: string, show: Node -> string)
    requires forall j :: 0 <= j < |items| ==> NoNewlines(items[j])
    requires NoNewline(space) && NoNewline(spacer) && ShowsOneLine(show)
    ensures Indented(PrettyArr(items, space, spacer, show), space)
    ensures EndsClean(PrettyArr(items, space, spacer, show))
    ensures |items| > 0 ==> InnerLinesIndented(PrettyArr(items, space, spacer, show), space + spacer)
    ensures |items| > 0 ==> LastLine(PrettyArr(items, space, spacer, show), space + "]")
    decreases Arr(items), 1
  {
    if |items| > 0 {
      var deeper := space + spacer;
      var lines := ItemLines(items, deeper, spacer, show);
      var body := Join(lines, ",\n");
      assert "[\n" == ['['] + "\n" && space + "]" == space + [']'];
      ClosingLine("[\n" + body, space, ']');
      if deeper != "" {
        ItemLinesIndented(items, deeper, spacer, show);
        NestedContainer('[', lines, space, spacer, ']');
      }
    }
  }

  /** Each element line of an array is indented, clean and begins with its indent. */
  lemma ItemLinesIndented(items: seq<Node>, deeper: string, spacer: string, show: Node -> string)
    requires forall j :: 0 <= j < |items| ==> NoNewlines(items[j])
    requires NoNewline(deeper) && deeper != "" && NoNewline(spacer) && ShowsOneLine(show)
    ensures LinesIndented(ItemLines(items, deeper, spacer, show), deeper)
    decreases Arr(items), 0
  {
    forall j | 0 <= j < |items|
      ensures var line := ItemLines(items, deeper, spacer, show)[j];
              Indented(line, deeper) && EndsClean(line) && deeper <= line && |line| > 0
    {
      PrettyNodeIndented(items[j], deeper, spacer, show);
      LineIndented(deeper, PrettyNode(items[j], deeper, spacer, show), deeper, deeper);
    }
  }

  /**
   * A dictionary's entries sit one `spacer` deeper than the dictionary: every
   * line between "{" and the closing line begins with `space + spacer`, and
   * the closing line is `space + "}"`.
   */
  lemma PrettyObjIndented(fields: map<string, Node>, space: string, spacer: string, show: Node -> string)
    requires forall k :: k in fields ==> NoNewline(k) && NoNewlines(fields[k])
    requires NoNewline(space) && NoNewline(spacer) && ShowsOneLine(show)
    ensures Indented(PrettyObj(fields, space, spacer, show), space)
    ensures EndsClean(PrettyObj(fields, space, spacer, show))
    ensures |fields| > 0 ==> InnerLinesIndented(PrettyObj(fields, space, spacer, show), space + spacer)
    ensures |fields| > 0 ==> LastLine(PrettyObj(fields, space, spacer, show), space + "}")
    decreases Obj(fields), 1
  {
    if |fields| > 0 {
      var deeper := space + spacer;
      var keys := SortedKeys(fields.Keys);
      var lines := EntryLines(fields, keys, deeper, spacer, show);
      var body := Join(lines, ",\n");
      assert "{\n" == ['{'] + "\n" && space + "}" == space + ['}'];
      ClosingLine("{\n" + body, space, '}');
      if deeper != "" {
        EntryLinesIndented(fields, keys, deeper, spacer, show);
        NestedContainer('{', lines, space, spacer, '}');
      }
    }
  }

  /** Each `"key": value` line of a dictionary is indented, clean and begins with its indent. */
  lemma EntryLinesIndented(fields: map<string, Node>, keys: seq<string>, deeper: string, spacer: string,
                           show: Node -> string)
    requires forall k :: k in fields ==> NoNewline(k) && NoNewlines(fields[k])
    requires forall j :: 0 <= j < |keys| ==> keys[j] in fields
    requires NoNewline(deeper) && deeper != "" && NoNewline(spacer) && ShowsOneLine(show)
    ensures LinesIndented(EntryLines(fields, keys, deeper, spacer, show), deeper)
    decreases Obj(fields), 0
  {
    forall j | 0 <= j < |keys|
      ensures var line := EntryLines(fields, keys, deeper, spacer, show)[j];
              Indented(line, deeper) && EndsClean(line) && deeper <= line && |line| > 0
    {
      PrettyNodeIndented(fields[keys[j]], deeper, spacer, show);
      EntryLineIndented(keys[j], PrettyNode(fields[keys[j]], deeper, spacer, show), deeper, deeper);
    }
  }

  /**
   * Lines indented by `space + spacer`, joined by ",\n" between an opening
   * bracket and a closing line `space + [close]`, give a text indented by
   * `space` whose inner lines are indented by `space + spacer`.
   */
  lemma NestedContainer(open: char, lines: seq<string>, space: string, spacer: string, close: char)
    requires open != '\n' && close != '\n' && NoNewline(space) && space + spacer != ""
    requires |lines| > 0
    requires LinesIndented(lines, space + spacer)
    ensures var text := [open] + "\n" + Join(lines, ",\n") + "\n" + space + [close];
            Indented(text, space) && EndsClean(text) && InnerLinesIndented(text, space + spacer)
  {
    var deeper := space + spacer;
    var body := Join(lines, ",\n");
    JoinIndented(lines, deeper);
    PrefixOfConcat(space, space, spacer);
    IndentedWeaken(body, space, deeper);
    PrefixTransitive(space, deeper, body);
    ContainerIndented(open, body, space, close);
    ContainerLayout(open, body, space, close, deeper);
  }
}
