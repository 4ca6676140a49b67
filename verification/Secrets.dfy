/**
 The runtime secrets file: reading and writing NAME=value lines, and changing one
 value through the file.
 */
module Secrets {
  import opened Options
  import opened Texts

  const MAX_SECRETS_FILE_SIZE := 64 * 1024

  // --- names and values ---

  predicate Letter(c: char) {
    'a' <= c <= 'z' || 'A' <= c <= 'Z' || c == '_'
  }

  predicate ValidName(name: string) {
    name != "" && Letter(name[0]) && forall c <- name :: Letter(c) || '0' <= c <= '9'
  }

  predicate ValidValue(value: string) {
    && (forall c <- value :: c != '\0' && c != '\r' && c != '\n' && c != '`')
    && forall i | 0 <= i < |value| - 1 :: !(value[i] == '$' && value[i + 1] == '(')
  }

  /** Names as the shell has them: a letter or an underscore, then letters, digits and
      underscores, by their ASCII codes. */
  lemma NameExactly(name: string)
    ensures ValidName(name) <==>
              && |name| > 0 && !(48 <= name[0] as int <= 57)
              && forall i | 0 <= i < |name| ::
                   48 <= name[i] as int <= 57 || 65 <= name[i] as int <= 90 || 97 <= name[i] as int <= 122 || name[i] as int == 95
  {
    if ValidName(name) {
      forall i | 0 <= i < |name| ensures Letter(name[i]) || '0' <= name[i] <= '9' { assert name[i] in name; }
    } else if name != "" && Letter(name[0]) {
      var c :| c in name && !(Letter(c) || '0' <= c <= '9');
      var i :| 0 <= i < |name| && name[i] == c;
    }
  }

  /** Values on one line that start no command substitution. */
  lemma ValueExactly(value: string)
    ensures ValidValue(value) <==>
              && '\0' !in value && '\n' !in value && '\r' !in value && '`' !in value
              && forall a: string, b: string :: value != a + "$(" + b
  {
    if !ValidValue(value) && '\0' !in value && '\n' !in value && '\r' !in value && '`' !in value {
      var i :| 0 <= i < |value| - 1 && value[i] == '$' && value[i + 1] == '(';
      assert value == value[..i] + "$(" + value[i + 2..];
    }
    forall a: string, b: string ensures !ValidValue(a + "$(" + b) {
      var t := a + "$(" + b;
      assert t[|a|] == '$' && t[|a| + 1] == '(';
    }
  }

  predicate AllValid(values: map<string, string>) {
    forall name <- values :: ValidName(name) && ValidValue(values[name])
  }

  // --- the file ---

  // What the bytes of a file decode to, or how many they are if they do not.
  datatype Payload = Utf8(text: string) | NotUtf8(size: nat)

  function Width(c: char): nat {
    if c as int < 0x80 then 1 else if c as int < 0x800 then 2 else if c as int < 0x10000 then 3 else 4
  }

  /** One byte up to U+007F, two up to U+07FF, three up to U+FFFF and four beyond. */
  lemma WidthExactly(c: char)
    ensures Width(c) == 1 <==> c as int <= 127
    ensures Width(c) == 2 <==> 128 <= c as int <= 2047
    ensures Width(c) == 3 <==> 2048 <= c as int <= 65535
    ensures Width(c) == 4 <==> 65536 <= c as int
  {
  }

  function Utf8Size(text: string): nat {
    if text == "" then 0 else Width(text[0]) + Utf8Size(text[1..])
  }

  function SizeOf(payload: Payload): nat {
    match payload
    case Utf8(text) => Utf8Size(text)
    case NotUtf8(size) => size
  }

  predicate IsComment(line: string) {
    line != "" && (line[0] == '#' || (IsSpace(line[0]) && IsComment(line[1..])))
  }

  /** A comment is a '#' with nothing but white space before it. */
  lemma {:induction false} CommentExactly(line: string)
    ensures IsComment(line) <==> exists i :: 0 <= i < |line| && line[i] == '#' && forall k | 0 <= k < i :: IsSpace(line[k])
  {
    if line != "" && line[0] != '#' {
      CommentExactly(line[1..]);
      if IsComment(line) {
        var i :| 0 <= i < |line| - 1 && line[1..][i] == '#' && forall k | 0 <= k < i :: IsSpace(line[1..][k]);
        assert line[i + 1] == '#' && forall k | 0 <= k < i + 1 :: IsSpace(line[k]) by {
          forall k | 0 < k < i + 1 ensures IsSpace(line[k]) { assert line[1..][k - 1] == line[k]; }
        }
      }
      if i :| 0 <= i < |line| && line[i] == '#' && forall k | 0 <= k < i :: IsSpace(line[k]) {
        assert line[1..][i - 1] == '#' && forall k | 0 <= k < i - 1 :: IsSpace(line[1..][k]);
      }
    }
  }

  datatype Line = Skipped | Bad | Assignment(name: string, value: string)

  function ParseLine(line: string): Line {
    if line == "" || IsComment(line) then Skipped
    else
      var i := IndexOf(line, '=');
      if "export " <= line || i == |line| then Bad
      else if !ValidName(line[..i]) || !ValidValue(line[i + 1..]) then Bad
      else Assignment(line[..i], line[i + 1..])
  }

  // The values of the lines, or None when a line is bad or a name comes twice.
  function ParseLines(lines: seq<string>): Option<map<string, string>> {
    if lines == [] then Some(map[])
    else
      var prior, line := ParseLines(lines[..|lines| - 1]), ParseLine(lines[|lines| - 1]);
      if prior.None? || line.Bad? then None
      else if line.Skipped? then prior
      else if line.name in prior.value then None
      else Some(prior.value[line.name := line.value])
  }

  function ParsePayload(payload: Payload): Option<map<string, string>> {
    if SizeOf(payload) > MAX_SECRETS_FILE_SIZE || payload.NotUtf8? || '\0' in payload.text || '\r' in payload.text then None
    else ParseLines(Split(payload.text, '\n'))
  }

  method ReadLine(line: string) returns (r: Line)
    ensures r == ParseLine(line)
  {
    if line == "" || IsComment(line) { return Skipped; }
    var i := IndexOf(line, '=');
    if "export " <= line || i == |line| { return Bad; }
    var name, value := line[..i], line[i + 1..];
    if !ValidName(name) || !ValidValue(value) { return Bad; }
    return Assignment(name, value);
  }

  method ParseSecrets(payload: Payload) returns (values: Option<map<string, string>>)
    ensures values == ParsePayload(payload)
  {
    if SizeOf(payload) > MAX_SECRETS_FILE_SIZE { return None; }
    if payload.NotUtf8? { return None; }
    if '\0' in payload.text || '\r' in payload.text { return None; }
    var lines := Split(payload.text, '\n');
    var found: map<string, string> := map[];
    for n := 0 to |lines|
      invariant ParseLines(lines[..n]) == Some(found)
    {
      hide Split, ParseLine;
      assert lines[..n + 1][..n] == lines[..n];
      var line := ReadLine(lines[n]);
      match line {
        case Skipped =>
        case Bad =>
          BadStays(lines, n + 1);
          return None;
        case Assignment(name, value) =>
          if name in found {
            BadStays(lines, n + 1);
            return None;
          }
          found := found[name := value];
      }
    }
    assert lines[..|lines|] == lines;
    return Some(found);
  }

  lemma {:induction false} BadStays(lines: seq<string>, n: nat)
    requires n <= |lines| && ParseLines(lines[..n]).None?
    ensures ParseLines(lines).None?
    decreases |lines| - n
  {
    if n < |lines| {
      assert lines[..n + 1][..n] == lines[..n];
      BadStays(lines, n + 1);
    } else {
      assert lines[..n] == lines;
    }
  }

  // --- writing ---

  function LineOf(values: map<string, string>, name: string): string
    requires name in values
  {
    name + "=" + values[name]
  }

  function Lines(values: map<string, string>, names: seq<string>): string
    requires forall name <- names :: name in values
  {
    if names == [] then "" else LineOf(values, names[0]) + "\n" + Lines(values, names[1..])
  }

  lemma {:induction false} LinesAppend(values: map<string, string>, names: seq<string>, name: string)
    requires name in values && forall x <- names :: x in values
    ensures Lines(values, names + [name]) == Lines(values, names) + (LineOf(values, name) + "\n")
  {
    if names == [] {
      assert [name][1..] == [] && names + [name] == [name];
    } else {
      assert (names + [name])[1..] == names[1..] + [name];
      LinesAppend(values, names[1..], name);
    }
  }

  lemma NoLines(values: map<string, string>)
    ensures Lines(values, []) == ""
  {
  }

  lemma {:induction false} OrderedHas(names: set<string>, name: string)
    ensures name in Ordered(names) <==> name in names
    decreases names
  {
    if names != {} { OrderedHas(names - {Least(names)}, name); }
  }

  lemma {:induction false} OrderedIsDistinct(names: set<string>)
    ensures forall i, j | 0 <= i < j < |Ordered(names)| :: Ordered(names)[i] != Ordered(names)[j]
    decreases names
  {
    if names != {} {
      var rest := names - {Least(names)};
      OrderedIsDistinct(rest);
      forall name ensures name in Ordered(rest) <==> name in rest { OrderedHas(rest, name); }
    }
  }

  // The text of a file with these values: one line each, in the order of the names.
  ghost function Serialized(values: map<string, string>): string {
    forall name ensures name in Ordered(values.Keys) <==> name in values { OrderedHas(values.Keys, name); }
    Lines(values, Ordered(values.Keys))
  }

  /** Write the values as text; refused exactly when one of them is invalid or the
      text is too long. */
  method Serialize(values: map<string, string>) returns (text: Option<string>)
    ensures text == if AllValid(values) && Utf8Size(Serialized(values)) <= MAX_SECRETS_FILE_SIZE then Some(Serialized(values)) else None
  {
    if !AllValid(values) { return None; }
    hide AllValid, Utf8Size, Least, Lines, Ordered;
    NoLines(values);
    OrderedNothing();
    var result, todo := "", values.Keys;
    ghost var names: seq<string> := [];
    while todo != {}
      invariant todo <= values.Keys && (forall name <- names :: name in values)
      invariant result == Lines(values, names) && names + Ordered(todo) == Ordered(values.Keys)
      decreases |todo|
    {
      var name := LeastName(todo);
      LinesAppend(values, names, name);
      OrderedStep(names, todo);
      result := result + (name + "=" + values[name] + "\n");
      names := names + [name];
      todo := todo - {name};
    }
    assert names == Ordered(values.Keys);
    if Utf8Size(result) > MAX_SECRETS_FILE_SIZE { return None; }
    return Some(result);
  }

  lemma OrderedNothing()
    ensures Ordered({}) == []
  {
  }

  lemma OrderedStep(names: seq<string>, todo: set<string>)
    requires todo != {}
    ensures names + Ordered(todo) == names + [Least(todo)] + Ordered(todo - {Least(todo)})
  {
  }

  method LeastName(names: set<string>) returns (least: string)
    requires names != {}
    ensures least == Least(names)
  {
    least :| least in names;
    BelowIsTotal(least, least);
    var todo := names - {least};
    while todo != {}
      invariant todo <= names && least in names && forall x <- names - todo :: Below(least, x)
      decreases |todo|
    {
      var x :| x in todo;
      todo := todo - {x};
      BelowIsTotal(least, x);
      BelowIsTotal(x, x);
      if !Below(least, x) {
        forall z <- names - todo ensures Below(x, z) { if z != x { BelowIsTransitive(x, least, z); } }
        least := x;
      }
    }
    BelowIsTotal(least, Least(names));
  }

  // --- the round trip ---

  lemma ParseLineOf(values: map<string, string>, name: string)
    requires name in values && ValidName(name) && ValidValue(values[name])
    ensures ParseLine(LineOf(values, name)) == Assignment(name, values[name])
    ensures '\n' !in LineOf(values, name) && '\0' !in LineOf(values, name) && '\r' !in LineOf(values, name)
  {
    var line := LineOf(values, name);
    assert line[..|name|] == name && line[|name|] == '=' && line[|name| + 1..] == values[name];
    assert line[0] == name[0];
    IndexIs(line, '=', |name|);
    NotExported(name, values[name]);
  }

  // The keyword is followed by a blank, which no name contains.
  lemma NotExported(name: string, value: string)
    requires ValidName(name)
    ensures !("export " <= name + "=" + value)
  {
    var line, k := name + "=" + value, if |name| <= 6 then |name| else 6;
    assert k < |name| ==> line[k] == name[k] && name[k] in name;
    assert k < |line| && line[k] != "export "[k];
  }

  function LineList(values: map<string, string>, names: seq<string>): seq<string>
    requires forall name <- names :: name in values
  {
    seq(|names|, i requires 0 <= i < |names| => LineOf(values, names[i]))
  }

  function Restrict(values: map<string, string>, names: seq<string>): map<string, string> {
    map name <- values | name in names :: values[name]
  }

  lemma OneLine(line: string, rest: string)
    requires '\n' !in line
    ensures Split(line + "\n" + rest, '\n') == [line] + Split(rest, '\n')
  {
    hide IndexOf;
    assert line + "\n" + rest == line + ['\n'] + rest;
    SplitJoined(line, '\n', rest);
    IndexIs(line, '\n', |line|);
  }

  lemma SplitNothing()
    ensures Split("", '\n') == [""]
  {
  }

  lemma {:induction false} SplitLines(values: map<string, string>, names: seq<string>)
    requires AllValid(values) && forall name <- names :: name in values
    ensures Split(Lines(values, names), '\n') == LineList(values, names) + [""]
  {
    hide ValidName, ValidValue, ParseLine, LineOf, Split, IndexOf;
    if names == [] {
      NoLines(values);
      SplitNothing();
    } else {
      ParseLineOf(values, names[0]);
      OneLine(LineOf(values, names[0]), Lines(values, names[1..]));
      SplitLines(values, names[1..]);
      assert LineList(values, names) == [LineOf(values, names[0])] + LineList(values, names[1..]);
    }
  }

  lemma {:induction false} NoControls(values: map<string, string>, names: seq<string>)
    requires AllValid(values) && forall name <- names :: name in values
    ensures '\0' !in Lines(values, names) && '\r' !in Lines(values, names)
  {
    hide ValidName, ValidValue, ParseLine, LineOf;
    if names != [] {
      ParseLineOf(values, names[0]);
      NoControls(values, names[1..]);
    }
  }

  lemma RestrictAppend(values: map<string, string>, names: seq<string>, name: string)
    requires name in values && name !in names
    ensures name !in Restrict(values, names) && Restrict(values, names + [name]) == Restrict(values, names)[name := values[name]]
  {
  }

  lemma {:induction false} ParseEach(values: map<string, string>, names: seq<string>)
    requires AllValid(values) && (forall name <- names :: name in values) && forall i, j | 0 <= i < j < |names| :: names[i] != names[j]
    ensures ParseLines(LineList(values, names)) == Some(Restrict(values, names))
  {
    hide ValidName, ValidValue, ParseLine, LineOf;
    if names == [] {
      assert Restrict(values, names) == map[];
    } else {
      hide Restrict;
      var rest, last := names[..|names| - 1], names[|names| - 1];
      ParseEach(values, rest);
      assert LineList(values, names)[..|names| - 1] == LineList(values, rest);
      ParseLineOf(values, last);
      assert last !in rest && names == rest + [last];
      RestrictAppend(values, rest, last);
    }
  }

  lemma TrailingLine(lines: seq<string>)
    ensures ParseLines(lines + [""]) == ParseLines(lines)
  {
    assert (lines + [""])[..|lines|] == lines;
  }

  /** Reading back what was written gives the same values - among them values with
      '=' or '#' and a name such as export. */
  lemma RoundTrip(values: map<string, string>)
    requires AllValid(values) && Utf8Size(Serialized(values)) <= MAX_SECRETS_FILE_SIZE
    ensures ParsePayload(Utf8(Serialized(values))) == Some(values)
  {
    hide Split, ParseLines, Lines, AllValid, LineList, Utf8Size;
    var names := Ordered(values.Keys);
    forall name ensures name in names <==> name in values { OrderedHas(values.Keys, name); }
    OrderedIsDistinct(values.Keys);
    SplitLines(values, names);
    NoControls(values, names);
    ParseEach(values, names);
    TrailingLine(LineList(values, names));
    assert Restrict(values, names) == values;
  }

  /** Whatever is read is valid, so it can be written again unless it is too long. */
  lemma {:induction false} ParsedIsValid(lines: seq<string>)
    requires ParseLines(lines).Some?
    ensures AllValid(ParseLines(lines).value)
  {
    if lines != [] { ParsedIsValid(lines[..|lines| - 1]); }
  }

  // --- sizes ---

  lemma {:induction false} SizeAdds(a: string, b: string)
    ensures Utf8Size(a + b) == Utf8Size(a) + Utf8Size(b)
  {
    if a == "" {
      assert a + b == b;
    } else {
      assert (a + b)[1..] == a[1..] + b;
      SizeAdds(a[1..], b);
    }
  }

  lemma {:induction false} SizeBounds(text: string)
    ensures Utf8Size(text) >= |text|
  {
    if text != "" { SizeBounds(text[1..]); }
  }

  // The size of lines, each with its end.
  function SizeOfLines(lines: seq<string>): nat {
    if lines == [] then 0 else SizeOfLines(lines[..|lines| - 1]) + Utf8Size(lines[|lines| - 1]) + 1
  }

  lemma {:induction false} SizeOfMore(line: string, lines: seq<string>)
    ensures SizeOfLines([line] + lines) == Utf8Size(line) + 1 + SizeOfLines(lines)
  {
    if lines == [] {
      assert [line] + lines == [line] && [line][..0] == [];
    } else {
      assert ([line] + lines)[..|lines|] == [line] + lines[..|lines| - 1];
      SizeOfMore(line, lines[..|lines| - 1]);
    }
  }

  lemma {:induction false} SplitSize(text: string)
    ensures SizeOfLines(Split(text, '\n')) == Utf8Size(text) + 1
    decreases |text|
  {
    hide IndexOf, Utf8Size, SizeOfLines, Split;
    var i := IndexOf(text, '\n');
    SplitStep(text, '\n');
    if i == |text| {
      SizeOfMore(text, []);
      NoSize();
      assert [text] + [] == [text];
    } else {
      var first, rest := text[..i], text[i + 1..];
      SplitSize(rest);
      SizeOfMore(first, Split(rest, '\n'));
      assert text == first + "\n" + rest;
      SizeAdds(first + "\n", rest);
      SizeAdds(first, "\n");
      NoSize();
    }
  }

  lemma NoSize()
    ensures Utf8Size("\n") == 1 && SizeOfLines([]) == 0
  {
  }

  lemma PartsIn(a: seq<string>, b: seq<string>)
    ensures (forall name <- a :: name in a + b) && forall name <- b :: name in a + b
  {
  }

  lemma {:induction false} LinesJoin(values: map<string, string>, a: seq<string>, b: seq<string>)
    requires forall name <- a + b :: name in values
    ensures (forall name <- a :: name in values) && forall name <- b :: name in values
    ensures Lines(values, a + b) == Lines(values, a) + Lines(values, b)
  {
    PartsIn(a, b);
    if a == [] {
      assert a + b == b;
    } else {
      assert (a + b)[1..] == a[1..] + b;
      LinesJoin(values, a[1..], b);
    }
  }

  lemma {:induction false} LinesAgree(values: map<string, string>, others: map<string, string>, names: seq<string>)
    requires forall name <- names :: name in values && name in others && values[name] == others[name]
    ensures Lines(values, names) == Lines(others, names)
  {
    if names != [] { LinesAgree(values, others, names[1..]); }
  }

  // One name more costs its line.
  lemma LinesAround(values: map<string, string>, a: seq<string>, name: string, b: seq<string>)
    requires name in values && forall x <- a + b :: x in values
    ensures forall x <- a + [name] + b :: x in values
    ensures Utf8Size(Lines(values, a + [name] + b)) == Utf8Size(Lines(values, a + b)) + Utf8Size(LineOf(values, name)) + 1
  {
    hide Utf8Size, Lines, LineOf;
    LinesJoin(values, a, b);
    assert a + [name] + b == a + ([name] + b);
    LinesJoin(values, a, [name] + b);
    LinesJoin(values, [name], b);
    LinesAppend(values, [], name);
    NoLines(values);
    var mid, end := Lines(values, [name]), LineOf(values, name);
    assert [] + [name] == [name] && mid == end + "\n";
    SizeAdds(Lines(values, a), Lines(values, b));
    SizeAdds(Lines(values, a), mid + Lines(values, b));
    SizeAdds(mid, Lines(values, b));
    SizeAdds(end, "\n");
    NoSize();
  }

  lemma LineIsItsParts(line: string, values: map<string, string>)
    requires ParseLine(line).Assignment? && ParseLine(line).name in values && values[ParseLine(line).name] == ParseLine(line).value
    ensures LineOf(values, ParseLine(line).name) == line
  {
    var i := IndexOf(line, '=');
    assert line == line[..i] + "=" + line[i + 1..];
  }

  predicate Distinct(names: seq<string>) {
    forall i, j | 0 <= i < j < |names| :: names[i] != names[j]
  }

  lemma DistinctWithout(names: seq<string>, k: nat)
    requires k < |names| && Distinct(names)
    ensures var rest := names[..k] + names[k + 1..]; Distinct(rest) && names[k] !in rest && (forall name <- rest :: name in names)
  {
  }

  /** Written again, the values of some lines are no longer than the lines were,
      whatever the order and however many of the names are kept. */
  lemma {:induction false} WrittenIsNotLonger(lines: seq<string>, names: seq<string>)
    requires ParseLines(lines).Some? && Distinct(names) && forall name <- names :: name in ParseLines(lines).value
    ensures Utf8Size(Lines(ParseLines(lines).value, names)) <= SizeOfLines(lines)
  {
    hide Utf8Size, Lines, LineOf, ParseLine, Distinct;
    var values := ParseLines(lines).value;
    if lines == [] {
      HeadIsIn(names);
      NoLines(values);
      NothingIsEmpty();
    } else {
      var rest, line := lines[..|lines| - 1], ParseLine(lines[|lines| - 1]);
      var earlier := ParseLines(rest).value;
      if line.Assignment? && line.name in names {
        var k :| 0 <= k < |names| && names[k] == line.name;
        var a, b := names[..k], names[k + 1..];
        DistinctWithout(names, k);
        LinesAgree(values, earlier, a + b);
        WrittenIsNotLonger(rest, a + b);
        assert names == a + [line.name] + b;
        LinesAround(values, a, line.name, b);
        LineIsItsParts(lines[|lines| - 1], values);
      } else {
        LinesAgree(values, earlier, names);
        WrittenIsNotLonger(rest, names);
      }
    }
  }

  lemma HeadIsIn(names: seq<string>)
    ensures names == [] || names[0] in names
  {
  }

  lemma NothingIsEmpty()
    ensures Utf8Size("") == 0
  {
  }

  /** So the values of a file that can be read can be written without one of them. */
  lemma RemovalFits(text: string, name: string)
    requires ParsePayload(Utf8(text)).Some? && name in ParsePayload(Utf8(text)).value
    ensures Utf8Size(Serialized(ParsePayload(Utf8(text)).value - {name})) <= MAX_SECRETS_FILE_SIZE
  {
    hide Utf8Size, Lines, Split, ParseLines;
    var lines := Split(text, '\n');
    var values := ParseLines(lines).value;
    var left := values - {name};
    var names := Ordered(left.Keys);
    forall x ensures x in names <==> x in left { OrderedHas(left.Keys, x); }
    OrderedIsDistinct(left.Keys);
    assert Distinct(names + [name]);
    WrittenIsNotLonger(lines, names + [name]);
    SplitSize(text);
    assert names + [name] + [] == names + [name] && names + [] == names;
    LinesAround(values, names, name, []);
    LinesAgree(values, left, names);
    SizeBounds(LineOf(values, name));
  }

  // --- changing the file ---

  datatype Error = Invalid | Unreadable | Missing

  class SecretsFile {
    var file: Option<Payload>

    // The values of the file; a file that does not exist has none.
    function Values(): Option<map<string, string>>
      reads this
    {
      if file.None? then Some(map[]) else ParsePayload(file.value)
    }

    method Read(missingOk: bool) returns (error: Option<Error>, values: map<string, string>)
      ensures error == if file.None? && !missingOk then Some(Missing) else if Values().None? then Some(Unreadable) else None
      ensures error.None? ==> Values() == Some(values)
    {
      if file.None? { return if missingOk then None else Some(Missing), map[]; }
      var parsed := ParseSecrets(file.value);
      if parsed.None? { return Some(Unreadable), map[]; }
      return None, parsed.value;
    }

    // Replace the file at once, or leave it.
    method Write(values: map<string, string>) returns (error: Option<Error>)
      modifies this
      ensures error.None? <==> AllValid(values) && Utf8Size(Serialized(values)) <= MAX_SECRETS_FILE_SIZE
      ensures if error.None? then Values() == Some(values) && file == Some(Utf8(Serialized(values))) else file == old(file)
    {
      var text := Serialize(values);
      if text.None? { return Some(Invalid); }
      file := Some(Utf8(text.value));
      RoundTrip(values);
      return None;
    }

    /** Setting a name through the file is an update of its values, and fails only
        for an invalid name or value, an unreadable file or too long a result. */
    method Set(name: string, value: string) returns (error: Option<Error>)
      modifies this
      ensures error.None? <==> ValidName(name) && ValidValue(value) && old(Values()).Some?
                               && Utf8Size(Serialized(old(Values()).value[name := value])) <= MAX_SECRETS_FILE_SIZE
      ensures if error.None? then Values() == Some(old(Values()).value[name := value]) else file == old(file)
    {
      if !ValidName(name) || !ValidValue(value) { return Some(Invalid); }
      var values;
      error, values := Read(true);
      if error.Some? { return; }
      ValuesAreValid();
      error := Write(values[name := value]);
    }

    /** Removing a name is a deletion, and succeeds for any valid name if the file
        can be read; removing an absent one changes nothing. */
    method Remove(name: string) returns (error: Option<Error>, removed: bool)
      modifies this
      ensures error.None? <==> ValidName(name) && old(Values()).Some?
      ensures error.None? ==> (removed <==> name in old(Values()).value)
      ensures if error.None? && removed then Values() == Some(old(Values()).value - {name}) else file == old(file)
    {
      removed := false;
      if !ValidName(name) { return Some(Invalid), false; }
      var values;
      error, values := Read(true);
      if error.Some? { return; }
      if name !in values { return None, false; }
      ValuesAreValid();
      RemovalFits(file.value.text, name);
      error := Write(values - {name});
      removed := error.None?;
    }

    lemma ValuesAreValid()
      requires Values().Some?
      ensures AllValid(Values().value)
    {
      if file.Some? { ParsedIsValid(Split(file.value.text, '\n')); }
    }

    method Check(required: set<string>, missingOk: bool) returns (error: Option<Error>, absent: set<string>)
      ensures error == if file.None? && !missingOk then Some(Missing) else if Values().None? then Some(Unreadable) else None
      ensures error.None? ==> forall name :: name in absent <==> name in required && (name !in Values().value || Values().value[name] == "")
    {
      absent := {};
      var values;
      error, values := Read(missingOk);
      if error.Some? { return; }
      absent := set name <- required | name !in values || values[name] == "";
    }
  }
}
