/** Which lines a dotenv file may hold and what each means, said of the characters themselves. */
module DotenvForms {
  import opened Wrappers
  import opened Dotenv

  // ---- Characters ----

  // What str.strip removes and \s matches.
  const BLANKS := {
    9, 10, 11, 12, 13, 28, 29, 30, 31, 32, 0x85, 0xa0, 0x1680, 0x2000, 0x2001, 0x2002, 0x2003, 0x2004, 0x2005, 0x2006,
    0x2007, 0x2008, 0x2009, 0x200a, 0x2028, 0x2029, 0x202f, 0x205f, 0x3000
  }

  // Where str.splitlines breaks.
  const BREAKS := { 10, 11, 12, 13, 28, 29, 30, 0x85, 0x2028, 0x2029 }

  const CAPITALS := "ABCDEFGHIJKLMNOPQRSTUVWXYZ"
  const SMALL := "abcdefghijklmnopqrstuvwxyz"
  const DIGITS := "0123456789"

  lemma Blanks(c: char)
    ensures Space(c) <==> c as int in BLANKS
  {
  }

  lemma Breaks(c: char)
    ensures Separator(c) <==> c as int in BREAKS
  {
  }

  predicate Blank(s: string) {
    forall c <- s :: Space(c)
  }

  predicate Tight(s: string) {
    s == "" || (!Space(s[0]) && !Space(s[|s| - 1]))
  }

  // [A-Z][A-Z0-9_]*
  predicate KeyForm(key: string) {
    key != "" && key[0] in CAPITALS && forall c <- key :: c in CAPITALS + DIGITS + "_"
  }

  lemma Capital(c: char)
    ensures Upper(c) <==> c in CAPITALS
  {
    if Upper(c) {
      assert CAPITALS[c as int - 'A' as int] == c;
    }
  }

  lemma Digit(c: char)
    ensures '0' <= c <= '9' <==> c in DIGITS
  {
    if '0' <= c <= '9' {
      assert DIGITS[c as int - '0' as int] == c;
    }
  }

  lemma SmallLetter(c: char)
    ensures 'a' <= c <= 'z' <==> c in SMALL
  {
    if 'a' <= c <= 'z' {
      assert SMALL[c as int - 'a' as int] == c;
    }
  }

  lemma KeyLetter(c: char)
    ensures KeyChar(c) <==> c in CAPITALS + DIGITS + "_"
  {
    Capital(c);
    Digit(c);
  }

  lemma Keys(key: string)
    ensures Key(key) <==> KeyForm(key)
  {
    forall c <- key ensures KeyChar(c) <==> c in CAPITALS + DIGITS + "_" {
      KeyLetter(c);
    }
    if key != "" {
      Capital(key[0]);
    }
  }

  // ---- Lines ----

  /** A text breaks at every line break, CR LF being one; the end of the text needs none. */
  lemma LinesSay(line: string, c: char, rest: string)
    requires SingleLine(line) && c as int in BREAKS
    ensures SplitLines("") == [] && (line != "" ==> SplitLines(line) == [line])
    ensures !(c == '\r' && rest != "" && rest[0] == '\n') ==>
      SplitLines(line + [c] + rest) == [line] + SplitLines(rest)
    ensures c == '\r' && rest != "" && rest[0] == '\n' ==>
      SplitLines(line + [c] + rest) == [line] + SplitLines(rest[1..])
  {
    Breaks(c);
    LineEndBehind(line, "");
    assert line + "" == line && line[..|line|] == line;
    var text := line + [c] + rest;
    assert text == line + ([c] + rest);
    LineEndBehind(line, [c] + rest);
    assert text[..|line|] == line && text[|line|] == c && text[|line| + 1..] == rest;
    if rest != "" {
      assert text[|line| + 1] == rest[0] && text[|line| + 2..] == rest[1..];
    }
  }

  lemma {:induction false} SkipBlank(blank: string, rest: string)
    requires Blank(blank) && (rest == "" || !Space(rest[0]))
    ensures SkipSpace(blank + rest) == rest
  {
    if blank == "" {
      assert blank + rest == rest;
    } else {
      assert (blank + rest)[0] == blank[0] && (blank + rest)[1..] == blank[1..] + rest;
      SkipBlank(blank[1..], rest);
    }
  }

  lemma {:induction false} DropBlank(text: string, blank: string)
    requires Blank(blank) && (text == "" || !Space(text[|text| - 1]))
    ensures DropSpace(text + blank) == text
    decreases |blank|
  {
    if blank == "" {
      assert text + blank == text;
    } else {
      var all, last := text + blank, blank[|blank| - 1];
      assert all[|all| - 1] == last && all[..|all| - 1] == text + blank[..|blank| - 1];
      DropBlank(text, blank[..|blank| - 1]);
    }
  }

  lemma {:induction false} SkippedIs(s: string) returns (blank: string)
    ensures Blank(blank) && s == blank + SkipSpace(s)
    ensures SkipSpace(s) != "" ==> !Space(SkipSpace(s)[0])
  {
    blank := "";
    if s != "" && Space(s[0]) {
      var more := SkippedIs(s[1..]);
      blank := [s[0]] + more;
      assert s == [s[0]] + s[1..];
    }
  }

  lemma {:induction false} DroppedIs(s: string) returns (blank: string)
    ensures Blank(blank) && s == DropSpace(s) + blank
    ensures DropSpace(s) != "" ==> !Space(DropSpace(s)[|DropSpace(s)| - 1])
    decreases |s|
  {
    blank := "";
    if s != "" && Space(s[|s| - 1]) {
      var more := DroppedIs(s[..|s| - 1]);
      blank := more + [s[|s| - 1]];
      assert s == s[..|s| - 1] + [s[|s| - 1]];
    }
  }

  /** Stripping removes the blanks around a text and nothing else. */
  lemma StripSays(before: string, text: string, after: string)
    requires Blank(before) && Tight(text) && Blank(after)
    ensures Strip(before + text + after) == text
  {
    assert before + text + after == before + (text + after);
    if text == "" {
      BlankConcat(before, after);
      assert before + (text + after) == (before + after) + "";
      SkipBlank(before + after, "");
    } else {
      assert (text + after)[0] == text[0];
      SkipBlank(before, text + after);
      DropBlank(text, after);
    }
  }

  lemma BlankConcat(a: string, b: string)
    requires Blank(a) && Blank(b)
    ensures Blank(a + b)
  {
  }

  // Every line is a text in blanks.
  lemma Stripped(raw: string) returns (before: string, after: string)
    ensures Blank(before) && Blank(after) && Tight(Strip(raw)) && raw == before + Strip(raw) + after
  {
    before := SkippedIs(raw);
    after := DroppedIs(SkipSpace(raw));
    DropKeepsPrefix(SkipSpace(raw));
    assert raw == before + (Strip(raw) + after);
  }

  // ---- Assignments ----

  // KEY = value, behind export or not, with the blanks between them.
  datatype Parts = Parts(prefix: string, key: string, gap: string, gap': string, value: string)

  function BodyOf(a: Parts): string {
    a.key + (a.gap + ("=" + (a.gap' + a.value)))
  }

  predicate PartsFit(a: Parts) {
    && (a.prefix == "" || ("export" <= a.prefix && |a.prefix| > 6 && Blank(a.prefix[6..])))
    && KeyForm(a.key) && Blank(a.gap) && Blank(a.gap') && (a.value == "" || !Space(a.value[0]))
  }

  predicate AssignmentForm(line: string, a: Parts) {
    PartsFit(a) && line == a.prefix + BodyOf(a)
  }

  lemma BodyForm(a: Parts)
    requires PartsFit(a)
    ensures var body := BodyOf(a);
      && KeyChars(body) == |a.key| && body[..|a.key|] == a.key && Upper(body[0])
      && SkipSpace(body[|a.key|..]) == "=" + (a.gap' + a.value) && SkipSpace(a.gap' + a.value) == a.value
  {
    var body, tail := BodyOf(a), "=" + (a.gap' + a.value);
    Keys(a.key);
    assert body[0] == a.key[0];
    assert a.gap != "" ==> a.gap[0] in a.gap && Space(a.gap[0]);
    assert (a.gap + tail)[0] == if a.gap == "" then '=' else a.gap[0];
    KeyCharsOf(a.key, a.gap + tail);
    assert body[|a.key|..] == a.gap + tail;
    SkipBlank(a.gap, tail);
    SkipBlank(a.gap', a.value);
  }

  lemma AssignedHere(a: Parts)
    requires PartsFit(a)
    ensures Assignment(BodyOf(a)) == Some((a.key, a.value))
  {
    BodyForm(a);
    NotExport(BodyOf(a));
    assert ("=" + (a.gap' + a.value))[1..] == a.gap' + a.value;
  }

  lemma BehindExport(line: string, blank: string, body: string)
    requires line == "export" + blank + body && blank != "" && Blank(blank) && body != "" && Upper(body[0])
    ensures Assignment(line) == Assignment(body)
  {
    assert line[..6] == "export" && line[6..] == blank + body && line[6] == blank[0] && blank[0] in blank;
    SkipBlank(blank, body);
    NotExport(body);
  }

  /** A line of that form assigns the value to the key. */
  lemma AssignmentSays(line: string, a: Parts)
    requires AssignmentForm(line, a)
    ensures Assignment(line) == Some((a.key, a.value))
  {
    AssignedHere(a);
    if a.prefix == "" {
      assert line == BodyOf(a);
    } else {
      BodyForm(a);
      assert a.prefix == "export" + a.prefix[6..];
      BehindExport(line, a.prefix[6..], BodyOf(a));
    }
  }

  lemma {:induction false} KeyCharsAre(s: string)
    ensures forall c <- s[..KeyChars(s)] :: KeyChar(c)
  {
    if s != "" && KeyChar(s[0]) {
      KeyCharsAre(s[1..]);
      assert s[..KeyChars(s)] == [s[0]] + s[1..][..KeyChars(s[1..])];
    }
  }

  // What Assignment looks at behind export.
  lemma ExportPart(line: string) returns (prefix: string, body: string)
    ensures line == prefix + body
    ensures prefix == "" || ("export" <= prefix && |prefix| > 6 && Blank(prefix[6..]))
    ensures body ==
      if |line| > 6 && line[..6] == "export" && Space(line[6]) then SkipSpace(line[6..]) else line
  {
    prefix, body := "", line;
    if |line| > 6 && line[..6] == "export" && Space(line[6]) {
      body := SkipSpace(line[6..]);
      var blank := SkippedIs(line[6..]);
      prefix := "export" + blank;
      assert line == line[..6] + line[6..];
      assert line[6..][0] == line[6] && line[6..] == blank + body;
      assert blank != "";
      assert prefix[6..] == blank;
    }
  }

  lemma BodyParts(body: string, n: nat) returns (gap: string, gap': string)
    requires n == KeyChars(body) && body != "" && Upper(body[0])
    requires var after := SkipSpace(body[n..]); after != "" && after[0] == '='
    ensures var a := Parts("", body[..n], gap, gap', SkipSpace(SkipSpace(body[n..])[1..]));
      PartsFit(a) && body == BodyOf(a)
  {
    var after := SkipSpace(body[n..]);
    KeyCharsAre(body);
    assert n > 0 && KeyChar(body[0]);
    Keys(body[..n]);
    gap := SkippedIs(body[n..]);
    gap' := SkippedIs(after[1..]);
    assert body == body[..n] + body[n..] && after == "=" + after[1..];
  }

  /** No other line does. */
  lemma OnlyAssignments(line: string) returns (a: Parts)
    requires Assignment(line).Some?
    ensures AssignmentForm(line, a) && Assignment(line) == Some((a.key, a.value))
  {
    var prefix, body := ExportPart(line);
    var n := KeyChars(body);
    var gap, gap' := BodyParts(body, n);
    a := Parts(prefix, body[..n], gap, gap', SkipSpace(SkipSpace(body[n..])[1..]));
  }

  // ---- Values ----

  // What json.loads gives for a double-quoted value, the text between single quotes, or the value itself.
  predicate Means(value: string, json: Json, meaning: Option<string>) {
    && (value != "" && value[0] == '"' ==> meaning == Clean(json(value)))
    && (value != "" && value[0] == '\'' && |value| > 1 && value[|value| - 1] == '\'' ==>
          meaning == Clean(Some(value[1..|value| - 1])))
    && (value != "" && value[0] == '\'' && (|value| == 1 || value[|value| - 1] != '\'') ==> meaning == None)
    && (value == "" || (value[0] != '"' && value[0] != '\'') ==> meaning == Clean(Some(value)))
  }

  // CR, LF and NUL are refused in any value.
  function Clean(value: Option<string>): Option<string> {
    if value.Some? && ('\n' in value.value || '\r' in value.value || '\0' in value.value) then None else value
  }

  lemma ValuesSay(value: string, json: Json)
    ensures Means(value, json, Decoded(value, json))
  {
  }

  lemma NotAComment(line: string, a: Parts)
    requires AssignmentForm(line, a)
    ensures line != "" && line[0] != '#'
  {
    assert line[0] == if a.prefix == "" then a.key[0] else "export"[0];
  }

  /** A line in blanks assigns when it has the form of an assignment whose value means something. */
  lemma AssigningLines(raw: string, before: string, line: string, after: string, a: Parts, json: Json)
    requires Blank(before) && Tight(line) && Blank(after) && raw == before + line + after && AssignmentForm(line, a)
    ensures UpdateKey(raw) == Some(a.key)
    ensures ParseLine(raw, json) ==
      if Decoded(a.value, json).Some? then Assign(a.key, Decoded(a.value, json).value) else Bad
  {
    StripSays(before, line, after);
    AssignmentSays(line, a);
    NotAComment(line, a);
  }

  /** It is ignored when it is empty or a comment, and bad when it is neither of all these. */
  lemma OtherLines(raw: string, before: string, line: string, after: string, json: Json)
    requires Blank(before) && Tight(line) && Blank(after) && raw == before + line + after
    requires forall a: Parts :: !AssignmentForm(line, a)
    ensures UpdateKey(raw) == None
    ensures ParseLine(raw, json) == if line == "" || line[0] == '#' then Ignored else Bad
  {
    StripSays(before, line, after);
    if Assignment(line).Some? {
      var a := OnlyAssignments(line);
    }
  }

  // ---- Encoding ----

  const PLAIN_CHARACTERS := SMALL + CAPITALS + DIGITS + "_.:/+@%=,?-"

  /** A value of plain characters is written as it is, any other in single quotes; a single quote, CR or LF
      is refused. */
  lemma EncodeSays(value: string)
    ensures (forall c <- value :: c in PLAIN_CHARACTERS) ==> Encode(value) == Some(value)
    ensures (exists c <- value :: c !in PLAIN_CHARACTERS) ==>
      (Encode(value) == if '\'' in value || '\n' in value || '\r' in value then None else Some("'" + value + "'"))
  {
    forall c <- value ensures Safe(c) <==> c in PLAIN_CHARACTERS {
      Capital(c);
      Digit(c);
      SmallLetter(c);
    }
  }

  // ---- Updating ----

  lemma {:induction false} FirstOfKey(lines: seq<string>, changes: seq<Change>, i: nat, c: Change)
    requires Encodable(changes) && c in changes && i < |lines| && UpdateKey(lines[i]) == Some(c.key)
    ensures Rewritten(lines, changes)[i] == if c.key in UpdateKeys(lines[..i]) then lines[i] else Text(c)
    decreases |lines|
  {
    var front := lines[..|lines| - 1];
    if i < |lines| - 1 {
      FirstOfKey(front, changes, i, c);
      assert front[..i] == lines[..i];
    } else {
      FindTheChange(changes, c);
    }
  }

  /** The first line of a changed key is rewritten; a later line of that key stays. */
  lemma FirstLineRewritten(lines: seq<string>, changes: seq<Change>, i: nat, c: Change)
    requires Encodable(changes) && c in changes && i < |lines| && UpdateKey(lines[i]) == Some(c.key)
    ensures Updated(lines, changes)[i] ==
      if forall j | 0 <= j < i :: UpdateKey(lines[j]) != Some(c.key) then c.key + "=" + c.encoded else lines[i]
  {
    FirstOfKey(lines, changes, i, c);
    assert c.key in UpdateKeys(lines[..i]) <==> exists j | 0 <= j < i :: UpdateKey(lines[j]) == Some(c.key) by {
      forall j | 0 <= j < i && UpdateKey(lines[j]) == Some(c.key) ensures c.key in UpdateKeys(lines[..i]) {
        assert lines[j] in lines[..i];
      }
    }
  }

  /** Changes whose key has no line come behind all lines, in their order. */
  lemma {:induction false} NewKeysAppended(lines: seq<string>, changes: seq<Change>)
    ensures |Updated(lines, changes)| <= |lines| + |changes|
    ensures Updated(lines, changes)[|lines|..] == Texts(Remaining(changes, UpdateKeys(lines)))
    ensures (forall c <- changes :: c.key !in UpdateKeys(lines)) ==>
      && |Updated(lines, changes)| == |lines| + |changes|
      && forall i | 0 <= i < |changes| ::
           Updated(lines, changes)[|lines| + i] == changes[i].key + "=" + changes[i].encoded
  {
    var taken := UpdateKeys(lines);
    RemainingCount(changes, taken);
    TextsCount(Remaining(changes, taken));
    if forall c <- changes :: c.key !in taken {
      AllRemain(changes, taken);
    }
  }

  lemma {:induction false} RemainingCount(changes: seq<Change>, taken: set<string>)
    ensures |Remaining(changes, taken)| <= |changes|
  {
    if changes != [] {
      RemainingCount(changes[..|changes| - 1], taken);
    }
  }

  lemma {:induction false} AllRemain(changes: seq<Change>, taken: set<string>)
    requires forall c <- changes :: c.key !in taken
    ensures Remaining(changes, taken) == changes
  {
    if changes != [] {
      AllRemain(changes[..|changes| - 1], taken);
    }
  }

  lemma {:induction false} TextsCount(changes: seq<Change>)
    ensures |Texts(changes)| == |changes|
    ensures forall i | 0 <= i < |changes| :: Texts(changes)[i] == changes[i].key + "=" + changes[i].encoded
  {
    if changes != [] {
      TextsCount(changes[..|changes| - 1]);
    }
  }

  /** The file ends with a newline, each line does, and nothing else is between them. */
  lemma {:induction false} FileSays(lines: seq<string>, last: string)
    ensures JoinLines([]) == "\n" && JoinLines([last]) == last + "\n"
    ensures lines != [] ==> JoinLines(lines + [last]) == JoinLines(lines) + last + "\n"
  {
    if |lines| == 1 {
      assert (lines + [last])[1..] == [last];
    } else if lines != [] {
      FileSays(lines[1..], last);
      assert (lines + [last])[1..] == lines[1..] + [last];
    }
  }
}
