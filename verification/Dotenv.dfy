/** The deployment dotenv file: load, encode and update. */
module Dotenv {
  import opened Wrappers

  // ---- Characters and lines, as Python's str sees them ----

  predicate Space(c: char) {
    var n := c as int;
    9 <= n <= 13 || 28 <= n <= 32 || n == 0x85 || n == 0xa0 || n == 0x1680 || 0x2000 <= n <= 0x200a
    || n == 0x2028 || n == 0x2029 || n == 0x202f || n == 0x205f || n == 0x3000
  }

  // The characters at which str.splitlines breaks.
  predicate Separator(c: char) {
    var n := c as int;
    10 <= n <= 13 || 28 <= n <= 30 || n == 0x85 || n == 0x2028 || n == 0x2029
  }

  predicate SingleLine(s: string) {
    forall c <- s :: !Separator(c)
  }

  predicate AllSingle(lines: seq<string>) {
    forall line <- lines :: SingleLine(line)
  }

  // The position of the first separator.
  function LineEnd(text: string): (n: nat)
    ensures n <= |text| && SingleLine(text[..n]) && (n < |text| ==> Separator(text[n]))
  {
    if text == "" || Separator(text[0]) then 0
    else
      var n := 1 + LineEnd(text[1..]);
      assert text[..n] == [text[0]] + text[1..][..n - 1];
      n
  }

  function SplitLines(text: string): seq<string> {
    if text == "" then []
    else
      var n := LineEnd(text);
      if n == |text| then [text]
      else if text[n] == '\r' && n + 1 < |text| && text[n + 1] == '\n' then [text[..n]] + SplitLines(text[n + 2..])
      else [text[..n]] + SplitLines(text[n + 1..])
  }

  // "\n".join(lines) + "\n"
  function JoinLines(lines: seq<string>): string {
    if |lines| == 0 then "\n"
    else if |lines| == 1 then lines[0] + "\n"
    else lines[0] + "\n" + JoinLines(lines[1..])
  }

  lemma {:induction false} LineEndBehind(a: string, b: string)
    requires SingleLine(a)
    ensures LineEnd(a + b) == |a| + LineEnd(b)
  {
    if a == "" {
      assert a + b == b;
    } else {
      assert a[0] in a && (a + b)[1..] == a[1..] + b;
      LineEndBehind(a[1..], b);
    }
  }

  lemma SplitAt(line: string, c: char, rest: string)
    requires SingleLine(line) && Separator(c) && c != '\r'
    ensures SplitLines(line + [c] + rest) == [line] + SplitLines(rest)
  {
    var text := line + [c] + rest;
    assert text == line + ([c] + rest);
    LineEndBehind(line, [c] + rest);
    assert text[..|line|] == line && text[|line|] == c && text[|line| + 1..] == rest;
  }

  lemma SplitFirst(line: string, rest: string)
    requires SingleLine(line)
    ensures SplitLines(line + "\n" + rest) == [line] + SplitLines(rest)
  {
    SplitAt(line, '\n', rest);
  }

  lemma {:induction false} SplitIsSingle(text: string)
    ensures AllSingle(SplitLines(text))
    decreases |text|
  {
    if text != "" {
      var n := LineEnd(text);
      assert text[..|text|] == text;
      if n < |text| {
        SplitIsSingle(text[n + 1..]);
        if n + 1 < |text| {
          SplitIsSingle(text[n + 2..]);
        }
      }
    }
  }

  /** Written lines read back as they are exactly when none holds a separator. */
  lemma {:induction false} WrittenLines(lines: seq<string>)
    requires lines != []
    ensures SplitLines(JoinLines(lines)) == lines <==> AllSingle(lines)
  {
    SplitIsSingle(JoinLines(lines));
    if AllSingle(lines) {
      assert lines[0] in lines;
      if |lines| == 1 {
        assert lines[0] + "\n" == lines[0] + "\n" + "";
        SplitFirst(lines[0], "");
        assert lines == [lines[0]];
      } else {
        WrittenLines(lines[1..]);
        SplitFirst(lines[0], JoinLines(lines[1..]));
      }
    }
  }

  // ---- Syntax ----

  function SkipSpace(s: string): string {
    if s != "" && Space(s[0]) then SkipSpace(s[1..]) else s
  }

  function DropSpace(s: string): string {
    if s != "" && Space(s[|s| - 1]) then DropSpace(s[..|s| - 1]) else s
  }

  function Strip(s: string): string {
    DropSpace(SkipSpace(s))
  }

  predicate Upper(c: char) {
    'A' <= c <= 'Z'
  }

  predicate KeyChar(c: char) {
    Upper(c) || '0' <= c <= '9' || c == '_'
  }

  predicate Key(s: string) {
    s != "" && Upper(s[0]) && forall c <- s :: KeyChar(c)
  }

  function KeyChars(s: string): (n: nat)
    ensures n <= |s|
  {
    if s == "" || !KeyChar(s[0]) then 0 else 1 + KeyChars(s[1..])
  }

  // The key and what follows the equals sign, in a stripped line.
  function Assignment(line: string): Option<(string, string)> {
    var body :=
      if |line| > 6 && line[..6] == "export" && Space(line[6]) then SkipSpace(line[6..]) else line;
    if body == "" || !Upper(body[0]) then None
    else
      var n := KeyChars(body);
      var after := SkipSpace(body[n..]);
      if after != "" && after[0] == '=' then Some((body[..n], SkipSpace(after[1..]))) else None
  }

  // json.loads on a string literal.
  type Json = string -> Option<string>

  function Decoded(value: string, json: Json): Option<string> {
    var plain :=
      if value != "" && value[0] == '"' then json(value)
      else if value != "" && value[0] == '\'' then
        if |value| >= 2 && value[|value| - 1] == '\'' then Some(value[1..|value| - 1]) else None
      else Some(value);
    if plain.Some? && Storable(plain.value) then plain else None
  }

  predicate Storable(value: string) {
    forall c <- value :: c != '\n' && c != '\r' && c != '\0'
  }

  datatype Line = Ignored | Assign(key: string, value: string) | Bad

  function ParseLine(raw: string, json: Json): Line {
    var line := Strip(raw);
    if line == "" || line[0] == '#' then Ignored
    else
      var parts := Assignment(line);
      if parts.None? then Bad
      else
        var value := Decoded(parts.value.1, json);
        if value.Some? then Assign(parts.value.0, value.value) else Bad
  }

  // ---- Loading ----

  function Load(lines: seq<string>, json: Json): Option<map<string, string>>
    decreases |lines|
  {
    if lines == [] then Some(map[])
    else
      var before := Load(lines[..|lines| - 1], json);
      if before.None? then None
      else
        match ParseLine(lines[|lines| - 1], json)
        case Ignored => before
        case Bad => None
        case Assign(key, value) => if key in before.value then None else Some(before.value[key := value])
  }

  // ---- Encoding ----

  predicate Safe(c: char) {
    'a' <= c <= 'z' || 'A' <= c <= 'Z' || '0' <= c <= '9' || c in "_.:/+@%=,?-"
  }

  function Encode(value: string): Option<string> {
    if forall c <- value :: Safe(c) then Some(value)
    else if '\'' in value || '\n' in value || '\r' in value then None
    else Some("'" + value + "'")
  }

  // ---- Updating ----

  // The key whose line update would rewrite.
  function UpdateKey(raw: string): Option<string> {
    var parts := Assignment(Strip(raw));
    if parts.Some? then Some(parts.value.0) else None
  }

  function UpdateKeys(lines: seq<string>): set<string> {
    set line <- lines | UpdateKey(line).Some? :: UpdateKey(line).value
  }

  // Changes are a dict: distinct keys in order. Each encoded value is what encode returned.
  datatype Change = Change(key: string, value: string, encoded: string)

  function Find(changes: seq<Change>, key: string): (r: Option<Change>)
    ensures r.Some? ==> r.value in changes && r.value.key == key
    ensures r.None? ==> forall c <- changes :: c.key != key
  {
    if changes == [] then None
    else if changes[|changes| - 1].key == key then Some(changes[|changes| - 1])
    else Find(changes[..|changes| - 1], key)
  }

  function Text(change: Change): string {
    change.key + "=" + change.encoded
  }

  // What becomes of a line when the keys `taken` had earlier lines.
  function NewLine(taken: set<string>, line: string, changes: seq<Change>): string {
    var key := UpdateKey(line);
    var change := if key.Some? && key.value !in taken then Find(changes, key.value) else None;
    if change.Some? then Text(change.value) else line
  }

  // The rewritten lines: the first line of each changed key is replaced.
  function Rewritten(lines: seq<string>, changes: seq<Change>): (r: seq<string>)
    ensures |r| == |lines|
    decreases |lines|
  {
    if lines == [] then []
    else
      var front, last := lines[..|lines| - 1], lines[|lines| - 1];
      Rewritten(front, changes) + [NewLine(UpdateKeys(front), last, changes)]
  }

  // The changes no line has a place for, in their order.
  function Remaining(changes: seq<Change>, taken: set<string>): seq<Change> {
    if changes == [] then []
    else
      var last := changes[|changes| - 1];
      Remaining(changes[..|changes| - 1], taken) + if last.key in taken then [] else [last]
  }

  function Texts(changes: seq<Change>): seq<string> {
    if changes == [] then [] else Texts(changes[..|changes| - 1]) + [Text(changes[|changes| - 1])]
  }

  function Updated(lines: seq<string>, changes: seq<Change>): seq<string> {
    Rewritten(lines, changes) + Texts(Remaining(changes, UpdateKeys(lines)))
  }

  // What update takes: distinct keys, and values that encode accepts.
  predicate Encodable(changes: seq<Change>) {
    && (forall c <- changes :: Key(c.key) && Encode(c.value) == Some(c.encoded))
    && forall i, j | 0 <= i < j < |changes| :: changes[i].key != changes[j].key
  }

  // A value that keeps to one line and can be loaded.
  predicate Plain(value: string) {
    SingleLine(value) && '\0' !in value
  }

  predicate WellFormed(changes: seq<Change>) {
    Encodable(changes) && forall c <- changes :: Plain(c.value)
  }

  function Overridden(values: map<string, string>, changes: seq<Change>): map<string, string> {
    if changes == [] then values
    else
      var last := changes[|changes| - 1];
      Overridden(values, changes[..|changes| - 1])[last.key := last.value]
  }

  // ---- An encoded line reads back ----

  lemma {:induction false} KeyCharsOf(key: string, rest: string)
    requires (forall c <- key :: KeyChar(c)) && (rest == "" || !KeyChar(rest[0]))
    ensures KeyChars(key + rest) == |key|
  {
    if key == "" {
      assert key + rest == rest;
    } else {
      assert key[0] in key;
      assert (key + rest)[1..] == key[1..] + rest;
      KeyCharsOf(key[1..], rest);
    }
  }

  lemma NoSpaceInSafe(s: string)
    requires forall c <- s :: Safe(c)
    ensures s != "" ==> !Space(s[0]) && !Space(s[|s| - 1]) && s[0] != '"' && s[0] != '\''
    ensures Storable(s)
  {
    if s != "" {
      assert s[0] in s && s[|s| - 1] in s;
    }
  }

  lemma EncodedShape(value: string, json: Json)
    requires Encode(value).Some?
    ensures var e := Encode(value).value;
      && (e != "" ==> !Space(e[0]) && !Space(e[|e| - 1]))
      && Decoded(e, json) == (if '\0' in value then None else Some(value))
      && (SingleLine(value) ==> SingleLine(e))
  {
    var e := Encode(value).value;
    if e == value {
      NoSpaceInSafe(value);
    } else {
      assert e[1..|e| - 1] == value;
    }
  }

  lemma NotExport(text: string)
    requires text != "" && Upper(text[0])
    ensures |text| > 6 ==> text[..6] != "export"
  {
    if |text| > 6 {
      assert text[..6][0] == text[0] && "export"[0] == 'e';
    }
  }

  lemma PlainAssignment(key: string, rest: string)
    requires Key(key) && (rest == "" || !Space(rest[0]))
    ensures Assignment(key + "=" + rest) == Some((key, rest))
  {
    var text := key + "=" + rest;
    assert key[0] in key;
    assert text[0] == key[0];
    NotExport(text);
    assert text == key + ("=" + rest);
    KeyCharsOf(key, "=" + rest);
    var after := text[|key|..];
    assert after == "=" + rest && after[1..] == rest;
    assert text[..|key|] == key;
    assert SkipSpace(after) == after && SkipSpace(rest) == rest;
  }

  lemma AlreadyStripped(text: string)
    requires text != "" && !Space(text[0]) && !Space(text[|text| - 1])
    ensures Strip(text) == text
  {
  }

  /** The line written for a key and a value that encode accepts loads as that key with that value
      exactly when the value holds no NUL. */
  lemma WrittenLineLoads(key: string, value: string, json: Json)
    requires Key(key) && Encode(value).Some?
    ensures ParseLine(key + "=" + Encode(value).value, json) ==
      if '\0' in value then Bad else Assign(key, value)
    ensures UpdateKey(key + "=" + Encode(value).value) == Some(key)
  {
    var e := Encode(value).value;
    var text := key + "=" + e;
    EncodedShape(value, json);
    assert key[0] in key;
    assert text[0] == key[0];
    assert text[|text| - 1] == if e == "" then '=' else e[|e| - 1];
    AlreadyStripped(text);
    PlainAssignment(key, e);
  }

  lemma EncodedLine(change: Change, json: Json)
    requires WellFormed([change])
    ensures ParseLine(Text(change), json) == Assign(change.key, change.value)
    ensures UpdateKey(Text(change)) == Some(change.key) && SingleLine(Text(change))
  {
    assert change == [change][0];
    WrittenLineLoads(change.key, change.value, json);
    EncodedShape(change.value, json);
  }

  // ---- Loading after an update ----

  lemma {:induction false} KeysLoaded(lines: seq<string>, json: Json)
    requires Load(lines, json).Some?
    ensures Load(lines, json).value.Keys == UpdateKeys(lines)
    decreases |lines|
  {
    if lines != [] {
      var front, last := lines[..|lines| - 1], lines[|lines| - 1];
      KeysLoaded(front, json);
      assert lines == front + [last];
      assert forall line :: line in lines <==> line in front || line == last;
      LineKey(last, json);
    }
  }

  lemma LineKey(raw: string, json: Json)
    requires !ParseLine(raw, json).Bad?
    ensures UpdateKey(raw) == if ParseLine(raw, json).Assign? then Some(ParseLine(raw, json).key) else None
  {
  }

  lemma OneWellFormed(changes: seq<Change>, c: Change)
    requires WellFormed(changes) && c in changes
    ensures WellFormed([c])
  {
  }

  // The values with those keys that occur among the changes replaced.
  function Patched(values: map<string, string>, changes: seq<Change>): map<string, string> {
    map k | k in values :: if Find(changes, k).Some? then Find(changes, k).value.value else values[k]
  }

  lemma LoadPush(lines: seq<string>, line: string, json: Json)
    requires Load(lines, json).Some?
    ensures Load(lines + [line], json) ==
      match ParseLine(line, json)
      case Ignored => Load(lines, json)
      case Bad => None
      case Assign(key, value) =>
        if key in Load(lines, json).value then None else Some(Load(lines, json).value[key := value])
  {
    assert (lines + [line])[..|lines|] == lines;
  }

  // A line of a loadable file and what replaces it have the same key.
  lemma NewLineParses(taken: set<string>, line: string, changes: seq<Change>, json: Json)
    requires WellFormed(changes) && !ParseLine(line, json).Bad?
    requires UpdateKey(line).Some? ==> UpdateKey(line).value !in taken
    ensures ParseLine(line, json).Ignored? ==> NewLine(taken, line, changes) == line
    ensures ParseLine(line, json).Assign? ==>
      var key := ParseLine(line, json).key;
      ParseLine(NewLine(taken, line, changes), json) ==
        Assign(key, if Find(changes, key).Some? then Find(changes, key).value.value else ParseLine(line, json).value)
  {
    LineKey(line, json);
    var parsed := ParseLine(line, json);
    if parsed.Assign? && Find(changes, parsed.key).Some? {
      OneWellFormed(changes, Find(changes, parsed.key).value);
      EncodedLine(Find(changes, parsed.key).value, json);
    }
  }

  lemma PatchedPush(values: map<string, string>, changes: seq<Change>, key: string, value: string)
    requires key !in values
    ensures Patched(values[key := value], changes) ==
            Patched(values, changes)[key := if Find(changes, key).Some? then Find(changes, key).value.value else value]
  {
  }

  lemma {:induction false} RewrittenLoads(lines: seq<string>, changes: seq<Change>, json: Json)
    requires Load(lines, json).Some? && WellFormed(changes)
    ensures Load(Rewritten(lines, changes), json) == Some(Patched(Load(lines, json).value, changes))
    decreases |lines|
  {
    if lines != [] {
      var front, last := lines[..|lines| - 1], lines[|lines| - 1];
      RewrittenLoads(front, changes, json);
      KeysLoaded(front, json);
      LineKey(last, json);
      NewLineParses(UpdateKeys(front), last, changes, json);
      LoadPush(Rewritten(front, changes), NewLine(UpdateKeys(front), last, changes), json);
      var parsed := ParseLine(last, json);
      if parsed.Assign? {
        PatchedPush(Load(front, json).value, changes, parsed.key, parsed.value);
      }
    } else {
      assert Patched(map[], changes) == map[];
    }
  }

  lemma {:induction false} AppendedLoads(before: seq<string>, changes: seq<Change>, json: Json)
    requires Load(before, json).Some? && WellFormed(changes)
    requires forall c <- changes :: c.key !in Load(before, json).value
    ensures Load(before + Texts(changes), json) == Some(Overridden(Load(before, json).value, changes))
    decreases |changes|
  {
    if changes == [] {
      assert before + Texts(changes) == before;
    } else {
      var front, last := changes[..|changes| - 1], changes[|changes| - 1];
      assert forall c <- front :: c in changes;
      AppendedLoads(before, front, json);
      OverriddenAt(Load(before, json).value, front, last.key);
      OneWellFormed(changes, last);
      EncodedLine(last, json);
      assert before + Texts(changes) == (before + Texts(front)) + [Text(last)];
      LoadPush(before + Texts(front), Text(last), json);
    }
  }

  lemma {:induction false} RemainingAre(changes: seq<Change>, taken: set<string>)
    ensures forall c :: c in Remaining(changes, taken) <==> c in changes && c.key !in taken
    ensures WellFormed(changes) ==> WellFormed(Remaining(changes, taken))
  {
    if changes != [] {
      var front, last := changes[..|changes| - 1], changes[|changes| - 1];
      assert changes == front + [last];
      RemainingAre(front, taken);
    }
  }

  lemma {:induction false} OverriddenAt(values: map<string, string>, changes: seq<Change>, k: string)
    requires WellFormed(changes)
    ensures k in Overridden(values, changes) <==> k in values || Find(changes, k).Some?
    ensures k in Overridden(values, changes) ==>
      Overridden(values, changes)[k] == if Find(changes, k).Some? then Find(changes, k).value.value else values[k]
    decreases |changes|
  {
    if changes != [] {
      OverriddenAt(values, changes[..|changes| - 1], k);
    }
  }

  lemma {:induction false} FindRemaining(changes: seq<Change>, taken: set<string>, k: string)
    ensures Find(Remaining(changes, taken), k) == if k in taken then None else Find(changes, k)
  {
    if changes != [] {
      var front, last := changes[..|changes| - 1], changes[|changes| - 1];
      FindRemaining(front, taken, k);
      if last.key in taken {
        assert Remaining(changes, taken) == Remaining(front, taken);
      } else {
        assert Remaining(changes, taken)[..|Remaining(front, taken)|] == Remaining(front, taken);
      }
    }
  }

  /** Loading after an update gives the old values overridden by the changes; no key occurs twice. */
  lemma UpdateLoads(lines: seq<string>, changes: seq<Change>, json: Json)
    requires Load(lines, json).Some? && WellFormed(changes)
    ensures Load(Updated(lines, changes), json) == Some(Overridden(Load(lines, json).value, changes))
  {
    var old', taken := Load(lines, json).value, UpdateKeys(lines);
    RewrittenLoads(lines, changes, json);
    KeysLoaded(lines, json);
    RemainingAre(changes, taken);
    AppendedLoads(Rewritten(lines, changes), Remaining(changes, taken), json);
    var new' := Overridden(Patched(old', changes), Remaining(changes, taken));
    forall k ensures k in new' <==> k in Overridden(old', changes)
      ensures k in new' ==> new'[k] == Overridden(old', changes)[k]
    {
      OverriddenAt(Patched(old', changes), Remaining(changes, taken), k);
      OverriddenAt(old', changes, k);
      FindRemaining(changes, taken, k);
    }
    assert new' == Overridden(old', changes);
  }

  /** Comments and lines of unchanged keys stay as they are, in order. */
  lemma {:induction false} OtherLinesKept(lines: seq<string>, changes: seq<Change>, i: nat)
    requires i < |lines|
    requires UpdateKey(lines[i]).None? || Find(changes, UpdateKey(lines[i]).value).None?
    ensures Updated(lines, changes)[i] == lines[i]
    decreases |lines|
  {
    if i < |lines| - 1 {
      OtherLinesKept(lines[..|lines| - 1], changes, i);
    }
  }

  // ---- Files ----

  function LoadText(text: string, json: Json): Option<map<string, string>> {
    Load(SplitLines(text), json)
  }

  // What holds of every line and of every written line holds of the updated lines.
  lemma UpdatedAll(lines: seq<string>, changes: seq<Change>, holds: string -> bool)
    requires forall line <- lines :: holds(line)
    requires forall c <- changes :: holds(Text(c))
    ensures forall line <- Updated(lines, changes) :: holds(line)
  {
    RewrittenAll(lines, changes, holds);
    RemainingAre(changes, UpdateKeys(lines));
    TextsAll(Remaining(changes, UpdateKeys(lines)), holds);
  }

  lemma {:induction false} TextsAll(changes: seq<Change>, holds: string -> bool)
    requires forall c <- changes :: holds(Text(c))
    ensures forall line <- Texts(changes) :: holds(line)
  {
    if changes != [] {
      var front := changes[..|changes| - 1];
      assert forall c <- front :: c in changes;
      TextsAll(front, holds);
    }
  }

  lemma {:induction false} RewrittenAll(lines: seq<string>, changes: seq<Change>, holds: string -> bool)
    requires forall line <- lines :: holds(line)
    requires forall c <- changes :: holds(Text(c))
    ensures forall line <- Rewritten(lines, changes) :: holds(line)
    decreases |lines|
  {
    if lines != [] {
      var front := lines[..|lines| - 1];
      assert forall line <- front :: line in lines;
      RewrittenAll(front, changes, holds);
    }
  }

  lemma {:induction false} TextsHave(changes: seq<Change>, c: Change)
    requires c in changes
    ensures Text(c) in Texts(changes)
  {
    if c != changes[|changes| - 1] {
      TextsHave(changes[..|changes| - 1], c);
    }
  }

  lemma {:induction false} FindTheChange(changes: seq<Change>, c: Change)
    requires Encodable(changes) && c in changes
    ensures Find(changes, c.key) == Some(c)
  {
    if c != changes[|changes| - 1] {
      FindTheChange(changes[..|changes| - 1], c);
    }
  }

  lemma {:induction false} RewrittenHas(lines: seq<string>, changes: seq<Change>, c: Change)
    requires Encodable(changes) && c in changes && c.key in UpdateKeys(lines)
    ensures Text(c) in Rewritten(lines, changes)
    decreases |lines|
  {
    var front, last := lines[..|lines| - 1], lines[|lines| - 1];
    assert lines == front + [last];
    OneMoreKey(front, last);
    if c.key in UpdateKeys(front) {
      RewrittenHas(front, changes, c);
    } else {
      FindTheChange(changes, c);
    }
  }

  lemma UpdatedHas(lines: seq<string>, changes: seq<Change>, c: Change)
    requires Encodable(changes) && c in changes
    ensures Text(c) in Updated(lines, changes)
  {
    var taken := UpdateKeys(lines);
    if c.key in taken {
      RewrittenHas(lines, changes, c);
    } else {
      RemainingAre(changes, taken);
      TextsHave(Remaining(changes, taken), c);
    }
  }

  predicate NoNewline(line: string) {
    '\n' !in line && '\r' !in line
  }

  // A text that begins with the line and a newline.
  predicate Begins(text: string, line: string) {
    |line| < |text| && text[..|line|] == line && text[|line|] == '\n'
  }

  lemma SplitHere(text: string)
    requires LineEnd(text) < |text| && text[LineEnd(text)] != '\r'
    ensures SplitLines(text) == [text[..LineEnd(text)]] + SplitLines(text[LineEnd(text) + 1..])
  {
  }

  lemma SameEnd(line: string, text: string)
    requires Begins(text, line)
    ensures LineEnd(text) == LineEnd(line)
  {
    var n := LineEnd(line);
    assert text[..n] == text[..|line|][..n];
    assert text == text[..n] + text[n..];
    LineEndBehind(text[..n], text[n..]);
    assert n < |line| ==> text[n] == text[..|line|][n];
  }

  lemma BeginsBehind(line: string, text: string, n: nat)
    requires Begins(text, line) && n <= |line|
    ensures Begins(text[n..], line[n..]) && text[n..][|line[n..]| + 1..] == text[|line| + 1..]
  {
    assert text[n..][..|line| - n] == text[..|line|][n..];
  }

  lemma FirstPiece(line: string, text: string)
    requires NoNewline(line) && Begins(text, line)
    ensures var n := LineEnd(line);
      n < |text| && SplitLines(text) == [line[..n]] + SplitLines(text[n + 1..])
  {
    var n := LineEnd(line);
    SameEnd(line, text);
    assert n < |line| ==> text[n] == text[..|line|][n] && line[n] in line;
    assert text[..n] == text[..|line|][..n];
    SplitHere(text);
  }

  predicate Reads(text: string, line: string) {
    line in SplitLines(text)
  }

  lemma ReadLater(line: string, text: string, x: string)
    requires NoNewline(line) && Begins(text, line) && Reads(text[LineEnd(line) + 1..], x)
    ensures Reads(text, x)
  {
    FirstPiece(line, text);
  }

  lemma {:induction false} ReadBehind(line: string, text: string, x: string)
    requires NoNewline(line) && Begins(text, line) && Reads(text[|line| + 1..], x)
    ensures Reads(text, x)
    decreases |line|
  {
    var n := LineEnd(line);
    if n < |line| {
      BeginsBehind(line, text, n + 1);
      ReadBehind(line[n + 1..], text[n + 1..], x);
    }
    ReadLater(line, text, x);
  }

  /** What a written line holds up to its first separator is read back as a line. */
  lemma {:induction false} FirstPieceIsRead(lines: seq<string>, line: string)
    requires line in lines && forall l <- lines :: NoNewline(l)
    ensures Reads(JoinLines(lines), line[..LineEnd(line)])
  {
    var text := JoinLines(lines);
    if line == lines[0] {
      FirstPiece(line, text);
    } else {
      var x := line[..LineEnd(line)];
      FirstPieceIsRead(lines[1..], line);
      assert text[|lines[0]| + 1..] == JoinLines(lines[1..]);
      ReadBehind(lines[0], text, x);
    }
  }

  lemma {:induction false} BadLineFails(lines: seq<string>, line: string, json: Json)
    requires line in lines && ParseLine(line, json).Bad?
    ensures Load(lines, json).None?
    decreases |lines|
  {
    if line != lines[|lines| - 1] {
      BadLineFails(lines[..|lines| - 1], line, json);
    }
  }

  lemma {:induction false} DropBehind(a: string, b: string)
    requires a != "" && !Space(a[|a| - 1])
    ensures DropSpace(a + b) == a + DropSpace(b)
    decreases |b|
  {
    if b == "" {
      assert a + b == a;
    } else if Space(b[|b| - 1]) {
      assert (a + b)[..|a + b| - 1] == a + b[..|b| - 1];
      DropBehind(a, b[..|b| - 1]);
    }
  }

  lemma {:induction false} DropKeepsPrefix(s: string)
    ensures DropSpace(s) <= s
  {
    if s != "" && Space(s[|s| - 1]) {
      DropKeepsPrefix(s[..|s| - 1]);
    }
  }

  // A value whose quotes are opened and not closed.
  lemma OpenQuote(key: string, value: string, json: Json)
    requires Key(key) && '\'' !in value
    ensures ParseLine(key + "='" + value, json).Bad?
  {
    var head, kept := key + "='", DropSpace(value);
    assert key[0] in key && head[0] == key[0];
    assert (head + value)[0] == key[0];
    DropBehind(head, value);
    DropKeepsPrefix(value);
    assert head + kept == key + "=" + ("'" + kept);
    PlainAssignment(key, "'" + kept);
    assert Strip(head + value) == head + kept;
    assert ("'" + kept)[0] == '\'';
  }

  lemma WrittenNoNewline(c: Change)
    requires Encodable([c])
    ensures NoNewline(Text(c))
  {
    assert c == [c][0];
    assert forall x <- c.key :: KeyChar(x);
  }

  lemma BrokenText(key: string, value: string)
    requires Key(key) && !SingleLine(value)
    ensures var text, n := key + "='" + value + "'", LineEnd(value);
      text[..LineEnd(text)] == key + "='" + value[..n]
  {
    var head, n := key + "='", LineEnd(value);
    assert value[..|value|] == value;
    assert forall c <- key :: KeyChar(c) && !Separator(c);
    assert head + value + "'" == (head + value[..n]) + (value[n..] + "'");
    LineEndBehind(head + value[..n], value[n..] + "'");
    assert LineEnd(value[n..] + "'") == 0;
  }

  /** The first piece of a line written for a value with a separator or a NUL cannot be loaded. */
  lemma NotPlainIsBad(c: Change, json: Json)
    requires Encodable([c]) && !Plain(c.value)
    ensures ParseLine(Text(c)[..LineEnd(Text(c))], json).Bad?
  {
    assert c == [c][0];
    if SingleLine(c.value) {
      assert SingleLine(Text(c)) by { SingleText(c, json); }
      LineEndBehind(Text(c), "");
      assert Text(c) + "" == Text(c) && Text(c)[..|Text(c)|] == Text(c);
      WrittenLineLoads(c.key, c.value, json);
    } else {
      QuotedText(c);
      BrokenText(c.key, c.value);
      OpenQuote(c.key, c.value[..LineEnd(c.value)], json);
    }
  }

  lemma SingleText(c: Change, json: Json)
    requires Encodable([c]) && SingleLine(c.value)
    ensures SingleLine(Text(c))
  {
    assert c == [c][0];
    assert forall x <- c.key :: KeyChar(x) && !Separator(x);
    EncodedShape(c.value, json);
  }

  lemma QuotedText(c: Change)
    requires Encodable([c]) && !SingleLine(c.value)
    ensures Text(c) == c.key + "='" + c.value + "'" && '\'' !in c.value
  {
    assert c == [c][0];
    var x :| x in c.value && Separator(x);
    assert !Safe(x);
    assert c.encoded == "'" + c.value + "'";
    assert c.key + "=" + ("'" + c.value + "'") == c.key + "='" + c.value + "'";
  }

  lemma UpdatedNoNewline(lines: seq<string>, changes: seq<Change>)
    requires AllSingle(lines) && Encodable(changes)
    ensures forall line <- Updated(lines, changes) :: NoNewline(line)
  {
    forall c <- changes ensures NoNewline(Text(c)) {
      WrittenNoNewline(c);
    }
    UpdatedAll(lines, changes, NoNewline);
  }

  // The file that update writes.
  function UpdatedText(text: string, changes: seq<Change>): string {
    JoinLines(Updated(SplitLines(text), changes))
  }

  lemma FileOfPlain(text: string, changes: seq<Change>, json: Json)
    requires LoadText(text, json).Some? && WellFormed(changes)
    ensures LoadText(UpdatedText(text, changes), json) ==
            Some(Overridden(LoadText(text, json).value, changes))
  {
    var lines := SplitLines(text);
    SplitIsSingle(text);
    UpdateLoads(lines, changes, json);
    if Updated(lines, changes) == [] {
      SplitFirst("", "");
      assert "" + "\n" + "" == "\n";
      assert [""][..0] == [];
    } else {
      forall c <- changes ensures SingleLine(Text(c)) {
        OneWellFormed(changes, c);
        EncodedLine(c, json);
      }
      UpdatedAll(lines, changes, SingleLine);
      WrittenLines(Updated(lines, changes));
    }
  }

  /** Updating a loadable file with changes that encode accepts, and loading it again, gives the old
      values overridden by the changes exactly when every new value is plain; otherwise it fails. */
  lemma FileUpdateLoads(text: string, changes: seq<Change>, json: Json)
    requires LoadText(text, json).Some? && Encodable(changes)
    ensures LoadText(UpdatedText(text, changes), json) ==
            if forall c <- changes :: Plain(c.value) then Some(Overridden(LoadText(text, json).value, changes))
            else None
  {
    if c :| c in changes && !Plain(c.value) {
      var lines := SplitLines(text);
      SplitIsSingle(text);
      UpdatedHas(lines, changes, c);
      UpdatedNoNewline(lines, changes);
      FirstPieceIsRead(Updated(lines, changes), Text(c));
      NotPlainIsBad(c, json);
      BadLineFails(SplitLines(JoinLines(Updated(lines, changes))), Text(c)[..LineEnd(Text(c))], json);
    } else {
      FileOfPlain(text, changes, json);
    }
  }

  /** encode accepts values that are not plain: a vertical tab, and NUL. */
  lemma AcceptedButNotPlain()
    ensures Encode([11 as char]) == Some("'" + [11 as char] + "'") && !Plain([11 as char])
    ensures Encode("\0") == Some("'" + "\0" + "'") && !Plain("\0")
  {
    var tab, nul := [11 as char], "\0";
    assert tab[0] in tab && nul[0] in nul;
    assert !Safe(tab[0]) && !Safe(nul[0]);
  }

  // ---- The loops ----

  method LoadLines(lines: seq<string>, json: Json) returns (values: Option<map<string, string>>)
    ensures values == Load(lines, json)
  {
    var loaded := map[];
    for n := 0 to |lines|
      invariant Load(lines[..n], json) == Some(loaded)
    {
      assert lines[..n + 1][..n] == lines[..n];
      match ParseLine(lines[n], json) {
        case Ignored =>
        case Bad =>
          LoadStops(lines, n + 1, json);
          return None;
        case Assign(key, value) =>
          if key in loaded {
            LoadStops(lines, n + 1, json);
            return None;
          }
          loaded := loaded[key := value];
      }
    }
    assert lines[..|lines|] == lines;
    return Some(loaded);
  }

  lemma {:induction false} LoadStops(lines: seq<string>, n: nat, json: Json)
    requires n <= |lines| && Load(lines[..n], json).None?
    ensures Load(lines, json).None?
    decreases |lines|
  {
    if n == |lines| {
      assert lines[..n] == lines;
    } else {
      assert lines[..|lines| - 1][..n] == lines[..n];
      LoadStops(lines[..|lines| - 1], n, json);
    }
  }

  // pending.pop(key)
  method Pop(pending: seq<Change>, key: string, ghost changes: seq<Change>, ghost taken: set<string>)
    returns (rest: seq<Change>)
    requires pending == Remaining(changes, taken)
    ensures rest == Remaining(changes, taken + {key})
  {
    rest := Remaining(pending, {key});
    RemainingTwice(changes, taken, {key});
  }

  lemma {:induction false} RemainingTwice(changes: seq<Change>, a: set<string>, b: set<string>)
    ensures Remaining(Remaining(changes, a), b) == Remaining(changes, a + b)
  {
    if changes != [] {
      var front, last := changes[..|changes| - 1], changes[|changes| - 1];
      RemainingTwice(front, a, b);
      if last.key in a {
        assert Remaining(changes, a) == Remaining(front, a);
      } else {
        assert Remaining(changes, a)[..|Remaining(front, a)|] == Remaining(front, a);
      }
    }
  }

  method RewriteLine(line: string, pending: seq<Change>, ghost changes: seq<Change>, ghost taken: set<string>)
    returns (line': string, pending': seq<Change>)
    requires pending == Remaining(changes, taken)
    ensures line' == NewLine(taken, line, changes)
    ensures pending' == Remaining(changes, taken + if UpdateKey(line).Some? then {UpdateKey(line).value} else {})
  {
    line', pending' := line, pending;
    var key := UpdateKey(line);
    if key.None? {
      assert taken + {} == taken;
      return;
    }
    FindRemaining(changes, taken, key.value);
    var change := Find(pending, key.value);
    if change.Some? {
      pending' := Pop(pending, key.value, changes, taken);
      line' := Text(change.value);
    } else {
      NothingToPop(changes, taken, key.value);
    }
  }

  lemma RewrittenPush(front: seq<string>, line: string, changes: seq<Change>)
    ensures Rewritten(front + [line], changes) ==
            Rewritten(front, changes) + [NewLine(UpdateKeys(front), line, changes)]
  {
    assert (front + [line])[..|front|] == front;
  }

  /** update: rewrite the lines of changed keys in place, then append what is left pending. */
  method Update(original: seq<string>, changes: seq<Change>) returns (lines: seq<string>)
    ensures lines == Updated(original, changes)
  {
    lines := original;
    var pending := changes;
    ghost var front: seq<string> := [];
    RemainingNone(changes);
    assert UpdateKeys([]) == {};
    for n := 0 to |original|
      invariant |lines| == |original| && |front| == n
      invariant forall j | 0 <= j < |original| :: if j < n then front[j] == original[j] else lines[j] == original[j]
      invariant lines[..n] == Rewritten(front, changes)
      invariant pending == Remaining(changes, UpdateKeys(front))
    {
      OneMoreKey(front, original[n]);
      RewrittenPush(front, original[n], changes);
      var line;
      line, pending := RewriteLine(lines[n], pending, changes, UpdateKeys(front));
      PrefixGrows(lines, n, line);
      lines := lines[n := line];
      front := front + [original[n]];
    }
    assert front == original && lines[..|original|] == lines;
    lines := lines + Texts(pending);
  }

  lemma PrefixGrows(lines: seq<string>, n: nat, line: string)
    requires n < |lines|
    ensures lines[n := line][..n + 1] == lines[..n] + [line]
  {
  }

  lemma OneMoreKey(front: seq<string>, line: string)
    ensures UpdateKeys(front + [line]) ==
      UpdateKeys(front) + if UpdateKey(line).Some? then {UpdateKey(line).value} else {}
  {
    assert forall x :: x in front + [line] <==> x in front || x == line;
  }

  lemma {:induction false} RemainingNone(changes: seq<Change>)
    ensures Remaining(changes, {}) == changes
  {
    if changes != [] {
      RemainingNone(changes[..|changes| - 1]);
    }
  }

  lemma {:induction false} NothingToPop(changes: seq<Change>, taken: set<string>, key: string)
    requires Find(Remaining(changes, taken), key).None?
    ensures Remaining(changes, taken + {key}) == Remaining(changes, taken)
  {
    if changes != [] {
      var front, last := changes[..|changes| - 1], changes[|changes| - 1];
      FindRemaining(changes, taken, key);
      FindRemaining(front, taken, key);
      NothingToPop(front, taken, key);
    }
  }
}
