/** The command line's option loops: flags as --name=value or --name value, and everything after --. */
module CliOptions {
  import opened Wrappers
  import opened GoText
  import Patch

  // ---- Options ----

  // A decoded value; only arrays behave differently from other JSON values.
  datatype Value = Scalar(text: string) | List(items: seq<Value>)

  datatype Place = InPath | InQuery | InHeader | InField | Elsewhere

  datatype Parameter = Parameter(name: string, place: Place)

  datatype OperationSpec = OperationSpec(parameters: seq<Parameter>, hasBody: bool)

  // parseCLIValue, and readJSONArgument with the files it may read.
  datatype Host = Host(decode: string -> Value, readBody: string -> Option<string>)

  // values holds the path, query, header and body field values, by place and key.
  datatype Options = Options(
    common: CommonOptions, values: Values, files: map<string, string>, body: Option<string>, bodyFile: string)

  datatype CommonOptions = CommonOptions(json: bool, baseUrl: string, config: string, timeout: int)

  type Values = map<(Place, string), Value>

  datatype Effect =
    | SetJson(on: bool) | SetBaseUrl(url: string) | SetConfig(file: string) | SetTimeout(seconds: int)
    | Add(place: Place, key: string, value: Value)
    | SetFile(key: string, file: string)
    | SetBody(body: string) | SetBodyFile(file: string)

  datatype OptionError = UnknownFlag | RequiresValue | NotInteger | NotBoolean | NotKeyValue | BadBody

  function AddValue(values: Values, key: (Place, string), value: Value): Values {
    if key !in values then values[key := value]
    else if values[key].List? then values[key := List(values[key].items + [value])]
    else values[key := List([values[key], value])]
  }

  function AppliedCommon(o: CommonOptions, effect: Effect): CommonOptions {
    match effect
    case SetJson(on) => o.(json := on)
    case SetBaseUrl(url) => o.(baseUrl := url)
    case SetConfig(file) => o.(config := file)
    case SetTimeout(seconds) => o.(timeout := seconds)
    case _ => o
  }

  function Applied(o: Options, effect: Effect): Options {
    match effect
    case SetFile(key, file) => o.(files := o.files[key := file])
    case SetBody(body) => o.(body := Some(body))
    case SetBodyFile(file) => o.(bodyFile := file)
    case Add(place, key, value) =>
      if place.Elsewhere? then o else o.(values := AddValue(o.values, (place, key), value))
    case _ => o.(common := AppliedCommon(o.common, effect))
  }

  // ---- Reading one argument ----

  // The name and inline value of a long flag.
  function SplitLongFlag(argument: string): Option<(string, Option<string>)> {
    if !("--" <= argument) || argument == "--" then None
    else
      var raw := argument[2..];
      var n := CutPoint(raw);
      var name := TrimSpace(raw[..n]);
      if name == "" then None else Some((name, if n < |raw| then Some(raw[n + 1..]) else None))
  }

  // The value of a flag at index i and the index after it.
  function OptionValue(arguments: seq<string>, i: nat, inline: Option<string>): Option<(string, nat)>
    requires i < |arguments|
  {
    if inline.Some? then Some((inline.value, i + 1))
    else if i + 1 >= |arguments| || "--" <= arguments[i + 1] then None
    else Some((arguments[i + 1], i + 2))
  }

  function ParseBool(text: string): Option<bool> {
    if text in ["1", "t", "T", "true", "TRUE", "True"] then Some(true)
    else if text in ["0", "f", "F", "false", "FALSE", "False"] then Some(false)
    else None
  }

  function Atoi(text: string): Option<int> {
    var signed := text != "" && (text[0] == '-' || text[0] == '+');
    var digits := if signed then text[1..] else text;
    if digits == "" || !Patch.Digits(digits) then None
    else
      var n := Patch.DecimalValue(digits);
      var value: int := if signed && text[0] == '-' then 0 - n else n;
      if -0x8000_0000_0000_0000 <= value < 0x8000_0000_0000_0000 then Some(value) else None
  }

  function KeyValue(raw: string): Option<(string, string)> {
    var n := CutPoint(raw);
    var key := TrimSpace(raw[..n]);
    if n == |raw| || key == "" then None else Some((key, raw[n + 1..]))
  }

  function Lower(c: char): char {
    if 'A' <= c <= 'Z' then (c as int + 32) as char else if c == '-' then '_' else c
  }

  function Normalized(name: string): string {
    if name == "" then "" else [Lower(name[0])] + Normalized(name[1..])
  }

  function FindParameter(parameters: seq<Parameter>, name: string): Option<Parameter> {
    if parameters == [] then None
    else if Normalized(parameters[0].name) == Normalized(name) then Some(parameters[0])
    else FindParameter(parameters[1..], name)
  }

  // The names the loops know; any other may be a parameter's or a body field's.
  datatype Name =
    | Json | BaseUrl | Config | Timeout | Path | Query | Header | Param | Field | File | Body | BodyFile
    | Other(text: string)

  function NameOf(text: string): Name {
    if text == "json" then Json
    else if text == "base-url" then BaseUrl
    else if text == "config" then Config
    else if text == "timeout" then Timeout
    else if text == "path" then Path
    else if text == "query" then Query
    else if text == "header" then Header
    else if text == "param" then Param
    else if text == "field" then Field
    else if text == "file" then File
    else if text == "body" then Body
    else if text == "body-file" then BodyFile
    else Other(text)
  }

  predicate Common(name: Name) {
    name.Json? || name.BaseUrl? || name.Config? || name.Timeout?
  }

  // What a common option with this value does.
  function CommonEffect(name: Name, value: string): Result<Effect, OptionError>
    requires Common(name)
  {
    match name
    case Json =>
      var on := ParseBool(value);
      if on.Some? then Ok(SetJson(on.value)) else Err(NotBoolean)
    case BaseUrl => Ok(SetBaseUrl(value))
    case Config => Ok(SetConfig(value))
    case Timeout =>
      var seconds := Atoi(value);
      if seconds.Some? then Ok(SetTimeout(seconds.value)) else Err(NotInteger)
  }

  function PairEffect(place: Place, value: string, host: Host): Result<Effect, OptionError> {
    var pair := KeyValue(value);
    if pair.None? then Err(NotKeyValue) else Ok(Add(place, pair.value.0, host.decode(pair.value.1)))
  }

  // What a call option with this value does.
  function CallEffect(name: Name, value: string, op: OperationSpec, host: Host): Result<Effect, OptionError>
    requires !Common(name)
  {
    match name
    case Path => PairEffect(InPath, value, host)
    case Query => PairEffect(InQuery, value, host)
    case Header => PairEffect(InHeader, value, host)
    case Field => PairEffect(InField, value, host)
    case Param =>
      var pair := KeyValue(value);
      if pair.None? then Err(NotKeyValue)
      else
        var parameter := FindParameter(op.parameters, pair.value.0);
        if parameter.None? then Err(UnknownFlag)
        else Ok(Add(parameter.value.place, parameter.value.name, host.decode(pair.value.1)))
    case File =>
      var pair := KeyValue(value);
      if pair.None? then Err(NotKeyValue) else Ok(SetFile(pair.value.0, pair.value.1))
    case Body =>
      var body := host.readBody(value);
      if body.Some? then Ok(SetBody(body.value)) else Err(BadBody)
    case BodyFile => Ok(SetBodyFile(value))
    case Other(text) =>
      var parameter := FindParameter(op.parameters, text);
      if parameter.Some? then Ok(Add(parameter.value.place, parameter.value.name, host.decode(value)))
      else if op.hasBody then Ok(Add(InField, Normalized(text), host.decode(value)))
      else Err(UnknownFlag)
  }

  // Which options a command line may hold: the common ones, or also those of one operation.
  datatype Grammar = CommonOnly | Call(op: OperationSpec, host: Host)

  function EffectOf(name: Name, value: string, g: Grammar): Result<Effect, OptionError> {
    if Common(name) then CommonEffect(name, value)
    else
      match g
      case CommonOnly => Err(UnknownFlag)
      case Call(op, host) => CallEffect(name, value, op, host)
  }

  // Where the loop goes from an index: it ends, takes a positional, or applies an option.
  datatype Move = Rest | Positional | Take(effect: Effect, next: nat) | Fail(error: OptionError)

  // A flag naming a parameter of an operation with a body, with no value to take.
  predicate Dangling(arguments: seq<string>, i: nat, g: Grammar)
    requires i < |arguments|
  {
    var flag := SplitLongFlag(arguments[i]);
    && arguments[i] != "--" && flag.Some? && NameOf(flag.value.0).Other?
    && OptionValue(arguments, i, flag.value.1).None?
    && g.Call? && g.op.hasBody && FindParameter(g.op.parameters, flag.value.0).Some?
  }

  function MoveAt(arguments: seq<string>, i: nat, g: Grammar): Move
    requires i < |arguments|
  {
    var flag := SplitLongFlag(arguments[i]);
    if arguments[i] == "--" then Rest
    else if flag.None? then Positional
    else
      var (text, inline) := flag.value;
      var name, value := NameOf(text), OptionValue(arguments, i, inline);
      if name.Json? && inline.None? then Take(SetJson(true), i + 1)
      else if value.Some? then
        var effect := EffectOf(name, value.value.0, g);
        if effect.Ok? then Take(effect.value, value.value.1) else Fail(effect.error)
      else if Common(name) then Fail(RequiresValue)
      else if g.CommonOnly? then Fail(UnknownFlag)
      else if !name.Other? then Fail(RequiresValue)
      else if !g.op.hasBody then Fail(UnknownFlag)
      else
        var parameter := FindParameter(g.op.parameters, text);
        if parameter.None? then Fail(RequiresValue)
        // The missing value's error is overlooked, and with it the index to go on from.
        else Take(Add(parameter.value.place, parameter.value.name, g.host.decode("")), 0)
  }

  lemma MovesOn(arguments: seq<string>, i: nat, g: Grammar)
    requires i < |arguments|
    ensures Dangling(arguments, i, g) ==> MoveAt(arguments, i, g).Take? && MoveAt(arguments, i, g).next == 0
    ensures MoveAt(arguments, i, g).Take? && !Dangling(arguments, i, g) ==>
      i < MoveAt(arguments, i, g).next <= |arguments|
  {
  }

  // ---- The loop ----

  datatype Outcome = Running | Finished | Failed(error: OptionError)

  datatype State = State(index: nat, options: Options, positionals: seq<string>, outcome: Outcome)

  const NO_OPTIONS := Options(CommonOptions(false, "", "", 0), map[], map[], None, "")

  function Step(s: State, arguments: seq<string>, g: Grammar): State {
    if !s.outcome.Running? then s
    else if s.index >= |arguments| then s.(outcome := Finished)
    else
      match MoveAt(arguments, s.index, g)
      case Rest => s.(positionals := s.positionals + arguments[s.index + 1..], outcome := Finished)
      case Positional => s.(positionals := s.positionals + [arguments[s.index]], index := s.index + 1)
      case Take(effect, next) => s.(options := Applied(s.options, effect), index := next)
      case Fail(error) => s.(outcome := Failed(error))
  }

  function After(n: nat, s: State, arguments: seq<string>, g: Grammar): State
    decreases n
  {
    if n == 0 then s else After(n - 1, Step(s, arguments, g), arguments, g)
  }

  function Begin(json: bool): State {
    State(0, NO_OPTIONS.(common := NO_OPTIONS.common.(json := json)), [], Running)
  }

  lemma {:induction false} OneMore(n: nat, s: State, arguments: seq<string>, g: Grammar)
    ensures After(n + 1, s, arguments, g) == Step(After(n, s, arguments, g), arguments, g)
    decreases n
  {
    if n > 0 {
      OneMore(n - 1, Step(s, arguments, g), arguments, g);
    }
  }

  lemma {:induction false} StaysStopped(n: nat, s: State, arguments: seq<string>, g: Grammar)
    requires !s.outcome.Running?
    ensures After(n, s, arguments, g) == s
    decreases n
  {
    if n > 0 {
      StaysStopped(n - 1, s, arguments, g);
    }
  }

  // Reading on from index i, the loop comes to a dangling flag.
  predicate Stalls(arguments: seq<string>, i: nat, g: Grammar)
    decreases |arguments| - i
  {
    if i >= |arguments| then false
    else if Dangling(arguments, i, g) then true
    else
      match MoveAt(arguments, i, g)
      case Rest => false
      case Fail(_) => false
      case Positional => Stalls(arguments, i + 1, g)
      case Take(_, next) =>
        MovesOn(arguments, i, g);
        Stalls(arguments, next, g)
  }

  lemma StallsOn(arguments: seq<string>, i: nat, g: Grammar)
    requires Stalls(arguments, i, g)
    ensures i < |arguments| && (MoveAt(arguments, i, g).Positional? || MoveAt(arguments, i, g).Take?)
    ensures MoveAt(arguments, i, g).Positional? ==> Stalls(arguments, i + 1, g)
    ensures MoveAt(arguments, i, g).Take? && !Dangling(arguments, i, g) ==>
      Stalls(arguments, MoveAt(arguments, i, g).next, g)
  {
    MovesOn(arguments, i, g);
  }

  // What every step keeps holds all along.
  lemma {:induction false} AllAlong(n: nat, s: State, arguments: seq<string>, g: Grammar, kept: State -> bool)
    requires kept(s) && forall t: State :: kept(t) ==> kept(Step(t, arguments, g))
    ensures kept(After(n, s, arguments, g))
    decreases n
  {
    if n > 0 {
      AllAlong(n - 1, Step(s, arguments, g), arguments, g, kept);
    }
  }

  lemma StalledStep(s: State, arguments: seq<string>, g: Grammar)
    requires s.outcome.Running? && Stalls(arguments, s.index, g) && Stalls(arguments, 0, g)
    ensures Step(s, arguments, g).outcome.Running? && Stalls(arguments, Step(s, arguments, g).index, g)
  {
    StallsOn(arguments, s.index, g);
    assert MoveAt(arguments, s.index, g).Take? && Dangling(arguments, s.index, g) ==>
           MoveAt(arguments, s.index, g).next == 0 by {
      MovesOn(arguments, s.index, g);
    }
  }

  lemma StalledForever(n: nat, json: bool, arguments: seq<string>, g: Grammar)
    requires Stalls(arguments, 0, g)
    ensures After(n, Begin(json), arguments, g).outcome.Running?
  {
    var kept := (t: State) => t.outcome.Running? && Stalls(arguments, t.index, g);
    forall t: State | kept(t) ensures kept(Step(t, arguments, g)) {
      StalledStep(t, arguments, g);
    }
    AllAlong(n, Begin(json), arguments, g, kept);
  }

  lemma {:induction false} OtherwiseEnds(s: State, arguments: seq<string>, g: Grammar) returns (n: nat)
    requires s.outcome.Running? && !Stalls(arguments, s.index, g)
    ensures !After(n, s, arguments, g).outcome.Running?
    decreases |arguments| - s.index
  {
    var s' := Step(s, arguments, g);
    if s'.outcome.Running? {
      MovesOn(arguments, s.index, g);
      n := OtherwiseEnds(s', arguments, g);
      n := n + 1;
    } else {
      n := 1;
      assert After(1, s, arguments, g) == After(0, s', arguments, g);
    }
  }

  ghost predicate Ends(s: State, arguments: seq<string>, g: Grammar) {
    exists n: nat :: !After(n, s, arguments, g).outcome.Running?
  }

  /** The loop ends exactly when it does not come to a flag that names a parameter, has no value, and
      belongs to an operation with a body: from such a flag it starts over at the first argument, for ever. */
  lemma LoopEndsExactly(arguments: seq<string>, g: Grammar, json: bool)
    ensures Ends(Begin(json), arguments, g) <==> !Stalls(arguments, 0, g)
  {
    if Stalls(arguments, 0, g) {
      forall n: nat ensures After(n, Begin(json), arguments, g).outcome.Running? {
        StalledForever(n, json, arguments, g);
      }
    } else {
      var n := OtherwiseEnds(Begin(json), arguments, g);
    }
  }

  /** Such arguments exist: one flag is enough. */
  lemma OneFlagStalls(host: Host)
    ensures Dangling(["--id"], 0, Call(OperationSpec([Parameter("id", InPath)], true), host))
    ensures Stalls(["--id"], 0, Call(OperationSpec([Parameter("id", InPath)], true), host))
  {
    var raw := "--id"[2..];
    assert raw == "id";
    CutAt("id", "");
    assert raw[..2] == "id" && TrimSpace("id") == "id";
    assert SplitLongFlag("--id") == Some(("id", None));
  }

  // The loop over common options knows no parameters, so it never stalls.
  lemma {:induction false} CommonNeverStalls(arguments: seq<string>, i: nat)
    ensures !Stalls(arguments, i, CommonOnly)
    decreases |arguments| - i
  {
    if i < |arguments| {
      MovesOn(arguments, i, CommonOnly);
      match MoveAt(arguments, i, CommonOnly)
      case Positional => CommonNeverStalls(arguments, i + 1);
      case Take(_, next) => CommonNeverStalls(arguments, next);
      case _ =>
    }
  }

  // ---- What a command line is made of ----

  // An option with its value behind an equals sign or in the next argument, --json on its own, or an
  // argument that is no flag. Blanks around the name are allowed.
  datatype Word = Option(flag: string, value: string, inline: bool) | BareJson(flag: string) | Plain(text: string)

  // The command line may end, or go on with positionals after --.
  datatype Ending = AtEnd | DoubleDash(rest: seq<string>)

  function Tokens(w: Word): seq<string> {
    match w
    case Option(flag, value, inline) =>
      if inline then ["--" + flag + "=" + value] else ["--" + flag, value]
    case BareJson(flag) => ["--" + flag]
    case Plain(text) => [text]
  }

  function Rendered(words: seq<Word>): seq<string> {
    if words == [] then [] else Tokens(words[0]) + Rendered(words[1..])
  }

  function EndTokens(ending: Ending): seq<string> {
    if ending.AtEnd? then [] else ["--"] + ending.rest
  }

  predicate Label(flag: string) {
    '=' !in flag && TrimSpace(flag) != ""
  }

  predicate Writable(w: Word) {
    match w
    case Option(flag, value, inline) =>
      Label(flag) && (inline || (!("--" <= value) && !NameOf(TrimSpace(flag)).Json?))
    case BareJson(flag) => Label(flag) && NameOf(TrimSpace(flag)).Json?
    case Plain(text) => text != "--" && SplitLongFlag(text).None?
  }

  function Meaning(w: Word, g: Grammar): Result<seq<Effect>, OptionError> {
    match w
    case Option(flag, value, _) =>
      var effect :- EffectOf(NameOf(TrimSpace(flag)), value, g);
      Ok([effect])
    case BareJson(_) => Ok([SetJson(true)])
    case Plain(_) => Ok([])
  }

  predicate Accepted(words: seq<Word>, g: Grammar) {
    forall i | 0 <= i < |words| :: Writable(words[i]) && Meaning(words[i], g).Ok?
  }

  function Effects(words: seq<Word>, g: Grammar): seq<Effect>
    requires Accepted(words, g)
    decreases |words|
  {
    if words == [] then [] else Meaning(words[0], g).value + Effects(words[1..], g)
  }

  function Plains(words: seq<Word>): seq<string> {
    if words == [] then [] else (if words[0].Plain? then [words[0].text] else []) + Plains(words[1..])
  }

  function Folded(o: Options, effects: seq<Effect>): Options
    decreases |effects|
  {
    if effects == [] then o else Folded(Applied(o, effects[0]), effects[1..])
  }

  lemma {:induction false} FoldedConcat(o: Options, a: seq<Effect>, b: seq<Effect>)
    ensures Folded(o, a + b) == Folded(Folded(o, a), b)
    decreases |a|
  {
    if a == [] {
      assert a + b == b;
    } else {
      assert (a + b)[1..] == a[1..] + b;
      FoldedConcat(Applied(o, a[0]), a[1..], b);
    }
  }

  // ---- Reading a rendering ----

  lemma SplitLabel(flag: string, value: string)
    requires Label(flag)
    ensures SplitLongFlag("--" + flag) == Some((TrimSpace(flag), None)) && "--" + flag != "--"
    ensures SplitLongFlag("--" + flag + "=" + value) == Some((TrimSpace(flag), Some(value)))
    ensures "--" + flag + "=" + value != "--"
  {
    var bare, full := "--" + flag, "--" + flag + "=" + value;
    CutAt(flag, value);
    assert bare[2..] == flag && flag[..|flag|] == flag;
    assert |flag| > 0 && |bare| > 2 && |full| > 2;
    var raw := full[2..];
    assert raw == flag + "=" + value;
    assert raw[..|flag|] == flag && raw[|flag| + 1..] == value;
  }

  // The state behind a word.
  function Past(s: State, w: Word, g: Grammar): State
    requires Meaning(w, g).Ok?
  {
    s.(index := s.index + |Tokens(w)|, options := Folded(s.options, Meaning(w, g).value),
       positionals := s.positionals + if w.Plain? then [w.text] else [])
  }

  lemma WordStep(s: State, arguments: seq<string>, w: Word, g: Grammar)
    requires Writable(w) && Meaning(w, g).Ok? && s.outcome.Running?
    requires s.index + |Tokens(w)| <= |arguments| && arguments[s.index..s.index + |Tokens(w)|] == Tokens(w)
    ensures Step(s, arguments, g) == Past(s, w, g)
  {
    if w.Option? {
      OptionStep(s, arguments, w, g);
    } else {
      assert arguments[s.index] == arguments[s.index..s.index + |Tokens(w)|][0];
      OneTokenStep(s, arguments, w, g);
    }
  }

  lemma OneTokenStep(s: State, arguments: seq<string>, w: Word, g: Grammar)
    requires !w.Option? && Writable(w) && s.outcome.Running?
    requires s.index < |arguments| && arguments[s.index] == Tokens(w)[0]
    ensures Step(s, arguments, g) == Past(s, w, g)
  {
    if w.BareJson? {
      SplitLabel(w.flag, "");
      assert MoveAt(arguments, s.index, g) == Take(SetJson(true), s.index + 1);
      assert Folded(s.options, [SetJson(true)]) == Applied(s.options, SetJson(true));
      assert s.positionals + [] == s.positionals;
    }
  }

  lemma OptionStep(s: State, arguments: seq<string>, w: Word, g: Grammar)
    requires w.Option? && Writable(w) && Meaning(w, g).Ok? && s.outcome.Running?
    requires s.index + |Tokens(w)| <= |arguments| && arguments[s.index..s.index + |Tokens(w)|] == Tokens(w)
    ensures Step(s, arguments, g) == Past(s, w, g)
  {
    OptionMove(arguments, s.index, w, EffectOf(NameOf(TrimSpace(w.flag)), w.value, g).value, g);
    PastOption(s, w, g);
  }

  lemma OptionMove(arguments: seq<string>, i: nat, w: Word, effect: Effect, g: Grammar)
    requires w.Option? && Writable(w) && EffectOf(NameOf(TrimSpace(w.flag)), w.value, g) == Ok(effect)
    requires i + |Tokens(w)| <= |arguments| && arguments[i..i + |Tokens(w)|] == Tokens(w)
    ensures MoveAt(arguments, i, g) == Take(effect, i + |Tokens(w)|)
  {
    OptionShape(arguments, i, w);
    MoveWithValue(arguments, i, TrimSpace(w.flag), InlineOf(w), w.value, i + |Tokens(w)|, g);
  }

  function InlineOf(w: Word): Option<string>
    requires w.Option?
  {
    if w.inline then Some(w.value) else None
  }

  lemma OptionShape(arguments: seq<string>, i: nat, w: Word)
    requires w.Option? && Writable(w)
    requires i + |Tokens(w)| <= |arguments| && arguments[i..i + |Tokens(w)|] == Tokens(w)
    ensures arguments[i] != "--" && SplitLongFlag(arguments[i]) == Some((TrimSpace(w.flag), InlineOf(w)))
    ensures OptionValue(arguments, i, InlineOf(w)) == Some((w.value, i + |Tokens(w)|))
  {
    var here := arguments[i..i + |Tokens(w)|];
    SplitLabel(w.flag, w.value);
    assert arguments[i] == here[0];
    if !w.inline {
      assert arguments[i + 1] == here[1];
    }
  }

  lemma PastOption(s: State, w: Word, g: Grammar)
    requires w.Option? && EffectOf(NameOf(TrimSpace(w.flag)), w.value, g).Ok?
    ensures Meaning(w, g).Ok?
    ensures Past(s, w, g) ==
      s.(index := s.index + |Tokens(w)|,
         options := Applied(s.options, EffectOf(NameOf(TrimSpace(w.flag)), w.value, g).value))
  {
    var effect := EffectOf(NameOf(TrimSpace(w.flag)), w.value, g).value;
    assert Meaning(w, g) == Ok([effect]);
    assert Folded(s.options, [effect]) == Applied(s.options, effect);
    assert s.positionals + [] == s.positionals;
  }

  lemma MoveWithValue(
    arguments: seq<string>, i: nat, text: string, inline: Option<string>, value: string, next: nat, g: Grammar)
    requires i < |arguments| && arguments[i] != "--" && SplitLongFlag(arguments[i]) == Some((text, inline))
    requires OptionValue(arguments, i, inline) == Some((value, next)) && (NameOf(text).Json? ==> inline.Some?)
    ensures MoveAt(arguments, i, g) ==
      var effect := EffectOf(NameOf(text), value, g);
      if effect.Ok? then Take(effect.value, next) else Fail(effect.error)
  {
  }

  lemma Behind<T>(all: seq<T>, i: nat, a: seq<T>, b: seq<T>)
    requires i <= |all| && all[i..] == a + b
    ensures i + |a| <= |all| && all[i..i + |a|] == a && all[i + |a|..] == b
  {
    assert all[i..i + |a|] == all[i..][..|a|];
    assert all[i + |a|..] == all[i..][|a|..];
  }

  lemma RenderedFirst(words: seq<Word>, tail: seq<string>)
    requires words != []
    ensures Rendered(words) + tail == Tokens(words[0]) + (Rendered(words[1..]) + tail)
  {
  }

  // The state behind some words.
  function PastAll(s: State, words: seq<Word>, g: Grammar): State
    requires Accepted(words, g)
  {
    s.(index := s.index + |Rendered(words)|, options := Folded(s.options, Effects(words, g)),
       positionals := s.positionals + Plains(words))
  }

  lemma FoldedFirst(o: Options, words: seq<Word>, g: Grammar)
    requires Accepted(words, g) && words != []
    ensures Folded(Folded(o, Meaning(words[0], g).value), Effects(words[1..], g)) == Folded(o, Effects(words, g))
  {
    FoldedConcat(o, Meaning(words[0], g).value, Effects(words[1..], g));
  }

  function TextOf(w: Word): seq<string> {
    if w.Plain? then [w.text] else []
  }

  lemma PlainsFirst(before: seq<string>, words: seq<Word>)
    requires words != []
    ensures before + Plains(words) == (before + TextOf(words[0])) + Plains(words[1..])
  {
    assert Plains(words) == TextOf(words[0]) + Plains(words[1..]);
  }

  lemma PastFirst(s: State, words: seq<Word>, g: Grammar)
    requires Accepted(words, g) && words != []
    ensures PastAll(Past(s, words[0], g), words[1..], g) == PastAll(s, words, g)
  {
    var first := Past(s, words[0], g);
    assert first.positionals == s.positionals + TextOf(words[0]);
    assert |Rendered(words)| == |Tokens(words[0])| + |Rendered(words[1..])|;
    assert Folded(first.options, Effects(words[1..], g)) == Folded(s.options, Effects(words, g)) by {
      FoldedFirst(s.options, words, g);
    }
    assert first.positionals + Plains(words[1..]) == s.positionals + Plains(words) by {
      PlainsFirst(s.positionals, words);
    }
  }

  lemma FirstRead(s: State, arguments: seq<string>, words: seq<Word>, tail: seq<string>, g: Grammar)
    requires Accepted(words, g) && words != [] && s.outcome.Running? && s.index <= |arguments|
    requires arguments[s.index..] == Rendered(words) + tail
    ensures Step(s, arguments, g) == Past(s, words[0], g)
    ensures Past(s, words[0], g).index <= |arguments|
    ensures arguments[Past(s, words[0], g).index..] == Rendered(words[1..]) + tail
  {
    RenderedFirst(words, tail);
    Behind(arguments, s.index, Tokens(words[0]), Rendered(words[1..]) + tail);
    WordStep(s, arguments, words[0], g);
  }

  /** Whatever follows them, accepted words are read one by one: their options are applied in order and
      their plain arguments collected. */
  lemma {:induction false} WordsRead(s: State, arguments: seq<string>, words: seq<Word>, tail: seq<string>, g: Grammar)
    requires Accepted(words, g) && s.outcome.Running? && s.index <= |arguments|
    requires arguments[s.index..] == Rendered(words) + tail
    ensures After(|words|, s, arguments, g) == PastAll(s, words, g)
    decreases |words|
  {
    if words != [] {
      FirstRead(s, arguments, words, tail, g);
      WordsRead(Past(s, words[0], g), arguments, words[1..], tail, g);
      PastFirst(s, words, g);
    } else {
      assert s.positionals + [] == s.positionals;
    }
  }

  lemma EndingStep(s: State, arguments: seq<string>, ending: Ending, g: Grammar)
    requires s.outcome.Running? && s.index <= |arguments| && arguments[s.index..] == EndTokens(ending)
    ensures Step(s, arguments, g) ==
      s.(positionals := s.positionals + (if ending.AtEnd? then [] else ending.rest), outcome := Finished)
  {
    if ending.DoubleDash? {
      assert arguments[s.index] == arguments[s.index..][0];
      assert arguments[s.index + 1..] == arguments[s.index..][1..];
    } else {
      assert |arguments[s.index..]| == 0;
      assert s.positionals + [] == s.positionals;
    }
  }

  // What a command line made of these words stands for.
  function Read(json: bool, words: seq<Word>, ending: Ending, g: Grammar): State
    requires Accepted(words, g)
  {
    State(|Rendered(words)|, Folded(Begin(json).options, Effects(words, g)),
      Plains(words) + (if ending.AtEnd? then [] else ending.rest), Finished)
  }

  ghost predicate IsRendering(arguments: seq<string>, words: seq<Word>, ending: Ending, g: Grammar) {
    Accepted(words, g) && arguments == Rendered(words) + EndTokens(ending)
  }

  /** Reading any rendering of an option list recovers it, with or without --, interspersed with plain
      arguments or not, for the common options as for an operation's. */
  lemma RenderingReadsBack(arguments: seq<string>, json: bool, words: seq<Word>, ending: Ending, g: Grammar)
    requires IsRendering(arguments, words, ending, g)
    ensures After(|words| + 1, Begin(json), arguments, g) == Read(json, words, ending, g)
  {
    var s := Begin(json);
    var end := PastAll(s, words, g);
    assert After(|words|, s, arguments, g) == end by {
      assert arguments[0..] == arguments;
      WordsRead(s, arguments, words, EndTokens(ending), g);
    }
    OneMore(|words|, s, arguments, g);
    assert end.index <= |arguments| && arguments[end.index..] == EndTokens(ending) by {
      Behind(arguments, 0, Rendered(words), EndTokens(ending));
    }
    EndingStep(end, arguments, ending, g);
    assert end.positionals == Plains(words);
  }

  // ---- Nothing else is read ----

  // The word that stands at an index where the loop takes an option.
  function WordAt(arguments: seq<string>, i: nat): Word
    requires i < |arguments| && SplitLongFlag(arguments[i]).Some?
  {
    var raw := arguments[i][2..];
    var n := CutPoint(raw);
    var flag := raw[..n];
    if n < |raw| then Option(flag, raw[n + 1..], true)
    else if NameOf(TrimSpace(flag)).Json? || i + 1 >= |arguments| then BareJson(flag)
    else Option(flag, arguments[i + 1], false)
  }

  lemma FlagSpelled(argument: string)
    requires SplitLongFlag(argument).Some?
    ensures var raw := argument[2..];
      var n := CutPoint(raw);
      && Label(raw[..n])
      && argument == "--" + raw[..n] + (if n < |raw| then "=" + raw[n + 1..] else "")
  {
    var raw := argument[2..];
    var n := CutPoint(raw);
    assert raw == raw[..n] + (if n < |raw| then "=" + raw[n + 1..] else "");
    assert argument == "--" + raw;
  }

  lemma WordShape(arguments: seq<string>, i: nat)
    requires i < |arguments| && SplitLongFlag(arguments[i]).Some?
    ensures var w := WordAt(arguments, i);
      i + |Tokens(w)| <= |arguments| && arguments[i..i + |Tokens(w)|] == Tokens(w)
  {
    FlagSpelled(arguments[i]);
    var w := WordAt(arguments, i);
    if w.Option? && w.inline {
      assert Tokens(w)[0] == arguments[i];
    } else {
      assert "--" + w.flag == arguments[i];
    }
  }

  lemma WordStands(arguments: seq<string>, i: nat, g: Grammar)
    requires i < |arguments| && MoveAt(arguments, i, g).Take? && !Dangling(arguments, i, g)
    ensures var w, next := WordAt(arguments, i), MoveAt(arguments, i, g).next;
      && Writable(w) && Meaning(w, g).Ok? && next == i + |Tokens(w)| <= |arguments|
      && arguments[i..next] == Tokens(w)
  {
    WordShape(arguments, i);
    FlagSpelled(arguments[i]);
    assert MoveAt(arguments, i, g).next == i + |Tokens(WordAt(arguments, i))|;
  }

  // A loop that does not fail at an index reads the word that stands there.
  lemma WordHere(s: State, arguments: seq<string>, g: Grammar) returns (w: Word)
    requires s.outcome.Running? && s.index < |arguments| && !Stalls(arguments, s.index, g)
    requires MoveAt(arguments, s.index, g).Positional? || MoveAt(arguments, s.index, g).Take?
    ensures Writable(w) && Meaning(w, g).Ok?
    ensures var next := Step(s, arguments, g);
      && next.outcome.Running? && next.index <= |arguments| && !Stalls(arguments, next.index, g)
      && arguments[s.index..] == Tokens(w) + arguments[next.index..]
  {
    var i := s.index;
    if MoveAt(arguments, i, g).Take? {
      w := WordAt(arguments, i);
      assert !Dangling(arguments, i, g);
      WordStands(arguments, i, g);
      var next := MoveAt(arguments, i, g).next;
      assert arguments[i..] == arguments[i..next] + arguments[next..];
    } else {
      w := Plain(arguments[i]);
    }
  }

  /** A command line that is read to its end is a rendering of accepted words. */
  lemma {:induction false} OnlyRenderingsAreRead(n: nat, s: State, arguments: seq<string>, g: Grammar)
      returns (words: seq<Word>, ending: Ending)
    requires s.outcome.Running? && s.index <= |arguments| && !Stalls(arguments, s.index, g)
    requires After(n, s, arguments, g).outcome.Finished?
    ensures Accepted(words, g) && arguments[s.index..] == Rendered(words) + EndTokens(ending)
    decreases n
  {
    if s.index >= |arguments| || MoveAt(arguments, s.index, g).Rest? {
      words, ending := [], EndingAt(arguments, s.index);
    } else {
      var word, s' := ReadOn(n, s, arguments, g);
      words, ending := OnlyRenderingsAreRead(n - 1, s', arguments, g);
      words := Before(word, words, EndTokens(ending), g);
    }
  }

  function EndingAt(arguments: seq<string>, i: nat): (ending: Ending)
    requires i >= |arguments| || arguments[i] == "--"
    ensures i <= |arguments| ==> arguments[i..] == EndTokens(ending)
  {
    if i < |arguments| then DoubleDash(arguments[i + 1..]) else AtEnd
  }

  lemma ReadOn(n: nat, s: State, arguments: seq<string>, g: Grammar) returns (w: Word, s': State)
    requires s.outcome.Running? && s.index < |arguments| && !Stalls(arguments, s.index, g)
    requires After(n, s, arguments, g).outcome.Finished? && !MoveAt(arguments, s.index, g).Rest?
    ensures n > 0 && After(n - 1, s', arguments, g).outcome.Finished?
    ensures Writable(w) && Meaning(w, g).Ok?
    ensures s'.outcome.Running? && s'.index <= |arguments| && !Stalls(arguments, s'.index, g)
    ensures arguments[s.index..] == Tokens(w) + arguments[s'.index..]
  {
    s' := Step(s, arguments, g);
    if MoveAt(arguments, s.index, g).Fail? {
      StaysStopped(n - 1, s', arguments, g);
    }
    w := WordHere(s, arguments, g);
  }

  lemma Before(w: Word, words: seq<Word>, tail: seq<string>, g: Grammar) returns (all: seq<Word>)
    requires Writable(w) && Meaning(w, g).Ok? && Accepted(words, g)
    ensures Accepted(all, g) && Rendered(all) + tail == Tokens(w) + (Rendered(words) + tail)
  {
    all := [w] + words;
    assert all[1..] == words;
    RenderedFirst(all, tail);
  }

  ghost predicate IsRead(arguments: seq<string>, json: bool, g: Grammar) {
    exists n: nat :: After(n, Begin(json), arguments, g).outcome.Finished?
  }

  ghost predicate HasRendering(arguments: seq<string>, g: Grammar) {
    exists words: seq<Word>, ending: Ending :: IsRendering(arguments, words, ending, g)
  }

  /** The loops read exactly the renderings of option lists; every other command line is an error, or
      keeps the loop going for ever. */
  lemma ReadsExactlyRenderings(arguments: seq<string>, json: bool, g: Grammar)
    ensures IsRead(arguments, json, g) <==> HasRendering(arguments, g)
  {
    if words: seq<Word>, ending: Ending :| IsRendering(arguments, words, ending, g) {
      RenderingReadsBack(arguments, json, words, ending, g);
    }
    if n: nat :| After(n, Begin(json), arguments, g).outcome.Finished? {
      LoopEndsExactly(arguments, g, json);
      var words, ending := OnlyRenderingsAreRead(n, Begin(json), arguments, g);
      assert arguments[0..] == arguments;
      assert IsRendering(arguments, words, ending, g);
    }
  }

  /** --path, --query, --header and --field take key=value, the value decoded and filed under the key in
      their own place. The key ends at the first equals sign. */
  lemma KeyValueOptions(key: string, value: string, op: OperationSpec, host: Host)
    requires '=' !in key && TrimSpace(key) == key && key != ""
    ensures EffectOf(NameOf("path"), key + "=" + value, Call(op, host)) == Ok(Add(InPath, key, host.decode(value)))
    ensures EffectOf(NameOf("query"), key + "=" + value, Call(op, host)) == Ok(Add(InQuery, key, host.decode(value)))
    ensures EffectOf(NameOf("header"), key + "=" + value, Call(op, host)) == Ok(Add(InHeader, key, host.decode(value)))
    ensures EffectOf(NameOf("field"), key + "=" + value, Call(op, host)) == Ok(Add(InField, key, host.decode(value)))
  {
    PairRead(key, value);
  }

  /** --file takes key=file, and --param files its value where the operation has the parameter. */
  lemma FileAndParamOptions(key: string, value: string, op: OperationSpec, host: Host)
    requires '=' !in key && TrimSpace(key) == key && key != ""
    ensures EffectOf(NameOf("file"), key + "=" + value, Call(op, host)) == Ok(SetFile(key, value))
    ensures EffectOf(NameOf("param"), key + "=" + value, Call(op, host)) ==
      match FindParameter(op.parameters, key)
      case None => Err(UnknownFlag)
      case Some(parameter) => Ok(Add(parameter.place, parameter.name, host.decode(value)))
  {
    PairRead(key, value);
    assert NameOf("file") == File && NameOf("param") == Param;
  }

  lemma PairRead(key: string, value: string)
    requires '=' !in key && TrimSpace(key) == key && key != ""
    ensures KeyValue(key + "=" + value) == Some((key, value))
  {
    var raw := key + "=" + value;
    CutAt(key, value);
    assert raw[..|key|] == key && raw[|key| + 1..] == value;
  }

  // ---- What each option does, by its spelling ----

  /** --json takes the spellings of a boolean; --base-url, --config, --body-file and --timeout take their value,
      a timeout as a whole number. */
  lemma CommonOptionsSay(value: string, g: Grammar)
    ensures EffectOf(NameOf("json"), value, g) ==
      if value in ["1", "t", "T", "true", "True", "TRUE"] then Ok(SetJson(true))
      else if value in ["0", "f", "F", "false", "False", "FALSE"] then Ok(SetJson(false))
      else Err(NotBoolean)
    ensures EffectOf(NameOf("base-url"), value, g) == Ok(SetBaseUrl(value))
    ensures EffectOf(NameOf("config"), value, g) == Ok(SetConfig(value))
    ensures EffectOf(NameOf("timeout"), value, g) ==
      if Atoi(value).Some? then Ok(SetTimeout(Atoi(value).value)) else Err(NotInteger)
  {
  }

  // The number these digits stand for, if it fits 64 bits with this sign.
  predicate Fits(value: Option<int>, digits: string, negative: bool)
    requires Patch.Digits(digits)
  {
    var n: int := Patch.DecimalValue(digits);
    if negative then value == if n <= 0x8000_0000_0000_0000 then Some(0 - n) else None
    else value == if n < 0x8000_0000_0000_0000 then Some(n) else None
  }

  lemma UnsignedSay(digits: string)
    requires digits != "" && Patch.Digits(digits)
    ensures Fits(Atoi(digits), digits, false)
  {
    assert digits[0] != '-' && digits[0] != '+';
  }

  lemma SignedSay(sign: char, digits: string)
    requires digits != "" && Patch.Digits(digits) && sign in "+-"
    ensures Fits(Atoi([sign] + digits), digits, sign == '-')
  {
    assert ([sign] + digits)[1..] == digits;
  }

  /** A whole number is written in decimal digits, with a sign or without, and fits 64 bits. */
  lemma NumbersSay(digits: string)
    requires digits != "" && Patch.Digits(digits)
    ensures Fits(Atoi(digits), digits, false)
    ensures Fits(Atoi("+" + digits), digits, false) && Fits(Atoi("-" + digits), digits, true)
  {
    UnsignedSay(digits);
    SignedSay('+', digits);
    SignedSay('-', digits);
  }

  lemma OnlyNumbersSay(text: string)
    requires Atoi(text).Some?
    ensures exists digits: string ::
      digits != "" && Patch.Digits(digits) && (text == digits || text == "+" + digits || text == "-" + digits)
  {
    if text[0] == '-' || text[0] == '+' {
      assert text == [text[0]] + text[1..];
    }
  }

  /** --body reads its JSON, --body-file keeps the file's name. */
  lemma BodyOptionsSay(value: string, op: OperationSpec, host: Host)
    ensures EffectOf(NameOf("body"), value, Call(op, host)) ==
      if host.readBody(value).Some? then Ok(SetBody(host.readBody(value).value)) else Err(BadBody)
    ensures EffectOf(NameOf("body-file"), value, Call(op, host)) == Ok(SetBodyFile(value))
  {
  }

  // The names that are not read as parameters or body fields.
  predicate Known(text: string) {
    text in ["json", "base-url", "config", "timeout", "path", "query", "header", "param", "field", "file",
             "body", "body-file"]
  }

  /** Any other flag is a parameter when the operation has one of that name, else a field of the body when
      there is one, else unknown. Options of a call mean nothing to the common loop. */
  lemma OtherOptionsSay(text: string, value: string, op: OperationSpec, host: Host)
    requires !Known(text)
    ensures EffectOf(NameOf(text), value, Call(op, host)) ==
      match FindParameter(op.parameters, text)
      case Some(parameter) => Ok(Add(parameter.place, parameter.name, host.decode(value)))
      case None => if op.hasBody then Ok(Add(InField, Normalized(text), host.decode(value))) else Err(UnknownFlag)
  {
    assert NameOf(text) == Other(text) by { UnknownIsOther(text); }
  }

  lemma UnknownIsOther(text: string)
    ensures NameOf(text).Other? <==> !Known(text)
    ensures !Known(text) ==> NameOf(text) == Other(text)
  {
  }

  lemma OnlyCommonOptions(text: string, value: string)
    ensures text !in ["json", "base-url", "config", "timeout"] ==>
      EffectOf(NameOf(text), value, CommonOnly) == Err(UnknownFlag)
  {
  }

  predicate SameLetter(c: char, c': char) {
    && (c == '-' ==> c' == '_')
    && ('A' <= c <= 'Z' ==> c' as int == c as int + 32)
    && (c != '-' && !('A' <= c <= 'Z') ==> c' == c)
  }

  /** Names are compared letter by letter, lower case, with underscores for hyphens. */
  lemma {:induction false} NormalizedSays(name: string)
    ensures |Normalized(name)| == |name|
    ensures forall i | 0 <= i < |name| :: SameLetter(name[i], Normalized(name)[i])
  {
    if name != "" {
      NormalizedSays(name[1..]);
    }
  }

  /** The parameter of a flag is the first one whose name reads the same. */
  lemma {:induction false} ParameterSays(parameters: seq<Parameter>, name: string)
    ensures FindParameter(parameters, name).None? <==>
      forall i | 0 <= i < |parameters| :: Normalized(parameters[i].name) != Normalized(name)
    ensures FindParameter(parameters, name).Some? ==> exists i | 0 <= i < |parameters| ::
      && Some(parameters[i]) == FindParameter(parameters, name)
      && Normalized(parameters[i].name) == Normalized(name)
      && forall j | 0 <= j < i :: Normalized(parameters[j].name) != Normalized(name)
  {
    if parameters != [] && Normalized(parameters[0].name) != Normalized(name) {
      ParameterSays(parameters[1..], name);
      if FindParameter(parameters[1..], name).Some? {
        var i :| 0 <= i < |parameters| - 1 && Some(parameters[1..][i]) == FindParameter(parameters, name)
          && Normalized(parameters[1..][i].name) == Normalized(name)
          && forall j | 0 <= j < i :: Normalized(parameters[1..][j].name) != Normalized(name);
        assert Normalized(parameters[i + 1].name) == Normalized(name);
        assert forall j | 0 < j < i + 1 :: parameters[j] == parameters[1..][j - 1];
      }
    }
  }

  /** What a flag at an index is when it is not read: a value that must follow is missing, the flag is
      unknown, or its value is refused. */
  lemma RefusalsSay(arguments: seq<string>, i: nat, text: string, inline: Option<string>, g: Grammar)
    requires i < |arguments| && arguments[i] != "--" && SplitLongFlag(arguments[i]) == Some((text, inline))
    requires !Dangling(arguments, i, g) && !(text == "json" && inline.None?)
    ensures var missing := inline.None? && (i + 1 == |arguments| || "--" <= arguments[i + 1]);
      var common := text in ["json", "base-url", "config", "timeout"];
      if missing then
        MoveAt(arguments, i, g) == Fail(
          if common then RequiresValue
          else if g.CommonOnly? then UnknownFlag
          else if Known(text) || g.op.hasBody then RequiresValue
          else UnknownFlag)
      else
        var value := if inline.Some? then inline.value else arguments[i + 1];
        MoveAt(arguments, i, g) ==
          match EffectOf(NameOf(text), value, g)
          case Ok(effect) => Take(effect, if inline.Some? then i + 1 else i + 2)
          case Err(error) => Fail(error)
  {
  }

  // The first equals sign, behind a key that is not blank.
  predicate KeyEndsAt(raw: string, k: nat) {
    k < |raw| && raw[k] == '=' && '=' !in raw[..k] && TrimSpace(raw[..k]) != ""
  }

  /** A pair needs an equals sign and a key that is not blank; blanks around the key are dropped. */
  lemma PairsSay(raw: string)
    ensures KeyValue(raw).Some? <==> exists k: nat :: KeyEndsAt(raw, k)
    ensures forall k: nat :: KeyEndsAt(raw, k) ==> KeyValue(raw) == Some((TrimSpace(raw[..k]), raw[k + 1..]))
  {
    forall k: nat | KeyEndsAt(raw, k) ensures CutPoint(raw) == k {
      CutAt(raw[..k], raw[k + 1..]);
      assert raw == raw[..k] + "=" + raw[k + 1..];
    }
    if KeyValue(raw).Some? {
      assert KeyEndsAt(raw, CutPoint(raw));
    }
  }

  /** An option that takes a pair refuses anything else. */
  lemma PairOptionsRefuse(name: Name, value: string, op: OperationSpec, host: Host)
    requires KeyValue(value).None? && name in {Path, Query, Header, Field, Param, File}
    ensures EffectOf(name, value, Call(op, host)) == Err(NotKeyValue)
  {
  }

  lemma PairNames()
    ensures NameOf("path") == Path && NameOf("query") == Query && NameOf("header") == Header
    ensures NameOf("field") == Field && NameOf("param") == Param && NameOf("file") == File
  {
  }

  /** A command line without options leaves all of them empty, but for the output mode it was given. */
  lemma NothingGiven(json: bool, ending: Ending, g: Grammar)
    ensures Read(json, [], ending, g).options ==
      Options(CommonOptions(json, "", "", 0), map[], map[], None, "")
  {
  }

  // ---- What a list of options amounts to ----

  // The value of the last effect that sets one, if any does.
  function Last<T>(effects: seq<Effect>, pick: Effect -> Option<T>, default: T): T
    decreases |effects|
  {
    if effects == [] then default
    else
      var k := |effects| - 1;
      if pick(effects[k]).Some? then pick(effects[k]).value else Last(effects[..k], pick, default)
  }

  function JsonOf(e: Effect): Option<bool> {
    if e.SetJson? then Some(e.on) else None
  }

  function UrlOf(e: Effect): Option<string> {
    if e.SetBaseUrl? then Some(e.url) else None
  }

  function ConfigOf(e: Effect): Option<string> {
    if e.SetConfig? then Some(e.file) else None
  }

  function TimeoutOf(e: Effect): Option<int> {
    if e.SetTimeout? then Some(e.seconds) else None
  }

  function BodyOf(e: Effect): Option<Option<string>> {
    if e.SetBody? then Some(Some(e.body)) else None
  }

  function BodyFileOf(e: Effect): Option<string> {
    if e.SetBodyFile? then Some(e.file) else None
  }

  function FileOf(key: string, e: Effect): Option<Option<string>> {
    if e.SetFile? && e.key == key then Some(Some(e.file)) else None
  }

  function StoredFile(o: Options, key: string): Option<string> {
    if key in o.files then Some(o.files[key]) else None
  }

  lemma FoldedLast(o: Options, effects: seq<Effect>)
    requires effects != []
    ensures Folded(o, effects) == Applied(Folded(o, effects[..|effects| - 1]), effects[|effects| - 1])
  {
    var front, last := effects[..|effects| - 1], effects[|effects| - 1];
    assert effects == front + [last];
    FoldedConcat(o, front, [last]);
  }

  /** The last of the common options wins, each for itself. */
  lemma {:induction false} LastCommonWins(o: Options, effects: seq<Effect>)
    ensures Folded(o, effects).common ==
      CommonOptions(Last(effects, JsonOf, o.common.json), Last(effects, UrlOf, o.common.baseUrl),
                    Last(effects, ConfigOf, o.common.config), Last(effects, TimeoutOf, o.common.timeout))
    decreases |effects|
  {
    if effects != [] {
      FoldedLast(o, effects);
      LastCommonWins(o, effects[..|effects| - 1]);
    }
  }

  /** So do the last --body and --body-file, and the last --file for each key. */
  lemma {:induction false} LastBodyWins(o: Options, effects: seq<Effect>, key: string)
    ensures Folded(o, effects).body == Last(effects, BodyOf, o.body)
    ensures Folded(o, effects).bodyFile == Last(effects, BodyFileOf, o.bodyFile)
    ensures StoredFile(Folded(o, effects), key) == Last(effects, e => FileOf(key, e), StoredFile(o, key))
    decreases |effects|
  {
    if effects != [] {
      FoldedLast(o, effects);
      LastBodyWins(o, effects[..|effects| - 1], key);
    }
  }

  // The values given for one key of one place, in order.
  function Given(effects: seq<Effect>, place: Place, key: string): seq<Value> {
    if effects == [] then []
    else
      (if GivesFor(effects[0], place, key) then [effects[0].value] else [])
      + Given(effects[1..], place, key)
  }

  // What is stored after one more value, and after these values, were added to what was stored before.
  function Joined(stored: Option<Value>, value: Value): Value {
    if stored.None? then value
    else if stored.value.List? then List(stored.value.items + [value])
    else List([stored.value, value])
  }

  function Gathered(stored: Option<Value>, values: seq<Value>): Option<Value>
    decreases |values|
  {
    if values == [] then stored else Gathered(Some(Joined(stored, values[0])), values[1..])
  }

  function Stored(o: Options, place: Place, key: string): Option<Value> {
    if (place, key) in o.values then Some(o.values[(place, key)]) else None
  }

  predicate GivesFor(effect: Effect, place: Place, key: string) {
    effect.Add? && effect.place == place && effect.key == key
  }

  lemma StoredAfter(o: Options, effect: Effect, place: Place, key: string)
    requires !place.Elsewhere?
    ensures Stored(Applied(o, effect), place, key) ==
      if GivesFor(effect, place, key) then Some(Joined(Stored(o, place, key), effect.value)) else Stored(o, place, key)
  {
  }

  lemma {:induction false} AddedValuesGather(o: Options, effects: seq<Effect>, place: Place, key: string)
    requires !place.Elsewhere?
    ensures Stored(Folded(o, effects), place, key) == Gathered(Stored(o, place, key), Given(effects, place, key))
    decreases |effects|
  {
    if effects != [] {
      var o' := Applied(o, effects[0]);
      StoredAfter(o, effects[0], place, key);
      AddedValuesGather(o', effects[1..], place, key);
      GivenFirst(effects, place, key);
    }
  }

  lemma GivenFirst(effects: seq<Effect>, place: Place, key: string)
    requires effects != []
    ensures Given(effects, place, key) ==
      if GivesFor(effects[0], place, key) then [effects[0].value] + Given(effects[1..], place, key)
      else Given(effects[1..], place, key)
  {
  }

  lemma {:induction false} GatheredList(items: seq<Value>, values: seq<Value>)
    ensures Gathered(Some(List(items)), values) == Some(List(items + values))
    decreases |values|
  {
    if values == [] {
      assert items + values == items;
    } else {
      GatheredList(items + [values[0]], values[1..]);
      assert items + [values[0]] + values[1..] == items + values;
    }
  }

  /** Values given more than once for a key are kept together in their order; when the first one is
      itself an array, the others are appended to it. */
  lemma RepeatedValues(effects: seq<Effect>, place: Place, key: string)
    requires !place.Elsewhere? && |Given(effects, place, key)| > 1
    ensures var given := Given(effects, place, key);
      Stored(Folded(NO_OPTIONS, effects), place, key) ==
        Some(List(if given[0].List? then given[0].items + given[1..] else given))
  {
    var given := Given(effects, place, key);
    AddedValuesGather(NO_OPTIONS, effects, place, key);
    var rest := given[1..];
    if given[0].List? {
      GatheredList(given[0].items, rest);
    } else {
      GatheredList([given[0], rest[0]], rest[1..]);
      assert [given[0], rest[0]] + rest[1..] == given;
    }
  }

  /** A value given once is kept as it is; a key that was not given has none. */
  lemma SingleValues(effects: seq<Effect>, place: Place, key: string)
    requires !place.Elsewhere? && |Given(effects, place, key)| <= 1
    ensures Stored(Folded(NO_OPTIONS, effects), place, key) ==
      if Given(effects, place, key) == [] then None else Some(Given(effects, place, key)[0])
  {
    AddedValuesGather(NO_OPTIONS, effects, place, key);
  }

  // ---- The loops ----

  // What a loop over the arguments is to return.
  ghost predicate Parsed(arguments: seq<string>, json: bool, g: Grammar, final: State) {
    && !final.outcome.Running?
    && (final.outcome.Finished? <==> HasRendering(arguments, g))
    && forall words: seq<Word>, ending: Ending ::
         IsRendering(arguments, words, ending, g) ==> final == Read(json, words, ending, g)
  }

  lemma ParsedWhenStopped(n: nat, arguments: seq<string>, json: bool, g: Grammar)
    requires !After(n, Begin(json), arguments, g).outcome.Running?
    ensures Parsed(arguments, json, g, After(n, Begin(json), arguments, g))
  {
    var final := After(n, Begin(json), arguments, g);
    ReadsExactlyRenderings(arguments, json, g);
    forall words: seq<Word>, ending: Ending | IsRendering(arguments, words, ending, g)
      ensures final == Read(json, words, ending, g)
    {
      RenderingReadsBack(arguments, json, words, ending, g);
      SameEnd(n, |words| + 1, Begin(json), arguments, g);
    }
    if m: nat :| After(m, Begin(json), arguments, g).outcome.Finished? {
      SameEnd(n, m, Begin(json), arguments, g);
    }
  }

  lemma {:induction false} SameEnd(m: nat, n: nat, s: State, arguments: seq<string>, g: Grammar)
    requires !After(m, s, arguments, g).outcome.Running? && !After(n, s, arguments, g).outcome.Running?
    ensures After(m, s, arguments, g) == After(n, s, arguments, g)
    decreases m
  {
    if !s.outcome.Running? {
      StaysStopped(m, s, arguments, g);
      StaysStopped(n, s, arguments, g);
    } else {
      SameEnd(m - 1, n - 1, Step(s, arguments, g), arguments, g);
    }
  }

  // applyCommonOption: the effect and the index to go on from, None for a name it does not know.
  method ApplyCommonOption(arguments: seq<string>, index: nat, text: string, inline: Option<string>)
    returns (r: Option<Result<(Effect, nat), OptionError>>)
    requires index < |arguments|
    ensures r.Some? <==> Common(NameOf(text))
    ensures r.Some? && SplitLongFlag(arguments[index]) == Some((text, inline)) ==>
      forall g: Grammar :: MoveAt(arguments, index, g) ==
        if r.value.Ok? then Take(r.value.value.0, r.value.value.1) else Fail(r.value.error)
  {
    if !Common(NameOf(text)) {
      return None;
    }
    if NameOf(text).Json? && inline.None? {
      return Some(Ok((SetJson(true), index + 1)));
    }
    var value := OptionValue(arguments, index, inline);
    if value.None? {
      return Some(Err(RequiresValue));
    }
    var effect := CommonEffect(NameOf(text), value.value.0);
    return Some(if effect.Ok? then Ok((effect.value, value.value.1)) else Err(effect.error));
  }

  // applyCallOption: the effect and the index to go on from.
  method ApplyCallOption(
    arguments: seq<string>, index: nat, text: string, inline: Option<string>, op: OperationSpec, host: Host)
    returns (r: Result<(Effect, nat), OptionError>)
    requires index < |arguments|
    ensures arguments[index] != "--" && SplitLongFlag(arguments[index]) == Some((text, inline)) ==>
      MoveAt(arguments, index, Call(op, host)) == if r.Ok? then Take(r.value.0, r.value.1) else Fail(r.error)
  {
    var common := ApplyCommonOption(arguments, index, text, inline);
    if common.Some? {
      return common.value;
    }
    var next := OptionValue(arguments, index, inline);
    if !NameOf(text).Other? {
      if next.None? {
        return Err(RequiresValue);
      }
      var effect := CallEffect(NameOf(text), next.value.0, op, host);
      return if effect.Ok? then Ok((effect.value, next.value.1)) else Err(effect.error);
    }
    if next.None? && !op.hasBody {
      return Err(UnknownFlag);
    }
    var parameter := FindParameter(op.parameters, text);
    if parameter.None? {
      if !op.hasBody {
        return Err(UnknownFlag);
      }
      if next.None? {
        return Err(RequiresValue);
      }
      return Ok((Add(InField, Normalized(text), host.decode(next.value.0)), next.value.1));
    }
    // A missing value reads as the empty one, with index 0.
    var (value, rest) := next.GetOr(("", 0));
    return Ok((Add(parameter.value.place, parameter.value.name, host.decode(value)), rest));
  }

  /** The common options' loop always ends; it accepts exactly the renderings of lists of common options
      and then returns what they stand for. */
  method ParseCommonOptions(arguments: seq<string>, json: bool) returns (final: State)
    ensures Parsed(arguments, json, CommonOnly, final)
  {
    final := Begin(json);
    ghost var n: nat := 0;
    while final.outcome == Running
      invariant final == After(n, Begin(json), arguments, CommonOnly) && final.index <= |arguments|
      decreases |arguments| - final.index, if final.outcome == Running then 1 else 0
    {
      OneMore(n, Begin(json), arguments, CommonOnly);
      n := n + 1;
      if final.index >= |arguments| {
        final := final.(outcome := Finished);
        continue;
      }
      MovesOn(arguments, final.index, CommonOnly);
      var raw := arguments[final.index];
      if raw == "--" {
        final := final.(positionals := final.positionals + arguments[final.index + 1..], outcome := Finished);
        continue;
      }
      var flag := SplitLongFlag(raw);
      if flag.None? {
        final := final.(positionals := final.positionals + [raw], index := final.index + 1);
        continue;
      }
      var consumed := ApplyCommonOption(arguments, final.index, flag.value.0, flag.value.1);
      if consumed.None? {
        final := final.(outcome := Failed(UnknownFlag));
      } else if consumed.value.Err? {
        final := final.(outcome := Failed(consumed.value.error));
      } else {
        var (effect, next) := consumed.value.value;
        final := final.(options := Applied(final.options, effect), index := next);
      }
    }
    ParsedWhenStopped(n, arguments, json, CommonOnly);
  }

  /** The loop over an operation's arguments, for the arguments it ends on. */
  method ParseOperationArguments(arguments: seq<string>, op: OperationSpec, host: Host, json: bool)
    returns (final: State)
    requires !Stalls(arguments, 0, Call(op, host))
    ensures Parsed(arguments, json, Call(op, host), final)
  {
    final := Begin(json);
    var g := Call(op, host);
    ghost var n: nat := 0;
    while final.outcome == Running
      invariant final == After(n, Begin(json), arguments, g)
      invariant final.outcome.Running? ==> !Stalls(arguments, final.index, g)
      decreases |arguments| - final.index, if final.outcome == Running then 1 else 0
    {
      OneMore(n, Begin(json), arguments, g);
      n := n + 1;
      if final.index >= |arguments| {
        final := final.(outcome := Finished);
        continue;
      }
      MovesOn(arguments, final.index, g);
      var raw := arguments[final.index];
      if raw == "--" {
        final := final.(positionals := final.positionals + arguments[final.index + 1..], outcome := Finished);
        continue;
      }
      var flag := SplitLongFlag(raw);
      if flag.None? {
        final := final.(positionals := final.positionals + [raw], index := final.index + 1);
        continue;
      }
      var consumed := ApplyCallOption(arguments, final.index, flag.value.0, flag.value.1, op, host);
      if consumed.Err? {
        final := final.(outcome := Failed(consumed.error));
      } else {
        var (effect, next) := consumed.value;
        final := final.(options := Applied(final.options, effect), index := next);
      }
    }
    ParsedWhenStopped(n, arguments, json, g);
  }
}
