/** Argument parsing of the panel CLI (backend/src/cli/args.js). */
module CliArgs {
  import opened Wrappers
  import opened Dicts

  datatype FlagType = Boolean | Text

  /** A flag that was given: a boolean one, or one with its value. */
  datatype Value = Given | Is(text: string)

  datatype Spec = Spec(flags: map<string, FlagType>, aliases: map<string, string>, positionals: seq<string>, optional: seq<string>)

  datatype UsageError =
    | UnknownOption(option: string) | GivenTwice(name: string) | TakesNoValue(name: string) | NeedsValue(name: string)
    | Missing(names: seq<string>) | Unexpected(word: string)

  datatype Parsed = Parsed(flags: map<string, Value>, args: map<string, string>)

  datatype Outcome<+T> = Accepted(value: T) | Refused(error: UsageError)

  const GLOBAL_FLAGS := map["json" := Boolean, "yes" := Boolean, "help" := Boolean, "as" := Text]
  const GLOBAL_ALIASES := map["y" := "yes", "h" := "help"]

  function Types(spec: Spec): map<string, FlagType> {
    GLOBAL_FLAGS + spec.flags
  }

  function Aliases(spec: Spec): map<string, string> {
    GLOBAL_ALIASES + spec.aliases
  }

  // ---- one word -----------------------------------------------------------------------------------

  predicate Dashed(arg: string) {
    arg != "" && arg[0] == '-'
  }

  predicate DoubleDashed(arg: string) {
    |arg| >= 2 && arg[0] == '-' && arg[1] == '-'
  }

  /** arg.indexOf('='), or the length when there is none. */
  function Equals(arg: string): (n: nat)
    ensures n <= |arg| && (n < |arg| ==> arg[n] == '=') && forall i :: 0 <= i < n ==> arg[i] != '='
  {
    if arg == "" || arg[0] == '=' then 0 else 1 + Equals(arg[1..])
  }

  /** The option as it is spelled, without its value. */
  function Spelled(arg: string): string {
    arg[..Equals(arg)]
  }

  function Raw(spelled: string): string
    requires Dashed(spelled)
  {
    if DoubleDashed(spelled) then spelled[2..] else spelled[1..]
  }

  /** The flag an option names, if it names one: an alias must be one that the single dash allows. */
  function Named(spec: Spec, spelled: string): Option<string>
    requires Dashed(spelled)
  {
    var raw := Raw(spelled);
    var name := if raw in Aliases(spec) then Aliases(spec)[raw] else raw;
    if name !in Types(spec) || (!DoubleDashed(spelled) && (raw !in Aliases(spec) || Aliases(spec)[raw] == "")) then None
    else Some(name)
  }

  predicate IsWord(arg: string) {
    arg == "-" || !Dashed(arg)
  }

  // ---- the parser as a function -------------------------------------------------------------------

  datatype Scanned = Scanned(flags: map<string, Value>, words: seq<string>)

  lemma SpelledDashed(arg: string)
    requires Dashed(arg)
    ensures Dashed(Spelled(arg)) && (DoubleDashed(Spelled(arg)) <==> DoubleDashed(arg))
  {
    assert arg[0] != '=';
    assert Equals(arg) >= 1;
    if DoubleDashed(arg) {
      assert Equals(arg) >= 2;
    }
  }

  /** The loop over the words, only: after "--". */
  function Scan(spec: Spec, argv: seq<string>, only: bool, flags: map<string, Value>, words: seq<string>): Outcome<Scanned>
    decreases |argv|
  {
    if argv == [] then Accepted(Scanned(flags, words))
    else
      var arg := argv[0];
      if only || IsWord(arg) then Scan(spec, argv[1..], only, flags, words + [arg])
      else if arg == "--" then Scan(spec, argv[1..], true, flags, words)
      else
        SpelledDashed(arg);
        var eq := Equals(arg);
        var name := Named(spec, Spelled(arg));
        if name.None? then Refused(UnknownOption(Spelled(arg)))
        else if name.value in flags then Refused(GivenTwice(name.value))
        else if Types(spec)[name.value].Boolean? then
          if eq < |arg| then Refused(TakesNoValue(name.value))
          else Scan(spec, argv[1..], false, flags[name.value := Given], words)
        else if eq < |arg| then Scan(spec, argv[1..], false, flags[name.value := Is(arg[eq + 1..])], words)
        else if |argv| == 1 then Refused(NeedsValue(name.value))
        else Scan(spec, argv[2..], false, flags[name.value := Is(argv[1])], words)
  }

  function Assigned(names: seq<string>, words: seq<string>): map<string, string>
    requires |words| <= |names|
    decreases |words|
  {
    if words == [] then map[]
    else Assigned(names, words[..|words| - 1])[names[|words| - 1] := words[|words| - 1]]
  }

  predicate HelpAsked(flags: map<string, Value>) {
    "help" in flags && flags["help"] != Is("")
  }

  function Filled(spec: Spec, scanned: Scanned): Outcome<Parsed> {
    var required, all := spec.positionals, spec.positionals + spec.optional;
    var words := scanned.words;
    if HelpAsked(scanned.flags) then Accepted(Parsed(scanned.flags, map[]))
    else if |words| < |required| then Refused(Missing(required[|words|..]))
    else if |words| > |all| then Refused(Unexpected(words[|all|]))
    else Accepted(Parsed(scanned.flags, Assigned(all, words)))
  }

  function Parse(spec: Spec, argv: seq<string>): Outcome<Parsed> {
    var scanned := Scan(spec, argv, false, map[], []);
    if scanned.Refused? then Refused(scanned.error) else Filled(spec, scanned.value)
  }

  method ParseArgs(argv: seq<string>, spec: Spec) returns (outcome: Outcome<Parsed>)
    ensures outcome == Parse(spec, argv)
  {
    var types, aliases := Types(spec), Aliases(spec);
    var flags: map<string, Value> := map[];
    var words: seq<string> := [];
    var onlyPositionals := false;
    var i := 0;
    while i < |argv|
      invariant 0 <= i <= |argv|
      invariant Scan(spec, argv[i..], onlyPositionals, flags, words) == Scan(spec, argv, false, map[], [])
    {
      var arg := argv[i];
      assert argv[i..][0] == arg && argv[i..][1..] == argv[i + 1..];
      if onlyPositionals || arg == "-" || !Dashed(arg) {
        words := words + [arg];
        i := i + 1;
        continue;
      }
      if arg == "--" {
        onlyPositionals := true;
        i := i + 1;
        continue;
      }
      SpelledDashed(arg);
      var eq := Equals(arg);
      var raw := if DoubleDashed(arg) then arg[2..eq] else arg[1..eq];
      assert raw == Raw(Spelled(arg));
      var name := if raw in aliases then aliases[raw] else raw;
      if name !in types || (!DoubleDashed(arg) && (raw !in aliases || aliases[raw] == "")) {
        return Refused(UnknownOption(arg[..eq]));
      }
      if name in flags {
        return Refused(GivenTwice(name));
      }
      if types[name].Boolean? {
        if eq < |arg| {
          return Refused(TakesNoValue(name));
        }
        flags := flags[name := Given];
        i := i + 1;
        continue;
      }
      var value;
      if eq < |arg| {
        value := arg[eq + 1..];
      } else {
        if i + 1 == |argv| {
          return Refused(NeedsValue(name));
        }
        value := argv[i + 1];
        assert argv[i..][1] == value && argv[i..][2..] == argv[i + 2..];
        i := i + 1;
      }
      flags := flags[name := Is(value)];
      i := i + 1;
    }
    assert argv[i..] == [];
    var required, all := spec.positionals, spec.positionals + spec.optional;
    if HelpAsked(flags) {
      return Accepted(Parsed(flags, map[]));
    }
    if |words| < |required| {
      return Refused(Missing(required[|words|..]));
    }
    if |words| > |all| {
      return Refused(Unexpected(words[|all|]));
    }
    var args: map<string, string> := map[];
    for n := 0 to |words|
      invariant args == Assigned(all, words[..n])
    {
      assert words[..n + 1][..n] == words[..n];
      args := args[all[n] := words[n]];
    }
    assert words[..|words|] == words;
    return Accepted(Parsed(flags, args));
  }

  // ---- the lines the parser accepts, independently ------------------------------------------------

  /** An item of a line: a positional word, a boolean flag, a flag with its value joined by "=" or in the word
      after it. */
  datatype Item = Word(word: string) | Switch(spelled: string) | Joined(spelled: string, value: string) | Apart(spelled: string, value: string)

  /** Items, and the words after "--", if it was given. */
  datatype Line = Line(items: seq<Item>, rest: Option<seq<string>>)

  predicate OptionOf(spec: Spec, spelled: string, kind: FlagType) {
    Dashed(spelled) && '=' !in spelled && Named(spec, spelled).Some? && Types(spec)[Named(spec, spelled).value] == kind
  }

  predicate ValidItem(spec: Spec, item: Item) {
    match item
    case Word(word) => IsWord(word)
    case Switch(spelled) => OptionOf(spec, spelled, Boolean) && spelled != "-" && spelled != "--"
    case Joined(spelled, _) => OptionOf(spec, spelled, Text)
    case Apart(spelled, _) => OptionOf(spec, spelled, Text) && spelled != "-" && spelled != "--"
  }

  function NameOf(spec: Spec, item: Item): Option<string>
    requires ValidItem(spec, item)
  {
    if item.Word? then None else Named(spec, item.spelled)
  }

  function ValueOf(item: Item): Value {
    match item
    case Joined(_, value) => Is(value)
    case Apart(_, value) => Is(value)
    case _ => Given
  }

  function RenderItem(item: Item): seq<string> {
    match item
    case Word(word) => [word]
    case Switch(spelled) => [spelled]
    case Joined(spelled, value) => [spelled + "=" + value]
    case Apart(spelled, value) => [spelled, value]
  }

  function RenderItems(items: seq<Item>): seq<string> {
    if items == [] then [] else RenderItem(items[0]) + RenderItems(items[1..])
  }

  function Render(line: Line): seq<string> {
    RenderItems(line.items) + if line.rest.Some? then ["--"] + line.rest.value else []
  }

  ghost predicate ValidItems(spec: Spec, items: seq<Item>) {
    forall i :: 0 <= i < |items| ==> ValidItem(spec, items[i])
  }

  function ItemWords(items: seq<Item>): seq<string> {
    if items == [] then [] else (if items[0].Word? then [items[0].word] else []) + ItemWords(items[1..])
  }

  function Words(line: Line): seq<string> {
    ItemWords(line.items) + if line.rest.Some? then line.rest.value else []
  }

  /** The flags of items after flags, none of them twice. */
  function Collected(spec: Spec, items: seq<Item>, flags: map<string, Value>): Option<map<string, Value>>
    requires ValidItems(spec, items)
    decreases items
  {
    if items == [] then Some(flags)
    else
      var name := NameOf(spec, items[0]);
      if name.None? then Collected(spec, items[1..], flags)
      else if name.value in flags then None
      else Collected(spec, items[1..], flags[name.value := ValueOf(items[0])])
  }

  // ---- the parser accepts exactly these lines -----------------------------------------------------

  lemma {:induction false} EqualsAt(spelled: string, value: string)
    requires '=' !in spelled
    ensures Equals(spelled) == |spelled| && Equals(spelled + "=" + value) == |spelled|
  {
    if spelled == "" {
      assert spelled + "=" + value == "=" + value;
    } else {
      assert (spelled + "=" + value)[0] == spelled[0] != '=';
      assert (spelled + "=" + value)[1..] == spelled[1..] + "=" + value;
      EqualsAt(spelled[1..], value);
    }
  }

  /** One item at the front of the words is read as one. */
  lemma ScanItem(spec: Spec, item: Item, more: seq<string>, flags: map<string, Value>, words: seq<string>)
    requires ValidItem(spec, item)
    ensures var name := NameOf(spec, item); var scan := Scan(spec, RenderItem(item) + more, false, flags, words);
      scan == if item.Word? then Scan(spec, more, false, flags, words + [item.word])
              else if name.value in flags then Refused(GivenTwice(name.value))
              else Scan(spec, more, false, flags[name.value := ValueOf(item)], words)
  {
    var argv := RenderItem(item) + more;
    match item
    case Word(word) =>
      assert argv[1..] == more;
    case Switch(spelled) =>
      EqualsAt(spelled, "");
      assert argv[0] == spelled && argv[1..] == more && Spelled(spelled) == spelled;
    case Joined(spelled, value) =>
      EqualsAt(spelled, value);
      var arg := spelled + "=" + value;
      assert argv[0] == arg && argv[1..] == more && Spelled(arg) == spelled && arg[|spelled| + 1..] == value;
      assert arg[0] == '-' && arg[|spelled|] == '=';
      assert arg != "-" && arg != "--";
    case Apart(spelled, value) =>
      EqualsAt(spelled, "");
      assert argv[0] == spelled && argv[1] == value && argv[2..] == more && Spelled(spelled) == spelled;
  }

  lemma {:induction false} ScanRest(spec: Spec, rest: seq<string>, flags: map<string, Value>, words: seq<string>)
    ensures Scan(spec, rest, true, flags, words) == Accepted(Scanned(flags, words + rest))
    decreases |rest|
  {
    if rest == [] {
      assert words + rest == words;
    } else {
      ScanRest(spec, rest[1..], flags, words + [rest[0]]);
      assert words + [rest[0]] + rest[1..] == words + rest;
    }
  }

  lemma ScanTail(spec: Spec, rest: Option<seq<string>>, flags: map<string, Value>, words: seq<string>)
    ensures Scan(spec, if rest.Some? then ["--"] + rest.value else [], false, flags, words) ==
      Accepted(Scanned(flags, words + if rest.Some? then rest.value else []))
  {
    if rest.Some? {
      assert (["--"] + rest.value)[1..] == rest.value;
      ScanRest(spec, rest.value, flags, words);
    } else {
      assert words + [] == words;
    }
  }

  /** Items at the front are read one after the other. */
  lemma {:induction false} ScanItems(spec: Spec, items: seq<Item>, more: seq<string>, flags: map<string, Value>, words: seq<string>)
    requires ValidItems(spec, items) && Collected(spec, items, flags).Some?
    ensures Scan(spec, RenderItems(items) + more, false, flags, words) ==
            Scan(spec, more, false, Collected(spec, items, flags).value, words + ItemWords(items))
    decreases |items|
  {
    hide Scan, ValidItem, NameOf, ValueOf, RenderItem;
    if items == [] {
      assert RenderItems(items) + more == more && words + ItemWords(items) == words;
    } else {
      var item, tail := items[0], items[1..];
      assert RenderItems(items) + more == RenderItem(item) + (RenderItems(tail) + more);
      ScanItem(spec, item, RenderItems(tail) + more, flags, words);
      ItemNamed(spec, item);
      if item.Word? {
        ScanItems(spec, tail, more, flags, words + [item.word]);
        assert words + [item.word] + ItemWords(tail) == words + ItemWords(items);
      } else {
        ScanItems(spec, tail, more, flags[NameOf(spec, item).value := ValueOf(item)], words);
        assert ItemWords(items) == ItemWords(tail);
      }
    }
  }

  /** Every line of valid items without a repeated flag is read as what it says. */
  lemma ScanLine(spec: Spec, line: Line, flags: map<string, Value>, words: seq<string>)
    requires ValidItems(spec, line.items) && Collected(spec, line.items, flags).Some?
    ensures Scan(spec, Render(line), false, flags, words) == Accepted(Scanned(Collected(spec, line.items, flags).value, words + Words(line)))
  {
    hide Scan, ValidItems, Collected, ItemWords, RenderItems;
    var rest := if line.rest.Some? then line.rest.value else [];
    ScanItems(spec, line.items, if line.rest.Some? then ["--"] + rest else [], flags, words);
    ScanTail(spec, line.rest, Collected(spec, line.items, flags).value, words + ItemWords(line.items));
    assert words + ItemWords(line.items) + rest == words + Words(line);
  }

  /** The words of an accepted line start with an item. */
  lemma FrontItem(spec: Spec, argv: seq<string>, flags: map<string, Value>, words: seq<string>) returns (item: Item, more: seq<string>)
    requires argv != [] && argv[0] != "--" && Scan(spec, argv, false, flags, words).Accepted?
    ensures ValidItem(spec, item) && argv == RenderItem(item) + more && |more| < |argv|
  {
    var arg := argv[0];
    if IsWord(arg) {
      item, more := Word(arg), argv[1..];
    } else {
      SpelledDashed(arg);
      var spelled := Spelled(arg);
      var name := Named(spec, spelled);
      assert name.Some? && '=' !in spelled;
      if Types(spec)[name.value].Boolean? {
        item, more := Switch(arg), argv[1..];
        assert spelled == arg;
      } else if Equals(arg) < |arg| {
        item, more := Joined(spelled, arg[Equals(arg) + 1..]), argv[1..];
        assert arg == spelled + "=" + arg[Equals(arg) + 1..];
      } else {
        item, more := Apart(arg, argv[1]), argv[2..];
        assert spelled == arg;
      }
    }
  }

  /** Whatever is accepted is such a line: each word is used once, as an option, a value or a positional. */
  lemma {:induction false} ScannedIsLine(spec: Spec, argv: seq<string>, flags: map<string, Value>, words: seq<string>) returns (line: Line)
    requires Scan(spec, argv, false, flags, words).Accepted?
    ensures Render(line) == argv && ValidItems(spec, line.items) && Collected(spec, line.items, flags).Some?
    ensures Scan(spec, argv, false, flags, words).value == Scanned(Collected(spec, line.items, flags).value, words + Words(line))
    decreases |argv|
  {
    hide Scan, ValidItem;
    if argv == [] {
      line := Line([], None);
      ScanLine(spec, line, flags, words);
    } else if argv[0] == "--" {
      line := Line([], Some(argv[1..]));
      assert argv == ["--"] + argv[1..];
      ScanLine(spec, line, flags, words);
    } else {
      var item, more := FrontItem(spec, argv, flags, words);
      ScanItem(spec, item, more, flags, words);
      ItemNamed(spec, item);
      var tail;
      if item.Word? {
        tail := ScannedIsLine(spec, more, flags, words + [item.word]);
      } else {
        tail := ScannedIsLine(spec, more, flags[NameOf(spec, item).value := ValueOf(item)], words);
      }
      line := tail.(items := [item] + tail.items);
      LineMore(spec, item, tail, flags);
      ScanLine(spec, line, flags, words);
    }
  }

  lemma ItemNamed(spec: Spec, item: Item)
    requires ValidItem(spec, item)
    ensures item.Word? <==> NameOf(spec, item).None?
  {
  }

  lemma LineMore(spec: Spec, item: Item, tail: Line, flags: map<string, Value>)
    requires ValidItem(spec, item) && ValidItems(spec, tail.items)
    ensures var line := tail.(items := [item] + tail.items); ValidItems(spec, line.items) && Render(line) == RenderItem(item) + Render(tail)
    ensures Collected(spec, [item] + tail.items, flags) ==
      if NameOf(spec, item).None? then Collected(spec, tail.items, flags)
      else if NameOf(spec, item).value in flags then None
      else Collected(spec, tail.items, flags[NameOf(spec, item).value := ValueOf(item)])
  {
    assert ([item] + tail.items)[1..] == tail.items;
  }

  /** argv reads as a line with these flags and words. */
  ghost predicate Reads(spec: Spec, argv: seq<string>, line: Line, flags: map<string, Value>) {
    Render(line) == argv && ValidItems(spec, line.items) && Collected(spec, line.items, map[]) == Some(flags)
  }

  /** What the parser makes of a line it reads, whatever its words: help answers before the positionals are
      looked at; too few words name the required positionals not reached, too many the first extra word;
      otherwise each positional that is reached has the word at its place and no other name is set. */
  lemma LineAnswers(spec: Spec, argv: seq<string>, line: Line, flags: map<string, Value>)
    requires Reads(spec, argv, line, flags)
    ensures var words := Words(line); var all := spec.positionals + spec.optional; var answer := Parse(spec, argv);
      if "help" in flags && flags["help"] != Is("") then answer == Accepted(Parsed(flags, map[]))
      else if |words| < |spec.positionals| then answer == Refused(Missing(spec.positionals[|words|..]))
      else if |words| > |all| then answer == Refused(Unexpected(words[|all|]))
      else answer.Accepted? && answer.value.flags == flags && Fills(all, words, answer.value.args)
  {
    ScanLine(spec, line, map[], []);
    assert [] + Words(line) == Words(line);
    if |Words(line)| <= |spec.positionals + spec.optional| {
      AssignedFills(spec.positionals + spec.optional, Words(line));
    }
  }

  /** args has the words by name: of a name given twice the later word. */
  ghost predicate Fills(names: seq<string>, words: seq<string>, args: map<string, string>) {
    && |words| <= |names|
    && (forall i :: 0 <= i < |words| ==> names[i] in args)
    && (forall i :: 0 <= i < |words| && names[i] !in names[i + 1..|words|] ==> args[names[i]] == words[i])
    && (forall name :: name in args ==> name in names[..|words|])
  }

  lemma {:induction false} AssignedFills(names: seq<string>, words: seq<string>)
    requires |words| <= |names|
    ensures Fills(names, words, Assigned(names, words))
    decreases |words|
  {
    hide Fills;
    if words == [] {
      FillsNone(names);
    } else {
      var n := |words| - 1;
      AssignedFills(names, words[..n]);
      FillsOneMore(names, words, Assigned(names, words[..n]));
    }
  }

  lemma FillsNone(names: seq<string>)
    ensures Fills(names, [], map[])
  {
  }

  lemma FillsOneMore(names: seq<string>, words: seq<string>, before: map<string, string>)
    requires words != [] && |words| <= |names| && Fills(names, words[..|words| - 1], before)
    ensures Fills(names, words, before[names[|words| - 1] := words[|words| - 1]])
  {
    var n := |words| - 1;
    var args := before[names[n] := words[n]];
    assert names[..|words|] == names[..n] + [names[n]];
    forall i | 0 <= i < |words| && names[i] !in names[i + 1..|words|]
      ensures args[names[i]] == words[i]
    {
      if i < n {
        LaterName(names, i, n);
        assert words[..n][i] == words[i];
      }
    }
  }

  lemma LaterName(names: seq<string>, i: nat, n: nat)
    requires i < n < |names| && names[i] !in names[i + 1..n + 1]
    ensures names[i] != names[n] && names[i] !in names[i + 1..n]
  {
    assert names[i + 1..n + 1] == names[i + 1..n] + [names[n]];
  }

  /** Help is asked for, or there is a word for every required positional and none too many. */
  ghost predicate Fits(spec: Spec, line: Line, parsed: Parsed) {
    if "help" in parsed.flags && parsed.flags["help"] != Is("") then parsed.args == map[]
    else |spec.positionals| <= |Words(line)| && Fills(spec.positionals + spec.optional, Words(line), parsed.args)
  }

  /** The parser accepts exactly the lines of valid items without a repeated flag that ask for help or have a
      word for every required positional and none too many; flags and words are those of the line. */
  lemma AcceptsExactly(spec: Spec, argv: seq<string>, parsed: Parsed)
    ensures Parse(spec, argv) == Accepted(parsed) <==>
      exists line :: Reads(spec, argv, line, parsed.flags) && Fits(spec, line, parsed)
  {
    if Parse(spec, argv) == Accepted(parsed) {
      var line := ScannedIsLine(spec, argv, map[], []);
      assert [] + Words(line) == Words(line);
      assert Reads(spec, argv, line, parsed.flags);
      LineAnswers(spec, argv, line, parsed.flags);
    }
    if line :| Reads(spec, argv, line, parsed.flags) && Fits(spec, line, parsed) {
      LineAnswers(spec, argv, line, parsed.flags);
      if !("help" in parsed.flags && parsed.flags["help"] != Is("")) {
        FilledOnce(spec.positionals + spec.optional, Words(line), parsed.args, Parse(spec, argv).value.args);
      }
    }
  }

  lemma FilledOnce(names: seq<string>, words: seq<string>, a: map<string, string>, b: map<string, string>)
    requires Fills(names, words, a) && Fills(names, words, b)
    ensures a == b
  {
    assert forall name :: name in a <==> name in names[..|words|];
    forall name | name in a
      ensures a[name] == b[name]
    {
      var i :| 0 <= i < |words| && names[i] == name;
      var last := LastOf(names, name, |words|, i);
    }
  }

  /** The last place of name among the first n names. */
  lemma {:induction false} LastOf(names: seq<string>, name: string, n: nat, i: nat) returns (last: nat)
    requires i < n <= |names| && names[i] == name
    ensures last < n && names[last] == name && name !in names[last + 1..n]
    decreases n - i
  {
    if j :| i < j < n && names[j] == name {
      last := LastOf(names, name, n, j);
    } else {
      last := i;
    }
  }

  // ---- the lines the parser refuses ---------------------------------------------------------------

  /** The option at the front of words, given after flags, is the one error is about. */
  predicate Offends(spec: Spec, flags: map<string, Value>, words: seq<string>, error: UsageError) {
    && words != [] && !IsWord(words[0]) && words[0] != "--"
    && (SpelledDashed(words[0]);
        var named := Named(spec, Spelled(words[0])); var valued := '=' in words[0];
        match error
        case UnknownOption(option) => option == Spelled(words[0]) && named.None?
        case GivenTwice(name) => named == Some(name) && name in flags
        case TakesNoValue(name) => named == Some(name) && name !in flags && Types(spec)[name].Boolean? && valued
        case NeedsValue(name) => named == Some(name) && name !in flags && Types(spec)[name].Text? && !valued && |words| == 1
        case _ => false)
  }

  /** argv is a line up to an option that error is about. */
  ghost predicate Breaks(spec: Spec, argv: seq<string>, items: seq<Item>, flags: map<string, Value>, words: seq<string>, error: UsageError) {
    && argv == RenderItems(items) + words && ValidItems(spec, items) && Collected(spec, items, map[]) == Some(flags)
    && Offends(spec, flags, words, error)
  }

  lemma {:induction false} EqualsIn(arg: string)
    ensures Equals(arg) < |arg| <==> '=' in arg
  {
    if arg != "" && arg[0] != '=' {
      EqualsIn(arg[1..]);
      assert arg == [arg[0]] + arg[1..];
    }
  }

  /** A line that is not read breaks at an option. */
  lemma {:induction false} RefusedBreaks(spec: Spec, argv: seq<string>, flags: map<string, Value>, words: seq<string>)
    returns (items: seq<Item>, rest: seq<string>)
    requires Scan(spec, argv, false, flags, words).Refused?
    ensures argv == RenderItems(items) + rest && ValidItems(spec, items) && Collected(spec, items, flags).Some?
    ensures Offends(spec, Collected(spec, items, flags).value, rest, Scan(spec, argv, false, flags, words).error)
    decreases |argv|
  {
    hide Scan, ValidItem, NameOf, ValueOf, RenderItem, Offends;
    if Offends(spec, flags, argv, Scan(spec, argv, false, flags, words).error) {
      items, rest := [], argv;
      assert argv == RenderItems(items) + rest;
    } else {
      var item, more := ReadItem(spec, argv, flags, words);
      ScanItem(spec, item, more, flags, words);
      ItemNamed(spec, item);
      var tail;
      if item.Word? {
        tail, rest := RefusedBreaks(spec, more, flags, words + [item.word]);
      } else {
        tail, rest := RefusedBreaks(spec, more, flags[NameOf(spec, item).value := ValueOf(item)], words);
      }
      items := [item] + tail;
      LineMore(spec, item, Line(tail, None), flags);
      assert items[1..] == tail;
      assert RenderItems(items) + rest == RenderItem(item) + (RenderItems(tail) + rest);
    }
  }

  /** What does not offend starts with an item. */
  lemma ReadItem(spec: Spec, argv: seq<string>, flags: map<string, Value>, words: seq<string>) returns (item: Item, more: seq<string>)
    requires Scan(spec, argv, false, flags, words).Refused?
    requires !Offends(spec, flags, argv, Scan(spec, argv, false, flags, words).error)
    ensures ValidItem(spec, item) && argv == RenderItem(item) + more && |more| < |argv|
    ensures item.Word? || (NameOf(spec, item).Some? && NameOf(spec, item).value !in flags)
  {
    NotEmpty(spec, argv, flags, words);
    var arg := argv[0];
    if IsWord(arg) {
      item, more := Word(arg), argv[1..];
    } else {
      NotOffending(spec, argv, flags, words);
      item, more := ReadOption(spec, argv, flags);
    }
  }

  lemma NotEmpty(spec: Spec, argv: seq<string>, flags: map<string, Value>, words: seq<string>)
    requires Scan(spec, argv, false, flags, words).Refused?
    ensures argv != [] && argv[0] != "--"
  {
    if argv != [] && argv[0] == "--" {
      ScanRest(spec, argv[1..], flags, words);
    }
  }

  /** The option at the front is a known flag that was not given before, with a value if and only if it takes one. */
  lemma NotOffending(spec: Spec, argv: seq<string>, flags: map<string, Value>, words: seq<string>)
    requires argv != [] && argv[0] != "--" && !IsWord(argv[0]) && Scan(spec, argv, false, flags, words).Refused?
    requires !Offends(spec, flags, argv, Scan(spec, argv, false, flags, words).error)
    ensures (SpelledDashed(argv[0]); Takes(spec, argv, Named(spec, Spelled(argv[0])), flags))
  {
    SpelledDashed(argv[0]);
    EqualsIn(argv[0]);
  }

  predicate Takes(spec: Spec, argv: seq<string>, name: Option<string>, flags: map<string, Value>)
    requires argv != []
  {
    && name.Some? && name.value !in flags && name.value in Types(spec)
    && (if Types(spec)[name.value].Boolean? then '=' !in argv[0] else '=' in argv[0] || |argv| > 1)
  }

  lemma ReadOption(spec: Spec, argv: seq<string>, flags: map<string, Value>) returns (item: Item, more: seq<string>)
    requires argv != [] && argv[0] != "--" && !IsWord(argv[0])
    requires (SpelledDashed(argv[0]); Takes(spec, argv, Named(spec, Spelled(argv[0])), flags))
    ensures (SpelledDashed(argv[0]); ValidItem(spec, item) && !item.Word? && NameOf(spec, item) == Named(spec, Spelled(argv[0])))
    ensures argv == RenderItem(item) + more && |more| < |argv|
  {
    hide Named;
    var arg := argv[0];
    SpelledDashed(arg);
    EqualsIn(arg);
    var spelled := Spelled(arg);
    var name := Named(spec, spelled);
    assert '=' !in spelled && Dashed(spelled);
    assert spelled == arg ==> spelled != "-" && spelled != "--" by { NoWord(arg); }
    if Types(spec)[name.value].Boolean? {
      item, more := Switch(arg), argv[1..];
      assert spelled == arg;
    } else if Equals(arg) < |arg| {
      item, more := Joined(spelled, arg[Equals(arg) + 1..]), argv[1..];
      assert arg == spelled + "=" + arg[Equals(arg) + 1..];
    } else {
      item, more := Apart(arg, argv[1]), argv[2..];
      assert spelled == arg;
    }
  }

  lemma NoWord(arg: string)
    requires !IsWord(arg)
    ensures arg != "-"
  {
  }

  /** The parser refuses an option exactly when the words are a line up to it: an unknown one, one given before,
      a boolean one with a value, or the last word without the value it needs. */
  lemma RefusesExactly(spec: Spec, argv: seq<string>, error: UsageError)
    requires !error.Missing? && !error.Unexpected?
    ensures Parse(spec, argv) == Refused(error) <==> exists items, flags, words :: Breaks(spec, argv, items, flags, words, error)
  {
    if Parse(spec, argv) == Refused(error) {
      var items, rest := RefusedBreaks(spec, argv, map[], []);
      assert Breaks(spec, argv, items, Collected(spec, items, map[]).value, rest, error);
    }
    if items, flags, words :| Breaks(spec, argv, items, flags, words, error) {
      ScanItems(spec, items, words, map[], []);
      EqualsIn(words[0]);
    }
  }

  /** What an option names: after two dashes an alias or a flag, an alias first; after one only an alias. */
  lemma OptionNames(spec: Spec, raw: string)
    ensures Named(spec, "--" + raw) ==
      (if raw in Aliases(spec) then (if Aliases(spec)[raw] in Types(spec) then Some(Aliases(spec)[raw]) else None)
       else if raw in Types(spec) then Some(raw) else None)
    ensures raw == "" || raw[0] != '-' ==>
      Named(spec, "-" + raw) == (if raw in Aliases(spec) && Aliases(spec)[raw] in Types(spec) && Aliases(spec)[raw] != ""
                                 then Some(Aliases(spec)[raw]) else None)
  {
    assert ("--" + raw)[2..] == raw && ("-" + raw)[1..] == raw;
  }

  /** "--flag value" parses as "--flag=value", wherever an option may stand and whatever follows. */
  lemma {:induction false} ApartIsJoined(spec: Spec, before: seq<Item>, spelled: string, value: string, after: seq<string>,
                                         flags: map<string, Value>, words: seq<string>)
    requires ValidItems(spec, before) && ValidItem(spec, Apart(spelled, value))
    ensures Scan(spec, RenderItems(before) + ([spelled, value] + after), false, flags, words) ==
            Scan(spec, RenderItems(before) + ([spelled + "=" + value] + after), false, flags, words)
    decreases |before|
  {
    hide Scan, ValidItem, RenderItem, NameOf, ValueOf;
    var a, j := [spelled, value] + after, [spelled + "=" + value] + after;
    BothForms(spec, spelled, value);
    if before == [] {
      ScanItem(spec, Apart(spelled, value), after, flags, words);
      ScanItem(spec, Joined(spelled, value), after, flags, words);
      assert RenderItems(before) + a == a && RenderItems(before) + j == j;
    } else {
      var item := before[0];
      assert RenderItems(before) + a == RenderItem(item) + (RenderItems(before[1..]) + a);
      assert RenderItems(before) + j == RenderItem(item) + (RenderItems(before[1..]) + j);
      ScanItem(spec, item, RenderItems(before[1..]) + a, flags, words);
      ScanItem(spec, item, RenderItems(before[1..]) + j, flags, words);
      ItemNamed(spec, item);
      if item.Word? {
        ApartIsJoined(spec, before[1..], spelled, value, after, flags, words + [item.word]);
      } else if NameOf(spec, item).value !in flags {
        ApartIsJoined(spec, before[1..], spelled, value, after, flags[NameOf(spec, item).value := ValueOf(item)], words);
      }
    }
  }

  lemma BothForms(spec: Spec, spelled: string, value: string)
    requires ValidItem(spec, Apart(spelled, value))
    ensures ValidItem(spec, Joined(spelled, value)) && NameOf(spec, Joined(spelled, value)) == NameOf(spec, Apart(spelled, value))
    ensures ValueOf(Joined(spelled, value)) == ValueOf(Apart(spelled, value)) && NameOf(spec, Apart(spelled, value)).Some?
    ensures RenderItem(Apart(spelled, value)) == [spelled, value] && RenderItem(Joined(spelled, value)) == [spelled + "=" + value]
  {
  }

  // ---- the round trip -----------------------------------------------------------------------------

  /** The item that gives flag name its value, in its canonical form. */
  function Canonical(name: string, value: Value): Item {
    if value.Given? then Switch("--" + name) else Joined("--" + name, value.text)
  }

  function CanonicalItems(names: seq<string>, flags: map<string, Value>): seq<Item>
    requires forall name :: name in names ==> name in flags
  {
    if names == [] then [] else [Canonical(names[0], flags[names[0]])] + CanonicalItems(names[1..], flags)
  }

  /** A flag that can be written: it is known, of the type of its value, and no alias shadows it. */
  predicate Writable(spec: Spec, name: string, value: Value) {
    && name != "" && '=' !in name && name !in Aliases(spec) && name in Types(spec)
    && Types(spec)[name] == if value.Given? then Boolean else Text
  }

  lemma CanonicalIs(spec: Spec, name: string, value: Value)
    requires Writable(spec, name, value)
    ensures var item := Canonical(name, value); ValidItem(spec, item) && NameOf(spec, item) == Some(name) && ValueOf(item) == value
  {
    var spelled := "--" + name;
    assert spelled[0] == '-' && spelled[1] == '-' && spelled[2..] == name;
    assert '=' !in spelled;
    assert |spelled| > 2;
  }

  /** before with the flags of names. */
  function Chosen(names: seq<string>, flags: map<string, Value>, before: map<string, Value>): (r: map<string, Value>)
    requires forall name :: name in names ==> name in flags
    ensures forall name :: name in r <==> name in names || name in before
    ensures forall name :: name in r ==> r[name] == if name in names then flags[name] else before[name]
    decreases |names|
  {
    if names == [] then before else Chosen(names[1..], flags, before[names[0] := flags[names[0]]])
  }

  lemma {:induction false} CanonicalCollected(spec: Spec, names: seq<string>, flags: map<string, Value>, before: map<string, Value>)
    requires Distinct(names) && forall name :: name in names ==> name in flags && name !in before && Writable(spec, name, flags[name])
    ensures ValidItems(spec, CanonicalItems(names, flags)) && ItemWords(CanonicalItems(names, flags)) == []
    ensures Collected(spec, CanonicalItems(names, flags), before) == Some(Chosen(names, flags, before))
    decreases |names|
  {
    hide Writable, ValidItem, NameOf;
    if names != [] {
      var name := names[0];
      CanonicalIs(spec, name, flags[name]);
      assert name !in names[1..];
      CanonicalCollected(spec, names[1..], flags, before[name := flags[name]]);
      var items := CanonicalItems(names, flags);
      assert items == [Canonical(name, flags[name])] + CanonicalItems(names[1..], flags);
      LineMore(spec, items[0], Line(CanonicalItems(names[1..], flags), None), before);
      assert items[1..] == CanonicalItems(names[1..], flags);
    }
  }

  /** Any flags, written one after the other in any order, then "--" and the words, parse back to the same
      flags and the words by name. */
  lemma RoundTrip(spec: Spec, names: seq<string>, flags: map<string, Value>, words: seq<string>)
    requires Distinct(names) && (forall name :: name in names <==> name in flags)
    requires (forall name :: name in flags ==> Writable(spec, name, flags[name])) && !HelpAsked(flags)
    requires |spec.positionals| <= |words| <= |spec.positionals + spec.optional|
    ensures Parse(spec, Render(Line(CanonicalItems(names, flags), Some(words)))) ==
            Accepted(Parsed(flags, Assigned(spec.positionals + spec.optional, words)))
  {
    hide Scan, Writable, Render, CanonicalItems, Distinct;
    var line := Line(CanonicalItems(names, flags), Some(words));
    CanonicalCollected(spec, names, flags, map[]);
    assert Chosen(names, flags, map[]) == flags;
    assert Words(line) == words;
    ScanLine(spec, line, map[], []);
    assert [] + words == words;
  }

  /** Positionals with distinct names each get the word at their place. */
  lemma {:induction false} AssignedAt(names: seq<string>, words: seq<string>)
    requires |words| <= |names| && Distinct(names)
    ensures var args := Assigned(names, words);
      (forall i :: 0 <= i < |words| ==> names[i] in args && args[names[i]] == words[i]) &&
      (forall name :: name in args ==> exists i :: 0 <= i < |words| && names[i] == name)
    decreases |words|
  {
    if words != [] {
      AssignedAt(names, words[..|words| - 1]);
    }
  }
}
