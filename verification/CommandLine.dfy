/**
 The parser of command lines, driven by a command's table of flags.  It succeeds
 exactly on the lines that can be printed from positionals and flags, and reads back
 what was printed.
 */
module CommandLine {
  import opened Options

  datatype FlagSpec = FlagSpec(name: string, short: Option<string>, takesValue: bool, multiple: bool)

  datatype Value = Text(text: string) | Switch(on: bool)

  /** What the loop collects: positionals, the last value of each flag, all values of the repeatable ones. */
  datatype Parsed = Parsed(positionals: seq<string>, flags: map<string, Value>, multi: map<string, seq<string>>)

  datatype UsageError = UnknownFlag(name: string) | NeedsValue(arg: string) | NotBoolean(name: string)

  datatype Result = Ok(parsed: Parsed) | Err(error: UsageError)

  const EMPTY := Parsed([], map[], map[])

  predicate IsLong(arg: string) {
    "--" <= arg
  }

  predicate IsShort(arg: string) {
    |arg| == 2 && arg[0] == '-' && ('A' <= arg[1] <= 'Z' || 'a' <= arg[1] <= 'z')
  }

  function FindLong(table: seq<FlagSpec>, name: string): Option<FlagSpec> {
    if table == [] then None
    else if table[0].name == name then Some(table[0])
    else FindLong(table[1..], name)
  }

  function FindShort(table: seq<FlagSpec>, letter: string): Option<FlagSpec> {
    if table == [] then None
    else if table[0].short == Some(letter) then Some(table[0])
    else FindShort(table[1..], letter)
  }

  /** The part of a long flag before its first `=`. */
  function BeforeEquals(s: string): string {
    if s == "" || s[0] == '=' then "" else [s[0]] + BeforeEquals(s[1..])
  }

  /** The part after it, if there is one. */
  function AfterEquals(s: string): Option<string> {
    if s == "" then None else if s[0] == '=' then Some(s[1..]) else AfterEquals(s[1..])
  }

  function NamePart(arg: string): string {
    if IsLong(arg) then BeforeEquals(arg) else arg
  }

  function InlinePart(arg: string): Option<string> {
    if IsLong(arg) then AfterEquals(arg) else None
  }

  function Lookup(table: seq<FlagSpec>, arg: string): Option<FlagSpec>
    requires |arg| >= 2
  {
    if IsLong(arg) then
      (if |BeforeEquals(arg)| < 2 then None else FindLong(table, BeforeEquals(arg)[2..]))
    else FindShort(table, arg[1..])
  }

  function Positional(p: Parsed, texts: seq<string>): Parsed {
    p.(positionals := p.positionals + texts)
  }

  function Collected(p: Parsed, name: string): seq<string> {
    if name in p.multi then p.multi[name] else []
  }

  function SetText(p: Parsed, spec: FlagSpec, text: string): Parsed {
    p.(flags := p.flags[spec.name := Text(text)],
       multi := if spec.multiple then p.multi[spec.name := Collected(p, spec.name) + [text]] else p.multi)
  }

  function SetSwitch(p: Parsed, spec: FlagSpec, on: bool): Parsed {
    p.(flags := p.flags[spec.name := Switch(on)])
  }

  /** `parseInvocation`, from what has been collected so far. */
  function Parse(table: seq<FlagSpec>, argv: seq<string>, p: Parsed): Result
    decreases |argv|
  {
    if argv == [] then Ok(p)
    else if argv[0] == "--" then Ok(Positional(p, argv[1..]))
    else if !IsLong(argv[0]) && !IsShort(argv[0]) then Parse(table, argv[1..], Positional(p, [argv[0]]))
    else
      var spec, inline := Lookup(table, argv[0]), InlinePart(argv[0]);
      if spec == None then Err(UnknownFlag(NamePart(argv[0])))
      else if spec.value.takesValue then
        (if inline.Some? then Parse(table, argv[1..], SetText(p, spec.value, inline.value))
         else if |argv| == 1 then Err(NeedsValue(argv[0]))
         else Parse(table, argv[2..], SetText(p, spec.value, argv[1])))
      else if inline == None then Parse(table, argv[1..], SetSwitch(p, spec.value, true))
      else if inline.value == "true" then Parse(table, argv[1..], SetSwitch(p, spec.value, true))
      else if inline.value == "false" then Parse(table, argv[1..], SetSwitch(p, spec.value, false))
      else Err(NotBoolean(NamePart(argv[0])))
  }

  /** The loop, with its moving index. */
  method ParseInvocation(table: seq<FlagSpec>, argv: seq<string>) returns (r: Result)
    ensures r == Parse(table, argv, EMPTY)
  {
    hide FindLong, FindShort, BeforeEquals, AfterEquals, SetText, SetSwitch, Lookup;
    var p := EMPTY;
    var i := 0;
    while i < |argv|
      invariant 0 <= i <= |argv|
      invariant Parse(table, argv[i..], p) == Parse(table, argv, EMPTY)
    {
      var arg := argv[i];
      assert argv[i..][0] == arg && argv[i..][1..] == argv[i + 1..];
      if arg == "--" {
        p := Positional(p, argv[i + 1..]);
        return Ok(p);
      }
      if !IsLong(arg) && !IsShort(arg) {
        p := Positional(p, [arg]);
        i := i + 1;
        continue;
      }
      var spec, inline := Lookup(table, arg), InlinePart(arg);
      if spec == None {
        return Err(UnknownFlag(NamePart(arg)));
      }
      if spec.value.takesValue {
        if inline.Some? {
          p := SetText(p, spec.value, inline.value);
          i := i + 1;
          continue;
        }
        i := i + 1;
        if i == |argv| {
          return Err(NeedsValue(arg));
        }
        assert argv[i - 1..][2..] == argv[i + 1..] && argv[i - 1..][1] == argv[i];
        p := SetText(p, spec.value, argv[i]);
      } else if inline.Some? {
        if inline.value != "true" && inline.value != "false" {
          return Err(NotBoolean(NamePart(arg)));
        }
        p := SetSwitch(p, spec.value, inline.value == "true");
      } else {
        p := SetSwitch(p, spec.value, true);
      }
      i := i + 1;
    }
    r := Ok(p);
  }

  // ---------------------------------------------------------------------------
  // Printing
  // ---------------------------------------------------------------------------

  /** One thing on a command line, and how it is written. */
  datatype Item =
    | Plain(text: string)
    | Inline(spec: FlagSpec, text: string)
    | Separate(spec: FlagSpec, text: string)
    | ShortValue(spec: FlagSpec, text: string)
    | On(spec: FlagSpec)
    | ShortOn(spec: FlagSpec)
    | Assigned(spec: FlagSpec, on: bool)

  function LongArg(spec: FlagSpec): string {
    "--" + spec.name
  }

  function ShortArg(spec: FlagSpec): string {
    "-" + if spec.short.Some? then spec.short.value else ""
  }

  function Words(item: Item): seq<string> {
    match item
    case Plain(text) => [text]
    case Inline(spec, text) => [LongArg(spec) + "=" + text]
    case Separate(spec, text) => [LongArg(spec), text]
    case ShortValue(spec, text) => [ShortArg(spec), text]
    case On(spec) => [LongArg(spec)]
    case ShortOn(spec) => [ShortArg(spec)]
    case Assigned(spec, on) => [LongArg(spec) + "=" + if on then "true" else "false"]
  }

  function Print(items: seq<Item>, tail: Option<seq<string>>): seq<string> {
    if items != [] then Words(items[0]) + Print(items[1..], tail)
    else if tail.Some? then ["--"] + tail.value
    else []
  }

  /** The flag is the first with its name, which has no `=`. */
  predicate LongPrintable(table: seq<FlagSpec>, spec: FlagSpec) {
    '=' !in spec.name && FindLong(table, spec.name) == Some(spec)
  }

  predicate ShortPrintable(table: seq<FlagSpec>, spec: FlagSpec) {
    spec.short.Some? && IsShort(ShortArg(spec)) && FindShort(table, spec.short.value) == Some(spec)
  }

  /** An item that a line can hold: a positional must not look like a flag. */
  predicate Printable(table: seq<FlagSpec>, item: Item) {
    match item
    case Plain(text) => !IsLong(text) && !IsShort(text)
    case Inline(spec, text) => LongPrintable(table, spec) && spec.takesValue
    case Separate(spec, text) => LongPrintable(table, spec) && spec.takesValue && spec.name != ""
    case ShortValue(spec, text) => ShortPrintable(table, spec) && spec.takesValue
    case On(spec) => LongPrintable(table, spec) && !spec.takesValue && spec.name != ""
    case ShortOn(spec) => ShortPrintable(table, spec) && !spec.takesValue
    case Assigned(spec, on) => LongPrintable(table, spec) && !spec.takesValue
  }

  function Effect(p: Parsed, item: Item): Parsed {
    match item
    case Plain(text) => Positional(p, [text])
    case Inline(spec, text) => SetText(p, spec, text)
    case Separate(spec, text) => SetText(p, spec, text)
    case ShortValue(spec, text) => SetText(p, spec, text)
    case On(spec) => SetSwitch(p, spec, true)
    case ShortOn(spec) => SetSwitch(p, spec, true)
    case Assigned(spec, on) => SetSwitch(p, spec, on)
  }

  function Effects(p: Parsed, items: seq<Item>): Parsed
    decreases |items|
  {
    if items == [] then p else Effects(Effect(p, items[0]), items[1..])
  }

  /** In a table whose names are distinct, non-empty and free of `=`, every flag can be printed. */
  predicate SoundTable(table: seq<FlagSpec>) {
    && (forall i, j :: 0 <= i < j < |table| ==> table[i].name != table[j].name)
    && (forall spec :: spec in table ==> spec.name != "" && '=' !in spec.name)
  }

  lemma {:induction false} TableIsPrintable(table: seq<FlagSpec>, spec: FlagSpec)
    requires SoundTable(table) && spec in table
    ensures LongPrintable(table, spec) && spec.name != ""
    decreases |table|
  {
    if table[0] != spec {
      assert spec in table[1..];
      TableIsPrintable(table[1..], spec);
      var k :| 0 <= k < |table| && table[k] == spec;
    }
  }

  lemma {:induction false} CutAtEquals(a: string, b: string)
    requires '=' !in a
    ensures BeforeEquals(a + "=" + b) == a && AfterEquals(a + "=" + b) == Some(b)
    decreases |a|
  {
    var s := a + "=" + b;
    if a == "" {
      assert s[1..] == b;
    } else {
      assert s[1..] == a[1..] + "=" + b;
      CutAtEquals(a[1..], b);
    }
  }

  lemma {:induction false} NoEquals(a: string)
    ensures '=' !in a ==> BeforeEquals(a) == a && AfterEquals(a) == None
    ensures AfterEquals(a).Some? ==> a == BeforeEquals(a) + "=" + AfterEquals(a).value
    ensures AfterEquals(a) == None ==> '=' !in a
    ensures '=' !in BeforeEquals(a)
    decreases |a|
  {
    if a != "" {
      NoEquals(a[1..]);
      assert a == [a[0]] + a[1..];
    }
  }

  lemma LongArgIs(table: seq<FlagSpec>, spec: FlagSpec, text: string)
    requires LongPrintable(table, spec)
    ensures var arg := LongArg(spec) + "=" + text;
      IsLong(arg) && arg != "--" && Lookup(table, arg) == Some(spec) && InlinePart(arg) == Some(text)
    ensures spec.name != "" ==>
              var arg := LongArg(spec);
              IsLong(arg) && arg != "--" && Lookup(table, arg) == Some(spec) && InlinePart(arg) == None
  {
    hide FindLong;
    CutAtEquals(LongArg(spec), text);
    NoEquals(LongArg(spec));
    assert LongArg(spec)[2..] == spec.name;
    assert LongArg(spec) <= LongArg(spec) + "=" + text;
  }

  lemma ShortArgIs(table: seq<FlagSpec>, spec: FlagSpec)
    requires ShortPrintable(table, spec)
    ensures var arg := ShortArg(spec); !IsLong(arg) && Lookup(table, arg) == Some(spec) && InlinePart(arg) == None
  {
    assert ShortArg(spec)[1..] == spec.short.value;
  }

  /** Parsing past one printed item has the item's effect. */
  lemma ParseItem(table: seq<FlagSpec>, item: Item, rest: seq<string>, p: Parsed)
    requires Printable(table, item)
    ensures Parse(table, Words(item) + rest, p) == Parse(table, rest, Effect(p, item))
  {
    var argv := Words(item) + rest;
    if item.Plain? {
      assert argv[1..] == rest;
    } else if item.Inline? || item.Separate? || item.On? || item.Assigned? {
      var inline := if item.Inline? then item.text else if item.Assigned? && item.on then "true" else "false";
      LongArgIs(table, item.spec, inline);
      hide LongPrintable, IsLong, IsShort, Lookup, InlinePart, SetText, SetSwitch, LongArg;
      ParseFlag(table, item, rest, p);
    } else {
      ShortArgIs(table, item.spec);
      hide IsLong, IsShort, Lookup, InlinePart, SetText, SetSwitch, ShortArg;
      ParseFlag(table, item, rest, p);
    }
  }

  lemma ParseFlag(table: seq<FlagSpec>, item: Item, rest: seq<string>, p: Parsed)
    requires !item.Plain?
    requires var arg := Words(item)[0];
      && (IsLong(arg) || IsShort(arg)) && arg != "--" && Lookup(table, arg) == Some(item.spec)
      && InlinePart(arg) == (match item
                             case Inline(_, text) => Some(text)
                             case Assigned(_, on) => Some(if on then "true" else "false")
                             case _ => None)
      && item.spec.takesValue == (item.Inline? || item.Separate? || item.ShortValue?)
    ensures Parse(table, Words(item) + rest, p) == Parse(table, rest, Effect(p, item))
  {
    hide IsLong, IsShort, Lookup, InlinePart, SetText, SetSwitch;
    var argv := Words(item) + rest;
    assert argv[0] == Words(item)[0];
    if item.Separate? || item.ShortValue? {
      assert argv[1] == item.text && argv[2..] == rest;
    } else {
      assert argv[1..] == rest;
    }
  }

  lemma {:induction false} ParsePrint(table: seq<FlagSpec>, items: seq<Item>, tail: Option<seq<string>>, p: Parsed)
    requires forall item :: item in items ==> Printable(table, item)
    ensures Parse(table, Print(items, tail), p)
         == Ok(Positional(Effects(p, items), if tail.Some? then tail.value else []))
    decreases |items|
  {
    hide Words, Printable, Effect;
    if items != [] {
      assert items[0] in items;
      ParseItem(table, items[0], Print(items[1..], tail), p);
      ParsePrint(table, items[1..], tail, Effect(p, items[0]));
    } else if tail.Some? {
      assert Print(items, tail)[1..] == tail.value;
    } else {
      assert p.positionals + [] == p.positionals;
    }
  }

  // ---------------------------------------------------------------------------
  // Only printed lines parse
  // ---------------------------------------------------------------------------

  lemma {:induction false} FoundLong(table: seq<FlagSpec>, name: string)
    ensures FindLong(table, name).Some? ==> FindLong(table, name).value.name == name
  {
    if table != [] {
      FoundLong(table[1..], name);
    }
  }

  lemma {:induction false} FoundShort(table: seq<FlagSpec>, letter: string)
    ensures FindShort(table, letter).Some? ==> FindShort(table, letter).value.short == Some(letter)
  {
    if table != [] {
      FoundShort(table[1..], letter);
    }
  }

  /** A recognised flag is written as the item it stands for. */
  lemma FlagIsPrinted(table: seq<FlagSpec>, arg: string)
    requires (IsLong(arg) || IsShort(arg)) && arg != "--" && Lookup(table, arg).Some?
    ensures var spec := Lookup(table, arg).value;
      && (IsLong(arg) ==> LongPrintable(table, spec) && (InlinePart(arg) == None ==> spec.name != ""))
      && (IsLong(arg) ==> arg == LongArg(spec) + if InlinePart(arg).Some? then "=" + InlinePart(arg).value else "")
      && (!IsLong(arg) ==> ShortPrintable(table, spec) && arg == ShortArg(spec))
  {
    var spec := Lookup(table, arg).value;
    if IsLong(arg) {
      NoEquals(arg);
      var before := BeforeEquals(arg);
      FoundLong(table, before[2..]);
      assert arg[..2] == "--";
      assert before[0] == arg[0] && before[1] == arg[1];
      assert before == LongArg(spec);
      assert '=' !in spec.name;
    } else {
      FoundShort(table, arg[1..]);
      assert arg == [arg[0]] + arg[1..];
    }
  }

  /** The error of the first word, if it has one. */
  function ErrorHere(table: seq<FlagSpec>, argv: seq<string>): Option<UsageError>
    requires argv != []
  {
    var arg := argv[0];
    if arg == "--" || (!IsLong(arg) && !IsShort(arg)) then None
    else
      var spec, inline := Lookup(table, arg), InlinePart(arg);
      if spec == None then Some(UnknownFlag(NamePart(arg)))
      else if spec.value.takesValue then (if inline == None && |argv| == 1 then Some(NeedsValue(arg)) else None)
      else if inline == None || inline.value == "true" || inline.value == "false" then None
      else Some(NotBoolean(NamePart(arg)))
  }

  /** A line fails at its first word exactly with that word's error. */
  lemma FailsHere(table: seq<FlagSpec>, argv: seq<string>, p: Parsed)
    requires argv != [] && ErrorHere(table, argv).Some?
    ensures Parse(table, argv, p) == Err(ErrorHere(table, argv).value)
  {
  }

  /** The item at the front of a line that does not fail at its first word. */
  lemma FirstItem(table: seq<FlagSpec>, argv: seq<string>) returns (item: Item, rest: seq<string>)
    requires argv != [] && argv[0] != "--" && ErrorHere(table, argv) == None
    ensures Printable(table, item) && argv == Words(item) + rest
  {
    var arg := argv[0];
    if !IsLong(arg) && !IsShort(arg) {
      item, rest := Plain(arg), argv[1..];
    } else {
      FlagIsPrinted(table, arg);
      hide LongPrintable, ShortPrintable, Lookup, InlinePart, IsLong, IsShort;
      var spec, inline := Lookup(table, arg).value, InlinePart(arg);
      rest := argv[1..];
      if spec.takesValue {
        if inline.Some? {
          ShortHasNoInline(arg);
          item := Inline(spec, inline.value);
          assert LongArg(spec) + ("=" + inline.value) == LongArg(spec) + "=" + inline.value;
        } else {
          item := if IsLong(arg) then Separate(spec, argv[1]) else ShortValue(spec, argv[1]);
          rest := argv[2..];
          assert LongArg(spec) + "" == LongArg(spec);
        }
      } else if inline.Some? {
        ShortHasNoInline(arg);
        item := Assigned(spec, inline.value == "true");
        assert LongArg(spec) + ("=" + inline.value) == LongArg(spec) + "=" + inline.value;
      } else {
        item := if IsLong(arg) then On(spec) else ShortOn(spec);
        assert LongArg(spec) + "" == LongArg(spec);
      }
    }
  }

  lemma ShortHasNoInline(arg: string)
    requires InlinePart(arg).Some?
    ensures IsLong(arg)
  {
  }

  lemma {:induction false} ParsedIsPrinted(table: seq<FlagSpec>, argv: seq<string>, p: Parsed)
    returns (items: seq<Item>, tail: Option<seq<string>>)
    requires Parse(table, argv, p).Ok?
    ensures argv == Print(items, tail) && forall item :: item in items ==> Printable(table, item)
    decreases |argv|
  {
    if argv == [] {
      items, tail := [], None;
    } else if argv[0] == "--" {
      items, tail := [], Some(argv[1..]);
    } else {
      if ErrorHere(table, argv).Some? {
        FailsHere(table, argv, p);
        assert false;
      }
      var item, rest := FirstItem(table, argv);
      hide Printable, Words, Parse;
      ParseItem(table, item, rest, p);
      WordsAreSome(item);
      var more;
      more, tail := ParsedIsPrinted(table, rest, Effect(p, item));
      items := [item] + more;
      assert items[1..] == more;
    }
  }

  lemma WordsAreSome(item: Item)
    ensures Words(item) != []
  {
  }

  /** A line parses exactly when it can be printed from positionals and flags of the table. */
  lemma ParsesIffPrinted(table: seq<FlagSpec>, argv: seq<string>)
    ensures Parse(table, argv, EMPTY).Ok? <==>
              exists items, tail ::
                (forall item :: item in items ==> Printable(table, item)) && argv == Print(items, tail)
  {
    hide Printable, Parse, Print;
    if Parse(table, argv, EMPTY).Ok? {
      var items, tail := ParsedIsPrinted(table, argv, EMPTY);
    } else if items: seq<Item>, tail: Option<seq<string>> :|
        (forall item :: item in items ==> Printable(table, item)) && argv == Print(items, tail)
    {
      ParsePrint(table, items, tail, EMPTY);
    }
  }

  // ---------------------------------------------------------------------------
  // What a line means
  // ---------------------------------------------------------------------------

  function Positionals(items: seq<Item>): seq<string> {
    if items == [] then [] else PlainText(items[0]) + Positionals(items[1..])
  }

  function PlainText(item: Item): seq<string> {
    if item.Plain? then [item.text] else []
  }

  function ValueOf(item: Item): Value
    requires !item.Plain?
  {
    match item
    case Inline(_, text) => Text(text)
    case Separate(_, text) => Text(text)
    case ShortValue(_, text) => Text(text)
    case On(_) => Switch(true)
    case ShortOn(_) => Switch(true)
    case Assigned(_, on) => Switch(on)
  }

  /** The last item that sets a flag decides. */
  function LastValue(items: seq<Item>, name: string): Option<Value> {
    if items == [] then None
    else if LastValue(items[1..], name).Some? then LastValue(items[1..], name)
    else if !items[0].Plain? && items[0].spec.name == name then Some(ValueOf(items[0]))
    else None
  }

  /** All the values of a repeatable flag, in order. */
  function AllValues(items: seq<Item>, name: string): seq<string> {
    if items == [] then [] else RepeatedText(items[0], name) + AllValues(items[1..], name)
  }

  function RepeatedText(item: Item, name: string): seq<string> {
    if !item.Plain? && item.spec.name == name && item.spec.multiple && ValueOf(item).Text? then [ValueOf(item).text]
    else []
  }

  lemma Associative(a: seq<string>, b: seq<string>, c: seq<string>)
    ensures (a + b) + c == a + (b + c)
  {
  }

  lemma {:induction false} EffectsOnPositionals(p: Parsed, items: seq<Item>)
    ensures Effects(p, items).positionals == p.positionals + Positionals(items)
    decreases |items|
  {
    if items == [] {
      assert p.positionals + [] == p.positionals;
    } else {
      var q := Effect(p, items[0]);
      EffectIs(p, items[0], "");
      hide Effect, PlainText;
      EffectsOnPositionals(q, items[1..]);
      Associative(p.positionals, PlainText(items[0]), Positionals(items[1..]));
    }
  }

  lemma {:induction false} EffectsOnFlags(p: Parsed, items: seq<Item>, name: string)
    ensures var q := Effects(p, items);
      if LastValue(items, name).Some? then name in q.flags && q.flags[name] == LastValue(items, name).value
      else (name in q.flags <==> name in p.flags) && (name in p.flags ==> q.flags[name] == p.flags[name])
    decreases |items|
  {
    if items != [] {
      EffectIs(p, items[0], name);
      hide Effect;
      EffectsOnFlags(Effect(p, items[0]), items[1..], name);
    }
  }

  lemma {:induction false} EffectsOnValues(p: Parsed, items: seq<Item>, name: string)
    ensures Collected(Effects(p, items), name) == Collected(p, name) + AllValues(items, name)
    decreases |items|
  {
    if items == [] {
      assert Collected(p, name) + [] == Collected(p, name);
    } else {
      EffectIs(p, items[0], name);
      hide Effect, Collected, RepeatedText;
      EffectsOnValues(Effect(p, items[0]), items[1..], name);
      Associative(Collected(p, name), RepeatedText(items[0], name), AllValues(items[1..], name));
    }
  }

  lemma EffectIs(p: Parsed, item: Item, name: string)
    ensures var q := Effect(p, item);
      && q.positionals == p.positionals + PlainText(item)
      && (if !item.Plain? && item.spec.name == name then name in q.flags && q.flags[name] == ValueOf(item)
          else (name in q.flags <==> name in p.flags) && (name in p.flags ==> q.flags[name] == p.flags[name]))
      && Collected(q, name) == Collected(p, name) + RepeatedText(item, name)
  {
    assert Collected(p, name) + [] == Collected(p, name);
  }

  /**
   Printing any positionals and flags and parsing the line back yields the same
   positionals, then the tail verbatim; of every flag the last value; and of every
   repeatable flag all values in order.
   */
  lemma ParseOfPrint(table: seq<FlagSpec>, items: seq<Item>, tail: Option<seq<string>>, name: string)
    requires forall item :: item in items ==> Printable(table, item)
    ensures var r := Parse(table, Print(items, tail), EMPTY);
      && r.Ok?
      && r.parsed.positionals == Positionals(items) + (if tail.Some? then tail.value else [])
      && (LastValue(items, name) == if name in r.parsed.flags then Some(r.parsed.flags[name]) else None)
      && Collected(r.parsed, name) == AllValues(items, name)
  {
    hide Printable, Parse, Print, Effects, LastValue, AllValues, Positionals;
    ParsePrint(table, items, tail, EMPTY);
    EffectsOnPositionals(EMPTY, items);
    EffectsOnFlags(EMPTY, items, name);
    EffectsOnValues(EMPTY, items, name);
  }
}
