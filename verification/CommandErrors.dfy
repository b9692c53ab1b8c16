/**
 Which usage error a command line gets, stated over its words: what parses comes first,
 then the one word that is to blame.
 */
module CommandErrors {
  import opened Options
  import opened CommandLine

  /** The flag is the first of the table with this name. */
  predicate Named(table: seq<FlagSpec>, spec: FlagSpec, name: string) {
    spec.name == name && exists i :: 0 <= i < |table| && table[i] == spec && NoneNamed(table[..i], name)
  }

  predicate NoneNamed(table: seq<FlagSpec>, name: string) {
    forall spec :: spec in table ==> spec.name != name
  }

  /** The flag is the first of the table with this letter. */
  predicate Lettered(table: seq<FlagSpec>, spec: FlagSpec, letter: char) {
    spec.short == Some([letter]) && exists i :: 0 <= i < |table| && table[i] == spec && NoneLettered(table[..i], letter)
  }

  predicate NoneLettered(table: seq<FlagSpec>, letter: char) {
    forall spec :: spec in table ==> spec.short != Some([letter])
  }

  predicate Letter(c: char) {
    'a' <= c <= 'z' || 'A' <= c <= 'Z'
  }

  /** The word is a long flag: its name, and what stands behind the first `=` if there is one. */
  predicate Spells(arg: string, name: string, value: Option<string>) {
    && '=' !in name && (value == None ==> name != "")
    && arg == "--" + name + (if value.Some? then "=" + value.value else "")
  }

  /** No flag of the table has this name or letter. */
  predicate NoSuchFlag(table: seq<FlagSpec>, arg: string, shown: string) {
    || (|arg| == 2 && arg[0] == '-' && Letter(arg[1]) && shown == arg
        && NoneLettered(table, arg[1]))
    || (|shown| >= 2 && shown[..2] == "--"
        && (Spells(arg, shown[2..], None) || (exists k :: 0 <= k <= |arg| && Spells(arg, shown[2..], Some(arg[k..]))))
        && NoneNamed(table, shown[2..]))
  }

  /** The last word names a flag that takes a value. */
  ghost predicate LacksValue(table: seq<FlagSpec>, arg: string, rest: seq<string>) {
    && rest == []
    && exists spec :: spec in table && spec.takesValue
         && ((spec.name != "" && Spells(arg, spec.name, None) && Named(table, spec, spec.name))
             || (|arg| == 2 && arg[0] == '-' && Letter(arg[1]) && Lettered(table, spec, arg[1])))
  }

  /** The word gives a switch a value other than true and false. */
  ghost predicate BadSwitch(table: seq<FlagSpec>, arg: string, shown: string) {
    exists spec, k :: spec in table && 0 <= k <= |arg|
      && Named(table, spec, spec.name) && !spec.takesValue && shown == "--" + spec.name
      && Spells(arg, spec.name, Some(arg[k..])) && arg[k..] != "true" && arg[k..] != "false"
  }

  ghost predicate ToBlame(table: seq<FlagSpec>, arg: string, rest: seq<string>, e: UsageError) {
    match e
    case UnknownFlag(name) => NoSuchFlag(table, arg, name)
    case NeedsValue(word) => word == arg && LacksValue(table, arg, rest)
    case NotBoolean(name) => BadSwitch(table, arg, name)
  }

  // ---------------------------------------------------------------------------
  // Lookups
  // ---------------------------------------------------------------------------

  lemma {:induction false} NamedIs(table: seq<FlagSpec>, name: string, spec: FlagSpec)
    ensures FindLong(table, name) == Some(spec) <==> Named(table, spec, name)
    ensures FindLong(table, name) == None <==> NoneNamed(table, name)
    decreases |table|
  {
    if table != [] {
      var rest := table[1..];
      NamedIs(rest, name, spec);
      assert table == [table[0]] + rest;
      if table[0].name == name {
        assert table[..0] == [];
        assert FindLong(table, name) == Some(spec) ==> table[0] == spec && NoneNamed(table[..0], name);
        forall i | 0 < i < |table| ensures !NoneNamed(table[..i], name) {
          assert table[0] in table[..i];
        }
      } else {
        forall i | 0 <= i < |rest|
          ensures table[i + 1] == rest[i] && (NoneNamed(table[..i + 1], name) <==> NoneNamed(rest[..i], name)) {
          assert table[..i + 1] == [table[0]] + rest[..i];
        }
        FoundLong(rest, name);
        if Named(table, spec, name) {
          var i :| 0 <= i < |table| && table[i] == spec && NoneNamed(table[..i], name);
          assert rest[i - 1] == spec && NoneNamed(table[..i - 1 + 1], name);
        }
      }
    }
  }

  lemma {:induction false} LetteredIs(table: seq<FlagSpec>, letter: char, spec: FlagSpec)
    ensures FindShort(table, [letter]) == Some(spec) <==> Lettered(table, spec, letter)
    ensures FindShort(table, [letter]) == None <==> NoneLettered(table, letter)
    decreases |table|
  {
    if table != [] {
      var rest := table[1..];
      LetteredIs(rest, letter, spec);
      assert table == [table[0]] + rest;
      if table[0].short == Some([letter]) {
        assert table[..0] == [];
        assert FindShort(table, [letter]) == Some(spec) ==> table[0] == spec && NoneLettered(table[..0], letter);
        forall i | 0 < i < |table| ensures !NoneLettered(table[..i], letter) {
          assert table[0] in table[..i];
        }
      } else {
        forall i | 0 <= i < |rest|
          ensures table[i + 1] == rest[i]
          ensures NoneLettered(table[..i + 1], letter) <==> NoneLettered(rest[..i], letter) {
          assert table[..i + 1] == [table[0]] + rest[..i];
        }
        FoundShort(rest, [letter]);
        if Lettered(table, spec, letter) {
          var i :| 0 <= i < |table| && table[i] == spec && NoneLettered(table[..i], letter);
          assert rest[i - 1] == spec && NoneLettered(table[..i - 1 + 1], letter);
        }
      }
    }
  }

  /** A long flag is spelled by the two parts the parser cuts it into. */
  lemma SpellsIs(arg: string, name: string, value: Option<string>)
    ensures Spells(arg, name, value) <==>
      && IsLong(arg) && arg != "--" && BeforeEquals(arg) == "--" + name && InlinePart(arg) == value
      && '=' !in name
  {
    NoEquals(arg);
    if Spells(arg, name, value) {
      assert arg[..2] == "--";
      if value.Some? {
        assert arg == ("--" + name) + "=" + value.value;
        CutAtEquals("--" + name, value.value);
      } else {
        assert arg == "--" + name;
      }
    }
  }

  const ANY_FLAG := FlagSpec("", None, false, false)

  /** How the parser reads a long flag. */
  lemma LongParts(table: seq<FlagSpec>, arg: string) returns (name: string)
    requires IsLong(arg) && arg != "--"
    ensures Spells(arg, name, InlinePart(arg)) && NamePart(arg) == "--" + name
    ensures Lookup(table, arg) == FindLong(table, name)
    ensures forall n, value :: Spells(arg, n, value) ==> n == name && value == InlinePart(arg)
    ensures InlinePart(arg).Some? ==> exists k :: 0 <= k <= |arg| && arg[k..] == InlinePart(arg).value
    ensures arg[1] == '-' && ("--" + name)[2..] == name && ("--" + name)[..2] == "--"
  {
    NoEquals(arg);
    var before := BeforeEquals(arg);
    assert arg[..2] == "--";
    assert BeforeEquals(arg[1..])[0] == arg[1];
    assert before[0] == arg[0] && before[1] == arg[1];
    name := before[2..];
    assert before == "--" + name;
    SpellsIs(arg, name, InlinePart(arg));
    forall n, value | Spells(arg, n, value) ensures n == name && value == InlinePart(arg) {
      SpellsIs(arg, n, value);
      assert ("--" + n)[2..] == n;
    }
    if InlinePart(arg).Some? {
      assert arg[|before| + 1..] == InlinePart(arg).value;
    }
  }

  /** And a short one. */
  lemma ShortParts(table: seq<FlagSpec>, arg: string)
    ensures IsShort(arg) && !IsLong(arg) <==> |arg| == 2 && arg[0] == '-' && Letter(arg[1])
    ensures !IsLong(arg) ==> InlinePart(arg) == None && NamePart(arg) == arg
    ensures IsShort(arg) && !IsLong(arg) ==> Lookup(table, arg) == FindShort(table, [arg[1]])
    ensures !IsLong(arg) || arg == "--" ==> forall n, value :: !Spells(arg, n, value)
    ensures arg == "--" ==> !IsShort(arg)
  {
    if |arg| == 2 {
      assert arg[1..] == [arg[1]];
    }
    forall n, value | Spells(arg, n, value) ensures IsLong(arg) && arg != "--" {
      SpellsIs(arg, n, value);
    }
  }

  lemma UnknownIs(table: seq<FlagSpec>, arg: string, rest: seq<string>, shown: string)
    ensures NoSuchFlag(table, arg, shown) <==> ErrorHere(table, [arg] + rest) == Some(UnknownFlag(shown))
  {
    hide NoneNamed, NoneLettered, FindLong, FindShort, Spells, BeforeEquals, AfterEquals, InlinePart, NamePart, Lookup;
    ShortParts(table, arg);
    if IsLong(arg) && arg != "--" {
      var name := LongParts(table, arg);
      NamedIs(table, name, ANY_FLAG);
      assert |shown| >= 2 && shown[..2] == "--" && shown[2..] == name ==> shown == "--" + name;
    } else if IsShort(arg) {
      LetteredIs(table, arg[1], ANY_FLAG);
    }
  }

  lemma FlagFacts(table: seq<FlagSpec>, arg: string, name: string, spec: FlagSpec)
    ensures Named(table, spec, name) ==> spec in table && spec.name == name
    ensures forall c :: Lettered(table, spec, c) ==> spec in table
    ensures Spells(arg, name, None) ==> name != ""
  {
  }

  lemma LackIs(table: seq<FlagSpec>, arg: string, rest: seq<string>, word: string)
    ensures word == arg && LacksValue(table, arg, rest) <==> ErrorHere(table, [arg] + rest) == Some(NeedsValue(word))
  {
    hide Named, Lettered, NoneNamed, NoneLettered, FindLong, FindShort, Spells, BeforeEquals, AfterEquals, InlinePart,
      NamePart, Lookup;
    ShortParts(table, arg);
    assert |[arg] + rest| == 1 <==> rest == [];
    if IsLong(arg) && arg != "--" {
      var name := LongParts(table, arg);
      forall spec ensures FindLong(table, name) == Some(spec) <==> Named(table, spec, name) {
        NamedIs(table, name, spec);
      }
      if FindLong(table, name).Some? {
        FlagFacts(table, arg, name, FindLong(table, name).value);
      }
    } else if IsShort(arg) {
      forall spec ensures FindShort(table, [arg[1]]) == Some(spec) <==> Lettered(table, spec, arg[1]) {
        LetteredIs(table, arg[1], spec);
      }
      if FindShort(table, [arg[1]]).Some? {
        FlagFacts(table, arg, "", FindShort(table, [arg[1]]).value);
      }
    }
  }

  lemma SwitchIs(table: seq<FlagSpec>, arg: string, rest: seq<string>, shown: string)
    ensures BadSwitch(table, arg, shown) <==> ErrorHere(table, [arg] + rest) == Some(NotBoolean(shown))
  {
    hide Named, NoneNamed, FindLong, FindShort, Spells, BeforeEquals, AfterEquals, InlinePart, NamePart, Lookup;
    ShortParts(table, arg);
    if IsLong(arg) && arg != "--" {
      var name := LongParts(table, arg);
      forall spec ensures FindLong(table, name) == Some(spec) <==> Named(table, spec, name) {
        NamedIs(table, name, spec);
      }
      if FindLong(table, name).Some? {
        FlagFacts(table, arg, name, FindLong(table, name).value);
      }
    }
  }

  /** The words to blame are exactly the ones at which the parser stops. */
  lemma BlameIsErrorHere(table: seq<FlagSpec>, arg: string, rest: seq<string>, e: UsageError)
    ensures ToBlame(table, arg, rest, e) <==> ErrorHere(table, [arg] + rest) == Some(e)
  {
    hide NoSuchFlag, LacksValue, BadSwitch, ErrorHere;
    match e
    case UnknownFlag(name) => UnknownIs(table, arg, rest, name);
    case NeedsValue(word) => LackIs(table, arg, rest, word);
    case NotBoolean(name) => SwitchIs(table, arg, rest, name);
  }

  // ---------------------------------------------------------------------------
  // Whole lines
  // ---------------------------------------------------------------------------

  /** What can be printed is passed over, whatever follows. */
  lemma {:induction false} PrintedIsPassed(table: seq<FlagSpec>, items: seq<Item>, rest: seq<string>, p: Parsed)
    requires forall item :: item in items ==> Printable(table, item)
    ensures Parse(table, Print(items, None) + rest, p) == Parse(table, rest, Effects(p, items))
    decreases |items|
  {
    hide Words, Printable, Effect, Parse;
    if items == [] {
      assert Print(items, None) + rest == rest;
    } else {
      assert items[0] in items;
      var more := Print(items[1..], None);
      assert Print(items, None) + rest == Words(items[0]) + (more + rest);
      ParseItem(table, items[0], more + rest, p);
      PrintedIsPassed(table, items[1..], rest, Effect(p, items[0]));
    }
  }

  /** Where a line that does not parse goes wrong. */
  lemma {:induction false} FirstError(table: seq<FlagSpec>, argv: seq<string>, p: Parsed)
    returns (items: seq<Item>, arg: string, rest: seq<string>)
    requires Parse(table, argv, p).Err?
    ensures forall item :: item in items ==> Printable(table, item)
    ensures argv == Print(items, None) + ([arg] + rest)
    ensures ErrorHere(table, [arg] + rest) == Some(Parse(table, argv, p).error)
    decreases |argv|
  {
    NotATail(table, argv, p);
    if ErrorHere(table, argv).Some? {
      FailsHere(table, argv, p);
      items, arg, rest := [], argv[0], argv[1..];
      hide Parse, ErrorHere, Printable;
      assert argv == [arg] + rest && Print([], None) + argv == argv;
    } else {
      var item, after := FirstItem(table, argv);
      hide Printable, Words, Parse, ErrorHere, Effect, Print;
      ParseItem(table, item, after, p);
      WordsAreSome(item);
      var more;
      more, arg, rest := FirstError(table, after, Effect(p, item));
      items := [item] + more;
      PrintCons(item, more, [arg] + rest);
    }
  }

  lemma NotATail(table: seq<FlagSpec>, argv: seq<string>, p: Parsed)
    requires Parse(table, argv, p).Err?
    ensures argv != [] && argv[0] != "--"
  {
  }

  lemma PrintCons(item: Item, more: seq<Item>, rest: seq<string>)
    ensures Print([item] + more, None) + rest == Words(item) + (Print(more, None) + rest)
  {
    hide Words;
    assert ([item] + more)[1..] == more;
  }

  /**
   A line gets an error exactly when it is something that can be printed, then a word to
   blame for that error, then anything.
   */
  lemma ErrorIff(table: seq<FlagSpec>, argv: seq<string>, e: UsageError)
    ensures Parse(table, argv, EMPTY) == Err(e) <==>
              exists items, arg, rest ::
                && (forall item :: item in items ==> Printable(table, item))
                && argv == Print(items, None) + ([arg] + rest) && ToBlame(table, arg, rest, e)
  {
    hide Printable, Parse, Print, ToBlame, ErrorHere;
    if Parse(table, argv, EMPTY) == Err(e) {
      var items, arg, rest := FirstError(table, argv, EMPTY);
      BlameIsErrorHere(table, arg, rest, e);
    } else if items: seq<Item>, arg: string, rest: seq<string> :|
        && (forall item :: item in items ==> Printable(table, item))
        && argv == Print(items, None) + ([arg] + rest) && ToBlame(table, arg, rest, e)
    {
      BlameIsErrorHere(table, arg, rest, e);
      PrintedIsPassed(table, items, [arg] + rest, EMPTY);
      FailsHere(table, [arg] + rest, Effects(EMPTY, items));
      assert false;
    }
  }
}
