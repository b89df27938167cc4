/**
 The CLIs somebody added by hand, kept in the settings file beside everything else there: read
 through what was held of them since the file last moved, and written one at a time.
 */
module AddedClis {
  import opened Maybe
  import Paths
  import Strings

  /** What a settings file can hold. */
  datatype Value = Scalar(text: string) | List(items: seq<Value>) | Table(entries: map<string, Value>)

  type Settings = map<string, Value>

  /** A file as it is: one that cannot be read as settings, or settings. */
  datatype Content = Unreadable | Holds(settings: Settings)

  /** Where the added CLIs are kept. */
  const SPOKEN := "clis"

  /** How a value is written out as text. */
  ghost predicate Plain(show: Value -> string) {
    forall text :: show(Scalar(text)) == text
  }

  predicate Blank(s: string) {
    Strings.Strip(s) == ""
  }

  function Get(table: Value, key: string): Option<Value> {
    if table.Table? && key in table.entries then Some(table.entries[key]) else None
  }

  function Shown(show: Value -> string, items: seq<Value>): seq<string> {
    seq(|items|, i requires 0 <= i < |items| => show(items[i]))
  }

  function Scalars(said: seq<string>): Value {
    List(seq(|said|, i requires 0 <= i < |said| => Scalar(said[i])))
  }

  function NotBlank(said: seq<string>): seq<string> {
    if said == [] then [] else (if Blank(said[0]) then [] else [said[0]]) + NotBlank(said[1..])
  }

  /** The items of a list as text, but for blank ones. */
  function Listed(show: Value -> string, said: Option<Value>): seq<string> {
    if said.Some? && said.value.List? then NotBlank(Shown(show, said.value.items)) else []
  }

  /** The command that starts an added CLI, or nothing where what is written is not one. */
  function Command(show: Value -> string, entry: Value): seq<string> {
    var argv := if entry.Table? then Get(entry, "command") else Some(entry);
    if argv.Some? && argv.value.List? then Shown(show, argv.value.items) else []
  }

  /** What it is to reach, and what it keeps. */
  function Needs(show: Value -> string, entry: Value): (seq<string>, seq<string>) {
    (Listed(show, Get(entry, "hosts")), Listed(show, Get(entry, "state")))
  }

  function Entries(settings: Settings): map<string, Value> {
    if SPOKEN in settings && settings[SPOKEN].Table? then settings[SPOKEN].entries else map[]
  }

  function Read(content: Content): Settings {
    if content.Holds? then content.settings else map[]
  }

  /** Every added CLI, by name, with the command that starts it, and what each was declared to
      need. */
  function Spoken(show: Value -> string, settings: Settings): map<string, seq<string>> {
    var entries := Entries(settings);
    map name | name in entries && Command(show, entries[name]) != [] :: Command(show, entries[name])
  }

  function Declared(show: Value -> string, settings: Settings): map<string, (seq<string>, seq<string>)> {
    var entries := Entries(settings);
    map name | name in entries && Command(show, entries[name]) != [] :: Needs(show, entries[name])
  }

  /** A CLI is spoken for exactly where the settings hold, under `clis`, a table that names it; what it
      is named with is a list that is not empty, or a table with one under `command`; and it is
      started by the items of that, each as text. */
  lemma SpokenIs(show: Value -> string, settings: Settings, name: string, argv: seq<string>)
    ensures name in Spoken(show, settings) && Spoken(show, settings)[name] == argv <==>
      && "clis" in settings && settings["clis"].Table? && name in settings["clis"].entries
      && SaidBy(show, settings["clis"].entries[name], argv)
  {
    if "clis" in settings && settings["clis"].Table? && name in settings["clis"].entries {
      CommandIs(show, settings["clis"].entries[name], argv);
    }
    hide Command, SaidBy;
  }

  ghost predicate SaidBy(show: Value -> string, entry: Value, argv: seq<string>) {
    exists items :: TextOf(show, items, argv) && argv != []
      && (entry == List(items) || (entry.Table? && "command" in entry.entries && entry.entries["command"] == List(items)))
  }

  predicate TextOf(show: Value -> string, items: seq<Value>, said: seq<string>) {
    |said| == |items| && forall i | 0 <= i < |items| :: said[i] == show(items[i])
  }

  lemma CommandIs(show: Value -> string, entry: Value, argv: seq<string>)
    ensures Command(show, entry) == argv && argv != [] <==> SaidBy(show, entry, argv)
  {
    if Command(show, entry) == argv && argv != [] {
      var items := if entry.Table? then entry.entries["command"].items else entry.items;
      assert TextOf(show, items, argv);
    }
    if SaidBy(show, entry, argv) {
      var items :| TextOf(show, items, argv) && argv != []
        && (entry == List(items) || (entry.Table? && "command" in entry.entries && entry.entries["command"] == List(items)));
      assert Shown(show, items) == argv;
    }
  }

  /** What is left of a list without the blank: nothing of none, and with one more at its end that one
      too, where it is more than spaces. */
  lemma {:induction false} NotBlankIs(said: seq<string>, more: string)
    ensures NotBlank([]) == []
    ensures NotBlank(said + [more]) == NotBlank(said) + (if Strings.Strip(more) == "" then [] else [more])
    decreases |said|
  {
    if said == [] {
      assert said + [more] == [more] && [more][1..] == [];
    } else {
      assert (said + [more])[1..] == said[1..] + [more];
      NotBlankIs(said[1..], more);
    }
  }

  /** What one was declared to need is read of the table it is named with: the lists under `hosts` and
      `state`, as text and without the blank. */
  lemma NeedsAre(show: Value -> string, entry: Value, items: seq<Value>, said: seq<string>)
    requires entry.Table? && TextOf(show, items, said)
    ensures "hosts" in entry.entries && entry.entries["hosts"] == List(items) ==> Needs(show, entry).0 == NotBlank(said)
    ensures "state" in entry.entries && entry.entries["state"] == List(items) ==> Needs(show, entry).1 == NotBlank(said)
    ensures "hosts" !in entry.entries || !entry.entries["hosts"].List? ==> Needs(show, entry).0 == []
    ensures "state" !in entry.entries || !entry.entries["state"].List? ==> Needs(show, entry).1 == []
  {
    hide NotBlank;
    assert Shown(show, items) == said;
  }

  // ------------------------------------------------------------- one entry written

  function Entry(show: Value -> string, was: Option<Value>, argv: seq<string>): Value {
    var (hosts, state) := if was.Some? && was.value.Table? then Needs(show, was.value) else ([], []);
    if hosts != [] || state != []
    then Table(map["command" := Scalars(argv), "hosts" := Scalars(hosts), "state" := Scalars(state)])
    else Scalars(argv)
  }

  /** The settings with one added CLI written down, or taken away. */
  function Written(show: Value -> string, settings: Settings, name: string, argv: Option<seq<string>>): Settings {
    var entries := Entries(settings);
    var was := if name in entries then Some(entries[name]) else None;
    var rest := entries - {name};
    settings[SPOKEN := Table(if argv.Some? then rest[name := Entry(show, was, argv.value)] else rest)]
  }

  lemma ShownScalars(show: Value -> string, said: seq<string>)
    requires Plain(show)
    ensures Shown(show, Scalars(said).items) == said
  {
  }

  lemma {:induction false} NotBlankTwice(said: seq<string>)
    ensures NotBlank(NotBlank(said)) == NotBlank(said)
  {
    if said != [] {
      NotBlankTwice(said[1..]);
      var rest := NotBlank(said[1..]);
      if Blank(said[0]) {
        assert NotBlank(said) == [] + rest == rest;
      } else {
        assert NotBlank(said) == [said[0]] + rest && ([said[0]] + rest)[1..] == rest;
      }
    }
  }

  lemma StringsAgain(show: Value -> string, said: Option<Value>)
    requires Plain(show)
    ensures Listed(show, Some(Scalars(Listed(show, said)))) == Listed(show, said)
  {
    ShownScalars(show, Listed(show, said));
    if said.Some? && said.value.List? {
      NotBlankTwice(Shown(show, said.value.items));
    }
    hide NotBlank, Shown;
  }

  /** An entry written says the command it was given and what the one before it needed. */
  lemma EntrySays(show: Value -> string, was: Option<Value>, argv: seq<string>)
    requires Plain(show)
    ensures Command(show, Entry(show, was, argv)) == argv
    ensures Needs(show, Entry(show, was, argv)) == if was.Some? && was.value.Table? then Needs(show, was.value) else ([], [])
  {
    ShownScalars(show, argv);
    if was.Some? && was.value.Table? {
      StringsAgain(show, Get(was.value, "hosts"));
      StringsAgain(show, Get(was.value, "state"));
    }
    hide Shown, Scalars, Listed;
    EntryIs(show, was, argv);
  }

  lemma EntryIs(show: Value -> string, was: Option<Value>, argv: seq<string>)
    ensures var (hosts, state) := if was.Some? && was.value.Table? then Needs(show, was.value) else ([], []);
      var entry := Entry(show, was, argv);
      if hosts != [] || state != []
      then
        && entry.Table? && Get(entry, "command") == Some(Scalars(argv))
        && Get(entry, "hosts") == Some(Scalars(hosts)) && Get(entry, "state") == Some(Scalars(state))
      else entry == Scalars(argv) && entry.List?
  {
  }

  lemma EntriesWritten(show: Value -> string, settings: Settings, name: string, argv: Option<seq<string>>)
    ensures var before, after := Entries(settings), Entries(Written(show, settings, name, argv));
      && (forall other | other != name ::
            (other in after <==> other in before) && (other in after ==> after[other] == before[other]))
      && (name in after <==> argv.Some?)
      && (argv.Some? ==> after[name] == Entry(show, if name in before then Some(before[name]) else None, argv.value))
  {
  }

  /** What an added CLI was declared to need, if it was written down as more than a command. */
  function Needed(show: Value -> string, settings: Settings, name: string): (seq<string>, seq<string>) {
    var entries := Entries(settings);
    if name in entries && entries[name].Table? then Needs(show, entries[name]) else ([], [])
  }

  lemma NeededDeclared(show: Value -> string, settings: Settings, name: string)
    requires name in Declared(show, settings)
    ensures Declared(show, settings)[name] == Needed(show, settings, name)
  {
  }

  /** Writing one down changes only that one: it is started by what was given and needs what it was
      declared to need before, every other is as it was, and so is everything else in the file. */
  lemma RemembersOne(show: Value -> string, settings: Settings, name: string, argv: seq<string>)
    requires Plain(show) && argv != []
    ensures var after := Written(show, settings, name, Some(argv));
      && Spoken(show, after) == Spoken(show, settings)[name := argv]
      && Declared(show, after) == Declared(show, settings)[name := Needed(show, settings, name)]
      && (name in Declared(show, settings) ==> Declared(show, settings)[name] == Needed(show, settings, name))
      && after - {SPOKEN} == settings - {SPOKEN}
  {
    hide Entries, Entry, Command, Needs, Plain, Written;
    var after := Written(show, settings, name, Some(argv));
    var entries := Entries(settings);
    var was := if name in entries then Some(entries[name]) else None;
    EntriesWritten(show, settings, name, Some(argv));
    EntrySays(show, was, argv);
    OthersWritten(show, settings, name, Some(argv));
    if name in Declared(show, settings) {
      NeededDeclared(show, settings, name);
    }
  }

  lemma OthersWritten(show: Value -> string, settings: Settings, name: string, argv: Option<seq<string>>)
    ensures Written(show, settings, name, argv) - {SPOKEN} == settings - {SPOKEN}
  {
    hide Entries, Entry;
  }

  /** Taking one away takes away only that one. */
  lemma ForgetsOne(show: Value -> string, settings: Settings, name: string)
    ensures var after := Written(show, settings, name, None);
      && Spoken(show, after) == Spoken(show, settings) - {name} && Declared(show, after) == Declared(show, settings) - {name}
      && after - {SPOKEN} == settings - {SPOKEN}
  {
    hide Entries, Command, Needs, Written, Entry;
    EntriesWritten(show, settings, name, None);
    OthersWritten(show, settings, name, None);
  }

  /** One added and taken away again leaves every CLI as it was, where it was not there before. */
  lemma AddedAndTaken(show: Value -> string, settings: Settings, name: string, argv: seq<string>)
    requires Plain(show) && argv != [] && name !in Entries(settings)
    ensures var after := Written(show, Written(show, settings, name, Some(argv)), name, None);
      Spoken(show, after) == Spoken(show, settings) && Declared(show, after) == Declared(show, settings)
  {
    hide Written, Spoken, Declared, Plain, Entries;
    RemembersOne(show, settings, name, argv);
    ForgetsOne(show, Written(show, settings, name, Some(argv)), name);
    NotSpoken(show, settings, name);
  }

  lemma NotSpoken(show: Value -> string, settings: Settings, name: string)
    requires name !in Entries(settings)
    ensures name !in Spoken(show, settings) && name !in Declared(show, settings)
  {
  }

  // ------------------------------------------------------------- the file, and what is held of it

  /** A settings file, with the moment and the size it was last written at. */
  datatype File = File(content: Content, moment: (nat, nat))

  /** What anybody may do to a settings file. */
  datatype Change = Write(path: string, file: File) | Remove(path: string)

  type Stamp = (string, (nat, nat))

  function Changed(files: map<string, File>, change: Change): map<string, File> {
    match change
    case Write(path, file) => files[path := file]
    case Remove(path) => files - {path}
  }

  function Used(used: set<Stamp>, change: Change): set<Stamp> {
    if change.Write? then used + {(change.path, change.file.moment)} else used
  }

  /** Every write gives its file a moment and a size it has not had together before. */
  predicate Fresh(used: set<Stamp>, changes: seq<Change>)
    decreases |changes|
  {
    changes == [] || (
      && (changes[0].Write? ==> (changes[0].path, changes[0].file.moment) !in used)
      && Fresh(Used(used, changes[0]), changes[1..]))
  }

  function AllChanged(files: map<string, File>, changes: seq<Change>): map<string, File>
    decreases |changes|
  {
    if changes == [] then files else AllChanged(Changed(files, changes[0]), changes[1..])
  }

  /** Why an added CLI was not written down. */
  datatype Refusal = NoCommand | AlreadyDriven | OtherName | NotWritten

  datatype Outcome = Remembered(name: string) | Refused(why: Refusal)

  /** The settings as this process has them: the files, which of them is this home's, and what was
      read of the added CLIs last. */
  class Added {
    var files: map<string, File>
    var at: string
    var added: Option<map<string, seq<string>>>
    var addedAt: Option<Stamp>
    var declared: map<string, (seq<string>, seq<string>)>
    const show: Value -> string
    ghost var used: set<Stamp>
    ghost var misread: bool        // that what is held is of a file that could not be read

    function Settled(): Settings
      reads this
    {
      if at in files then Read(files[at].content) else map[]
    }

    ghost predicate Valid()
      reads this
    {
      && (forall path | path in files :: (path, files[path].moment) in used)
      && (addedAt.Some? ==> addedAt.value in used && added.Some?)
      && (addedAt.Some? && addedAt.value.0 in files && files[addedAt.value.0].moment == addedAt.value.1 ==>
            Holds(files[addedAt.value.0].content))
    }

    /** What is held is what is in that content, but for a file that could not be read. */
    ghost predicate Holds(content: Content)
      reads this
      requires added.Some?
    {
      if misread then added.value == map[] && declared == map[]
      else added.value == Spoken(show, Read(content)) && declared == Declared(show, Read(content))
    }

    constructor (show: Value -> string, files: map<string, File>, at: string)
      ensures Valid() && this.show == show && this.files == files && this.at == at && added == None
      ensures used == set path | path in files :: (path, files[path].moment)
    {
      this.show, this.files, this.at := show, files, at;
      added, addedAt, declared, misread := None, None, map[], false;
      used := set path | path in files :: (path, files[path].moment);
    }

    /** Anybody else's writes. */
    method Meanwhile(changes: seq<Change>)
      requires Valid() && Fresh(used, changes)
      modifies this`files, this`used
      ensures Valid() && files == AllChanged(old(files), changes) && old(used) <= used && (changes == [] ==> used == old(used))
      ensures forall path | path in files ::
                (path in old(files) && files[path] == old(files)[path]) || (path, files[path].moment) !in old(used)
    {
      var i := 0;
      assert changes[0..] == changes;
      while i < |changes|
        invariant 0 <= i <= |changes| && Valid() && Fresh(used, changes[i..]) && old(used) <= used
        invariant AllChanged(files, changes[i..]) == AllChanged(old(files), changes) && (i == 0 ==> used == old(used))
        invariant forall path | path in files ::
                (path in old(files) && files[path] == old(files)[path]) || (path, files[path].moment) !in old(used)
      {
        assert changes[i..][1..] == changes[i + 1..];
        files, used := Changed(files, changes[i]), Used(used, changes[i]);
        i := i + 1;
      }
    }

    /** Every added CLI: what was read last where the file has not moved since, and what the file
        says where it has -- whatever becomes of it between being looked at and being read. */
    method Speaking(looks: bool, reading: bool, changes: seq<Change>) returns (found: map<string, seq<string>>)
      requires Valid() && Fresh(used, changes)
      modifies this
      ensures Valid() && at == old(at) && old(used) <= used
      ensures !looks || at !in old(files) ==> found == map[] && files == old(files)
      ensures looks && at in old(files) ==>
        if old(added).Some? && old(addedAt) == Some((at, old(files)[at].moment))
        then files == old(files) && misread == old(misread) && found == if misread then map[] else Spoken(show, Settled())
        else (
          files == AllChanged(old(files), changes) && misread == (!reading && at in files)
          && found == if misread then map[] else Spoken(show, Settled()))
      ensures addedAt == if !looks || at !in old(files) then None else Some((at, old(files)[at].moment))
      ensures added == Some(found) && (changes == [] ==> used == old(used))
      ensures declared == if !looks || at !in old(files) || misread then map[] else Declared(show, Settled())
    {
      if !looks || at !in files {
        added, addedAt, declared, misread := Some(map[]), None, map[], false;
        return map[];
      }
      var stamp := (at, files[at].moment);
      if added.Some? && Some(stamp) == addedAt {
        return added.value;
      }
      Meanwhile(changes);
      misread := !reading && at in files;
      var held := if at in files && reading then Read(files[at].content) else map[];
      found := Spoken(show, held);
      added, addedAt, declared := Some(found), Some(stamp), Declared(show, held);
      NothingSpoken(show);
    }

    /** What an added CLI was declared to need in the file as it is once it has been looked at, and
        nothing for one that is not in it -- or while what is held is of a read that failed. */
    method Declares(name: string, looks: bool, reading: bool,
            changes: seq<Change>) returns (needs: (seq<string>, seq<string>))
      requires Valid() && Fresh(used, changes)
      modifies this
      ensures Valid() && at == old(at)
      ensures needs == if looks && at in old(files) && !misread && name in Spoken(show, Settled())
                       then Needed(show, Settled(), name) else ([], [])
      ensures looks && at in old(files) ==>
        if old(added).Some? && old(addedAt) == Some((at, old(files)[at].moment))
        then files == old(files) && misread == old(misread)
        else files == AllChanged(old(files), changes) && misread == (!reading && at in files)
    {
      hide Spoken, Declared, Needed;
      var found := Speaking(looks, reading, changes);
      needs := if name in declared then declared[name] else ([], []);
      if name in Declared(show, Settled()) {
        NeededDeclared(show, Settled(), name);
      }
      SameNames(show, Settled());
    }

    /** One added CLI written down, or taken away, in the file as it is now: one that cannot be read
        is never written over. */
    method Write(name: string, argv: Option<seq<string>>, reading: bool, writing: bool,
            moment: (nat, nat)) returns (was: Option<bool>)
      requires Valid() && (at, moment) !in used
      modifies this`files, this`used
      ensures Valid() && old(used) <= used
      ensures was.Some? <==> writing && (at in old(files) ==> reading && old(files)[at].content.Holds?)
      ensures was.Some? ==> was.value == (name in Entries(old(Settled())))
      ensures var written := File(Content.Holds(Written(show, old(Settled()), name, argv)), moment);
        files == if was.Some? then old(files)[at := written] else old(files)
    {
      if at in files && (!reading || files[at].content.Unreadable?) {
        return None;
      }
      var held := if at in files then files[at].content.settings else map[];
      if !writing {
        return None;
      }
      was := Some(name in Entries(held));
      files := files[at := File(Content.Holds(Written(show, held, name, argv)), moment)];
      used := used + {(at, moment)};
    }

    /** A CLI written down as a backend: called what it runs, and only where nothing already driven
        is called that. */
    method Remember(name: string, command: seq<string>, driven: set<string>, reading: bool, writing: bool,
            moment: (nat, nat)) returns (r: Outcome)
      requires Valid() && (at, moment) !in used && Plain(show)
      modifies this`files, this`used
      ensures Valid()
      ensures var argv, called := NotBlank(command), Strings.Strip(name);
        && (argv == [] ==> r == Refused(NoCommand))
        && (argv != [] ==> var runs := Paths.Last(argv[0]);
              && (runs in driven ==> r == Refused(AlreadyDriven))
              && (runs !in driven && called != "" && called != runs ==> r == Refused(OtherName))
              && (runs !in driven && (called == "" || called == runs) ==>
                    r == if writing && (at in old(files) ==> reading && old(files)[at].content.Holds?)
                         then Remembered(runs) else Refused(NotWritten)))
      ensures r.Refused? ==> files == old(files)
      ensures r.Remembered? ==>
        && Spoken(show, Settled()) == Spoken(show, old(Settled()))[r.name := NotBlank(command)]
        && Declared(show, Settled()) == Declared(show, old(Settled()))[r.name := Needed(show, old(Settled()), r.name)]
        && Settled() - {SPOKEN} == old(Settled()) - {SPOKEN} && files - {at} == old(files) - {at}
    {
      var called, argv := Strings.Strip(name), NotBlank(command);
      if argv == [] {
        return Refused(NoCommand);
      }
      var runs := Paths.Last(argv[0]);
      if runs in driven {
        return Refused(AlreadyDriven);
      }
      called := if called == "" then runs else called;
      if called != runs {
        return Refused(OtherName);
      }
      RemembersOne(show, Settled(), called, argv);
      hide Spoken, Declared, Written, Needed, Entries, Paths.Last;
      var was := Write(called, Some(argv), reading, writing, moment);
      return if was.Some? then Remembered(called) else Refused(NotWritten);
    }

    /** An added CLI taken away again: whether there was one to take away. */
    method Forget(name: string, looks: bool, reading: bool, writing: bool,
            moment: (nat, nat)) returns (was: Option<bool>)
      requires Valid() && (at, moment) !in used
      modifies this
      ensures Valid() && at == old(at)
      ensures was != Some(true) ==> files == old(files)
      ensures was == Some(true) ==>
        && name in Spoken(show, old(Settled())) && Spoken(show, Settled()) == Spoken(show, old(Settled())) - {name}
        && Settled() - {SPOKEN} == old(Settled()) - {SPOKEN} && files - {at} == old(files) - {at}
      ensures was ==
        if !looks || at !in old(files) || misread || name !in Spoken(show, old(Settled())) then Some(false)
        else if writing && reading && old(files)[at].content.Holds? then Some(true)
        else None
    {
      hide Spoken, Declared, Written, Entries;
      ghost var before := Settled();
      NothingSpoken(show);
      var found := Speaking(looks, reading, []);
      if name !in found {
        return Some(false);
      }
      assert Settled() == before;
      ForgetsOne(show, before, name);
      InEntries(show, before, name);
      was := Write(name, None, reading, writing, moment);
    }
  }

  /** A file that cannot be read once and can be from then on: nothing is found in it the first time,
      nothing the second, though its CLIs are there, and they are found once it is written again,
      though not a word of it changes. */
  method HeldUntilWritten(show: Value -> string, at: string, settings: Settings, moment: (nat, nat), later: (nat, nat))
    returns (first: map<string, seq<string>>, second: map<string, seq<string>>, third: map<string, seq<string>>)
    requires moment != later
    ensures first == second == map[] && third == Spoken(show, settings)
  {
    hide Spoken, Declared;
    var home := new Added(show, map[at := File(Content.Holds(settings), moment)], at);
    first := home.Speaking(true, false, []);
    second := home.Speaking(true, true, []);
    var again := [Change.Write(at, File(Content.Holds(settings), later))];
    assert again[1..] == [];
    home.Meanwhile(again);
    third := home.Speaking(true, true, []);
  }

  lemma SameNames(show: Value -> string, settings: Settings)
    ensures forall name :: name in Spoken(show, settings) <==> name in Declared(show, settings)
  {
  }

  lemma InEntries(show: Value -> string, settings: Settings, name: string)
    ensures name in Spoken(show, settings) ==> name in Entries(settings)
  {
  }

  lemma NothingSpoken(show: Value -> string)
    ensures Spoken(show, map[]) == map[] && Declared(show, map[]) == map[]
  {
  }
}
