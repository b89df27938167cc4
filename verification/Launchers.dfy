/**
 Looking through a tree of directories for settings that name a program: which directories are
 looked at, which keys with stars in them match, and what is then reported and in which order.
 */
module Launchers {
  import opened Maybe
  import opened Strings

  /** A configuration file as it is parsed. Anything else is a number, a date or true. */
  datatype Value = Null | False | Text(text: string) | Other | List(items: seq<Value>) | Table(entries: seq<(string, Value)>)

  /** Whether a setting says anything. */
  predicate Something(v: Value): (r: bool)
    ensures r <==> v != Null && v != False && v != Text("") && v != List([]) && v != Table([])
  {
    match v
    case Null => false
    case False => false
    case Text(text) => text != ""
    case Other => true
    case List(items) => items != []
    case Table(entries) => entries != []
  }

  // ------------------------------------------------------------- keys

  /** What is under a value, one after another. */
  function Under(v: Value): seq<Value> {
    match v
    case List(items) => items
    case Table(entries) => seq(|entries|, i requires 0 <= i < |entries| => entries[i].1)
    case _ => []
  }

  /** Whether a part of a key names one of those: any of them by a star, or the one of a table that
      is called that. */
  predicate Names(v: Value, i: nat, part: string)
    requires i < |Under(v)|
  {
    part == "*" || (v.Table? && v.entries[i].0 == part && forall j | 0 <= j < i :: v.entries[j].0 != part)
  }

  /** A way down from a value that the parts of a key name step by step, to something said. */
  predicate Reached(v: Value, parts: seq<string>, path: seq<nat>)
    decreases |parts|
  {
    if parts == [] then path == [] && Something(v)
    else
      && path != [] && path[0] < |Under(v)| && Names(v, path[0], parts[0])
      && Reached(Under(v)[path[0]], parts[1..], path[1..])
  }

  /** Whether some way down from a value by the parts of a key comes to something said. */
  ghost predicate Says(v: Value, parts: seq<string>) {
    exists path :: Reached(v, parts, path)
  }

  ghost predicate AnySays(level: seq<Value>, parts: seq<string>) {
    exists i :: 0 <= i < |level| && Says(level[i], parts)
  }

  /** The entry of a table that is called that, by where it is. */
  function Entry(entries: seq<(string, Value)>, part: string, from: nat): (r: Option<nat>)
    requires from <= |entries|
    ensures r.Some? ==> from <= r.value < |entries| && entries[r.value].0 == part
    ensures r.Some? ==> forall j | from <= j < r.value :: entries[j].0 != part
    ensures r == None ==> forall j | from <= j < |entries| :: entries[j].0 != part
    decreases |entries| - from
  {
    if from == |entries| then None else if entries[from].0 == part then Some(from) else Entry(entries, part, from + 1)
  }

  /** What a part of a key names of what is under a value. */
  function Named(v: Value, part: string): seq<Value> {
    if part == "*" then Under(v)
    else if v.Table? && Entry(v.entries, part, 0).Some? then [v.entries[Entry(v.entries, part, 0).value].1]
    else []
  }

  /** One level down: whatever says something does so through what its first part names. */
  lemma SaysBelow(v: Value, part: string, rest: seq<string>)
    ensures Says(v, [part] + rest) <==> AnySays(Named(v, part), rest)
  {
    var parts := [part] + rest;
    assert parts[1..] == rest;
    if Says(v, parts) {
      var path :| Reached(v, parts, path);
      var i := path[0];
      assert Reached(Under(v)[i], rest, path[1..]);
      var named := Named(v, part);
      if part == "*" {
        assert named[i] == Under(v)[i];
      } else {
        assert named[0] == Under(v)[i];
      }
    }
    if AnySays(Named(v, part), rest) {
      var i :| 0 <= i < |Named(v, part)| && Says(Named(v, part)[i], rest);
      var path :| Reached(Named(v, part)[i], rest, path);
      var at := if part == "*" then i else Entry(v.entries, part, 0).value;
      assert Named(v, part)[i] == Under(v)[at] && Names(v, at, part);
      assert ([at] + path)[0] == at && ([at] + path)[1..] == path && parts[0] == part;
      assert Reached(v, parts, [at] + path);
    }
  }

  lemma AnySaysThen(a: seq<Value>, b: seq<Value>, parts: seq<string>)
    ensures AnySays(a + b, parts) <==> AnySays(a, parts) || AnySays(b, parts)
  {
    var both := a + b;
    if AnySays(a, parts) {
      var i :| 0 <= i < |a| && Says(a[i], parts);
      assert both[i] == a[i];
    }
    if AnySays(b, parts) {
      var i :| 0 <= i < |b| && Says(b[i], parts);
      assert both[|a| + i] == b[i];
    }
  }

  /** Whether a parsed file says something at a dotted key: found a level at a time, all of a level
      at once, and so exactly where some way down by the key's parts comes to something said. */
  method Holds(parsed: Value, key: string) returns (holds: bool)
    ensures holds <==> Says(parsed, Split(key, '.'))
  {
    var parts, level := Split(key, '.'), [parsed];
    hide Reached, Named;
    assert AnySays(level, parts) <==> Says(parsed, parts) by {
      assert level[0] == parsed;
    }
    assert parts[0..] == parts;
    for n := 0 to |parts|
      invariant AnySays(level, parts[n..]) <==> Says(parsed, parts)
    {
      var part, rest := parts[n], parts[n + 1..];
      assert parts[n..] == [part] + rest;
      var deeper := [];
      for i := 0 to |level|
        invariant AnySays(deeper, rest) || AnySays(level[i..], parts[n..]) <==> AnySays(level, parts[n..])
      {
        var one := level[i];
        assert level[i..] == [one] + level[i + 1..];
        AnySaysThen([one], level[i + 1..], parts[n..]);
        assert AnySays([one], parts[n..]) <==> Says(one, parts[n..]) by {
          assert ([one])[0] == one;
        }
        SaysBelow(one, part, rest);
        AnySaysThen(deeper, Named(one, part), rest);
        deeper := deeper + Named(one, part);
      }
      level := deeper;
    }
    assert parts[|parts|..] == [];
    SomethingSays(level);
    holds := Any(level);
    assert Says(parsed, parts) <==> holds;
  }

  /** Whether any value of a level says something. */
  function Any(level: seq<Value>): bool {
    exists i | 0 <= i < |level| :: Something(level[i])
  }

  lemma SomethingSays(level: seq<Value>)
    ensures Any(level) <==> AnySays(level, [])
  {
    forall i | 0 <= i < |level| ensures Something(level[i]) <==> Says(level[i], []) {
      assert Reached(level[i], [], []) <==> Something(level[i]);
    }
  }

  // ------------------------------------------------------------- files

  /** A file a CLI reads that could start a program, and the keys of it that would; with none, the
      file itself is one. */
  datatype Launcher = Launcher(path: string, keys: seq<string>)

  /** What comes of reading a file: nothing there, nothing anybody here may read, or some bytes. */
  datatype Reading = Missing | Barred | Bytes(content: string)

  datatype Finding = Unreadable(path: string) | Whole(path: string) | Key(path: string, key: string)

  /** What a file is parsed as, if it is of its kind. */
  type Parser = (string, string) -> Option<Value>

  ghost predicate Matches(parsed: Value, key: string) {
    Says(parsed, Split(key, '.'))
  }

  /** What one file says, in the order its keys are written down. */
  ghost function Keys(path: string, parsed: Value, keys: seq<string>): seq<Finding> {
    if keys == [] then []
    else (if Matches(parsed, keys[0]) then [Key(path, keys[0])] else []) + Keys(path, parsed, keys[1..])
  }

  ghost function Of(launcher: Launcher, reading: Reading, parse: Parser): seq<Finding> {
    if reading.Barred? then [Unreadable(launcher.path)]
    else if reading.Missing? then []
    else if launcher.keys == [] then [Whole(launcher.path)]
    else
      var parsed := parse(launcher.path, reading.content);
      if parsed == None then [Unreadable(launcher.path)] else Keys(launcher.path, parsed.value, launcher.keys)
  }

  ghost function HeldOf(launchers: seq<Launcher>, directory: string, read: (string, string) -> Reading,
          parse: Parser): seq<Finding> {
    if launchers == [] then []
    else Of(launchers[0], read(directory, launchers[0].path), parse) + HeldOf(launchers[1..], directory, read, parse)
  }

  /** Whether a file that is there starts a program, or cannot be told not to. */
  ghost predicate Starts(launcher: Launcher, reading: Reading, parse: Parser) {
    || reading.Barred?
    || (reading.Bytes? &&
        (launcher.keys == [] || parse(launcher.path, reading.content) == None
         || exists key | key in launcher.keys :: Matches(parse(launcher.path, reading.content).value, key)))
  }

  /** A key is found in a file exactly where it is one of those that would start a program and the file
      says something at it. */
  lemma {:induction false} KeysAre(path: string, parsed: Value, keys: seq<string>, found: Finding)
    ensures found in Keys(path, parsed, keys) <==>
      found.Key? && found.path == path && found.key in keys && Matches(parsed, found.key)
    decreases |keys|
  {
    hide Matches;
    if keys != [] {
      KeysAre(path, parsed, keys[1..], found);
      assert keys == [keys[0]] + keys[1..];
    }
  }

  /** What is found of one file: that it cannot be read, where nobody here may read it or it is none of
      its kind; all of it, where it has no keys to be looked for; or the keys it says something at. */
  lemma OfIs(launcher: Launcher, reading: Reading, parse: Parser, found: Finding)
    ensures var path, keys := launcher.path, launcher.keys;
      found in Of(launcher, reading, parse) <==>
        || (found == Unreadable(path)
            && (reading.Barred? || (reading.Bytes? && keys != [] && parse(path, reading.content) == None)))
        || (found == Whole(path) && reading.Bytes? && keys == [])
        || (found.Key? && found.path == path && found.key in keys && reading.Bytes?
            && parse(path, reading.content).Some? && Matches(parse(path, reading.content).value, found.key))
  {
    if reading.Bytes? && launcher.keys != [] && parse(launcher.path, reading.content).Some? {
      KeysAre(launcher.path, parse(launcher.path, reading.content).value, launcher.keys, found);
    }
    hide Matches, Keys;
  }

  lemma {:induction false} KeysNone(path: string, parsed: Value, keys: seq<string>)
    ensures Keys(path, parsed, keys) == [] <==> forall key | key in keys :: !Matches(parsed, key)
    decreases |keys|
  {
    hide Matches;
    if keys != [] {
      KeysNone(path, parsed, keys[1..]);
      assert keys == [keys[0]] + keys[1..];
    }
  }

  /** Nothing is found exactly where no file starts anything. */
  lemma {:induction false} NoneHeld(launchers: seq<Launcher>, directory: string,
          read: (string, string) -> Reading, parse: Parser)
    ensures HeldOf(launchers, directory, read, parse) == [] <==>
        forall launcher | launcher in launchers :: !Starts(launcher, read(directory, launcher.path), parse)
    decreases |launchers|
  {
    hide Matches, Keys;
    if launchers != [] {
      NoneHeld(launchers[1..], directory, read, parse);
      OfNone(launchers[0], read(directory, launchers[0].path), parse);
      hide Of, Starts;
      assert launchers == [launchers[0]] + launchers[1..];
    }
  }

  lemma OfNone(launcher: Launcher, reading: Reading, parse: Parser)
    ensures Of(launcher, reading, parse) == [] <==> !Starts(launcher, reading, parse)
  {
    hide Matches, Keys;
    if reading.Bytes? && parse(launcher.path, reading.content).Some? {
      KeysNone(launcher.path, parse(launcher.path, reading.content).value, launcher.keys);
    }
  }

  lemma {:induction false} KeysThen(path: string, parsed: Value, keys: seq<string>, key: string)
    ensures Keys(path, parsed, keys + [key]) == Keys(path, parsed, keys) + if Matches(parsed, key) then [Key(path, key)] else []
    decreases |keys|
  {
    hide Matches;
    if keys == [] {
      assert ([key])[1..] == [] && keys + [key] == [key];
      KeysNone(path, parsed, []);
    } else {
      assert (keys + [key])[0] == keys[0] && (keys + [key])[1..] == keys[1..] + [key];
      KeysThen(path, parsed, keys[1..], key);
    }
  }

  lemma {:induction false} HeldThen(launchers: seq<Launcher>, launcher: Launcher, directory: string,
          read: (string, string) -> Reading, parse: Parser)
    ensures HeldOf(launchers + [launcher], directory, read, parse) ==
      HeldOf(launchers, directory, read, parse) + Of(launcher, read(directory, launcher.path), parse)
    decreases |launchers|
  {
    hide Of;
    if launchers == [] {
      assert ([launcher])[1..] == [] && launchers + [launcher] == [launcher];
    } else {
      assert (launchers + [launcher])[1..] == launchers[1..] + [launcher];
      HeldThen(launchers[1..], launcher, directory, read, parse);
    }
  }

  method Held(launchers: seq<Launcher>, directory: string, read: (string, string) -> Reading,
          parse: Parser) returns (said: seq<Finding>)
    ensures said == HeldOf(launchers, directory, read, parse)
    ensures said == [] <==>
        forall launcher | launcher in launchers :: !Starts(launcher, read(directory, launcher.path), parse)
  {
    NoneHeld(launchers, directory, read, parse);
    hide Starts, Matches, Keys, HeldOf;
    said := [];
    NothingHeld(directory, read, parse);
    for n := 0 to |launchers|
      invariant said == HeldOf(launchers[..n], directory, read, parse)
    {
      var launcher := launchers[n];
      assert launchers[..n + 1] == launchers[..n] + [launcher];
      HeldThen(launchers[..n], launcher, directory, read, parse);
      var reading := read(directory, launcher.path);
      if reading.Barred? {
        said := said + [Unreadable(launcher.path)];
        continue;
      }
      if reading.Missing? {
        continue;
      }
      if launcher.keys == [] {
        said := said + [Whole(launcher.path)];
        continue;
      }
      var parsed := parse(launcher.path, reading.content);
      if parsed == None {
        said := said + [Unreadable(launcher.path)];
        continue;
      }
      var keys := KeysFound(launcher.path, parsed.value, launcher.keys);
      said := said + keys;
    }
    assert launchers[..|launchers|] == launchers;
  }

  lemma NothingHeld(directory: string, read: (string, string) -> Reading, parse: Parser)
    ensures HeldOf([], directory, read, parse) == []
  {
  }

  method KeysFound(path: string, parsed: Value, keys: seq<string>) returns (said: seq<Finding>)
    ensures said == Keys(path, parsed, keys)
  {
    said := [];
    for k := 0 to |keys|
      invariant said == Keys(path, parsed, keys[..k])
    {
      assert keys[..k + 1] == keys[..k] + [keys[k]];
      KeysThen(path, parsed, keys[..k], keys[k]);
      var holds := Holds(parsed, keys[k]);
      hide Says;
      if holds {
        said := said + [Key(path, keys[k])];
      }
    }
    assert keys[..|keys|] == keys;
  }

  // ------------------------------------------------------------- directories

  /** An absolute path as it is normalised: no empty part, and no slash at its end. */
  predicate Normal(path: string) {
    && path != "" && path[0] == '/'
    && (path == "/" || path[|path| - 1] != '/')
    && forall i | 0 < i < |path| :: !(path[i - 1] == '/' && path[i] == '/')
  }

  /** Where the last slash of a path is. */
  function LastSlash(path: string): (k: nat)
    requires path != "" && path[0] == '/'
    ensures k < |path| && path[k] == '/' && forall i | k < i < |path| :: path[i] != '/'
  {
    if path[|path| - 1] == '/' then |path| - 1 else LastSlash(path[..|path| - 1])
  }

  /** The directory a path is in; the root is in itself. */
  function Dirname(path: string): (parent: string)
    requires Normal(path)
    ensures Normal(parent) && (path == "/" ==> parent == "/") && (path != "/" ==> |parent| < |path|)
  {
    var k := LastSlash(path);
    if k == 0 then "/" else path[..k]
  }

  /** Whether a path is a directory, or is inside it. */
  predicate Within(path: string, directory: string) {
    path == directory || directory == "/" || directory + "/" <= path
  }

  /** A path and every directory it is in, deepest first, up to one of them. */
  function Chain(start: string, workspace: string): seq<string>
    requires Normal(start)
    decreases |start|
  {
    if start == workspace || start == "/" then [start] else [start] + Chain(Dirname(start), workspace)
  }

  /** Whether the walk up is taken at all. */
  predicate Walks(start: string, workspace: string) {
    start == workspace || workspace + "/" <= start
  }

  /** Inside a directory other than the root, the directory a path is in still is. */
  lemma StillWithin(path: string, directory: string)
    requires Normal(path) && Normal(directory) && directory + "/" <= path && directory != "/"
    ensures path != "/" && (Dirname(path) == directory || directory + "/" <= Dirname(path))
  {
    var k := LastSlash(path);
    assert path[|directory|] == '/';
    assert k >= |directory|;
    if k > |directory| {
      assert directory + "/" <= path[..k];
    }
  }

  /** A path is inside what the directory it is in is inside, and nothing between. */
  lemma WithinParent(path: string, directory: string)
    requires Normal(path) && Normal(directory) && path != "/"
    ensures Within(path, directory) <==> path == directory || Within(Dirname(path), directory)
  {
    var k := LastSlash(path);
    if path != directory && directory != "/" {
      if directory + "/" <= path {
        StillWithin(path, directory);
      }
      if Within(Dirname(path), directory) {
        assert Dirname(path) == path[..k];
        assert directory + "/" <= path;
      }
    }
  }

  /** The walk up goes through every directory a path is in that is within the workspace, and no
      other. */
  lemma {:induction false} ChainIs(start: string, workspace: string, directory: string)
    requires Normal(start) && Normal(workspace) && Normal(directory) && workspace != "/" && Walks(start, workspace)
    ensures directory in Chain(start, workspace) <==> Within(start, directory) && Within(directory, workspace)
    decreases |start|
  {
    if start == workspace {
      Between(directory, workspace);
    } else {
      StillWithin(start, workspace);
      WithinParent(start, directory);
      ChainIs(Dirname(start), workspace, directory);
    }
  }

  /** Whether a path is one name in a directory. */
  ghost predicate Above(parent: string, path: string) {
    exists name :: name != "" && '/' !in name && InDirectory(parent, name) == path
  }

  function InDirectory(parent: string, name: string): string {
    if parent == "/" then "/" + name else parent + "/" + name
  }

  lemma DirnameAbove(path: string)
    requires Normal(path) && path != "/"
    ensures Above(Dirname(path), path)
  {
    var k := LastSlash(path);
    var name := path[k + 1..];
    assert InDirectory(Dirname(path), name) == path;
  }

  /** The walk begins where a session works and ends at the workspace, and each directory of it is the
      one the directory before it is in; so none of them comes twice. */
  lemma {:induction false} ChainClimbs(start: string, workspace: string)
    requires Normal(start) && Normal(workspace) && workspace != "/" && Walks(start, workspace)
    ensures var chain := Chain(start, workspace);
      && chain != [] && chain[0] == start && chain[|chain| - 1] == workspace
      && (forall i | 0 < i < |chain| :: Above(chain[i], chain[i - 1]))
      && (forall i, j | 0 <= i < j < |chain| :: |chain[j]| < |chain[i]|)
    decreases |start|
  {
    hide Above, Normal, LastSlash;
    if start != workspace {
      StillWithin(start, workspace);
      DirnameAbove(start);
      ChainClimbs(Dirname(start), workspace);
      var rest := Chain(Dirname(start), workspace);
      assert Chain(start, workspace) == [start] + rest;
      assert forall j | 0 <= j < |rest| :: |rest[j]| <= |rest[0]|;
    }
  }

  lemma Between(directory: string, workspace: string)
    requires Normal(directory) && Normal(workspace) && workspace != "/"
    ensures Within(workspace, directory) && Within(directory, workspace) <==> directory == workspace
  {
  }

  /** A workspace that is the root is walked up to only from itself: of whatever is inside it,
      nothing is looked at. */
  lemma RootIsNotWalked(start: string)
    requires Normal(start)
    ensures Walks(start, "/") <==> start == "/"
  {
    if |start| > 1 {
      assert !(start[0] == '/' && start[1] == '/');
    }
  }

  lemma ChainStep(at: string, workspace: string)
    requires Normal(at)
    ensures Chain(at, workspace) == if at == workspace || at == "/" then [at] else [at] + Chain(Dirname(at), workspace)
  {
    hide Normal, Dirname;
  }

  /** Where a session works, and every directory above it up to the workspace; none outside it. */
  method Upward(start: string, workspace: string) returns (found: seq<string>)
    requires Normal(start) && Normal(workspace)
    ensures found == if start == workspace || workspace + "/" <= start then Chain(start, workspace) else []
  {
    hide Chain, Normal, Dirname, LastSlash;
    found := [];
    if start != workspace && !(workspace + "/" <= start) {
      return;
    }
    RootIsNotWalked(start);
    var at := start;
    while true
      invariant Normal(at) && Walks(at, workspace) && (workspace == "/" ==> at == workspace)
      invariant found + Chain(at, workspace) == Chain(start, workspace)
      decreases |at|
    {
      ChainStep(at, workspace);
      found := found + [at];
      if at == workspace {
        return;
      }
      StillWithin(at, workspace);
      at := Dirname(at);
    }
  }

  /** The directories a session's project is read in. */
  predicate Read(start: string, workspace: string, directory: string) {
    Normal(directory) && Within(start, directory) && Within(directory, workspace)
  }

  ghost function FoundIn(directories: seq<string>, launchers: seq<Launcher>, read: (string, string) -> Reading,
          parse: Parser): seq<(string, Finding)> {
    if directories == [] then []
    else
      var held := HeldOf(launchers, directories[0], read, parse);
      seq(|held|, i requires 0 <= i < |held| => (directories[0], held[i])) + FoundIn(directories[1..], launchers, read, parse)
  }

  /** Whether no file of a directory starts anything. */
  ghost predicate Quiet(launchers: seq<Launcher>, directory: string, read: (string, string) -> Reading, parse: Parser) {
    forall launcher | launcher in launchers :: !Starts(launcher, read(directory, launcher.path), parse)
  }

  lemma {:induction false} NoneFound(directories: seq<string>, launchers: seq<Launcher>,
          read: (string, string) -> Reading, parse: Parser)
    ensures FoundIn(directories, launchers, read, parse) == [] <==>
      forall directory | directory in directories :: Quiet(launchers, directory, read, parse)
    decreases |directories|
  {
    if directories != [] {
      NoneFound(directories[1..], launchers, read, parse);
      hide Starts, HeldOf, Quiet;
      HeldQuiet(launchers, directories[0], read, parse);
      FoundFirst(directories, launchers, read, parse);
      assert directories == [directories[0]] + directories[1..];
      assert directories[0] in directories;
    }
  }

  lemma HeldQuiet(launchers: seq<Launcher>, directory: string, read: (string, string) -> Reading, parse: Parser)
    ensures HeldOf(launchers, directory, read, parse) == [] <==> Quiet(launchers, directory, read, parse)
  {
    NoneHeld(launchers, directory, read, parse);
  }

  /** What of a project would start a program, each where it was found, the deepest first. */
  method Found(launchers: seq<Launcher>, read: (string, string) -> Reading, parse: Parser, start: string,
          workspace: string)
    returns (said: seq<(string, Finding)>)
    requires Normal(start) && Normal(workspace)
    ensures said ==
      if start == workspace || workspace + "/" <= start then FoundIn(Chain(start, workspace), launchers, read, parse) else []
  {
    hide Chain, Starts, HeldOf, FoundIn, Normal;
    said := [];
    var directories := Upward(start, workspace);
    assert directories[0..] == directories;
    for n := 0 to |directories|
      invariant said + FoundIn(directories[n..], launchers, read, parse) == FoundIn(directories, launchers, read, parse)
    {
      var directory := directories[n];
      assert directories[n..][1..] == directories[n + 1..];
      var held := Held(launchers, directory, read, parse);
      var named := seq(|held|, i requires 0 <= i < |held| => (directory, held[i]));
      FoundFirst(directories[n..], launchers, read, parse);
      said := said + named;
    }
    assert directories[|directories|..] == [];
    NothingFound(launchers, read, parse);
  }

  lemma FoundFirst(directories: seq<string>, launchers: seq<Launcher>, read: (string, string) -> Reading, parse: Parser)
    requires directories != []
    ensures var held := HeldOf(launchers, directories[0], read, parse);
      FoundIn(directories, launchers, read, parse) ==
      seq(|held|, i requires 0 <= i < |held| => (directories[0], held[i])) + FoundIn(directories[1..], launchers, read, parse)
  {
    hide HeldOf;
  }

  /** What is found of one directory more comes after what is found of those before it. */
  lemma {:induction false} FoundThen(directories: seq<string>, directory: string, launchers: seq<Launcher>,
          read: (string, string) -> Reading, parse: Parser)
    ensures var held := HeldOf(launchers, directory, read, parse);
      FoundIn(directories + [directory], launchers, read, parse) ==
      FoundIn(directories, launchers, read, parse) + seq(|held|, i requires 0 <= i < |held| => (directory, held[i]))
    decreases |directories|
  {
    hide HeldOf, FoundIn;
    FoundFirst(directories + [directory], launchers, read, parse);
    NothingFound(launchers, read, parse);
    if directories == [] {
      assert directories + [directory] == [directory] && [directory][1..] == [];
    } else {
      FoundFirst(directories, launchers, read, parse);
      assert (directories + [directory])[1..] == directories[1..] + [directory];
      FoundThen(directories[1..], directory, launchers, read, parse);
    }
  }

  lemma NothingFound(launchers: seq<Launcher>, read: (string, string) -> Reading, parse: Parser)
    ensures FoundIn([], launchers, read, parse) == []
  {
  }

  /** A project is found quiet exactly where every directory it is read in is -- but under a
      workspace that is the root, where only the root itself is ever looked in. */
  lemma FoundQuiet(launchers: seq<Launcher>, read: (string, string) -> Reading, parse: Parser, start: string,
          workspace: string)
    requires Normal(start) && Normal(workspace)
    ensures var said := if Walks(start, workspace) then FoundIn(Chain(start, workspace), launchers, read, parse) else [];
      && ((start == workspace || workspace + "/" <= start) && workspace != "/" ==>
            (said == [] <==> forall directory | Read(start, workspace, directory) :: Quiet(launchers, directory, read, parse)))
      && (workspace == "/" ==>
            (said == [] <==> (start == "/" ==> Quiet(launchers, "/", read, parse))))
  {
    RootIsNotWalked(start);
    if Walks(start, workspace) {
      var directories := Chain(start, workspace);
      NoneFound(directories, launchers, read, parse);
      hide Quiet;
      if workspace != "/" {
        ChainNormal(start, workspace);
        forall directory | Normal(directory) ensures directory in directories <==> Read(start, workspace, directory) {
          ChainIs(start, workspace, directory);
        }
      } else {
        assert directories == ["/"];
      }
    }
  }

  lemma {:induction false} ChainNormal(start: string, workspace: string)
    requires Normal(start)
    ensures forall directory | directory in Chain(start, workspace) :: Normal(directory)
    decreases |start|
  {
    if start != workspace && start != "/" {
      ChainNormal(Dirname(start), workspace);
    }
  }
}
