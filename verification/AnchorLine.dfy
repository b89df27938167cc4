/**
 The line an anchored turn is spawned with, both ways round: a session's settings written out as
 options, the options read back in front of the agent's own command, and the secret carried in
 a file the line names.
 */
module AnchorLine {
  import opened Maybe
  import opened Strings

  datatype Flag =
    | Target | Harness | Broker | Workspace | RemotePath | Shadow | LocalPath | LocalExec | Redirect
    | Chdir | Private | Net | NetAllow | Token | TokenFile | Force | Native | Hush | Project | Bring
    | Tell | Home | Installs | Fence | Check | LogLevel

  const FLAGS: seq<Flag> := [
    Target, Harness, Broker, Workspace, RemotePath, Shadow, LocalPath, LocalExec, Redirect,
    Chdir, Private, Net, NetAllow, Token, TokenFile, Force, Native, Hush, Project, Bring,
    Tell, Home, Installs, Fence, Check, LogLevel]

  function Name(flag: Flag): string {
    match flag
    case Target => "--target"
    case Harness => "--harness"
    case Broker => "--broker"
    case Workspace => "--workspace"
    case RemotePath => "--remote-path"
    case Shadow => "--shadow"
    case LocalPath => "--local-path"
    case LocalExec => "--local-exec"
    case Redirect => "--redirect"
    case Chdir => "--chdir"
    case Private => "--private"
    case Net => "--net"
    case NetAllow => "--net-allow"
    case Token => "--token"
    case TokenFile => "--token-file"
    case Force => "--force"
    case Native => "--native"
    case Hush => "--hush"
    case Project => "--project"
    case Bring => "--bring"
    case Tell => "--tell"
    case Home => "--home"
    case Installs => "--installs"
    case Fence => "--fence"
    case Check => "--check"
    case LogLevel => "--log-level"
  }

  /** The first flag of that name from the i-th on. */
  function Called(name: string, i: nat): Option<Flag>
    requires i <= |FLAGS|
    decreases |FLAGS| - i
  {
    if i == |FLAGS| then None else if Name(FLAGS[i]) == name then Some(FLAGS[i]) else Called(name, i + 1)
  }

  lemma NamesDiffer(a: Flag, b: Flag)
    requires Name(a) == Name(b)
    ensures a == b
  {
  }

  lemma {:induction false} CalledFrom(flag: Flag, i: nat, at: nat)
    requires i <= at < |FLAGS| && FLAGS[at] == flag
    ensures Called(Name(flag), i) == Some(flag)
    decreases at - i
  {
    hide Name;
    if Name(FLAGS[i]) == Name(flag) {
      NamesDiffer(FLAGS[i], flag);
    } else {
      CalledFrom(flag, i + 1, at);
    }
  }

  /** Every flag is told from the others by its name. */
  lemma CalledByName(flag: Flag)
    ensures Called(Name(flag), 0) == Some(flag)
  {
    hide Name, Called;
    assert flag in FLAGS;
    var at :| 0 <= at < |FLAGS| && FLAGS[at] == flag;
    CalledFrom(flag, 0, at);
  }

  /** Whether a flag takes one value, adds one to those it has, or is only there or not. */
  predicate Adds(flag: Flag) {
    flag in {LocalPath, LocalExec, Redirect, Private, NetAllow, Hush, Project, Bring}
  }

  predicate Switches(flag: Flag) {
    flag in {Force, Native, Check}
  }

  predicate Allowed(flag: Flag, value: string) {
    && (flag == Net ==> value == "local" || value == "remote")
    && (flag == LogLevel ==> value in {"debug", "info", "warning", "error"})
  }

  // ------------------------------------------------------------- reading a line

  /** What the options of a line come to. */
  datatype Namespace = Namespace(one: map<Flag, string>, many: map<Flag, seq<string>>, on: set<Flag>)
  {
    function One(flag: Flag): Option<string> {
      if flag in one then Some(one[flag]) else None
    }

    function Text(flag: Flag): string {
      if flag in one then one[flag] else ""
    }

    function Many(flag: Flag): seq<string> {
      if flag in many then many[flag] else []
    }
  }

  function Env(env: map<string, string>, name: string, default: string): string {
    if name in env then env[name] else default
  }

  /** Before any option is read: what the environment says, and what is said where it does not. */
  function Defaults(env: map<string, string>): Namespace {
    var said := map[
      Target := Env(env, "HUMANIZE_TARGET", "local"), Harness := Env(env, "HUMANIZE_HARNESS", "local"),
      Broker := Env(env, "HUMANIZE_RENDEZVOUS", ""), Net := "local", Tell := "", Installs := ""];
    var shadow := if "HUMANIZE_SHADOW" in env then said[Shadow := env["HUMANIZE_SHADOW"]] else said;
    var token := if "HUMANIZE_TOKEN" in env then shadow[Token := env["HUMANIZE_TOKEN"]] else shadow;
    Namespace(token, map[], {})
  }

  /** A word that is the agent's command rather than an option. */
  predicate Plain(word: string) {
    word == "" || word[0] != '-'
  }

  function Stored(args: Namespace, flag: Flag, value: string): Namespace {
    if Adds(flag) then args.(many := args.many[flag := args.Many(flag) + [value]])
    else args.(one := args.one[flag := value])
  }

  /** One option read, its value joined to its flag. */
  function Set(args: Namespace, word: string): Option<Namespace> {
    var p := Partition(word, '=');
    var flag := Called(p.before, 0);
    if flag == None || p.found == Switches(flag.value) || (p.found && !Allowed(flag.value, p.after)) then None
    else if p.found then Some(Stored(args, flag.value, p.after))
    else Some(args.(on := args.on + {flag.value}))
  }

  /** Options up to the first word that is not one, which begins the command. */
  function Parse(args: Namespace, line: seq<string>): Option<(Namespace, seq<string>)>
    decreases |line|
  {
    if line == [] || Plain(line[0]) then Some((args, line))
    else
      var next := Set(args, line[0]);
      if next == None then None else Parse(next.value, line[1..])
  }

  // ------------------------------------------------------------- the settings

  /** A session's settings. Its virtual home and its fence are only ever written out whole. */
  datatype Config<H, F> = Config(
    target: string, harness: string, broker: string, workspace: Option<string>, chdir: Option<string>,
    remotePath: Option<string>, shadow: Option<string>, localPaths: seq<string>, localExecs: seq<string>,
    private: seq<string>, redirects: seq<(string, string)>, net: string, netAllow: seq<string>,
    token: Option<string>, force: bool, native: bool, hushes: seq<string>, projects: seq<(string, string)>,
    home: Option<H>, brings: seq<(string, string)>, tells: string, installs: string, fence: Option<F>)

  /** What something is written out as, and what is read back from that. */
  datatype Codec<!T> = Codec(dumps: T -> string, loads: string -> Option<T>)

  ghost predicate Faithful<T(!new)>(codec: Codec<T>) {
    forall t :: codec.dumps(t) != "" && codec.loads(codec.dumps(t)) == Some(t)
  }

  /** What is made of a target, of a harness beside it, and of a fence. */
  datatype Reach<!F> = Reach(
    scheme: string -> Option<string>, harnessed: (string, string) -> Option<string>,
    wide: F -> bool, leveled: F -> bool, online: F -> bool)

  predicate Absolute(path: string) {
    path != "" && path[0] == '/'
  }

  /** What is brought back: something under a directory that was put there, and nothing else. */
  predicate Brought(bring: (string, string), projected: set<string>) {
    var parts := Split(bring.0, '/');
    && |parts| > 1 && parts[0] in projected && parts[1] != ""
    && ".." !in parts[1..] && Absolute(bring.1)
  }

  /** What directories are put on the target as. */
  function Variables(projects: seq<(string, string)>): (names: set<string>)
    ensures forall name :: name in names <==> exists i :: 0 <= i < |projects| && projects[i].0 == name
  {
    set pair | pair in projects :: pair.0
  }

  /** What a session refuses to be set to. */
  predicate Accepted<H, F>(reach: Reach<F>, config: Config<H, F>) {
    var work, at := reach.scheme(config.target), reach.harnessed(config.harness, config.target);
    && work.Some? && at.Some?
    && !(config.native && at.value != "local")
    && !(config.harness != "local" && work.value == "peer")
    && (config.net == "local" || config.net == "remote")
    && (forall pair | pair in config.redirects :: Absolute(pair.0) && Absolute(pair.1))
    && (forall name | name in config.hushes :: name != "" && '=' !in name)
    && (forall pair | pair in config.projects :: pair.0 != "" && '=' !in pair.0 && Absolute(pair.1))
    && (config.fence.Some? && !reach.wide(config.fence.value) ==>
          reach.leveled(config.fence.value) && at.value == "local"
          && (config.net == "remote" ==> reach.online(config.fence.value)))
    && (config.tells != "" ==> Absolute(config.tells))
    && (forall bring | bring in config.brings :: Brought(bring, Variables(config.projects)))
  }

  function Pair(said: string): (string, string) {
    var p := Partition(said, '=');
    (p.before, p.after)
  }

  function Pairs(said: seq<string>): seq<(string, string)> {
    seq(|said|, i requires 0 <= i < |said| => Pair(said[i]))
  }

  /** A file's text as it is read: however its lines end, as a line feed. */
  function Universal(s: string): string {
    if s == "" then ""
    else if s[0] != '\r' then [s[0]] + Universal(s[1..])
    else if |s| > 1 && s[1] == '\n' then Universal(s[1..])
    else ['\n'] + Universal(s[1..])
  }

  function Secret(files: map<string, string>, path: string): Option<string> {
    if path in files then Some(Universal(files[path])) else None
  }

  /** A session made of what was parsed, if it is one `Accepted` takes. */
  function Settings<H, F>(files: map<string, string>, homes: Codec<H>, fences: Codec<F>, reach: Reach<F>,
          args: Namespace): Option<Config<H, F>> {
    var secret := if args.Text(TokenFile) != "" then Secret(files, args.Text(TokenFile)) else None;
    var home := if args.Text(Home) != "" then homes.loads(args.Text(Home)) else None;
    var fence := if args.Text(Fence) != "" then fences.loads(args.Text(Fence)) else None;
    if args.Text(TokenFile) != "" && secret == None then None
    else if args.Text(Home) != "" && home == None then None
    else if args.Text(Fence) != "" && fence == None then None
    else
      var config := Configured(args, if args.Text(TokenFile) != "" then secret else args.One(Token), home, fence);
      if Accepted(reach, config) then Some(config) else None
  }

  function Configured<H, F>(args: Namespace, token: Option<string>, home: Option<H>, fence: Option<F>): Config<H, F> {
    Config(
      args.Text(Target), args.Text(Harness), args.Text(Broker), args.One(Workspace), args.One(Chdir),
      args.One(RemotePath), args.One(Shadow), args.Many(LocalPath), args.Many(LocalExec),
      args.Many(Private), Pairs(args.Many(Redirect)), args.Text(Net), args.Many(NetAllow),
      token, Force in args.on, Native in args.on,
      args.Many(Hush), Pairs(args.Many(Project)), home, Pairs(args.Many(Bring)), args.Text(Tell),
      args.Text(Installs), fence)
  }

  // ------------------------------------------------------------- writing a line

  function Written(flag: Flag, value: string): string {
    Name(flag) + "=" + value
  }

  /** Each of some flags that has a value, joined to it. */
  function Ones(said: seq<(Flag, Option<string>)>): seq<string> {
    if said == [] then []
    else (if said[0].1.Some? then [Written(said[0].0, said[0].1.value)] else []) + Ones(said[1..])
  }

  function Each(flag: Flag, values: seq<string>): seq<string> {
    if values == [] then [] else [Written(flag, values[0])] + Each(flag, values[1..])
  }

  function Lists(said: seq<(Flag, seq<string>)>): seq<string> {
    if said == [] then [] else Each(said[0].0, said[0].1) + Lists(said[1..])
  }

  function Equals(pairs: seq<(string, string)>): seq<string> {
    seq(|pairs|, i requires 0 <= i < |pairs| => pairs[i].0 + "=" + pairs[i].1)
  }

  function NonEmpty(value: string): Option<string> {
    if value == "" then None else Some(value)
  }

  /** The settings written only where there is one, and the file the secret is kept in. */
  function Singles<H, F>(homes: Codec<H>, fences: Codec<F>, config: Config<H, F>,
          secret: Option<string>): seq<(Flag, Option<string>)> {
    [(Workspace, config.workspace), (Chdir, config.chdir), (RemotePath, config.remotePath), (Shadow, config.shadow),
     (TokenFile, secret), (Installs, NonEmpty(config.installs)), (Broker, NonEmpty(config.broker)),
     (Fence, if config.fence.Some? then Some(fences.dumps(config.fence.value)) else None),
     (Home, if config.home.Some? then Some(homes.dumps(config.home.value)) else None)]
  }

  function First<H, F>(config: Config<H, F>): seq<(Flag, Option<string>)> {
    [(Target, Some(config.target)), (Net, Some(config.net))]
  }

  function Placed<H, F>(config: Config<H, F>): seq<(Flag, Option<string>)> {
    [(Harness, if config.harness == "local" then None else Some(config.harness))]
  }

  function Paths<H, F>(config: Config<H, F>): seq<(Flag, seq<string>)> {
    [(LocalPath, config.localPaths), (LocalExec, config.localExecs), (NetAllow, config.netAllow), (Hush, config.hushes)]
  }

  function Paired<H, F>(config: Config<H, F>): seq<(Flag, seq<string>)> {
    [(Redirect, Equals(config.redirects)), (Project, Equals(config.projects)), (Bring, Equals(config.brings))]
  }

  function Options<H, F>(homes: Codec<H>, fences: Codec<F>, config: Config<H, F>, secret: Option<string>): seq<string> {
    Ones(First(config))
    + Ones(Singles(homes, fences, config, secret))
    + Ones(Placed(config))
    + Lists(Paths(config))
    + Lists(Paired(config))
    + Lists([(Private, config.private)])
    + Ones([(Tell, NonEmpty(config.tells))])
    + (if config.force then [Name(Force)] else []) + (if config.native then [Name(Native)] else [])
  }

  /** What is written down, and what the line is made by: the secret goes in a file of its own. */
  class Machine {
    const tokens: string              // the directory secrets are kept in
    const process: string             // this process, by number
    const digest: string -> string
    var files: map<string, string>

    constructor (tokens: string, process: string, digest: string -> string, files: map<string, string>)
      ensures this.tokens == tokens && this.process == process && this.digest == digest && this.files == files
    {
      this.tokens, this.process, this.digest, this.files := tokens, process, digest, files;
    }

    function Keeping(token: string): string {
      tokens + "/" + digest(token)
    }

    function Staged(token: string): string {
      tokens + "/." + digest(token) + "." + process
    }

    /** Whether every secret whose file is there is what that file holds. */
    ghost predicate Honest() reads this {
      forall token | Keeping(token) in files :: files[Keeping(token)] == token
    }

    /** The file a secret is kept in: written where it is not yet, whole under another name
        first, and left alone where it is. */
    method Kept(token: string) returns (at: string)
      modifies this
      ensures at == Keeping(token) && at in files
      ensures if at in old(files) then files == old(files) else files[at] == token && Staged(token) !in files
      ensures forall p | p != at && p != Staged(token) ::
                (p in files <==> p in old(files)) && (p in files ==> files[p] == old(files)[p])
      ensures old(Honest()) ==> files[at] == token
      ensures old(Honest()) && (forall other | digest(other) == digest(token) :: other == token) ==> Honest()
    {
      KeepingApart(token);
      at := Keeping(token);
      if at !in files {
        var staged := Staged(token);
        assert staged[|tokens| + 1] == '.';
        DifferentNames(tokens, digest(token), process);
        files := files[staged := token];
        files := (files - {staged})[at := files[staged]];
      }
    }

    /** A secret's file is its digest's alone. */
    lemma KeepingApart(token: string)
      ensures forall other :: Keeping(other) == Keeping(token) <==> digest(other) == digest(token)
    {
      forall other ensures Keeping(other) == Keeping(token) <==> digest(other) == digest(token) {
        var from := |tokens + "/"|;
        assert Keeping(other)[from..] == digest(other) && Keeping(token)[from..] == digest(token);
      }
    }

    /** A secret forgotten: it has no file any more, so that the next line to name it writes it anew,
        and every other secret is kept, or not, as it was. */
    method Forget(token: string)
      modifies this
      ensures Keeping(token) !in files
      ensures forall other | digest(other) != digest(token) ::
                && (Keeping(other) in files <==> Keeping(other) in old(files))
                && (Keeping(other) in files ==> files[Keeping(other)] == old(files)[Keeping(other)])
      ensures forall p | p != Keeping(token) :: (p in files <==> p in old(files)) && (p in files ==> files[p] == old(files)[p])
      ensures old(Honest()) ==> Honest()
    {
      KeepingApart(token);
      files := files - {Keeping(token)};
    }

    /** The settings as the options that read back as them. */
    method Line<H, F>(homes: Codec<H>, fences: Codec<F>, config: Config<H, F>) returns (written: seq<string>)
      modifies this
      ensures var secret := if config.token.Some? then Some(Keeping(config.token.value)) else None;
        written == Options(homes, fences, config, secret)
      ensures config.token == None ==> files == old(files)
      ensures config.token.Some? ==>
        var at := Keeping(config.token.value);
        at in files && files[at] == if at in old(files) then old(files)[at] else config.token.value
    {
      hide Name, Ones, Each, Lists, Equals, Written, Singles;
      var secret := None;
      if config.token.Some? {
        var at := Kept(config.token.value);
        secret := Some(at);
      }
      var first := WriteOnes(First(config));
      var singles := WriteOnes(Singles(homes, fences, config, secret));
      written := first + singles;
      if config.harness != "local" {
        written := written + [Written(Harness, config.harness)];
      } else {
        assert written + [] == written;
      }
      OnesOne(Harness, if config.harness == "local" then None else Some(config.harness));
      var lists := WriteLists(Paths(config));
      var pairs := WriteLists(Paired(config));
      var names := WriteLists([(Private, config.private)]);
      written := written + lists + pairs + names;
      OnesOne(Tell, NonEmpty(config.tells));
      if config.tells != "" {
        written := written + [Written(Tell, config.tells)];
      } else {
        assert written + [] == written;
      }
      if config.force {
        written := written + [Name(Force)];
      } else {
        assert written + [] == written;
      }
      if config.native {
        written := written + [Name(Native)];
      } else {
        assert written + [] == written;
      }
    }
  }

  lemma DifferentNames(tokens: string, name: string, process: string)
    ensures tokens + "/." + name + "." + process != tokens + "/" + name
  {
    assert |tokens + "/." + name + "." + process| > |tokens + "/" + name|;
  }

  lemma OnesOne(flag: Flag, value: Option<string>)
    ensures Ones([(flag, value)]) == if value.Some? then [Written(flag, value.value)] else []
  {
    assert ([(flag, value)])[1..] == [];
  }

  method WriteOnes(said: seq<(Flag, Option<string>)>) returns (written: seq<string>)
    ensures written == Ones(said)
  {
    written := [];
    for i := 0 to |said|
      invariant written + Ones(said[i..]) == Ones(said)
    {
      var (flag, value) := said[i];
      if value.Some? {
        written := written + [Written(flag, value.value)];
      }
    }
  }

  lemma EachFrom(flag: Flag, values: seq<string>, j: nat)
    requires j < |values|
    ensures Each(flag, values[j..]) == [Written(flag, values[j])] + Each(flag, values[j + 1..])
  {
    hide Written;
    assert values[j..][1..] == values[j + 1..];
  }

  lemma EachNone(flag: Flag)
    ensures Each(flag, []) == []
  {
  }

  lemma Associates<T>(a: seq<T>, b: seq<T>, c: seq<T>)
    ensures a + (b + c) == a + b + c
  {
  }

  method WriteEach(flag: Flag, values: seq<string>) returns (written: seq<string>)
    ensures written == Each(flag, values)
  {
    hide Written, Each;
    written := [];
    assert values[0..] == values;
    EachNone(flag);
    for j := 0 to |values|
      invariant written + Each(flag, values[j..]) == Each(flag, values)
    {
      EachFrom(flag, values, j);
      Associates(written, [Written(flag, values[j])], Each(flag, values[j + 1..]));
      written := written + [Written(flag, values[j])];
    }
    assert values[|values|..] == [];
  }

  method WriteLists(said: seq<(Flag, seq<string>)>) returns (written: seq<string>)
    ensures written == Lists(said)
  {
    written := [];
    for i := 0 to |said|
      invariant written + Lists(said[i..]) == Lists(said)
    {
      var each := WriteEach(said[i].0, said[i].1);
      written := written + each;
    }
  }

  // ------------------------------------------------------------- what is written reads back

  lemma NameOption(flag: Flag)
    ensures Name(flag) != "" && Name(flag)[0] == '-' && '=' !in Name(flag)
  {
  }

  lemma WrittenOption(flag: Flag, value: string)
    ensures !Plain(Written(flag, value))
  {
    NameOption(flag);
    hide Name;
  }

  /** An option written is an option read. */
  lemma WrittenSet(args: Namespace, flag: Flag, value: string)
    requires !Switches(flag) && Allowed(flag, value)
    ensures Set(args, Written(flag, value)) == Some(Stored(args, flag, value))
  {
    hide Name, Called, Switches, Allowed, Stored;
    NameOption(flag);
    PartsAt(Name(flag), '=', value);
    CalledByName(flag);
  }

  lemma SwitchSet(args: Namespace, flag: Flag)
    requires Switches(flag)
    ensures Set(args, Name(flag)) == Some(args.(on := args.on + {flag})) && !Plain(Name(flag))
  {
    hide Name, Called, Switches, Allowed, Stored;
    NameOption(flag);
    PartsNowhere(Name(flag), '=');
    CalledByName(flag);
  }

  function Puts(one: map<Flag, string>, said: seq<(Flag, Option<string>)>): map<Flag, string>
    decreases |said|
  {
    if said == [] then one
    else Puts(if said[0].1.Some? then one[said[0].0 := said[0].1.value] else one, said[1..])
  }

  predicate Single(said: seq<(Flag, Option<string>)>) {
    forall i | 0 <= i < |said| ::
      !Adds(said[i].0) && !Switches(said[i].0) && (said[i].1.Some? ==> Allowed(said[i].0, said[i].1.value))
  }

  lemma ParseWritten(args: Namespace, flag: Flag, value: string, rest: seq<string>)
    requires !Switches(flag) && Allowed(flag, value)
    ensures Parse(args, [Written(flag, value)] + rest) == Parse(Stored(args, flag, value), rest)
  {
    hide Written, Plain, Set, Stored, Switches, Allowed;
    WrittenOption(flag, value);
    WrittenSet(args, flag, value);
    assert ([Written(flag, value)] + rest)[1..] == rest;
  }

  lemma {:induction false} ParseOnes(args: Namespace, said: seq<(Flag, Option<string>)>, rest: seq<string>)
    requires Single(said)
    ensures Parse(args, Ones(said) + rest) == Parse(args.(one := Puts(args.one, said)), rest)
    decreases |said|
  {
    hide Parse, Written, Plain, Set, Adds, Switches, Allowed;
    if said == [] {
      assert Ones(said) + rest == rest;
    } else {
      var (flag, value) := said[0];
      if value.Some? {
        var word := Written(flag, value.value);
        var args' := args.(one := args.one[flag := value.value]);
        assert Ones(said) + rest == [word] + (Ones(said[1..]) + rest);
        ParseWritten(args, flag, value.value, Ones(said[1..]) + rest);
        ParseOnes(args', said[1..], rest);
      } else {
        assert Ones(said) + rest == Ones(said[1..]) + rest;
        ParseOnes(args, said[1..], rest);
      }
    }
  }

  lemma {:induction false} ParseEach(args: Namespace, flag: Flag, values: seq<string>, rest: seq<string>)
    requires Adds(flag)
    ensures Parse(args, Each(flag, values) + rest) ==
      Parse(if values == [] then args else args.(many := args.many[flag := args.Many(flag) + values]), rest)
    decreases |values|
  {
    hide Parse, Written;
    if values == [] {
      assert Each(flag, values) + rest == rest;
    } else {
      var word := Written(flag, values[0]);
      var args' := Stored(args, flag, values[0]);
      assert Each(flag, values) + rest == [word] + (Each(flag, values[1..]) + rest);
      ParseWritten(args, flag, values[0], Each(flag, values[1..]) + rest);
      ParseEach(args', flag, values[1..], rest);
      assert args.Many(flag) + [values[0]] + values[1..] == args.Many(flag) + values;
      if |values| > 1 {
        assert args'.many[flag := args.Many(flag) + values] == args.many[flag := args.Many(flag) + values];
      } else {
        assert values == [values[0]];
      }
    }
  }

  function AddsTo(many: map<Flag, seq<string>>, said: seq<(Flag, seq<string>)>): map<Flag, seq<string>>
    decreases |said|
  {
    if said == [] then many
    else
      var (flag, values) := said[0];
      var had := if flag in many then many[flag] else [];
      AddsTo(if values == [] then many else many[flag := had + values], said[1..])
  }

  lemma {:induction false} ParseLists(args: Namespace, said: seq<(Flag, seq<string>)>, rest: seq<string>)
    requires forall i | 0 <= i < |said| :: Adds(said[i].0)
    ensures Parse(args, Lists(said) + rest) == Parse(args.(many := AddsTo(args.many, said)), rest)
    decreases |said|
  {
    hide Each, Parse, Adds;
    if said == [] {
      assert Lists(said) + rest == rest;
    } else {
      var (flag, values) := said[0];
      assert Lists(said) + rest == Each(flag, values) + (Lists(said[1..]) + rest);
      ParseEach(args, flag, values, Lists(said[1..]) + rest);
      var args' := if values == [] then args else args.(many := args.many[flag := args.Many(flag) + values]);
      ParseLists(args', said[1..], rest);
    }
  }

  // ------------------------------------------------------------- which value each flag has

  predicate Distinct<T>(said: seq<(Flag, T)>) {
    forall i, j | 0 <= i < j < |said| :: said[i].0 != said[j].0
  }

  function Value<K(==)>(one: map<K, string>, key: K): Option<string> {
    if key in one then Some(one[key]) else None
  }

  lemma {:induction false} PutsOther(one: map<Flag, string>, said: seq<(Flag, Option<string>)>, flag: Flag)
    requires forall i | 0 <= i < |said| :: said[i].0 != flag
    ensures Value(Puts(one, said), flag) == Value(one, flag)
    decreases |said|
  {
    if said != [] {
      PutsOther(if said[0].1.Some? then one[said[0].0 := said[0].1.value] else one, said[1..], flag);
    }
  }

  lemma {:induction false} PutsAt(one: map<Flag, string>, said: seq<(Flag, Option<string>)>, i: nat)
    requires i < |said| && Distinct(said)
    ensures Value(Puts(one, said), said[i].0) == if said[i].1.Some? then said[i].1 else Value(one, said[i].0)
    decreases |said|
  {
    var next := if said[0].1.Some? then one[said[0].0 := said[0].1.value] else one;
    if i == 0 {
      PutsOther(next, said[1..], said[0].0);
    } else {
      PutsAt(next, said[1..], i - 1);
    }
  }

  lemma {:induction false} PutsThen(one: map<Flag, string>, a: seq<(Flag, Option<string>)>,
          b: seq<(Flag, Option<string>)>)
    ensures Puts(Puts(one, a), b) == Puts(one, a + b)
    decreases |a|
  {
    if a == [] {
      assert a + b == b;
    } else {
      assert (a + b)[1..] == a[1..] + b;
      PutsThen(if a[0].1.Some? then one[a[0].0 := a[0].1.value] else one, a[1..], b);
    }
  }

  function Values(many: map<Flag, seq<string>>, flag: Flag): seq<string> {
    if flag in many then many[flag] else []
  }

  lemma {:induction false} AddsOther(many: map<Flag, seq<string>>, said: seq<(Flag, seq<string>)>, flag: Flag)
    requires forall i | 0 <= i < |said| :: said[i].0 != flag
    ensures Values(AddsTo(many, said), flag) == Values(many, flag)
    decreases |said|
  {
    if said != [] {
      var had := Values(many, said[0].0);
      AddsOther(if said[0].1 == [] then many else many[said[0].0 := had + said[0].1], said[1..], flag);
    }
  }

  lemma {:induction false} AddsAt(many: map<Flag, seq<string>>, said: seq<(Flag, seq<string>)>, i: nat)
    requires i < |said| && Distinct(said)
    ensures Values(AddsTo(many, said), said[i].0) == Values(many, said[i].0) + said[i].1
    decreases |said|
  {
    var had := Values(many, said[0].0);
    var next := if said[0].1 == [] then many else many[said[0].0 := had + said[0].1];
    if i == 0 {
      AddsOther(next, said[1..], said[0].0);
      assert said[0].1 == [] ==> had + said[0].1 == had;
    } else {
      AddsAt(next, said[1..], i - 1);
    }
  }

  lemma {:induction false} AddsThen(many: map<Flag, seq<string>>, a: seq<(Flag, seq<string>)>,
          b: seq<(Flag, seq<string>)>)
    ensures AddsTo(AddsTo(many, a), b) == AddsTo(many, a + b)
    decreases |a|
  {
    if a == [] {
      assert a + b == b;
    } else {
      assert (a + b)[1..] == a[1..] + b;
      AddsThen(if a[0].1 == [] then many else many[a[0].0 := Values(many, a[0].0) + a[0].1], a[1..], b);
    }
  }

  lemma Regrouped<T>(a: seq<T>, b: seq<T>, c: seq<T>, d: seq<T>, e: seq<T>, f: seq<T>, g: seq<T>, h: seq<T>,
          i: seq<T>, rest: seq<T>)
    ensures a + b + c + d + e + f + g + h + i + rest == a + (b + (c + (d + (e + (f + (g + (h + (i + rest))))))))
  {
  }

  /** The options of a line read one kind after another, and the command after them. */
  lemma LineParsed<H, F>(args: Namespace, homes: Codec<H>, fences: Codec<F>, config: Config<H, F>,
          secret: Option<string>, argv: seq<string>)
    requires config.net == "local" || config.net == "remote"
    requires argv == [] || Plain(argv[0])
    ensures Parse(args, Options(homes, fences, config, secret) + argv) ==
      Some((Namespace(
        Puts(Puts(Puts(Puts(args.one, First(config)), Singles(homes, fences, config, secret)), Placed(config)),
             [(Tell, NonEmpty(config.tells))]),
        AddsTo(AddsTo(AddsTo(args.many, Paths(config)), Paired(config)), [(Private, config.private)]),
        args.on + (if config.force then {Force} else {}) + (if config.native then {Native} else {})), argv))
  {
    hide Ones, Lists, Name, Parse, Puts, AddsTo, Plain, Allowed, Equals, NonEmpty;
    SinglesAllowed(homes, fences, config, secret);
    var singles, told := Singles(homes, fences, config, secret), [(Tell, NonEmpty(config.tells))];
    hide Singles;
    var private := [(Private, config.private)];
    var force, native := if config.force then [Name(Force)] else [], if config.native then [Name(Native)] else [];
    var r8 := native + argv;
    var r7 := force + r8;
    var r6 := Ones(told) + r7;
    var r5 := Lists(private) + r6;
    var r4 := Lists(Paired(config)) + r5;
    var r3 := Lists(Paths(config)) + r4;
    var r2 := Ones(Placed(config)) + r3;
    var r1 := Ones(singles) + r2;
    Regrouped(Ones(First(config)), Ones(singles), Ones(Placed(config)), Lists(Paths(config)), Lists(Paired(config)),
              Lists(private), Ones(told), force, native, argv);
    var a1 := args.(one := Puts(args.one, First(config)));
    var a2 := a1.(one := Puts(a1.one, singles));
    var a3 := a2.(one := Puts(a2.one, Placed(config)));
    var a4 := a3.(many := AddsTo(a3.many, Paths(config)));
    var a5 := a4.(many := AddsTo(a4.many, Paired(config)));
    var a6 := a5.(many := AddsTo(a5.many, private));
    var a7 := a6.(one := Puts(a6.one, told));
    ParseOnes(args, First(config), r1);
    ParseOnes(a1, singles, r2);
    ParseOnes(a2, Placed(config), r3);
    ParseLists(a3, Paths(config), r4);
    ParseLists(a4, Paired(config), r5);
    ParseLists(a5, private, r6);
    ParseOnes(a6, told, r7);
    ParseSwitch(a7, Force, config.force, r8);
    ParseSwitch(a7.(on := a7.on + if config.force then {Force} else {}), Native, config.native, argv);
    ParsePlain(a7.(on := a7.on + (if config.force then {Force} else {}) + if config.native then {Native} else {}), argv);
  }

  lemma SinglesAllowed<H, F>(homes: Codec<H>, fences: Codec<F>, config: Config<H, F>, secret: Option<string>)
    requires config.net == "local" || config.net == "remote"
    ensures Single(Singles(homes, fences, config, secret)) && Single(First(config)) && Single(Placed(config))
    ensures Single([(Tell, NonEmpty(config.tells))])
  {
  }

  lemma ParsePlain(args: Namespace, argv: seq<string>)
    requires argv == [] || Plain(argv[0])
    ensures Parse(args, argv) == Some((args, argv))
  {
  }

  lemma ParseSwitch(args: Namespace, flag: Flag, on: bool, rest: seq<string>)
    requires Switches(flag)
    ensures Parse(args, (if on then [Name(flag)] else []) + rest) == Parse(args.(on := args.on + if on then {flag} else {}), rest)
  {
    hide Name, Plain, Set, Switches;
    if on {
      SwitchSet(args, flag);
      assert ([Name(flag)] + rest)[1..] == rest;
    } else {
      assert [] + rest == rest;
      assert args.on + {} == args.on;
    }
  }

  // ------------------------------------------------------------- pairs, and text in a file

  /** A pair reads back exactly where what is left of it holds no `=`. */
  lemma PairBack(pair: (string, string))
    ensures Pair(pair.0 + "=" + pair.1) == pair <==> '=' !in pair.0
  {
    if '=' !in pair.0 {
      PartsAt(pair.0, '=', pair.1);
    } else {
      PartedFirst(pair.0 + "=" + pair.1, '=');
    }
  }

  predicate LeftsPlain(pairs: seq<(string, string)>) {
    forall pair | pair in pairs :: '=' !in pair.0
  }

  lemma PairsBack(pairs: seq<(string, string)>)
    ensures Pairs(Equals(pairs)) == pairs <==> LeftsPlain(pairs)
  {
    var back := Pairs(Equals(pairs));
    forall i | 0 <= i < |pairs| ensures back[i] == pairs[i] <==> '=' !in pairs[i].0 {
      PairBack(pairs[i]);
    }
    hide Pair;
    if LeftsPlain(pairs) {
      assert back == pairs;
    }
  }

  /** Text is read as it was written exactly where there is no carriage return in it. */
  lemma {:induction false} UniversalKeeps(s: string)
    ensures '\r' !in Universal(s) && (Universal(s) == s <==> '\r' !in s)
  {
    if s != "" {
      UniversalKeeps(s[1..]);
      assert s[0] in s;
    }
  }

  // ------------------------------------------------------------- the whole line

  /** The environment says nothing a session's settings leave for it to say. */
  predicate Quiet<H, F>(env: map<string, string>, config: Config<H, F>) {
    && (config.harness == "local" ==> Env(env, "HUMANIZE_HARNESS", "local") == "local")
    && (config.broker == "" ==> Env(env, "HUMANIZE_RENDEZVOUS", "") == "")
    && (config.shadow == None ==> "HUMANIZE_SHADOW" !in env)
    && (config.token == None ==> "HUMANIZE_TOKEN" !in env)
  }

  /** What a line is read as: settings, and a command. */
  function Reads<H, F>(env: map<string, string>, files: map<string, string>, homes: Codec<H>, fences: Codec<F>,
          reach: Reach<F>,
                       line: seq<string>): Option<(Config<H, F>, seq<string>)> {
    var parsed := Parse(Defaults(env), line);
    if parsed == None then None
    else
      var config := Settings(files, homes, fences, reach, parsed.value.0);
      if config == None then None else Some((config.value, parsed.value.1))
  }

  /** What comes back of a setting that is left unsaid at its default: what the environment says. */
  function BackHarness(env: map<string, string>, harness: string): string {
    if harness == "local" then Env(env, "HUMANIZE_HARNESS", "local") else harness
  }

  function BackBroker(env: map<string, string>, broker: string): string {
    if broker == "" then Env(env, "HUMANIZE_RENDEZVOUS", "") else broker
  }

  function BackShadow(env: map<string, string>, shadow: Option<string>): Option<string> {
    if shadow.Some? then shadow else Value(env, "HUMANIZE_SHADOW")
  }

  function BackToken(env: map<string, string>, token: Option<string>): Option<string> {
    if token.Some? then Some(Universal(token.value)) else Value(env, "HUMANIZE_TOKEN")
  }

  /** The settings a line was written from as they come back, for better or worse. */
  function Back<H, F>(env: map<string, string>, config: Config<H, F>): Config<H, F> {
    config.(
      harness := BackHarness(env, config.harness), broker := BackBroker(env, config.broker),
      shadow := BackShadow(env, config.shadow), token := BackToken(env, config.token),
      redirects := Pairs(Equals(config.redirects)), projects := Pairs(Equals(config.projects)),
      brings := Pairs(Equals(config.brings)))
  }

  lemma BackIsSame<H, F>(env: map<string, string>, config: Config<H, F>)
    requires LeftsPlain(config.projects)
    ensures Back(env, config) == config <==>
      && Quiet(env, config) && LeftsPlain(config.redirects) && LeftsPlain(config.brings)
      && (config.token.Some? ==> '\r' !in config.token.value)
  {
    PairsBack(config.redirects);
    PairsBack(config.projects);
    PairsBack(config.brings);
    if config.token.Some? {
      UniversalKeeps(config.token.value);
    }
    hide Pairs, Equals, LeftsPlain, Universal;
  }

  /** Where a session's secret is: in the file its line names. */
  predicate Kept<H, F>(files: map<string, string>, config: Config<H, F>, secret: Option<string>) {
    if config.token == None then secret == None
    else secret.Some? && secret.value != "" && secret.value in files && files[secret.value] == config.token.value
  }

  /** A line written from settings a session accepts reads back as those settings and the command
      after them exactly where the environment is quiet, no path answered or brought back is
      named with an `=`, and the secret holds no carriage return. */
  lemma LineReadsBack<H(!new), F(!new)>(env: map<string, string>, files: map<string, string>, homes: Codec<H>,
          fences: Codec<F>,
                            reach: Reach<F>, config: Config<H, F>, secret: Option<string>, argv: seq<string>)
    requires Accepted(reach, config) && Faithful(homes) && Faithful(fences) && Kept(files, config, secret)
    requires argv == [] || Plain(argv[0])
    ensures Reads(env, files, homes, fences, reach, Options(homes, fences, config, secret) + argv) == Some((config, argv)) <==>
      && Quiet(env, config) && LeftsPlain(config.redirects) && LeftsPlain(config.brings)
      && (config.token.Some? ==> '\r' !in config.token.value)
  {
    hide Accepted, Parse, Options, Settings, Back, LeftsPlain, Quiet, Puts, AddsTo, Singles, Paths, Paired, First,
      Placed, NonEmpty, Defaults, Kept, Plain;
    NetAndProjects(reach, config);
    LineParsed(Defaults(env), homes, fences, config, secret, argv);
    BackIsSame(env, config);
    var args := Parse(Defaults(env), Options(homes, fences, config, secret) + argv).value.0;
    DefaultsPlain(env);
    ReadAs(env, files, homes, fences, reach, config, secret, args);
  }

  lemma DefaultsPlain(env: map<string, string>)
    ensures Defaults(env).many == map[] && Defaults(env).on == {}
  {
  }

  lemma NetAndProjects<H, F>(reach: Reach<F>, config: Config<H, F>)
    requires Accepted(reach, config)
    ensures (config.net == "local" || config.net == "remote") && LeftsPlain(config.projects)
  {
  }

  lemma ReadAs<H(!new), F(!new)>(env: map<string, string>, files: map<string, string>, homes: Codec<H>,
          fences: Codec<F>,
                     reach: Reach<F>, config: Config<H, F>, secret: Option<string>, args: Namespace)
    requires Faithful(homes) && Faithful(fences) && Kept(files, config, secret)
    requires args == Namespace(
      Puts(Puts(Puts(Puts(Defaults(env).one, First(config)), Singles(homes, fences, config, secret)), Placed(config)),
             [(Tell, NonEmpty(config.tells))]),
      AddsTo(AddsTo(AddsTo(map[], Paths(config)), Paired(config)), [(Private, config.private)]),
      {} + (if config.force then {Force} else {}) + (if config.native then {Native} else {}))
    ensures Settings(files, homes, fences, reach, args) ==
      if Accepted(reach, Back(env, config)) then Some(Back(env, config)) else None
  {
    hide Accepted, Puts, AddsTo, First, Placed, Paths, Paired, Singles, Whole, Defaults, Pairs, Equals, Universal, Env, Back,
      BackHarness, BackBroker, BackShadow, BackToken, NonEmpty, Faithful, Kept, Settings;
    OneIs(env, homes, fences, config, secret);
    WholeRead(env, homes, fences, config, secret);
    OthersRead(env, homes, fences, config, secret);
    ManyRead(config);
    Understood(env, files, homes, fences, reach, config, secret, args);
  }

  /** What the options say of each setting that is only text. */
  ghost predicate Says<H, F>(env: map<string, string>, config: Config<H, F>, args: Namespace) {
    && args.One(Target) == Some(config.target) && args.One(Net) == Some(config.net)
    && args.One(Workspace) == config.workspace && args.One(Chdir) == config.chdir
    && args.One(RemotePath) == config.remotePath && args.One(Shadow) == BackShadow(env, config.shadow)
    && args.One(Installs) == Some(config.installs) && args.One(Broker) == Some(BackBroker(env, config.broker))
    && args.One(Harness) == Some(BackHarness(env, config.harness)) && args.One(Tell) == Some(config.tells)
    && args.Many(LocalPath) == config.localPaths && args.Many(LocalExec) == config.localExecs
    && args.Many(NetAllow) == config.netAllow && args.Many(Hush) == config.hushes
    && args.Many(Redirect) == Equals(config.redirects) && args.Many(Project) == Equals(config.projects)
    && args.Many(Bring) == Equals(config.brings) && args.Many(Private) == config.private
    && (Force in args.on <==> config.force) && (Native in args.on <==> config.native)
  }

  lemma ConfiguredBack<H, F>(env: map<string, string>, config: Config<H, F>, args: Namespace)
    requires Says(env, config, args)
    ensures Configured(args, BackToken(env, config.token), config.home, config.fence) == Back(env, config)
  {
    hide Pairs, Equals, Universal, Env, BackHarness, BackBroker, BackShadow, BackToken;
  }

  lemma Understood<H(!new), F(!new)>(env: map<string, string>, files: map<string, string>, homes: Codec<H>,
          fences: Codec<F>,
                         reach: Reach<F>, config: Config<H, F>, secret: Option<string>, args: Namespace)
    requires Faithful(homes) && Faithful(fences) && Kept(files, config, secret) && Says(env, config, args)
    requires args.One(TokenFile) == secret && args.One(Token) == Value(env, "HUMANIZE_TOKEN")
    requires args.One(Fence) == if config.fence.Some? then Some(fences.dumps(config.fence.value)) else None
    requires args.One(Home) == if config.home.Some? then Some(homes.dumps(config.home.value)) else None
    ensures Settings(files, homes, fences, reach, args) ==
      if Accepted(reach, Back(env, config)) then Some(Back(env, config)) else None
  {
    hide Accepted, Universal, Back, Configured, Says;
    ConfiguredBack(env, config, args);
  }

  lemma ManyRead<H, F>(config: Config<H, F>)
    ensures var many := AddsTo(AddsTo(AddsTo(map[], Paths(config)), Paired(config)), [(Private, config.private)]);
      && Values(many, LocalPath) == config.localPaths && Values(many, LocalExec) == config.localExecs
      && Values(many, NetAllow) == config.netAllow && Values(many, Hush) == config.hushes
      && Values(many, Redirect) == Equals(config.redirects) && Values(many, Project) == Equals(config.projects)
      && Values(many, Bring) == Equals(config.brings) && Values(many, Private) == config.private
  {
    var all := [(LocalPath, config.localPaths), (LocalExec, config.localExecs), (NetAllow, config.netAllow), (Hush, config.hushes),
      (Redirect, Equals(config.redirects)), (Project, Equals(config.projects)), (Bring, Equals(config.brings)),
      (Private, config.private)];
    AddsThen(map[], Paths(config), Paired(config));
    AddsThen(map[], Paths(config) + Paired(config), [(Private, config.private)]);
    assert Paths(config) + Paired(config) + [(Private, config.private)] == all;
    hide AddsTo, Equals, Paths, Paired;
    AddsAt(map[], all, 0);
    AddsAt(map[], all, 1);
    AddsAt(map[], all, 2);
    AddsAt(map[], all, 3);
    AddsAt(map[], all, 4);
    AddsAt(map[], all, 5);
    AddsAt(map[], all, 6);
    AddsAt(map[], all, 7);
  }

  lemma OneIs<H, F>(env: map<string, string>, homes: Codec<H>, fences: Codec<F>, config: Config<H, F>,
          secret: Option<string>)
    ensures Puts(Puts(Puts(Puts(Defaults(env).one, First(config)), Singles(homes, fences, config, secret)), Placed(config)),
                 [(Tell, NonEmpty(config.tells))]) ==
      Puts(Defaults(env).one, Whole(homes, fences, config, secret))
  {
    hide Puts, First, Singles, Placed, Defaults, Whole;
    var d := Defaults(env).one;
    WholeIs(homes, fences, config, secret);
    PutsThen(d, First(config), Singles(homes, fences, config, secret));
    PutsThen(d, First(config) + Singles(homes, fences, config, secret), Placed(config));
    PutsThen(d, First(config) + Singles(homes, fences, config, secret) + Placed(config), [(Tell, NonEmpty(config.tells))]);
  }

  lemma WholeRead<H, F>(env: map<string, string>, homes: Codec<H>, fences: Codec<F>, config: Config<H, F>,
          secret: Option<string>)
    ensures var one := Puts(Defaults(env).one, Whole(homes, fences, config, secret));
      && Value(one, Target) == Some(config.target) && Value(one, Net) == Some(config.net)
      && Value(one, Workspace) == config.workspace && Value(one, Chdir) == config.chdir
      && Value(one, RemotePath) == config.remotePath && Value(one, Shadow) == BackShadow(env, config.shadow)
      && Value(one, TokenFile) == secret
  {
    hide Puts, Defaults, Distinct, Whole, Env;
    var d, all := Defaults(env).one, Whole(homes, fences, config, secret);
    DefaultsRead(env);
    WholeDistinct(homes, fences, config, secret);
    WholeAt(homes, fences, config, secret);
    PutsAt(d, all, 0);
    PutsAt(d, all, 1);
    PutsAt(d, all, 2);
    PutsAt(d, all, 3);
    PutsAt(d, all, 4);
    PutsAt(d, all, 5);
    PutsAt(d, all, 6);
  }

  lemma OthersRead<H, F>(env: map<string, string>, homes: Codec<H>, fences: Codec<F>, config: Config<H, F>,
          secret: Option<string>)
    ensures var one := Puts(Defaults(env).one, Whole(homes, fences, config, secret));
      && Value(one, Installs) == Some(config.installs) && Value(one, Broker) == Some(BackBroker(env, config.broker))
      && Value(one, Fence) == (if config.fence.Some? then Some(fences.dumps(config.fence.value)) else None)
      && Value(one, Home) == (if config.home.Some? then Some(homes.dumps(config.home.value)) else None)
      && Value(one, Harness) == Some(BackHarness(env, config.harness)) && Value(one, Tell) == Some(config.tells)
      && Value(one, Token) == Value(env, "HUMANIZE_TOKEN")
  {
    hide Puts, Defaults, Distinct, Whole, Env;
    var d, all := Defaults(env).one, Whole(homes, fences, config, secret);
    DefaultsRead(env);
    WholeDistinct(homes, fences, config, secret);
    WholeAt(homes, fences, config, secret);
    PutsAt(d, all, 7);
    PutsAt(d, all, 8);
    PutsAt(d, all, 9);
    PutsAt(d, all, 10);
    PutsAt(d, all, 11);
    PutsAt(d, all, 12);
    PutsOther(d, all, Token);
  }

  lemma WholeAt<H, F>(homes: Codec<H>, fences: Codec<F>, config: Config<H, F>, secret: Option<string>)
    ensures var all := Whole(homes, fences, config, secret);
      && |all| == 13 && all[0] == (Target, Some(config.target)) && all[1] == (Net, Some(config.net))
      && all[2] == (Workspace, config.workspace) && all[3] == (Chdir, config.chdir)
      && all[4] == (RemotePath, config.remotePath) && all[5] == (Shadow, config.shadow)
      && all[6] == (TokenFile, secret) && all[7] == (Installs, NonEmpty(config.installs))
      && all[8] == (Broker, NonEmpty(config.broker))
      && all[9] == (Fence, if config.fence.Some? then Some(fences.dumps(config.fence.value)) else None)
      && all[10] == (Home, if config.home.Some? then Some(homes.dumps(config.home.value)) else None)
      && all[11] == (Harness, if config.harness == "local" then None else Some(config.harness))
      && all[12] == (Tell, NonEmpty(config.tells))
  {
  }

  /** Every flag of one value a line may be written with, in the order they are written in. */
  function Whole<H, F>(homes: Codec<H>, fences: Codec<F>, config: Config<H, F>,
          secret: Option<string>): seq<(Flag, Option<string>)> {
    [(Target, Some(config.target)), (Net, Some(config.net)),
     (Workspace, config.workspace), (Chdir, config.chdir), (RemotePath, config.remotePath), (Shadow, config.shadow),
     (TokenFile, secret), (Installs, NonEmpty(config.installs)), (Broker, NonEmpty(config.broker)),
     (Fence, if config.fence.Some? then Some(fences.dumps(config.fence.value)) else None),
     (Home, if config.home.Some? then Some(homes.dumps(config.home.value)) else None),
     (Harness, if config.harness == "local" then None else Some(config.harness)), (Tell, NonEmpty(config.tells))]
  }

  lemma WholeIs<H, F>(homes: Codec<H>, fences: Codec<F>, config: Config<H, F>, secret: Option<string>)
    ensures First(config) + Singles(homes, fences, config, secret) + Placed(config) + [(Tell, NonEmpty(config.tells))] ==
      Whole(homes, fences, config, secret)
  {
  }

  lemma WholeDistinct<H, F>(homes: Codec<H>, fences: Codec<F>, config: Config<H, F>, secret: Option<string>)
    ensures Distinct(Whole(homes, fences, config, secret))
    ensures forall i | 0 <= i < |Whole(homes, fences, config, secret)| :: Whole(homes, fences, config, secret)[i].0 != Token
  {
  }

  lemma DefaultsRead(env: map<string, string>)
    ensures var d := Defaults(env).one;
      && Value(d, Workspace) == Value(d, Chdir) == Value(d, RemotePath) == Value(d, TokenFile) == None
      && Value(d, Fence) == Value(d, Home) == None && Value(d, Installs) == Value(d, Tell) == Some("")
      && Value(d, Broker) == Some(Env(env, "HUMANIZE_RENDEZVOUS", ""))
      && Value(d, Harness) == Some(Env(env, "HUMANIZE_HARNESS", "local"))
      && Value(d, Shadow) == Value(env, "HUMANIZE_SHADOW") && Value(d, Token) == Value(env, "HUMANIZE_TOKEN")
  {
  }

  // ------------------------------------------------------------- what is refused, and what is written

  /** Whether a path has a piece that goes up. */
  ghost predicate Climbs(path: string) {
    exists before, after :: Piece(path, before, "..", after)
  }

  predicate Piece(path: string, before: string, piece: string, after: string) {
    && path == before + piece + after
    && (before == "" || before[|before| - 1] == '/') && (after == "" || after[0] == '/')
  }

  lemma ClimbsBelow(first: string, rest: string)
    ensures Climbs(rest) || first == ".." ==> Climbs(first + ['/'] + rest)
  {
    if first == ".." {
      assert Piece(first + ['/'] + rest, "", "..", ['/'] + rest);
    } else if Climbs(rest) {
      var before, after :| Piece(rest, before, "..", after);
      var whole := first + ['/'] + before;
      assert whole[|whole| - 1] == '/';
      assert Piece(first + ['/'] + rest, whole, "..", after);
    }
  }

  lemma {:induction false} ClimbsAt(path: string)
    ensures ".." in Split(path, '/') ==> Climbs(path)
    decreases |path|
  {
    hide Partition, Split, Climbs;
    var p := Partition(path, '/');
    PartedFirst(path, '/');
    if p.found {
      SplitAt(p.before, '/', p.after);
      SplitNowhere(p.before, '/');
      ClimbsAt(p.after);
      ClimbsBelow(p.before, p.after);
    } else {
      SplitNowhere(path, '/');
      UpClimbs();
    }
  }

  lemma UpClimbs()
    ensures Climbs("..")
  {
    assert Piece("..", "", "..", "");
  }

  lemma AtClimbs(before: string, after: string)
    requires before == "" || before[|before| - 1] == '/'
    requires after == "" || after[0] == '/'
    ensures ".." in Split(before + ".." + after, '/')
  {
    var rest := ".." + after;
    assert before + ".." + after == before + rest;
    SplitNowhere("..", '/');
    if after == "" {
      assert rest == "..";
    } else {
      assert rest == ".." + ['/'] + after[1..];
      SplitAt("..", '/', after[1..]);
    }
    hide Split;
    assert ".." in Split(rest, '/');
    if before == "" {
      assert before + rest == rest;
    } else {
      var n := |before| - 1;
      assert before + rest == before[..n] + ['/'] + rest;
      SplitAt(before[..n], '/', rest);
    }
  }

  lemma ClimbsExactly(path: string)
    ensures ".." in Split(path, '/') <==> Climbs(path)
  {
    ClimbsAt(path);
    hide Split;
    if Climbs(path) {
      var before, after :| Piece(path, before, "..", after);
      AtClimbs(before, after);
    }
  }

  lemma {:induction false} SplitBegins(path: string)
    ensures Split(path, '/') != [] && (Split(path, '/')[0] != "" <==> path != "" && path[0] != '/')
  {
    if path != "" && path[0] != '/' {
      SplitBegins(path[1..]);
    }
  }

  /** What is brought back is a path in a directory that was put on the target, named by what it was put
      there as and a slash; that goes up nowhere, and is brought to an absolute path. */
  lemma BroughtExactly(name: string, under: string, whither: string, projected: set<string>)
    requires '/' !in name
    ensures !Brought((name, whither), projected)
    ensures Brought((name + "/" + under, whither), projected) <==>
      && name in projected && under != "" && under[0] != '/' && !Climbs(under)
      && whither != "" && whither[0] == '/'
  {
    SplitNowhere(name, '/');
    SplitAt(name, '/', under);
    SplitBegins(under);
    ClimbsExactly(under);
    hide Split, Climbs;
    var parts := Split(name + "/" + under, '/');
    assert parts[1..] == Split(under, '/') && parts[0] == name;
  }

  /** A session is refused for what it is set to exactly where its target or its harness cannot be read;
      the CLI on the target is to run under a harness that is elsewhere; a target that is met is named
      a harness as well; the network is neither of the two; a path is answered that is not absolute,
      or with one that is not; a variable is one no shell has; a directory is put there from what is not
      absolute, as no variable; a fence is drawn with no levels, around another machine, or around a
      network it cuts; it is told of in what is not absolute; or something is brought that is not. */
  lemma RefusedExactly<H, F>(reach: Reach<F>, config: Config<H, F>)
    ensures !Accepted(reach, config) <==>
      var work, at := reach.scheme(config.target), reach.harnessed(config.harness, config.target);
      || work == None || at == None
      || (config.native && at != Some("local"))
      || (config.harness != "local" && work == Some("peer"))
      || config.net !in {"local", "remote"}
      || (exists pair :: pair in config.redirects && !("/" <= pair.0 && "/" <= pair.1))
      || (exists name :: name in config.hushes && (name == "" || '=' in name))
      || (exists pair :: pair in config.projects && (pair.0 == "" || '=' in pair.0 || !("/" <= pair.1)))
      || (config.fence.Some? && !reach.wide(config.fence.value) &&
            (!reach.leveled(config.fence.value) || at != Some("local")
             || (config.net == "remote" && !reach.online(config.fence.value))))
      || !(config.tells == "" || "/" <= config.tells)
      || (exists bring :: bring in config.brings && !Brought(bring, Variables(config.projects)))
  {
    hide Brought, Variables, Absolute;
    AbsoluteExactly();
  }

  lemma AbsoluteExactly()
    ensures forall path :: Absolute(path) <==> "/" <= path
  {
  }

  lemma {:induction false} OnesSaid(said: seq<(Flag, Option<string>)>)
    requires forall i | 0 <= i < |said| :: said[i].1.Some?
    ensures |Ones(said)| == |said| && forall i | 0 <= i < |said| :: Ones(said)[i] == Written(said[i].0, said[i].1.value)
  {
    hide Written;
    if said != [] {
      OnesSaid(said[1..]);
    }
  }

  lemma {:induction false} ListsSaid(said: seq<(Flag, seq<string>)>)
    requires forall i | 0 <= i < |said| :: |said[i].1| == 1
    ensures |Lists(said)| == |said| && forall i | 0 <= i < |said| :: Lists(said)[i] == Written(said[i].0, said[i].1[0])
  {
    hide Written;
    if said != [] {
      ListsSaid(said[1..]);
      EachFrom(said[0].0, said[0].1, 0);
      EachNone(said[0].0);
      assert said[0].1[0..] == said[0].1 && said[0].1[1..] == [];
      hide Each;
    }
  }

  lemma FirstLine<H, F>(config: Config<H, F>)
    ensures Ones(First(config)) == ["--target" + "=" + config.target, "--net" + "=" + config.net]
  {
    OnesSaid(First(config));
  }

  lemma SinglesLine<H, F>(homes: Codec<H>, fences: Codec<F>, config: Config<H, F>, secret: string,
          workspace: string, chdir: string, remotePath: string, shadow: string, home: H, fence: F)
    requires config.workspace == Some(workspace) && config.chdir == Some(chdir)
    requires config.remotePath == Some(remotePath) && config.shadow == Some(shadow)
    requires config.home == Some(home) && config.fence == Some(fence) && config.broker != "" && config.installs != ""
    ensures Ones(Singles(homes, fences, config, Some(secret))) == [
      "--workspace" + "=" + workspace, "--chdir" + "=" + chdir, "--remote-path" + "=" + remotePath,
      "--shadow" + "=" + shadow, "--token-file" + "=" + secret, "--installs" + "=" + config.installs,
      "--broker" + "=" + config.broker, "--fence" + "=" + fences.dumps(fence), "--home" + "=" + homes.dumps(home)]
  {
    hide Ones;
    OnesSaid(Singles(homes, fences, config, Some(secret)));
  }

  lemma ListsLine<H, F>(config: Config<H, F>)
    requires |config.localPaths| == |config.localExecs| == |config.netAllow| == |config.hushes| == 1
    ensures Lists(Paths(config)) == [
      "--local-path" + "=" + config.localPaths[0], "--local-exec" + "=" + config.localExecs[0],
      "--net-allow" + "=" + config.netAllow[0], "--hush" + "=" + config.hushes[0]]
  {
    hide Lists;
    ListsSaid(Paths(config));
  }

  lemma PairsLine<H, F>(config: Config<H, F>)
    requires |config.redirects| == |config.projects| == |config.brings| == 1
    ensures Lists(Paired(config)) == [
      "--redirect" + "=" + (config.redirects[0].0 + "=" + config.redirects[0].1),
      "--project" + "=" + (config.projects[0].0 + "=" + config.projects[0].1),
      "--bring" + "=" + (config.brings[0].0 + "=" + config.brings[0].1)]
  {
    hide Lists;
    ListsSaid(Paired(config));
  }

  lemma EndsLine<H, F>(config: Config<H, F>)
    requires config.harness != "local" && config.tells != "" && |config.private| == 1
    ensures Ones(Placed(config)) == ["--harness" + "=" + config.harness]
    ensures Lists([(Private, config.private)]) == ["--private" + "=" + config.private[0]]
    ensures Ones([(Tell, NonEmpty(config.tells))]) == ["--tell" + "=" + config.tells]
    ensures Name(Force) == "--force" && Name(Native) == "--native"
  {
    hide Ones, Lists;
    OnesSaid(Placed(config));
    ListsSaid([(Private, config.private)]);
    OnesSaid([(Tell, NonEmpty(config.tells))]);
  }

  /** A session's whole line, each of its settings said once: the words it is written in, in their
      order. */
  lemma WholeLine<H, F>(homes: Codec<H>, fences: Codec<F>, config: Config<H, F>, secret: string,
          workspace: string, chdir: string, remotePath: string, shadow: string, home: H, fence: F)
    requires config.workspace == Some(workspace) && config.chdir == Some(chdir)
    requires config.remotePath == Some(remotePath) && config.shadow == Some(shadow)
    requires config.home == Some(home) && config.fence == Some(fence)
    requires config.harness != "local" && config.broker != "" && config.tells != "" && config.installs != ""
    requires |config.localPaths| == |config.localExecs| == |config.netAllow| == |config.hushes| == |config.private| == 1
    requires |config.redirects| == |config.projects| == |config.brings| == 1 && config.force && config.native
    ensures Options(homes, fences, config, Some(secret)) ==
      ["--target" + "=" + config.target, "--net" + "=" + config.net]
      + [
        "--workspace" + "=" + workspace, "--chdir" + "=" + chdir, "--remote-path" + "=" + remotePath,
        "--shadow" + "=" + shadow, "--token-file" + "=" + secret, "--installs" + "=" + config.installs,
        "--broker" + "=" + config.broker, "--fence" + "=" + fences.dumps(fence), "--home" + "=" + homes.dumps(home)]
      + ["--harness" + "=" + config.harness]
      + [
        "--local-path" + "=" + config.localPaths[0], "--local-exec" + "=" + config.localExecs[0],
        "--net-allow" + "=" + config.netAllow[0], "--hush" + "=" + config.hushes[0]]
      + [
        "--redirect" + "=" + (config.redirects[0].0 + "=" + config.redirects[0].1),
        "--project" + "=" + (config.projects[0].0 + "=" + config.projects[0].1),
        "--bring" + "=" + (config.brings[0].0 + "=" + config.brings[0].1)]
      + ["--private" + "=" + config.private[0]] + ["--tell" + "=" + config.tells] + ["--force"] + ["--native"]
  {
    hide Ones, Lists, Name, First, Singles, Placed, Paths, Paired;
    FirstLine(config);
    SinglesLine(homes, fences, config, secret, workspace, chdir, remotePath, shadow, home, fence);
    ListsLine(config);
    PairsLine(config);
    EndsLine(config);
  }
}
