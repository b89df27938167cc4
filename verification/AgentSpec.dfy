/**
 One agent as a line names it, `[NAME=]CLI[@PROVIDER]/MODEL[:EFFORT]`: how it is read, and how it
 is written so that reading it again gives the same agent, although a model may hold the marks
 the others are set off by.
 */
module AgentSpec {
  import opened Maybe
  import opened Strings

  /** A backend, with every spelling a line may name it by. */
  datatype Profile = Profile(name: string, aliases: seq<string>)

  /** What a line names: the place filled, the backend, its model, its effort, and whose account. */
  datatype Agent = Agent(place: string, backend: Profile, model: string, effort: string, account: string)

  datatype Refusal = NotAPlace | SeveralAgents | NoAccount | NotASpec

  datatype Reading = Read(agent: Agent) | Refused(why: Refusal)

  /** How no rung at all is written. */
  const AUTO := "auto"

  /** The letters beyond ASCII that an identifier may begin with, and go on with. */
  datatype Letters = Letters(begins: char -> bool, continues: char -> bool)

  // ------------------------------------------------------------- the parts of a spec

  predicate Letter(c: char) {
    'A' <= c <= 'Z' || 'a' <= c <= 'z'
  }

  predicate Joint(c: char) {
    c == '-' || c == '_' || c == ' '
  }

  /** What an effort is spelled as: words of letters, one mark between each two. */
  predicate Spelled(s: string) {
    s != "" && forall i | 0 <= i < |s| ::
      || Letter(s[i])
      || (Joint(s[i]) && 0 < i < |s| - 1 && Letter(s[i - 1]) && Letter(s[i + 1]))
  }

  /** The model and the effort: what is after the last `:` where that is spelled as an effort,
      or is nothing. */
  function Parted(said: string): (string, string) {
    var p := RPartition(said, ':');
    if p.found && (Strip(p.after) == "" || Spelled(Strip(p.after))) then (p.before, p.after) else (said, "")
  }

  predicate Begins(letters: Letters, c: char) {
    Letter(c) || c == '_' || (c > '\U{7F}' && !Space(c) && letters.begins(c))
  }

  predicate Continues(letters: Letters, c: char) {
    Begins(letters, c) || '0' <= c <= '9' || (c > '\U{7F}' && !Space(c) && letters.continues(c))
  }

  predicate Identifier(letters: Letters, s: string) {
    s != "" && Begins(letters, s[0]) && forall c | c in s :: Continues(letters, c)
  }

  /** The first backend that answers to a name. */
  function Named(profiles: seq<Profile>, name: string): Option<Profile> {
    if profiles == [] then None
    else if name in profiles[0].aliases then Some(profiles[0])
    else Named(profiles[1..], name)
  }

  function Rung(effort: string): string {
    if effort == AUTO then "" else effort
  }

  function ReadSpec(letters: Letters, profiles: seq<Profile>, spec: string): Reading {
    var p := Partition(spec, '=');
    var place := if p.found then Strip(p.before) else "";
    if p.found && !Identifier(letters, place) then Refused(NotAPlace)
    else ReadAgent(profiles, place, if p.found then p.after else spec)
  }

  function ReadAgent(profiles: seq<Profile>, place: string, spec: string): Reading {
    var p := Partition(spec, '/');
    var (model, effort) := Parted(p.after);
    var who := Partition(p.before, '@');
    var profile := Named(profiles, Strip(who.before));
    if ',' in spec then Refused(SeveralAgents)
    else if who.found && Strip(who.after) == "" then Refused(NoAccount)
    else if profile == None || Strip(model) == "" then Refused(NotASpec)
    else Read(Agent(place, profile.value, Strip(model), Rung(Strip(effort)), Strip(who.after)))
  }

  /** The effort as a line names it. */
  function Effort(effort: string): string {
    if effort == "" then AUTO else effort
  }

  /** An agent as a line names it, its backend by one of its spellings. */
  function Spec(agent: Agent, cli: string): string {
    (if agent.place == "" then "" else agent.place + "=") + Account(cli, agent.account) + "/" +
    (agent.model + ":" + Effort(agent.effort))
  }

  function Account(cli: string, account: string): string {
    if account == "" then cli else cli + "@" + account
  }

  // ------------------------------------------------------------- what reads back

  /** Nothing that would be read as more than one part of an agent. Only the place is ever told
      by an `=`, so where there is one the rest may hold others. */
  predicate Clear(agent: Agent, cli: string) {
    && (forall c | c in cli || c in agent.account || c in agent.model :: c != ',' && (agent.place == "" ==> c != '='))
    && (forall c | c in cli :: c != '/' && c != '@') && '/' !in agent.account
    && Bare(cli) && Bare(agent.account) && Bare(agent.model) && agent.model != ""
    && (agent.effort != "" ==> agent.effort != AUTO && Spelled(agent.effort))
  }

  predicate Sound(letters: Letters, profiles: seq<Profile>, agent: Agent, cli: string) {
    && (agent.place == "" || Identifier(letters, agent.place))
    && Named(profiles, cli) == Some(agent.backend)
    && Clear(agent, cli)
  }

  lemma SpelledPlain(s: string)
    requires Spelled(s)
    ensures Bare(s) && forall c | c in s :: Letter(c) || Joint(c)
  {
    assert forall i | 0 <= i < |s| :: Letter(s[i]) || Joint(s[i]);
  }

  lemma EffortSpelled(effort: string)
    requires effort != "" ==> effort != AUTO && Spelled(effort)
    ensures Spelled(Effort(effort)) && Rung(Effort(effort)) == effort
  {
  }

  /** An effort written after a model is the effort read, whatever the model's own name ends in. */
  lemma EffortParted(model: string, effort: string)
    requires Spelled(effort)
    ensures Parted(model + ":" + effort) == (model, effort)
  {
    SpelledPlain(effort);
    StripBare(effort);
    hide Spelled, Bare;
    assert ':' !in effort;
    PartsLast(model, ':', effort);
  }

  lemma {:induction false} IdentifierBare(letters: Letters, s: string)
    requires Identifier(letters, s)
    ensures Bare(s) && '=' !in s
  {
    assert s[0] in s && s[|s| - 1] in s;
  }

  /** Any agent that is sound reads back as it was written. */
  lemma ReadsBack(letters: Letters, profiles: seq<Profile>, agent: Agent, cli: string)
    requires Sound(letters, profiles, agent, cli)
    ensures ReadSpec(letters, profiles, Spec(agent, cli)) == Read(agent)
  {
    hide ReadAgent, Identifier, Strip, Partition, Clear, Bare, Account;
    var rest := Account(cli, agent.account) + "/" + (agent.model + ":" + Effort(agent.effort));
    AgentReadsBack(profiles, agent, cli);
    if agent.place == "" {
      assert Spec(agent, cli) == rest;
      NoEquals(agent, cli);
      PartsNowhere(rest, '=');
    } else {
      IdentifierBare(letters, agent.place);
      StripBare(agent.place);
      assert Spec(agent, cli) == agent.place + ['='] + rest;
      PartsAt(agent.place, '=', rest);
    }
  }

  lemma NoEquals(agent: Agent, cli: string)
    requires Clear(agent, cli) && agent.place == ""
    ensures '=' !in Account(cli, agent.account) + "/" + (agent.model + ":" + Effort(agent.effort))
  {
    EffortSpelled(agent.effort);
    SpelledPlain(Effort(agent.effort));
  }

  lemma NoCommas(agent: Agent, cli: string)
    requires Clear(agent, cli)
    ensures ',' !in Account(cli, agent.account) + "/" + (agent.model + ":" + Effort(agent.effort))
  {
    EffortSpelled(agent.effort);
    SpelledPlain(Effort(agent.effort));
  }

  lemma AgentReadsBack(profiles: seq<Profile>, agent: Agent, cli: string)
    requires Named(profiles, cli) == Some(agent.backend) && Clear(agent, cli)
    ensures ReadAgent(profiles, agent.place, Account(cli, agent.account) + "/" + (agent.model + ":" + Effort(agent.effort)))
      == Read(agent)
  {
    hide Partition, Parted, Strip, Named, Spelled, Bare, Letter, Joint;
    var who, said := Account(cli, agent.account), agent.model + ":" + Effort(agent.effort);
    var spec := who + "/" + said;
    NoCommas(agent, cli);
    PartsAt(who, '/', said);
    EffortSpelled(agent.effort);
    SpelledPlain(Effort(agent.effort));
    EffortParted(agent.model, Effort(agent.effort));
    StripBare(Effort(agent.effort));
    StripBare(cli);
    StripBare(agent.account);
    StripBare(agent.model);
    if agent.account == "" {
      PartsNowhere(cli, '@');
    } else {
      PartsAt(cli, '@', agent.account);
    }
    StripBare("");
    BareNothing();
  }

  lemma BareNothing()
    ensures Bare("")
  {
  }

  lemma PartedIs(said: string)
    ensures var (model, effort) := Parted(said);
      && (forall c | c in model :: c in said)
      && (Strip(effort) == "" || Spelled(Strip(effort)))
  {
    PartedLast(said, ':');
    StripBare("");
    hide RPartition, Strip, Spelled;
  }

  /** Everything a line can be read as is sound, its backend spelled as the line spelled it. */
  lemma ReadSound(letters: Letters, profiles: seq<Profile>, spec: string) returns (cli: string)
    requires ReadSpec(letters, profiles, spec).Read?
    ensures Sound(letters, profiles, ReadSpec(letters, profiles, spec).agent, cli)
  {
    var p := Partition(spec, '=');
    PartedFirst(spec, '=');
    var place := if p.found then Strip(p.before) else "";
    var rest := if p.found then p.after else spec;
    NoIdentifier(letters);
    hide Partition, Strip, Identifier, Clear;
    assert place == "" ==> !p.found && '=' !in rest;
    cli := AgentSound(profiles, place, rest);
  }

  lemma NoIdentifier(letters: Letters)
    ensures !Identifier(letters, "")
  {
  }

  lemma AgentSound(profiles: seq<Profile>, place: string, spec: string) returns (cli: string)
    requires ReadAgent(profiles, place, spec).Read? && (place == "" ==> '=' !in spec)
    ensures var agent := ReadAgent(profiles, place, spec).agent;
      agent.place == place && Named(profiles, cli) == Some(agent.backend) && Clear(agent, cli)
  {
    var p := Partition(spec, '/');
    var (model, effort) := Parted(p.after);
    var who := Partition(p.before, '@');
    cli := Strip(who.before);
    PartedFirst(spec, '/');
    PartedFirst(p.before, '@');
    PartedIs(p.after);
    StripBare(who.before);
    StripBare(who.after);
    StripBare(model);
    hide Partition, Parted, Strip, Spelled, Bare, Named;
  }

  /** Whatever agent a line is read as, writing it and reading that gives the same place, backend,
      model, effort and account. */
  lemma RoundTrips(letters: Letters, profiles: seq<Profile>, spec: string) returns (cli: string)
    requires ReadSpec(letters, profiles, spec).Read?
    ensures var agent := ReadSpec(letters, profiles, spec).agent;
      && Named(profiles, cli) == Some(agent.backend)
      && ReadSpec(letters, profiles, Spec(agent, cli)) == Read(agent)
  {
    cli := ReadSound(letters, profiles, spec);
    ReadsBack(letters, profiles, ReadSpec(letters, profiles, spec).agent, cli);
  }

  /** The same, with an effort that is no rung left off rather than written. */
  function Short(agent: Agent, cli: string): string {
    (if agent.place == "" then "" else agent.place + "=") + Account(cli, agent.account) + "/" + agent.model
  }

  /** A model whose own name ends in what would be read as an effort. */
  predicate EndsInEffort(model: string) {
    var p := RPartition(model, ':');
    p.found && (Strip(p.after) == "" || Spelled(Strip(p.after)))
  }

  lemma {:induction false} StripShorter(s: string)
    ensures |Strip(s)| <= |s|
  {
    if s != "" && Space(s[|s| - 1]) {
      StripShorter(s[..|s| - 1]);
    } else {
      LStripShorter(s);
    }
  }

  lemma {:induction false} LStripShorter(s: string)
    ensures |LStrip(s)| <= |s|
  {
    if s != "" && Space(s[0]) {
      LStripShorter(s[1..]);
    }
  }

  /** Why no rung has a word of its own: left off, it is read back exactly where the model's own
      name does not end in what would be read as one. */
  lemma LeftOff(letters: Letters, profiles: seq<Profile>, agent: Agent, cli: string)
    requires Sound(letters, profiles, agent, cli) && agent.effort == ""
    ensures ReadSpec(letters, profiles, Short(agent, cli)) == Read(agent) <==> !EndsInEffort(agent.model)
  {
    hide ReadAgent, EndsInEffort, Identifier, Strip, Partition, Clear, Bare, Account;
    var rest := Account(cli, agent.account) + "/" + agent.model;
    AgentLeftOff(profiles, agent, cli);
    NoEqualsShort(agent, cli);
    if agent.place == "" {
      assert Short(agent, cli) == rest;
      PartsNowhere(rest, '=');
    } else {
      IdentifierBare(letters, agent.place);
      StripBare(agent.place);
      assert Short(agent, cli) == agent.place + ['='] + rest;
      PartsAt(agent.place, '=', rest);
    }
  }

  lemma NoEqualsShort(agent: Agent, cli: string)
    requires Clear(agent, cli)
    ensures var rest := Account(cli, agent.account) + "/" + agent.model;
      ',' !in rest && (agent.place == "" ==> '=' !in rest)
  {
  }

  lemma AgentLeftOff(profiles: seq<Profile>, agent: Agent, cli: string)
    requires Named(profiles, cli) == Some(agent.backend) && Clear(agent, cli) && agent.effort == ""
    ensures ReadAgent(profiles, agent.place, Account(cli, agent.account) + "/" + agent.model) == Read(agent)
      <==> !EndsInEffort(agent.model)
  {
    hide Partition, RPartition, Strip, Named, Spelled, Bare;
    var who := Account(cli, agent.account);
    var p := RPartition(agent.model, ':');
    NoEqualsShort(agent, cli);
    PartsAt(who, '/', agent.model);
    PartedLast(agent.model, ':');
    StripShorter(p.before);
    StripBare("");
    BareNothing();
    StripBare(cli);
    StripBare(agent.account);
    StripBare(agent.model);
    if agent.account == "" {
      PartsNowhere(cli, '@');
    } else {
      PartsAt(cli, '@', agent.account);
    }
    assert EndsInEffort(agent.model) ==> |Strip(p.before)| < |agent.model|;
  }

  // ------------------------------------------------------------- what a line is read as, by its parts

  /** The parts of a line as they are written: what is before the first `=`, if there is one; of what
      is left, what is before the first `/`, in two at its first `@`; and what is after it. */
  datatype Written = Written(
    place: Option<string>, cli: string, account: Option<string>, model: Option<string>, effort: Option<string>)
  {
    function Who(): string {
      if account.Some? then cli + "@" + account.value else cli
    }

    function Said(): string
      requires model.Some?
    {
      if effort.Some? then model.value + ":" + effort.value else model.value
    }

    function Rest(): string {
      if model.Some? then Who() + "/" + Said() else Who()
    }

    function Line(): string {
      if place.Some? then place.value + "=" + Rest() else Rest()
    }

    /** Cut at the marks it is to be cut at, and at no other. */
    predicate Cut() {
      && (if place.Some? then '=' !in place.value else '=' !in Rest())
      && '/' !in Who() && '@' !in cli
      && (model.None? ==> effort.None?)
      && (effort.Some? ==> ':' !in effort.value && Rungs(effort.value))
      && (model.Some? && effort.None? ==> forall k | 0 <= k < |model.value| :: !EffortAt(model.value, k))
    }
  }

  predicate Rungs(effort: string) {
    Strip(effort) == "" || Spelled(Strip(effort))
  }

  /** The last colon of some text, where what is after it is nothing or is spelled as an effort. */
  predicate EffortAt(said: string, k: nat)
    requires k < |said|
  {
    said[k] == ':' && ':' !in said[k + 1..] && Rungs(said[k + 1..])
  }

  lemma PartedAs(w: Written)
    requires w.Cut() && w.model.Some?
    ensures Parted(w.Said()) == (w.model.value, if w.effort.Some? then w.effort.value else "")
  {
    hide Strip, Spelled;
    if w.effort.Some? {
      PartsLast(w.model.value, ':', w.effort.value);
    } else {
      EffortIsAt(w.model.value);
    }
  }

  /** Every line is cut in one such way. */
  lemma CutSomehow(spec: string) returns (w: Written)
    ensures w.Cut() && w.Line() == spec
  {
    var p := Partition(spec, '=');
    PartedFirst(spec, '=');
    var rest := if p.found then p.after else spec;
    var q := Partition(rest, '/');
    PartedFirst(rest, '/');
    var who := Partition(q.before, '@');
    PartedFirst(q.before, '@');
    hide Partition, Spelled, Strip;
    var r := RPartition(q.after, ':');
    PartedLast(q.after, ':');
    var effort := if q.found && r.found && Rungs(r.after) then Some(r.after) else None;
    if q.found && effort == None {
      EffortIsAt(q.after);
    }
    w := Written(if p.found then Some(p.before) else None, who.before, if who.found then Some(who.after) else None,
      if !q.found then None else Some(if effort == None then q.after else r.before), effort);
  }

  lemma EffortIsAt(said: string)
    ensures var r := RPartition(said, ':');
      r.found && Rungs(r.after) <==> exists k | 0 <= k < |said| :: EffortAt(said, k)
  {
    var r := RPartition(said, ':');
    PartedLast(said, ':');
    hide RPartition, Rungs;
    if r.found {
      forall k | 0 <= k < |said| ensures said[k] == ':' && ':' !in said[k + 1..] <==> k == |r.before| {
        LastIs(said, r.before, r.after, k);
      }
      assert said[|r.before| + 1..] == r.after;
      assert Rungs(r.after) <==> EffortAt(said, |r.before|);
    } else {
      assert forall k | 0 <= k < |said| :: said[k] in said;
    }
  }

  /** There is one last colon. */
  lemma LastIs(said: string, before: string, after: string, k: nat)
    requires said == before + [':'] + after && ':' !in after && k < |said|
    ensures said[k] == ':' && ':' !in said[k + 1..] <==> k == |before|
  {
    assert k < |before| ==> said[k + 1..][|before| - k - 1] == ':';
    assert k > |before| ==> said[k] == after[k - |before| - 1] && said[k] in after;
    assert k == |before| ==> said[k + 1..] == after;
  }

  /** The first of the backends that answers to a name is the one it names, and none where none does. */
  lemma {:induction false} NamedFirst(profiles: seq<Profile>, name: string)
    ensures Named(profiles, name) == None <==> forall p | p in profiles :: name !in p.aliases
    ensures forall k | 0 <= k < |profiles| && name in profiles[k].aliases
          && (forall i | 0 <= i < k :: name !in profiles[i].aliases) ::
      Named(profiles, name) == Some(profiles[k])
  {
    if profiles != [] {
      NamedFirst(profiles[1..], name);
      assert profiles == [profiles[0]] + profiles[1..];
      forall k | 0 < k < |profiles| && name in profiles[k].aliases && (forall i | 0 <= i < k :: name !in profiles[i].aliases)
        ensures Named(profiles, name) == Some(profiles[k])
      {
        assert profiles[1..][k - 1] == profiles[k];
        assert forall i | 0 <= i < k - 1 :: profiles[1..][i] == profiles[i + 1];
      }
    }
  }

  /** What any line is read as. It is refused for a place that is no identifier, then for a comma after
      it, then for an account that is blank, and then where no backend answers to its CLI or no model
      is named; otherwise it is the first backend that does, at what the line says with the spaces off
      each end, and at no rung where it says none, nothing or `auto`. */
  lemma ReadsAs(letters: Letters, profiles: seq<Profile>, w: Written)
    requires w.Cut()
    ensures var r, cli := ReadSpec(letters, profiles, w.Line()), Strip(w.cli);
      && (r == Refused(NotAPlace) <==> w.place.Some? && !Identifier(letters, Strip(w.place.value)))
      && (r != Refused(NotAPlace) ==>
        && (r == Refused(SeveralAgents) <==> ',' in w.Rest())
        && (r != Refused(SeveralAgents) ==>
          && (r == Refused(NoAccount) <==> w.account.Some? && Strip(w.account.value) == "")
          && (r != Refused(NoAccount) ==>
            (r == Refused(NotASpec) <==>
              || (forall p | p in profiles :: cli !in p.aliases) || w.model.None? || Strip(w.model.value) == ""))))
    ensures var r, cli := ReadSpec(letters, profiles, w.Line()), Strip(w.cli);
      r.Read? ==>
        && w.model.Some? && r.agent.model == Strip(w.model.value)
        && r.agent.place == (if w.place.Some? then Strip(w.place.value) else "")
        && r.agent.account == (if w.account.Some? then Strip(w.account.value) else "")
        && r.agent.effort == (if w.effort.None? || Strip(w.effort.value) == "auto" then "" else Strip(w.effort.value))
        && (forall k | 0 <= k < |profiles| && cli in profiles[k].aliases
              && (forall i | 0 <= i < k :: cli !in profiles[i].aliases) :: r.agent.backend == profiles[k])
  {
    hide ReadAgent, Identifier, Strip;
    AgentReadAs(profiles, if w.place.Some? then Strip(w.place.value) else "", w);
    if w.place.Some? {
      PartsAt(w.place.value, '=', w.Rest());
    } else {
      PartsNowhere(w.Rest(), '=');
    }
  }

  lemma AgentReadAs(profiles: seq<Profile>, place: string, w: Written)
    requires w.Cut()
    ensures var r, cli := ReadAgent(profiles, place, w.Rest()), Strip(w.cli);
      && r != Refused(NotAPlace)
      && (r == Refused(SeveralAgents) <==> ',' in w.Rest())
      && (r != Refused(SeveralAgents) ==>
        && (r == Refused(NoAccount) <==> w.account.Some? && Strip(w.account.value) == "")
        && (r != Refused(NoAccount) ==>
          (r == Refused(NotASpec) <==>
            || (forall p | p in profiles :: cli !in p.aliases) || w.model.None? || Strip(w.model.value) == "")))
    ensures var r, cli := ReadAgent(profiles, place, w.Rest()), Strip(w.cli);
      r.Read? ==>
        && w.model.Some? && r.agent.model == Strip(w.model.value) && r.agent.place == place
        && r.agent.account == (if w.account.Some? then Strip(w.account.value) else "")
        && r.agent.effort == (if w.effort.None? || Strip(w.effort.value) == "auto" then "" else Strip(w.effort.value))
        && (forall k | 0 <= k < |profiles| && cli in profiles[k].aliases
              && (forall i | 0 <= i < k :: cli !in profiles[i].aliases) :: r.agent.backend == profiles[k])
  {
    NamedFirst(profiles, Strip(w.cli));
    StripNothing();
    PartedNothing();
    if w.model.Some? {
      PartsAt(w.Who(), '/', w.Said());
      PartedAs(w);
    } else {
      PartsNowhere(w.Who(), '/');
    }
    if w.account.Some? {
      PartsAt(w.cli, '@', w.account.value);
    } else {
      PartsNowhere(w.cli, '@');
    }
    hide Partition, Parted, Strip, Named, Spelled;
  }

  lemma StripNothing()
    ensures Strip("") == ""
  {
  }

  lemma PartedNothing()
    ensures Parted("") == ("", "")
  {
  }
}
