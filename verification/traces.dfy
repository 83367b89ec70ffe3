/**
 Any sequence of the module's operations, starting from an empty store, keeps
 two facts true: every stored settings record sits under its own guild id, and
 no author holds two records in one guild's ticket list.
 */
module Traces {
  import opened Options
  import opened GuildSettings
  import opened TicketRegistry
  import opened Tickets

  /** One call of an exported operation. */
  datatype Action =
    | ReadSettings(guildId: string)
    | OpenTicket(guild: Guild, user: User, reasonId: int, newChannelId: string)
    | CloseTicket(channelId: string)
    | DeleteChannel(channelId: string)
    | RemoveRecord(channel: Channel)
    | PublishPanel(guildId: string, panelChannelId: string)
    | EditSetting(editGuildId: string, option: string, value: Value)
    | Alert(msg: ChatMessage)

  /** What the caller (or the platform) must provide for the action to be made at all. */
  predicate Enabled(s: State, a: Action) {
    match a
    case OpenTicket(_, _, _, c) => c !in s.channels
    case CloseTicket(c) => c in s.channels
    case EditSetting(_, option, value) => FieldOf(option).Some? ==> Fits(FieldOf(option).value, value)
    case _ => true
  }

  function Apply(s: State, a: Action): State
    requires Enabled(s, a)
  {
    match a
    case ReadSettings(g) => GetGuildSettings(s, g).state
    case OpenTicket(guild, user, n, c) => Open(s, guild, user, n, c).state
    case CloseTicket(c) => Close(s, c).state
    case DeleteChannel(c) => DeleteTicket(s, c).state
    case RemoveRecord(ch) => RemoveDBTicket(s, ch).state
    case PublishPanel(g, c) => Setup(s, g, c).state
    case EditSetting(g, option, value) => EditSettings(s, g, option, value).state
    case Alert(msg) => AlertOwner(s, msg).state
  }

  /** Runs the actions in order; `None` when one of them is not enabled where it occurs. */
  function Run(s: State, trace: seq<Action>): Option<State>
    decreases |trace|
  {
    if |trace| == 0 then Some(s)
    else if !Enabled(s, trace[0]) then None
    else Run(Apply(s, trace[0]), trace[1..])
  }

  predicate SettingsKeyed(s: State) {
    forall g :: g in s.settings ==> s.settings[g].guildId == g
  }

  predicate Wellformed(s: State) {
    SettingsKeyed(s) && UniqueAuthors(s.tickets)
  }

  function Empty(): (s: State)
    ensures Wellformed(s)
  {
    State(map[], map[], map[])
  }

  lemma GetGuildSettingsPreserves(s: State, guildId: string)
    requires Wellformed(s)
    ensures Wellformed(GetGuildSettings(s, guildId).state)
  {
  }

  lemma OpenPreserves(s: State, guild: Guild, user: User, reasonId: int, newChannelId: string)
    requires Wellformed(s) && newChannelId !in s.channels
    ensures Wellformed(Open(s, guild, user, reasonId, newChannelId).state)
  {
    OpenKeepsSettingsKeyed(s, guild, user, reasonId, newChannelId);
    OpenKeepsAuthorsUnique(s, guild, user, reasonId, newChannelId);
  }

  lemma OpenKeepsSettingsKeyed(s: State, guild: Guild, user: User, reasonId: int, newChannelId: string)
    requires SettingsKeyed(s) && newChannelId !in s.channels
    ensures SettingsKeyed(Open(s, guild, user, reasonId, newChannelId).state)
  {
    assert SettingsKeyed(GetGuildSettings(s, guild.id).state);
  }

  lemma OpenKeepsAuthorsUnique(s: State, guild: Guild, user: User, reasonId: int, newChannelId: string)
    requires UniqueAuthors(s.tickets) && newChannelId !in s.channels
    ensures UniqueAuthors(Open(s, guild, user, reasonId, newChannelId).state.tickets)
  {
    var r := Open(s, guild, user, reasonId, newChannelId);
    if r.result.Opened? {
      var rec := TicketRecord(user.id, newChannelId);
      PushNewAuthorPreservesUnique(s.tickets, guild.id, rec);
      assert r.state.tickets == PushInGuild(s.tickets, guild.id, rec);
    }
  }

  lemma ClosePreserves(s: State, channelId: string)
    requires Wellformed(s) && channelId in s.channels
    ensures Wellformed(Close(s, channelId).state)
  {
    var ch := s.channels[channelId];
    var r := Close(s, channelId);
    if r.result == Closed {
      GetGuildSettingsPreserves(s, ch.guildId);
      PullInGuildPreservesUnique(s.tickets, ch.guildId, ch.topic);
      assert r.state.tickets == PullInGuild(s.tickets, ch.guildId, ch.topic);
    }
  }

  lemma RemoveDBTicketPreserves(s: State, channel: Channel)
    requires Wellformed(s)
    ensures Wellformed(RemoveDBTicket(s, channel).state)
  {
    PullInGuildPreservesUnique(s.tickets, channel.guildId, channel.topic);
  }

  lemma EditSettingsPreserves(s: State, guildId: string, option: string, value: Value)
    requires Wellformed(s)
    requires FieldOf(option).Some? ==> Fits(FieldOf(option).value, value)
    ensures Wellformed(EditSettings(s, guildId, option, value).state)
  {
  }

  /** Every enabled action keeps the store well formed. */
  lemma ApplyPreserves(s: State, a: Action)
    requires Wellformed(s) && Enabled(s, a)
    ensures Wellformed(Apply(s, a))
  {
    match a
    case ReadSettings(g) => GetGuildSettingsPreserves(s, g);
    case OpenTicket(guild, user, n, c) => OpenPreserves(s, guild, user, n, c);
    case CloseTicket(c) => ClosePreserves(s, c);
    case DeleteChannel(c) =>
    case RemoveRecord(ch) => RemoveDBTicketPreserves(s, ch);
    case PublishPanel(g, c) => GetGuildSettingsPreserves(s, g);
    case EditSetting(g, option, value) => EditSettingsPreserves(s, g, option, value);
    case Alert(msg) => GetGuildSettingsPreserves(s, msg.channel.guildId);
  }

  /** From a well-formed store, every run of actions ends in a well-formed store. */
  lemma {:induction false} RunPreserves(s: State, trace: seq<Action>)
    requires Wellformed(s)
    ensures Run(s, trace).Some? ==> Wellformed(Run(s, trace).value)
    decreases |trace|
  {
    if |trace| > 0 && Enabled(s, trace[0]) {
      ApplyPreserves(s, trace[0]);
      RunPreserves(Apply(s, trace[0]), trace[1..]);
    }
  }

  /** In particular, no run from the empty store ever gives one author two tickets in a guild. */
  lemma OneTicketPerAuthor(trace: seq<Action>, guildId: string, i: int, j: int)
    requires Run(Empty(), trace).Some?
    requires var reg := Run(Empty(), trace).value.tickets;
             guildId in reg && 0 <= i < j < |reg[guildId]|
    ensures var reg := Run(Empty(), trace).value.tickets;
            reg[guildId][i].authorId != reg[guildId][j].authorId
  {
    RunPreserves(Empty(), trace);
    assert DistinctAuthors(Run(Empty(), trace).value.tickets[guildId]);
  }
}
