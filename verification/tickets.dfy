/**
 The ticket module's exported operations as pure transitions over one
 immutable state: the settings documents, the ticket registry and the
 guild channels. Each operation returns the result the module hands back to
 its caller and the state after it.
 */
module Tickets {
  import opened Options
  import opened Strings
  import opened GuildSettings
  import opened TicketRegistry
  import opened Panel

  /** A guild channel; the topic of a ticket channel holds its owner's user id. */
  datatype Channel = Channel(guildId: string, name: string, topic: string, parent: Option<string>)

  /**
   What the module reads of a guild: its id, the names of its roles, and the
   names of every channel in the platform's cache for it (categories
   included), which the parent lookup of `open` searches.
   */
  datatype Guild = Guild(id: string, roleNames: set<string>, cachedChannelNames: set<string>)

  datatype User = User(id: string, username: string, bot: bool)

  /** A chat message as `alertOwner` sees it: where it was posted, who wrote it and that member's role names. */
  datatype ChatMessage = ChatMessage(channel: Channel, author: User, memberRoles: set<string>)

  datatype State = State(
    settings: map<string, Settings>,
    tickets: Registry,
    channels: map<string, Channel>)

  /** An operation's reply together with the state it leaves behind. */
  datatype Step<+R> = Step(result: R, state: State)

  /** The name markers that tell an open ticket channel from a closed one. */
  const OpenMarker := "ticket-"
  const ClosedMarker := "closed-"

  /** `a` and `b` agree on every key other than `k`. */
  predicate SameExcept<V(==)>(a: map<string, V>, b: map<string, V>, k: string) {
    && a.Keys - {k} == b.Keys - {k}
    && forall x :: x in a && x != k ==> x in b && a[x] == b[x]
  }

  /** Removing the one key a map gained gives the map back. */
  lemma RemoveAddedKey<V>(a: map<string, V>, b: map<string, V>, k: string)
    requires k !in b && a.Keys == b.Keys + {k} && SameExcept(a, b, k)
    ensures a - {k} == b
  {
    assert (a - {k}).Keys == b.Keys;
  }

  // ---------------------------------------------------------------- settings

  /**
   getGuildSettings: the guild's stored record, or — when it has none — the
   defaults, which are stored first. An existing record is never replaced.
   */
  function GetGuildSettings(s: State, guildId: string): (r: Step<Settings>)
    ensures guildId in r.state.settings && r.state.settings[guildId] == r.result
    ensures r.state.settings.Keys == s.settings.Keys + {guildId}
    ensures forall g :: g in s.settings ==> r.state.settings[g] == s.settings[g]
    ensures guildId !in s.settings ==> r.result == Defaults(guildId)
    ensures r.state.tickets == s.tickets && r.state.channels == s.channels
  {
    if guildId in s.settings then Step(s.settings[guildId], s)
    else
      var st := Defaults(guildId);
      Step(st, s.(settings := s.settings[guildId := st]))
  }

  datatype EditOutcome = SettingsUpdated {
    function Message(): string { "Settings updated sucessfully" }
  }

  /**
   editSettings: sets the one field named by `option` in the guild's stored
   record. An unknown key, or a guild without a record (there is no upsert),
   leaves everything as it was; the reply is the same in every case.
   */
  function EditSettings(s: State, guildId: string, option: string, value: Value): (r: Step<EditOutcome>)
    requires FieldOf(option).Some? ==> Fits(FieldOf(option).value, value)
    ensures r.state.tickets == s.tickets && r.state.channels == s.channels
    ensures r.state.settings.Keys == s.settings.Keys
    ensures SameExcept(r.state.settings, s.settings, guildId)
    ensures guildId in s.settings && FieldOf(option).Some? ==>
              var f := FieldOf(option).value;
              && Get(r.state.settings[guildId], f) == value
              && (forall g :: g != f ==> Get(r.state.settings[guildId], g) == Get(s.settings[guildId], g))
              && r.state.settings[guildId].guildId == s.settings[guildId].guildId
    ensures guildId !in s.settings || FieldOf(option).None? ==> r.state == s
  {
    match FieldOf(option)
    case None => Step(SettingsUpdated, s)
    case Some(f) =>
      if guildId in s.settings then
        Step(SettingsUpdated, s.(settings := s.settings[guildId := Set(s.settings[guildId], f, value)]))
      else
        Step(SettingsUpdated, s)
  }

  // ---------------------------------------------------------------- open

  /** The state once `open` has passed every check: the new channel exists and its record is appended. */
  function OpenTicketState(s: State, guild: Guild, st: Settings, user: User, newChannelId: string): (r: State)
    ensures r.settings == s.settings
    ensures r.channels.Keys == s.channels.Keys + {newChannelId}
    ensures SameExcept(r.channels, s.channels, newChannelId)
    ensures r.channels[newChannelId].name == OpenMarker + user.username
    ensures r.channels[newChannelId].topic == user.id
    ensures r.channels[newChannelId].guildId == guild.id
    ensures r.channels[newChannelId].parent.Some? <==> st.openCategory in guild.cachedChannelNames
    ensures guild.id in r.tickets
    ensures r.tickets[guild.id] == TicketsOf(s.tickets, guild.id) + [TicketRecord(user.id, newChannelId)]
    ensures SameExcept(r.tickets, s.tickets, guild.id)
  {
    var parent := if st.openCategory in guild.cachedChannelNames then Some(st.openCategory) else None;
    var channel := Channel(guild.id, OpenMarker + user.username, user.id, parent);
    var record := TicketRecord(user.id, newChannelId);
    s.(channels := s.channels[newChannelId := channel],
       tickets := PushInGuild(s.tickets, guild.id, record))
  }

  datatype OpenOutcome = NoStaffRole | InvalidReason | AlreadyHasTicket | Opened(channelId: string) {
    /** The value `open` returns: an error text, or the new channel's id. */
    function Message(): string {
      match this
      case NoStaffRole => "No staff role"
      case InvalidReason => "Invalid ticketReasonID provided"
      case AlreadyHasTicket => "Already has ticket"
      case Opened(id) => id
    }
  }

  /**
   open: loads (and if need be creates) the guild's settings, then checks in
   order that a guild role carries the staff role name, that the reason id is
   one of 1..5, and that the user has no ticket yet. Only then does it create
   the channel `ticket-<username>` with the user's id as topic, with the
   configured category name as parent when some cached channel of the guild
   bears that name (and no parent otherwise), and append one
   record for it to the guild's ticket list. `newChannelId` is the id the
   platform gives the new channel.
   */
  function Open(s: State, guild: Guild, user: User, reasonId: int, newChannelId: string): (r: Step<OpenOutcome>)
    requires newChannelId !in s.channels
    ensures var st := GetGuildSettings(s, guild.id).result;
            r.result == NoStaffRole <==> st.staffRoleName !in guild.roleNames
    ensures var st := GetGuildSettings(s, guild.id).result;
            r.result == InvalidReason <==> st.staffRoleName in guild.roleNames && !(1 <= reasonId <= 5)
    ensures var st := GetGuildSettings(s, guild.id).result;
            r.result == AlreadyHasTicket <==>
              st.staffRoleName in guild.roleNames && 1 <= reasonId <= 5 && FindsTicket(s.tickets, guild.id, user.id)
    ensures r.state.settings == GetGuildSettings(s, guild.id).state.settings
    ensures !r.result.Opened? ==> r.state.tickets == s.tickets && r.state.channels == s.channels
    ensures r.result.Opened? ==>
              && r.result.channelId == newChannelId
              && r.state.channels.Keys == s.channels.Keys + {newChannelId}
              && SameExcept(r.state.channels, s.channels, newChannelId)
              && r.state.channels[newChannelId].name == OpenMarker + user.username
              && r.state.channels[newChannelId].topic == user.id
              && r.state.channels[newChannelId].guildId == guild.id
    ensures r.result.Opened? ==>
              && guild.id in r.state.tickets
              && r.state.tickets[guild.id] == TicketsOf(s.tickets, guild.id) + [TicketRecord(user.id, newChannelId)]
              && SameExcept(r.state.tickets, s.tickets, guild.id)
  {
    var got := GetGuildSettings(s, guild.id);
    var st := got.result;
    var s1 := got.state;
    if st.staffRoleName !in guild.roleNames then Step(NoStaffRole, s1)
    else if !(1 <= reasonId <= 5) then Step(InvalidReason, s1)
    else if FindsTicket(s1.tickets, guild.id, user.id) then Step(AlreadyHasTicket, s1)
    else Step(Opened(newChannelId), OpenTicketState(s1, guild, st, user, newChannelId))
  }

  // ---------------------------------------------------------------- close

  datatype CloseOutcome = NotAnOpenTicket | Closed {
    function Message(): string {
      match this
      case NotAnOpenTicket => "Not an open ticket"
      case Closed => "Success"
    }
  }

  /** The state once `close` has passed its gate: the channel renamed, its owner's records pulled. */
  function CloseTicketState(s: State, channelId: string): (r: State)
    requires channelId in s.channels
    ensures var ch := s.channels[channelId];
            && r.settings == s.settings
            && r.channels.Keys == s.channels.Keys
            && SameExcept(r.channels, s.channels, channelId)
            && r.channels[channelId] == ch.(name := ReplaceFirst(ch.name, "ticket", "closed"))
            && r.tickets.Keys == s.tickets.Keys
            && SameExcept(r.tickets, s.tickets, ch.guildId)
            && TicketsOf(r.tickets, ch.guildId) == Pull(TicketsOf(s.tickets, ch.guildId), ch.topic)
  {
    var ch := s.channels[channelId];
    var renamed := ch.(name := ReplaceFirst(ch.name, "ticket", "closed"));
    s.(channels := s.channels[channelId := renamed],
       tickets := PullInGuild(s.tickets, ch.guildId, ch.topic))
  }

  /**
   close: refuses a channel whose name lacks `ticket-` before touching
   anything. Otherwise it loads the guild's settings, renames the channel by
   replacing the first `ticket` in its name with `closed`, and pulls every
   record whose author is the channel's topic from the guild's list.
   */
  function Close(s: State, channelId: string): (r: Step<CloseOutcome>)
    requires channelId in s.channels
    ensures var ch := s.channels[channelId];
            r.result == NotAnOpenTicket <==> !Includes(ch.name, OpenMarker)
    ensures r.result == NotAnOpenTicket ==> r.state == s
    ensures var ch := s.channels[channelId];
            r.result == Closed ==>
              && r.state.settings == GetGuildSettings(s, ch.guildId).state.settings
              && r.state.channels.Keys == s.channels.Keys
              && SameExcept(r.state.channels, s.channels, channelId)
              && r.state.channels[channelId] == ch.(name := ReplaceFirst(ch.name, "ticket", "closed"))
              && r.state.tickets.Keys == s.tickets.Keys
              && SameExcept(r.state.tickets, s.tickets, ch.guildId)
              && TicketsOf(r.state.tickets, ch.guildId) == Pull(TicketsOf(s.tickets, ch.guildId), ch.topic)
              && !FindsTicket(r.state.tickets, ch.guildId, ch.topic)
  {
    var ch := s.channels[channelId];
    if !Includes(ch.name, OpenMarker) then Step(NotAnOpenTicket, s)
    else
      Step(Closed, CloseTicketState(GetGuildSettings(s, ch.guildId).state, channelId))
  }

  // ---------------------------------------------------------------- deleteTicket

  datatype DeleteOutcome = ProbablyDeleted | NotAClosedTicket | Deleted {
    function Message(): string {
      match this
      case ProbablyDeleted => "Probably deleted"
      case NotAClosedTicket => "Not a closed ticket"
      case Deleted => "Success"
    }
  }

  /**
   deleteTicket: deletes the channel when its name contains `closed-`, and
   nothing otherwise. A channel that can no longer be inspected counts as
   already deleted. The registry is not consulted.
   */
  function DeleteTicket(s: State, channelId: string): (r: Step<DeleteOutcome>)
    ensures r.result == ProbablyDeleted <==> channelId !in s.channels
    ensures r.result == Deleted <==> channelId in s.channels && Includes(s.channels[channelId].name, ClosedMarker)
    ensures r.result == Deleted ==> r.state == s.(channels := s.channels - {channelId})
    ensures r.result != Deleted ==> r.state == s
  {
    if channelId !in s.channels then Step(ProbablyDeleted, s)
    else if !Includes(s.channels[channelId].name, ClosedMarker) then Step(NotAClosedTicket, s)
    else Step(Deleted, s.(channels := s.channels - {channelId}))
  }

  // ---------------------------------------------------------------- removeDBTicket

  datatype RemoveOutcome = NotATicketChannel | Removed {
    /** The value `removeDBTicket` returns; `None` is JavaScript's `undefined` from a bare `return`. */
    function Message(): Option<string> {
      match this
      case NotATicketChannel => None
      case Removed => Some("Success")
    }
  }

  /**
   removeDBTicket: for a channel (typically one that has just been deleted)
   whose name contains `ticket-`, pulls the records of its topic's author from
   its guild's list; any other channel is ignored. Channels are not touched.
   */
  function RemoveDBTicket(s: State, channel: Channel): (r: Step<RemoveOutcome>)
    ensures r.result == Removed <==> Includes(channel.name, OpenMarker)
    ensures r.result == NotATicketChannel ==> r.state == s
    ensures r.result == Removed ==>
              && r.state.settings == s.settings && r.state.channels == s.channels
              && r.state.tickets.Keys == s.tickets.Keys
              && SameExcept(r.state.tickets, s.tickets, channel.guildId)
              && TicketsOf(r.state.tickets, channel.guildId) == Pull(TicketsOf(s.tickets, channel.guildId), channel.topic)
  {
    if !Includes(channel.name, OpenMarker) then Step(NotATicketChannel, s)
    else Step(Removed, s.(tickets := PullInGuild(s.tickets, channel.guildId, channel.topic)))
  }

  // ---------------------------------------------------------------- setup

  datatype SetupOutcome = NoReasons | PanelCreated(buttons: seq<Button>) | PanelError {
    function Message(): string {
      match this
      case NoReasons => "No reasons"
      case PanelCreated(_) => "Ticket panel created"
      case PanelError => "Error creating ticket panel"
    }
  }

  /** The channel `channelId` exists and belongs to guild `guildId`. */
  predicate InGuild(s: State, guildId: string, channelId: string) {
    channelId in s.channels && s.channels[channelId].guildId == guildId
  }

  /**
   setup: loads the guild's settings and builds the panel's buttons. With all
   five reasons empty it stops with `No reasons`; otherwise the panel goes to
   the guild's channel `channelId`, and fails when there is no such channel.
   */
  function Setup(s: State, guildId: string, channelId: string): (r: Step<SetupOutcome>)
    ensures var st := GetGuildSettings(s, guildId).result;
            r.result == NoReasons <==> forall n :: 1 <= n <= 5 ==> Reason(st, n) == ""
    ensures r.result == PanelError <==> !r.result.NoReasons? && !InGuild(s, guildId, channelId)
    ensures r.result.PanelCreated? ==> r.result.buttons == PanelButtons(GetGuildSettings(s, guildId).result)
    ensures r.state == GetGuildSettings(s, guildId).state
  {
    var got := GetGuildSettings(s, guildId);
    var buttons := PanelButtons(got.result);
    if |buttons| == 0 then Step(NoReasons, got.state)
    else if !InGuild(got.state, guildId, channelId) then Step(PanelError, got.state)
    else Step(PanelCreated(buttons), got.state)
  }

  // ---------------------------------------------------------------- alertOwner

  datatype AlertOutcome = Ignored | Pinged {
    /** The value `alertOwner` returns; `None` is JavaScript's `undefined` from a bare `return`. */
    function Message(): Option<string> {
      match this
      case Ignored => None
      case Pinged => Some("success")
    }
  }

  /**
   The gate of alertOwner: a message in an open ticket channel, written by
   someone other than the ticket's owner, not by a bot, and by a member
   holding a role with the staff role name.
   */
  predicate ShouldAlert(staffRoleName: string, msg: ChatMessage) {
    && Includes(msg.channel.name, OpenMarker)
    && msg.author.id != msg.channel.topic
    && !msg.author.bot
    && staffRoleName in msg.memberRoles
  }

  /**
   alertOwner: loads the guild's settings, then pings the ticket's owner when
   the gate lets the message through. The ping is deleted again right away,
   so it leaves no trace in the state.
   */
  function AlertOwner(s: State, msg: ChatMessage): (r: Step<AlertOutcome>)
    ensures var st := GetGuildSettings(s, msg.channel.guildId).result;
            r.result == Pinged <==> ShouldAlert(st.staffRoleName, msg)
    ensures r.state == GetGuildSettings(s, msg.channel.guildId).state
  {
    var got := GetGuildSettings(s, msg.channel.guildId);
    if !Includes(msg.channel.name, OpenMarker) then Step(Ignored, got.state)
    else if msg.author.id == msg.channel.topic || msg.author.bot || got.result.staffRoleName !in msg.memberRoles
    then Step(Ignored, got.state)
    else Step(Pinged, got.state)
  }
}
