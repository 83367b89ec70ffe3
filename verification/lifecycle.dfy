/**
 Properties that relate several operations: lazy settings creation, the
 one-ticket-per-author rule, the open→close→delete round trip, the panel's
 buttons leading into `open`, settings edits as later reads see them, and an
 invariant every sequence of operations preserves.
 */
module Lifecycle {
  import opened Options
  import opened Strings
  import opened GuildSettings
  import opened TicketRegistry
  import opened Panel
  import opened Tickets

  // ---------------------------------------------------------------- settings

  /** The first read of a guild's settings stores and returns the documented defaults. */
  lemma DefaultsOnFirstRead(s: State, guildId: string)
    requires guildId !in s.settings
    ensures var r := GetGuildSettings(s, guildId);
            && r.result.guildId == guildId
            && r.result.reason1 == "General Support"
            && r.result.reason2 == "Appeal Support"
            && r.result.reason3 == "Billing Support"
            && r.result.reason4 == "" && r.result.reason5 == ""
            && r.result.staffRoleName == "Staff"
            && r.result.openCategory == "Tickets"
            && r.result.transcript
            && r.result.transcriptLogChannel == ""
            && r.state.settings == s.settings[guildId := r.result]
  {
  }

  /** A second read returns the same record and creates nothing new. */
  lemma GetGuildSettingsIdempotent(s: State, guildId: string)
    ensures var r := GetGuildSettings(s, guildId);
            GetGuildSettings(r.state, guildId) == r
  {
  }

  /** After an edit of a known key on a stored record, a read sees exactly that one field changed. */
  lemma EditThenRead(s: State, guildId: string, option: string, value: Value)
    requires guildId in s.settings
    requires FieldOf(option).Some? && Fits(FieldOf(option).value, value)
    ensures var after := EditSettings(s, guildId, option, value).state;
            GetGuildSettings(after, guildId).result == Set(s.settings[guildId], FieldOf(option).value, value)
  {
    var f := FieldOf(option).value;
    var after := EditSettings(s, guildId, option, value).state;
    var a := GetGuildSettings(after, guildId).result;
    var b := Set(s.settings[guildId], f, value);
    assert a == after.settings[guildId];
    forall g ensures Get(a, g) == Get(b, g) {
      if g != f {
        assert Get(a, g) == Get(s.settings[guildId], g);
      }
    }
    SettingsExtensional(a, b);
  }

  /** An edit made before the guild's settings were ever read is lost: the first read still yields the defaults. */
  lemma EditBeforeFirstReadIsLost(s: State, guildId: string, option: string, value: Value)
    requires guildId !in s.settings
    requires FieldOf(option).Some? ==> Fits(FieldOf(option).value, value)
    ensures var after := EditSettings(s, guildId, option, value).state;
            GetGuildSettings(after, guildId).result == Defaults(guildId)
  {
  }

  // ---------------------------------------------------------------- open

  /** `open` does not look at the label: a configured-but-empty reason slot still opens a ticket. */
  lemma EmptyLabelIsNotRejected(s: State, guild: Guild, user: User, reasonId: int, newChannelId: string)
    requires newChannelId !in s.channels
    requires GetGuildSettings(s, guild.id).result.staffRoleName in guild.roleNames
    requires 1 <= reasonId <= 5 && Reason(GetGuildSettings(s, guild.id).result, reasonId) == ""
    requires !FindsTicket(s.tickets, guild.id, user.id)
    ensures Open(s, guild, user, reasonId, newChannelId).result == Opened(newChannelId)
  {
  }

  /** Once `open` has succeeded, the same user's next `open` in that guild is refused and changes nothing. */
  lemma SecondOpenIsRefused(s: State, guild: Guild, user: User, reasonId: int, newChannelId: string,
                            reasonId2: int, newChannelId2: string)
    requires newChannelId !in s.channels
    requires Open(s, guild, user, reasonId, newChannelId).result.Opened?
    requires newChannelId2 !in Open(s, guild, user, reasonId, newChannelId).state.channels
    requires 1 <= reasonId2 <= 5
    ensures var s1 := Open(s, guild, user, reasonId, newChannelId).state;
            var r := Open(s1, guild, user, reasonId2, newChannelId2);
            r.result == AlreadyHasTicket && r.state == s1
  {
    var s1 := Open(s, guild, user, reasonId, newChannelId).state;
    var list := s1.tickets[guild.id];
    var before := TicketsOf(s.tickets, guild.id);
    assert list[|before|].authorId == user.id;
    assert FindsTicket(s1.tickets, guild.id, user.id);
  }

  // ---------------------------------------------------------------- round trip

  /** The channel `open` names `ticket-<u>` is renamed `closed-<u>` by `close`. */
  lemma CloseRenamesOpenName(username: string)
    ensures Includes(OpenMarker + username, OpenMarker)
    ensures ReplaceFirst(OpenMarker + username, "ticket", "closed") == ClosedMarker + username
    ensures Includes(ClosedMarker + username, ClosedMarker)
  {
    PrefixFoundAtZero(OpenMarker, username);
    PrefixFoundAtZero(ClosedMarker, username);
    var tail := "-" + username;
    assert OpenMarker + username == "ticket" + tail;
    assert ClosedMarker + username == "closed" + tail;
    ReplaceLeading("ticket", tail, "closed");
  }

  /**
   Open then close: the close succeeds, the channel becomes `closed-<username>`,
   the guild's ticket list is back to what it was before the open, and the user
   can open a new ticket.
   */
  lemma OpenCloseRoundTrip(s: State, guild: Guild, user: User, reasonId: int, newChannelId: string,
                           reasonId2: int, newChannelId2: string)
    requires newChannelId !in s.channels
    requires Open(s, guild, user, reasonId, newChannelId).result.Opened?
    requires 1 <= reasonId2 <= 5
    ensures var s1 := Open(s, guild, user, reasonId, newChannelId).state;
            var r := Close(s1, newChannelId);
            && r.result == Closed
            && r.state.channels[newChannelId].name == ClosedMarker + user.username
            && TicketsOf(r.state.tickets, guild.id) == TicketsOf(s.tickets, guild.id)
            && !FindsTicket(r.state.tickets, guild.id, user.id)
            && (newChannelId2 !in r.state.channels ==>
                  Open(r.state, guild, user, reasonId2, newChannelId2).result == Opened(newChannelId2))
  {
    OpenThenClose(s, guild, user, reasonId, newChannelId);
  }

  /** The registry half of the round trip: closing the new ticket gives back the guild's list. */
  lemma OpenThenClose(s: State, guild: Guild, user: User, reasonId: int, newChannelId: string)
    requires newChannelId !in s.channels
    requires Open(s, guild, user, reasonId, newChannelId).result.Opened?
    ensures var s1 := Open(s, guild, user, reasonId, newChannelId).state;
            var r := Close(s1, newChannelId);
            && r.result == Closed
            && r.state.channels[newChannelId].name == ClosedMarker + user.username
            && TicketsOf(r.state.tickets, guild.id) == TicketsOf(s.tickets, guild.id)
  {
    var before := TicketsOf(s.tickets, guild.id);
    var rec := TicketRecord(user.id, newChannelId);
    CloseRenamesOpenName(user.username);
    assert !HasTicket(before, user.id);
    PullAppend(before, [rec], user.id);
    PullSingle(rec, user.id);
    assert Pull(before + [rec], user.id) == before;
  }

  /** On a channel that passes the `ticket-` gate, close and removeDBTicket leave the same registry. */
  lemma CloseAndRemoveAgreeOnRegistry(s: State, channelId: string)
    requires channelId in s.channels
    ensures var ch := s.channels[channelId];
            && (Close(s, channelId).result == Closed <==> RemoveDBTicket(s, ch).result == Removed)
            && Close(s, channelId).state.tickets == RemoveDBTicket(s, ch).state.tickets
  {
    var ch := s.channels[channelId];
    if Includes(ch.name, OpenMarker) {
      var a := Close(s, channelId).state.tickets;
      var b := RemoveDBTicket(s, ch).state.tickets;
      assert a.Keys == b.Keys;
      forall g | g in a ensures a[g] == b[g] {
        if g == ch.guildId {
          assert a[g] == TicketsOf(a, g) && b[g] == TicketsOf(b, g);
        }
      }
    }
  }

  /** removeDBTicket on the channel `open` created undoes the open's registry write. */
  lemma RemoveAfterOpenRestoresRegistry(s: State, guild: Guild, user: User, reasonId: int, newChannelId: string)
    requires newChannelId !in s.channels
    requires Open(s, guild, user, reasonId, newChannelId).result.Opened?
    ensures var s1 := Open(s, guild, user, reasonId, newChannelId).state;
            var r := RemoveDBTicket(s1, s1.channels[newChannelId]);
            && r.result == Removed
            && TicketsOf(r.state.tickets, guild.id) == TicketsOf(s.tickets, guild.id)
            && !FindsTicket(r.state.tickets, guild.id, user.id)
  {
    var before := TicketsOf(s.tickets, guild.id);
    var rec := TicketRecord(user.id, newChannelId);
    CloseRenamesOpenName(user.username);
    assert !HasTicket(before, user.id);
    PullAppend(before, [rec], user.id);
    PullSingle(rec, user.id);
  }

  /** Open, close, delete: the channels are as before the open, and so is the guild's ticket list. */
  lemma FullLifecycle(s: State, guild: Guild, user: User, reasonId: int, newChannelId: string)
    requires newChannelId !in s.channels
    requires Open(s, guild, user, reasonId, newChannelId).result.Opened?
    ensures var s1 := Open(s, guild, user, reasonId, newChannelId).state;
            var s2 := Close(s1, newChannelId).state;
            var r := DeleteTicket(s2, newChannelId);
            && r.result == Deleted
            && r.state.channels == s.channels
            && TicketsOf(r.state.tickets, guild.id) == TicketsOf(s.tickets, guild.id)
            && r.state.settings == GetGuildSettings(s, guild.id).state.settings
  {
    var s1 := Open(s, guild, user, reasonId, newChannelId).state;
    var s2 := Close(s1, newChannelId).state;
    OpenThenClose(s, guild, user, reasonId, newChannelId);
    CloseRenamesOpenName(user.username);
    assert s2.settings == s1.settings;
    assert SameExcept(s2.channels, s.channels, newChannelId);
    RemoveAddedKey(s2.channels, s.channels, newChannelId);
  }

  // ---------------------------------------------------------------- alertOwner

  /** In a freshly opened ticket, a reply by a staff member other than the owner pings the owner. */
  lemma StaffReplyPingsOwner(s: State, guild: Guild, user: User, reasonId: int, newChannelId: string,
                             staff: User, memberRoles: set<string>)
    requires newChannelId !in s.channels
    requires Open(s, guild, user, reasonId, newChannelId).result.Opened?
    requires staff.id != user.id && !staff.bot
    requires GetGuildSettings(s, guild.id).result.staffRoleName in memberRoles
    ensures var s1 := Open(s, guild, user, reasonId, newChannelId).state;
            AlertOwner(s1, ChatMessage(s1.channels[newChannelId], staff, memberRoles)).result == Pinged
  {
    CloseRenamesOpenName(user.username);
  }

  /** A message in a channel without the open marker never pings anyone. */
  lemma IgnoredOutsideOpenTickets(s: State, msg: ChatMessage)
    requires !Includes(msg.channel.name, OpenMarker)
    ensures AlertOwner(s, msg).result == Ignored
  {
  }

  /** `closed-<u>` contains the open marker only if `u` itself does. */
  lemma ClosedNameHidesOpenMarker(username: string)
    requires !Includes(username, OpenMarker)
    ensures !Includes(ClosedMarker + username, OpenMarker)
  {
    forall i | OccursAt(ClosedMarker + username, OpenMarker, i) ensures false {
      OccursInConcat(ClosedMarker, username, OpenMarker, i);
    }
  }

  /**
   Once a ticket channel `ticket-<u>` is closed, nobody's messages in it ping
   the former owner any more (for usernames that do not themselves contain
   `ticket-`).
   */
  lemma ClosedTicketStopsAlerts(s: State, channelId: string, username: string, msg: ChatMessage)
    requires channelId in s.channels && s.channels[channelId].name == OpenMarker + username
    requires !Includes(username, OpenMarker)
    ensures var s2 := Close(s, channelId).state;
            AlertOwner(s2, msg.(channel := s2.channels[channelId])).result == Ignored
  {
    var s2 := Close(s, channelId).state;
    CloseRenamesOpenName(username);
    assert s2.channels[channelId].name == ClosedMarker + username;
    ClosedNameHidesOpenMarker(username);
    IgnoredOutsideOpenTickets(s2, msg.(channel := s2.channels[channelId]));
  }

  // ---------------------------------------------------------------- panel

  /**
   Every button of the guild's panel (the buttons setup publishes, in the
   state setup leaves) names a slot in 1..5 whose label is the button's
   caption, so pressing it never makes `open` reply with an invalid reason id.
   */
  lemma PanelButtonsOpenTheirSlot(s: State, guild: Guild, user: User, newChannelId: string)
    requires newChannelId !in s.channels
    ensures var got := GetGuildSettings(s, guild.id);
            forall b :: b in PanelButtons(got.result) ==>
              && 1 <= SlotOf(b.customId) <= 5
              && b.caption == Reason(got.result, SlotOf(b.customId))
              && Open(got.state, guild, user, SlotOf(b.customId), newChannelId).result != InvalidReason
  {
    var got := GetGuildSettings(s, guild.id);
    var st := got.result;
    var bs := PanelButtons(st);
    forall b | b in bs
      ensures 1 <= SlotOf(b.customId) <= 5
      ensures b.caption == Reason(st, SlotOf(b.customId))
      ensures Open(got.state, guild, user, SlotOf(b.customId), newChannelId).result != InvalidReason
    {
      var i :| 0 <= i < |bs| && bs[i] == b;
      assert IsSlotButton(st, b, SlotOf(b.customId));
      assert GetGuildSettings(got.state, guild.id).result == st;
    }
  }

  // ---------------------------------------------------------------- as written

  /**
   The `closed-` gate of deleteTicket is a substring test, so it also accepts
   an OPEN ticket whose owner's username contains `closed-`. The channel goes,
   the owner's record stays, and that user's next `open` is refused. Only a
   later pull of the record (removeDBTicket on the deleted channel, or a close
   of some other channel whose topic is the user's id) lets them open again.
   */
  lemma DeleteAcceptsOpenTicketOfClosedUsername(s: State, guild: Guild, user: User, reasonId: int,
                                                newChannelId: string, reasonId2: int, newChannelId2: string)
    requires newChannelId !in s.channels
    requires Open(s, guild, user, reasonId, newChannelId).result.Opened?
    requires Includes(user.username, ClosedMarker)
    requires 1 <= reasonId2 <= 5
    ensures var s1 := Open(s, guild, user, reasonId, newChannelId).state;
            var r := DeleteTicket(s1, newChannelId);
            && r.result == Deleted
            && newChannelId !in r.state.channels
            && FindsTicket(r.state.tickets, guild.id, user.id)
            && (newChannelId2 !in r.state.channels ==>
                  Open(r.state, guild, user, reasonId2, newChannelId2).result == AlreadyHasTicket)
  {
    var s1 := Open(s, guild, user, reasonId, newChannelId).state;
    IncludesInSuffix(OpenMarker, user.username, ClosedMarker);
    var before := TicketsOf(s.tickets, guild.id);
    assert s1.tickets[guild.id][|before|].authorId == user.id;
  }

  /**
   `closed` followed by a string that does not start with `-` and has no
   `closed-` has no `closed-` either: the only `c` of the prefix is followed
   by that string's first character.
   */
  lemma ClosedPrefixAddsNoClosedMarker(x: string)
    requires |x| > 0 && x[0] != '-'
    requires !Includes(x, ClosedMarker)
    ensures !Includes("closed" + x, ClosedMarker)
  {
    var s := "closed" + x;
    forall i | 0 <= i && i + 7 <= |s| ensures !OccursAt(s, ClosedMarker, i) {
      if i == 0 {
        assert s[i..i + 7][6] == x[0];
      } else if i < 6 {
        assert s[i..i + 7][0] == "closed"[i];
      } else {
        assert s[i..i + 7] == x[i - 6..i - 6 + 7];
        assert !OccursAt(x, ClosedMarker, i - 6);
      }
    }
  }

  /**
   The gate of close looks for `ticket-` but the rename replaces the first
   `ticket`, which need not be the same occurrence. A name `ticket<x>` whose
   `ticket-` comes later (as in `tickets-ticket-a`) becomes `closed<x>`: it
   still carries the open marker and no closed marker, so deleteTicket
   refuses it.
   */
  lemma CloseRenamesFirstTicket(s: State, channelId: string, x: string)
    requires channelId in s.channels && s.channels[channelId].name == "ticket" + x
    requires |x| > 0 && x[0] != '-'
    requires Includes(x, OpenMarker) && !Includes(x, ClosedMarker)
    ensures var r := Close(s, channelId);
            && r.result == Closed
            && r.state.channels[channelId].name == "closed" + x
            && Includes(r.state.channels[channelId].name, OpenMarker)
            && DeleteTicket(r.state, channelId).result == NotAClosedTicket
  {
    IncludesInSuffix("ticket", x, OpenMarker);
    ReplaceLeading("ticket", x, "closed");
    IncludesInSuffix("closed", x, OpenMarker);
    ClosedPrefixAddsNoClosedMarker(x);
  }
}
