# Support-ticket module: a Dafny model of the ticket lifecycle

This project models the core of a support-ticket module for a Discord bot
(`index.js`). Guild operators configure a panel of buttons. A user presses one
to open a private ticket channel. Staff close the ticket, and finally delete
the channel.

The platform and the document store are folded into one immutable `State`:

- `settings`: a map from guild id to the 17-field settings record
  (`GuildSettings.Settings`, the shape of `models/guildTicketSettings.js`).
- `tickets`: the ticket registry, a map from guild id to a sequence of
  `{authorId, channelId}` records (`TicketRegistry`, the shape of
  `models/guildTickets.js`).
- `channels`: a map from channel id to `{guildId, name, topic, parent}`.

A guild is given as its id, the names of its roles, and the names of every
channel in the platform's cache for it. The id of a channel the platform
creates is a parameter. Every exported operation
is a pure function that returns a `Step`: the reply the source returns, plus
the state afterwards. Each reply datatype has a `Message()` that gives the
value the source returns. Every operation returns a string, except
`removeDBTicket` and `alertOwner`: they return JavaScript's `undefined` when
they ignore a channel or message, and `Message()` gives `None` for that.

Modules:

- `Strings`: JavaScript `indexOf`, `includes` and first-occurrence `replace`.
  Dafny strings are sequences of Unicode scalar values, so `IndexOf` counts
  code points where JavaScript counts UTF-16 code units. The results of
  `includes` and `replace` are the same either way, and the source never
  reads the index itself.
- `GuildSettings`: the record, its defaults, the option keys and single-field `$set`.
- `TicketRegistry`: the duplicate query, the upserting `$push` and the `$pull` by author.
- `Panel`: the buttons derived from the five reason slots.
- `Tickets`: the operations `getGuildSettings`, `editSettings`, `open`, `close`,
  `deleteTicket`, `removeDBTicket`, `setup` and `alertOwner`.
- `Lifecycle`: lemmas that relate several operations.
- `Traces`: an invariant kept by every sequence of operations.

Behaviours the code does not have, so neither does the model:

- There is no reopen operation.
- There is no delay before a channel is deleted.
- `open` does not reject an empty reason label.
- `open` does not fail when the configured category is missing. The channel
  is then created without a parent.

The open and closed states are only name markers. The gates test for a
substring anywhere in the name. Two lemmas show what that permits:

- `Lifecycle.DeleteAcceptsOpenTicketOfClosedUsername`: `deleteTicket` accepts
  the open ticket of a user whose name contains `closed-`. The user's record
  is left behind, so that user's next `open` is refused. Only a later pull of
  the record lets them open again: `removeDBTicket` on the deleted channel, or
  a `close` of some other channel whose topic is the user's id.
- `Lifecycle.CloseRenamesFirstTicket`: `close` replaces the first `ticket`,
  which may not be the `ticket-` its gate found. For a name `ticket<x>` where
  `x` does not start with `-`, contains `ticket-` and has no `closed-`, the
  closed channel still looks open and `deleteTicket` refuses it.

## Model

| member | source | states |
|---|---|---|
| Strings.IndexOf | index.js:185 | the first index where the pattern occurs, with no occurrence before it; `None` exactly when it occurs nowhere |
| Strings.Includes | index.js:185 | `includes` is true exactly when the pattern occurs at some index |
| Strings.IncludesInSuffix | index.js:271 | a name that contains a pattern still contains it after a prefix is added |
| Strings.ReplaceFirst | index.js:230 | with a string pattern, `replace` swaps only the first occurrence and returns the string unchanged when there is none |
| Strings.ReplaceLeading | index.js:230 | a string that starts with the pattern gets just that prefix replaced |
| GuildSettings.FieldOf | index.js:363-508 | each recognised option key selects the field whose key it is; an unrecognised key selects none |
| GuildSettings.OptionKeyRoundTrip | index.js:365-500 | the sixteen option keys and fields are in one-to-one correspondence |
| GuildSettings.Get | models/guildTicketSettings.js:3-21 | the transcript flag is the one boolean field; every other field is a string |
| GuildSettings.Set | index.js:367 | a `$set` gives one field the new value and leaves the guild id and the other fifteen fields unchanged |
| GuildSettings.SettingsExtensional | models/guildTicketSettings.js:3-21 | a record is determined by its guild id and its sixteen fields |
| GuildSettings.ReasonField | index.js:74-89 | reason slot n is the field edited under option key `reason<n>` |
| TicketRegistry.FindsTicket | index.js:119-123 | the duplicate query matches exactly when the guild's list holds a record by that author |
| TicketRegistry.Pull | index.js:258 | the pull removes every record by the author and keeps every other record |
| TicketRegistry.PullAppend | index.js:258 | the pull works record by record, so the survivors keep their order |
| TicketRegistry.PullSingle | index.js:258 | a single record survives the pull exactly when its author differs |
| TicketRegistry.PullIdempotent | index.js:258 | pulling twice by the same author equals pulling once |
| TicketRegistry.PullInGuild | index.js:546 | `updateOne` pulls from an existing guild list, never creates one, and touches no other guild |
| TicketRegistry.PushInGuild | index.js:161-171 | the upserting push appends exactly one record at the end, creating the list if needed, and touches no other guild |
| TicketRegistry.PullKeepsAuthorsDistinct | index.js:258 | a pulled list cannot gain a duplicate author |
| TicketRegistry.PullInGuildPreservesUnique | index.js:258 | pulling keeps every guild's authors distinct |
| TicketRegistry.PushNewAuthorPreservesUnique | index.js:119-171 | pushing a record for an author who has none keeps every guild's authors distinct |
| Panel.SlotOfCustomId | index.js:293-336 | each custom id `ticketOpen<n>` reads back as slot n, so no two slots share an id |
| Panel.ButtonsFrom | index.js:293-337 | the buttons of the later slots are those of the enabled slots, in slot order, each with its id and label |
| Panel.PanelButtons | index.js:291-341 | one button per non-empty reason, in slot order 1 to 5, with id `ticketOpen<n>` and the reason as label; none only when all five are empty |
| Panel.DefaultPanel | index.js:37-41 | the default reasons give the buttons `General Support`, `Appeal Support` and `Billing Support` |
| Tickets.GetGuildSettings | index.js:24-59 | returns the stored record; with none stored, it stores the defaults and returns them; no record is overwritten |
| Tickets.EditSettings | index.js:363-511 | sets exactly the mapped field of an existing record; an unknown key or a guild without a record changes nothing |
| Tickets.OpenTicketState | index.js:130-171 | the new channel is `ticket-<username>` with the user's id as topic; exactly one record is appended to the guild's list |
| Tickets.Open | index.js:61-180 | the staff role is checked first, then the reason id must be 1 to 5, then a second ticket is refused; only success creates a channel and appends a record |
| Tickets.CloseTicketState | index.js:229-259 | the first `ticket` in the name becomes `closed`; the topic author's records are pulled from the guild's list |
| Tickets.Close | index.js:182-265 | a name without `ticket-` is refused with no state change; otherwise the channel is renamed and its owner's records are pulled |
| Tickets.DeleteTicket | index.js:267-284 | deletes only a channel whose name contains `closed-`; a channel that is gone yields `Probably deleted`; nothing else changes |
| Tickets.RemoveDBTicket | index.js:535-554 | ignores a channel without `ticket-` in its name; otherwise pulls the topic author's records as `close` does |
| Tickets.Setup | index.js:286-361 | `No reasons` exactly when all five reasons are empty; otherwise the panel's buttons, or an error when the guild has no such channel |
| Tickets.AlertOwner | index.js:513-533 | pings exactly on a message in a `ticket-` channel from a non-bot staff member who is not the owner |
| Lifecycle.DefaultsOnFirstRead | index.js:29-54 | the first read stores and returns the documented default values |
| Lifecycle.GetGuildSettingsIdempotent | index.js:29-54 | a second read returns the same record and creates nothing |
| Lifecycle.EditThenRead | index.js:363-511 | after an edit, a read sees the record with exactly that one field changed |
| Lifecycle.EditBeforeFirstReadIsLost | index.js:367 | an edit made before the first read is not kept, because the update does not upsert |
| Lifecycle.EmptyLabelIsNotRejected | index.js:74-92 | a valid slot whose label is empty still opens a ticket |
| Lifecycle.SecondOpenIsRefused | index.js:119-123 | after a successful open, the same user's next open is refused and changes nothing |
| Lifecycle.CloseRenamesOpenName | index.js:230 | `close` renames `ticket-<u>` to `closed-<u>` |
| Lifecycle.OpenCloseRoundTrip | index.js:147-258 | open then close restores the guild's list, clears the user's record and lets the user open again |
| Lifecycle.OpenThenClose | index.js:147-258 | closing a freshly opened ticket renames it `closed-<u>` and gives the guild's list back exactly |
| Lifecycle.CloseAndRemoveAgreeOnRegistry | index.js:538-546 | `close` and `removeDBTicket` pass the same gate and leave the same registry |
| Lifecycle.RemoveAfterOpenRestoresRegistry | index.js:535-554 | `removeDBTicket` on the new channel undoes the open's registry write |
| Lifecycle.FullLifecycle | index.js:130-284 | open, close, delete leave the channels and the guild's list as they were |
| Lifecycle.StaffReplyPingsOwner | index.js:518-521 | in a fresh ticket, a reply from another staff member pings the owner |
| Lifecycle.IgnoredOutsideOpenTickets | index.js:518 | a message in a channel without `ticket-` never pings |
| Lifecycle.ClosedNameHidesOpenMarker | index.js:518 | `closed-<u>` contains `ticket-` only if `u` does |
| Lifecycle.ClosedTicketStopsAlerts | index.js:513-533 | after close of a channel named `ticket-<u>` where `u` itself has no `ticket-`, no message in the channel pings the former owner (a username containing `ticket-` keeps the closed channel open to pings) |
| Lifecycle.PanelButtonsOpenTheirSlot | index.js:291-341 | every panel button names a slot 1 to 5 labelled with its caption, so `open` never calls its id invalid |
| Lifecycle.DeleteAcceptsOpenTicketOfClosedUsername | index.js:271 | the substring gate deletes an open ticket whose username contains `closed-` and strands the owner's record |
| Lifecycle.ClosedPrefixAddsNoClosedMarker | index.js:230 | renaming a leading `ticket` to `closed` adds no `closed-` when the rest of the name does not start with `-` |
| Lifecycle.CloseRenamesFirstTicket | index.js:185-230 | a channel `ticket<x>` with `x` not starting with `-`, containing `ticket-` and free of `closed-` (e.g. `tickets-ticket-a`) becomes `closed<x>`, still looks open and cannot be deleted |
| Traces.GetGuildSettingsPreserves | index.js:29-54 | a lazily created record is stored under its own guild id |
| Traces.OpenKeepsSettingsKeyed | index.js:64 | open keeps every record under its own guild id |
| Traces.OpenKeepsAuthorsUnique | index.js:119-171 | open keeps at most one record per author in each guild |
| Traces.OpenPreserves | index.js:61-180 | open keeps the store well formed |
| Traces.ClosePreserves | index.js:182-265 | close keeps the store well formed |
| Traces.RemoveDBTicketPreserves | index.js:535-554 | removeDBTicket keeps the store well formed |
| Traces.EditSettingsPreserves | index.js:363-511 | editSettings keeps the store well formed |
| Traces.ApplyPreserves | index.js:556-563 | every exported operation keeps the store well formed |
| Traces.RunPreserves | index.js:556-563 | every sequence of operations keeps the store well formed |
| Traces.OneTicketPerAuthor | index.js:119-123 | from an empty store, no guild's list ever holds two records by one author |

## Left out

- `initialise`, the database connection (index.js:8-22): I/O with no logic to state.
- Transcript generation, the owner's direct message and the log-channel post in `close` (index.js:190-218): foreign calls, modelled as succeeding with no effect on state. The direct message's failure is ignored. A failed fetch of the log channel is caught (index.js:215), and the transcript is then posted into the ticket channel instead (index.js:216), whose failure is ignored too; with the default empty log channel id (index.js:48) this fallback is what happens. A failed `createTranscript` (index.js:193) is not caught and aborts `close`. The log post `c.send` (index.js:213) is not awaited, so its rejection escapes the surrounding `try`.
- The staff-role lookup in `close` (index.js:220-227) and every permission overwrite (index.js:132-145, index.js:233-247): they only feed platform permissions, which the model does not represent.
- Embeds, button styles, emoji, colours and the opening message (index.js:95-108, index.js:151, index.js:344-348): presentation only. So the reason label `open` looks up is not stored anywhere.
- The clearing of the panel channel and the panel post (index.js:353-354): platform side effects. `Setup` returns the buttons it would post.
- The ping message and its deletion after 100 ms in `alertOwner` (index.js:525-527): a timer; the ping leaves no trace in the state.
- Store and platform failures: `getGuildSettings` returning undefined, `Could not fetch ticket ownership status`, `Failed to save ticket to DB` (lost inside `.then` anyway), `Failed to edit DB`, `Failed to delete`, `Could not update database`, the error `removeDBTicket` returns when the channel cannot be read, and a failed transcript, which aborts `close` with no rename and no pull. Every store and platform call is modelled as succeeding.
- `Parent not found` (index.js:111-116): unreachable, because `find` returns undefined rather than throwing.
- Concurrency: the duplicate check is read-then-act (index.js:120 against index.js:161). The model is sequential.
- The parent lookup of `open` (index.js:112) searches every cached channel of the guild, categories or not. The model takes those names from `Guild.cachedChannelNames`, a set not tied to `channels`, and records the found channel's name as the parent. Categories are not part of `channels`.
- Platform normalisation of channel names (for example lower-casing): channel names are stored exactly as given.
- Tickets.EditSettings: requires the value's kind (text or boolean) to match the field's schema type, because the casting of mismatched values is done by the database library, whose code is not part of this model.
- Tickets.Open: requires the new channel id to be unused, which is the platform's guarantee for a channel it creates. The reason id is an integer; a non-number id would fall to the `default` branch like any id outside 1 to 5.
- Tickets.Close: requires the channel to exist, because the source reads its name without a guard. Its guild is taken to be the channel's own guild, which is the guild callers pass.
- Tickets.DeleteTicket: a channel that cannot be inspected is modelled as a channel id no longer present.
- Channel topics that the platform reports as absent are modelled as strings.
