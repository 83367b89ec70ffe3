/**
 The per-guild settings document: seventeen fields, created with fixed defaults
 the first time a guild's settings are read, and updated one field at a time by
 an operator-facing option key.
 */
module GuildSettings {
  import opened Options

  datatype Settings = Settings(
    guildId: string,
    embedTitle: string,
    embedDescription: string,
    embedFooterText: string,
    embedColour: string,
    reason1: string,
    reason2: string,
    reason3: string,
    reason4: string,
    reason5: string,
    staffRoleName: string,
    ticketOpenMessage: string,
    ticketOpenEmbedDescription: string,
    ticketEmbedFooterText: string,
    openCategory: string,
    transcript: bool,
    transcriptLogChannel: string)

  // The longer default texts, named once.
  const DefaultEmbedTitle := "Create a Ticket!"
  const DefaultEmbedDescription := "Press a button below to open a ticket!"
  const DefaultFooterText := "Discord Ticket System - Created by RaulTechSupport"
  const DefaultOpenEmbedDescription := "Please begin writing your query, a member of staff will respond soon!"

  /** The record stored for a guild that has none yet. */
  function Defaults(guildId: string): Settings {
    Settings(
      guildId := guildId,
      embedTitle := DefaultEmbedTitle,
      embedDescription := DefaultEmbedDescription,
      embedFooterText := DefaultFooterText,
      embedColour := "GREY",
      reason1 := "General Support",
      reason2 := "Appeal Support",
      reason3 := "Billing Support",
      reason4 := "",
      reason5 := "",
      staffRoleName := "Staff",
      ticketOpenMessage := "",
      ticketOpenEmbedDescription := DefaultOpenEmbedDescription,
      ticketEmbedFooterText := DefaultFooterText,
      openCategory := "Tickets",
      transcript := true,
      transcriptLogChannel := "")
  }

  /** The sixteen fields an operator can change (every field but the guild id). */
  datatype Field =
    | EmbedTitle | EmbedDescription | EmbedFooterText | EmbedColour
    | Reason1 | Reason2 | Reason3 | Reason4 | Reason5
    | StaffRoleName | TicketOpenMessage | TicketOpenEmbedDescription
    | TicketEmbedFooterText | OpenCategory | Transcript | TranscriptLogChannel

  /** A field's value: the transcript flag is a boolean, every other field a string. */
  datatype Value = Text(text: string) | Flag(flag: bool)

  predicate Fits(f: Field, v: Value) {
    if f == Transcript then v.Flag? else v.Text?
  }

  /** The option key an operator uses to name a field. */
  function OptionKey(f: Field): string {
    match f
    case EmbedTitle => "paneltitle"
    case EmbedDescription => "paneldescription"
    case EmbedFooterText => "embedfooter"
    case EmbedColour => "embedcolour"
    case Reason1 => "reason1"
    case Reason2 => "reason2"
    case Reason3 => "reason3"
    case Reason4 => "reason4"
    case Reason5 => "reason5"
    case StaffRoleName => "staffrole"
    case TicketOpenMessage => "ticketopenmessage"
    case TicketOpenEmbedDescription => "ticketopenembed"
    case TicketEmbedFooterText => "ticketopenembedfooter"
    case OpenCategory => "opencategory"
    case Transcript => "transcript"
    case TranscriptLogChannel => "transcriptlogchannel"
  }

  /** The field an option key selects, in the order the keys are tested; `None` for any other key. */
  function FieldOf(option: string): (r: Option<Field>)
    ensures r.Some? ==> OptionKey(r.value) == option
    ensures r.None? ==> forall f :: OptionKey(f) != option
  {
    if option == "paneltitle" then Some(EmbedTitle)
    else if option == "paneldescription" then Some(EmbedDescription)
    else if option == "embedfooter" then Some(EmbedFooterText)
    else if option == "embedcolour" then Some(EmbedColour)
    else if option == "reason1" then Some(Reason1)
    else if option == "reason2" then Some(Reason2)
    else if option == "reason3" then Some(Reason3)
    else if option == "reason4" then Some(Reason4)
    else if option == "reason5" then Some(Reason5)
    else if option == "staffrole" then Some(StaffRoleName)
    else if option == "ticketopenmessage" then Some(TicketOpenMessage)
    else if option == "ticketopenembed" then Some(TicketOpenEmbedDescription)
    else if option == "ticketopenembedfooter" then Some(TicketEmbedFooterText)
    else if option == "opencategory" then Some(OpenCategory)
    else if option == "transcript" then Some(Transcript)
    else if option == "transcriptlogchannel" then Some(TranscriptLogChannel)
    else None
  }

  /** Every field has its own key, and the key leads back to the field. */
  lemma OptionKeyRoundTrip(f: Field)
    ensures FieldOf(OptionKey(f)) == Some(f)
  {
  }

  function Get(st: Settings, f: Field): (v: Value)
    ensures Fits(f, v)
  {
    match f
    case EmbedTitle => Text(st.embedTitle)
    case EmbedDescription => Text(st.embedDescription)
    case EmbedFooterText => Text(st.embedFooterText)
    case EmbedColour => Text(st.embedColour)
    case Reason1 => Text(st.reason1)
    case Reason2 => Text(st.reason2)
    case Reason3 => Text(st.reason3)
    case Reason4 => Text(st.reason4)
    case Reason5 => Text(st.reason5)
    case StaffRoleName => Text(st.staffRoleName)
    case TicketOpenMessage => Text(st.ticketOpenMessage)
    case TicketOpenEmbedDescription => Text(st.ticketOpenEmbedDescription)
    case TicketEmbedFooterText => Text(st.ticketEmbedFooterText)
    case OpenCategory => Text(st.openCategory)
    case Transcript => Flag(st.transcript)
    case TranscriptLogChannel => Text(st.transcriptLogChannel)
  }

  /** A record is determined by its guild id and the values of its sixteen fields. */
  lemma {:induction false} SettingsExtensional(a: Settings, b: Settings)
    requires a.guildId == b.guildId
    requires forall f :: Get(a, f) == Get(b, f)
    ensures a == b
  {
    assert Get(a, EmbedTitle) == Get(b, EmbedTitle);
    assert Get(a, EmbedDescription) == Get(b, EmbedDescription);
    assert Get(a, EmbedFooterText) == Get(b, EmbedFooterText);
    assert Get(a, EmbedColour) == Get(b, EmbedColour);
    assert Get(a, Reason1) == Get(b, Reason1);
    assert Get(a, Reason2) == Get(b, Reason2);
    assert Get(a, Reason3) == Get(b, Reason3);
    assert Get(a, Reason4) == Get(b, Reason4);
    assert Get(a, Reason5) == Get(b, Reason5);
    assert Get(a, StaffRoleName) == Get(b, StaffRoleName);
    assert Get(a, TicketOpenMessage) == Get(b, TicketOpenMessage);
    assert Get(a, TicketOpenEmbedDescription) == Get(b, TicketOpenEmbedDescription);
    assert Get(a, TicketEmbedFooterText) == Get(b, TicketEmbedFooterText);
    assert Get(a, OpenCategory) == Get(b, OpenCategory);
    assert Get(a, Transcript) == Get(b, Transcript);
    assert Get(a, TranscriptLogChannel) == Get(b, TranscriptLogChannel);
  }

  /** The `$set` of one field: that field takes the new value and nothing else moves. */
  function Set(st: Settings, f: Field, v: Value): (r: Settings)
    requires Fits(f, v)
    ensures Get(r, f) == v
    ensures forall g :: g != f ==> Get(r, g) == Get(st, g)
    ensures r.guildId == st.guildId
  {
    match f
    case EmbedTitle => st.(embedTitle := v.text)
    case EmbedDescription => st.(embedDescription := v.text)
    case EmbedFooterText => st.(embedFooterText := v.text)
    case EmbedColour => st.(embedColour := v.text)
    case Reason1 => st.(reason1 := v.text)
    case Reason2 => st.(reason2 := v.text)
    case Reason3 => st.(reason3 := v.text)
    case Reason4 => st.(reason4 := v.text)
    case Reason5 => st.(reason5 := v.text)
    case StaffRoleName => st.(staffRoleName := v.text)
    case TicketOpenMessage => st.(ticketOpenMessage := v.text)
    case TicketOpenEmbedDescription => st.(ticketOpenEmbedDescription := v.text)
    case TicketEmbedFooterText => st.(ticketEmbedFooterText := v.text)
    case OpenCategory => st.(openCategory := v.text)
    case Transcript => st.(transcript := v.flag)
    case TranscriptLogChannel => st.(transcriptLogChannel := v.text)
  }

  /** The field holding reason slot `n`, for the five slots 1..5. */
  function ReasonField(n: int): (f: Field)
    requires 1 <= n <= 5
    ensures OptionKey(f) == "reason" + [('0' as int + n) as char]
  {
    if n == 1 then Reason1
    else if n == 2 then Reason2
    else if n == 3 then Reason3
    else if n == 4 then Reason4
    else Reason5
  }

  /** The label of reason slot `n`; the empty string marks a disabled slot. */
  function Reason(st: Settings, n: int): (r: string)
    requires 1 <= n <= 5
    ensures Get(st, ReasonField(n)) == Text(r)
  {
    if n == 1 then st.reason1
    else if n == 2 then st.reason2
    else if n == 3 then st.reason3
    else if n == 4 then st.reason4
    else st.reason5
  }
}
