/**
 The ticket panel's buttons: one per non-empty reason slot, in slot order,
 each carrying the custom id `ticketOpen<n>` and the slot's label.
 */
module Panel {
  import opened GuildSettings

  datatype Button = Button(customId: string, caption: string)

  /** The custom id of the button for slot `n`. */
  function CustomId(n: int): string
    requires 1 <= n <= 5
  {
    "ticketOpen" + [('0' as int + n) as char]
  }

  /** Reads the slot number back from a custom id; 0 when it is not a slot button's id. */
  function SlotOf(customId: string): (n: int)
    ensures 0 <= n <= 9
  {
    if |customId| == 11 && customId[..10] == "ticketOpen" && '0' <= customId[10] <= '9'
    then customId[10] as int - '0' as int
    else 0
  }

  /** Each slot's custom id names that slot, so no two slots share an id. */
  lemma SlotOfCustomId(n: int)
    requires 1 <= n <= 5
    ensures SlotOf(CustomId(n)) == n
  {
    var id := CustomId(n);
    assert id[..10] == "ticketOpen";
  }

  /** `b` is the button slot `n` contributes: the slot is enabled and `b` carries its id and label. */
  predicate IsSlotButton(st: Settings, b: Button, n: int) {
    1 <= n <= 5 && Reason(st, n) != "" && b == Button(CustomId(n), Reason(st, n))
  }

  /** Every button of `bs` is the button of an enabled slot numbered `n` or more. */
  predicate SlotButtonsFrom(st: Settings, bs: seq<Button>, n: int) {
    forall i :: 0 <= i < |bs| ==> n <= SlotOf(bs[i].customId) && IsSlotButton(st, bs[i], SlotOf(bs[i].customId))
  }

  /** The slot numbers of `bs` strictly increase. */
  predicate InSlotOrder(bs: seq<Button>) {
    forall i, j :: 0 <= i < j < |bs| ==> SlotOf(bs[i].customId) < SlotOf(bs[j].customId)
  }

  /** Putting slot `n`'s button in front of the buttons of the later slots keeps both properties. */
  lemma ConsSlotButton(st: Settings, n: int, rest: seq<Button>)
    requires 1 <= n <= 5 && Reason(st, n) != ""
    requires SlotButtonsFrom(st, rest, n + 1) && InSlotOrder(rest)
    ensures var bs := [Button(CustomId(n), Reason(st, n))] + rest;
            SlotButtonsFrom(st, bs, n) && InSlotOrder(bs)
  {
    var b := Button(CustomId(n), Reason(st, n));
    var bs := [b] + rest;
    SlotOfCustomId(n);
    assert IsSlotButton(st, b, n);
    forall i | 0 <= i < |bs|
      ensures n <= SlotOf(bs[i].customId) && IsSlotButton(st, bs[i], SlotOf(bs[i].customId))
    {
      if i > 0 {
        assert bs[i] == rest[i - 1];
      }
    }
    forall i, j | 0 <= i < j < |bs| ensures SlotOf(bs[i].customId) < SlotOf(bs[j].customId) {
      assert bs[j] == rest[j - 1];
      if i > 0 {
        assert bs[i] == rest[i - 1];
      }
    }
  }

  /** The buttons of slots `n`..5, in slot order. */
  function ButtonsFrom(st: Settings, n: int): (bs: seq<Button>)
    requires 1 <= n <= 6
    ensures SlotButtonsFrom(st, bs, n)
    ensures InSlotOrder(bs)
    ensures forall k :: n <= k <= 5 && Reason(st, k) != "" ==> Button(CustomId(k), Reason(st, k)) in bs
    decreases 6 - n
  {
    if n == 6 then []
    else
      var rest := ButtonsFrom(st, n + 1);
      if Reason(st, n) == "" then rest
      else
        ConsSlotButton(st, n, rest);
        [Button(CustomId(n), Reason(st, n))] + rest
  }

  /** The panel's buttons: exactly the enabled slots, each once, in order 1 to 5. */
  function PanelButtons(st: Settings): (bs: seq<Button>)
    ensures SlotButtonsFrom(st, bs, 1)
    ensures InSlotOrder(bs)
    ensures forall k :: 1 <= k <= 5 && Reason(st, k) != "" ==> Button(CustomId(k), Reason(st, k)) in bs
    ensures |bs| == 0 <==> forall k :: 1 <= k <= 5 ==> Reason(st, k) == ""
  {
    ButtonsFrom(st, 1)
  }

  /** A guild on default settings gets the three buttons of the three default reasons. */
  lemma DefaultPanel(guildId: string)
    ensures PanelButtons(Defaults(guildId)) ==
              [ Button("ticketOpen1", "General Support"),
                Button("ticketOpen2", "Appeal Support"),
                Button("ticketOpen3", "Billing Support") ]
  {
    var st := Defaults(guildId);
    assert CustomId(1) == "ticketOpen1" && CustomId(2) == "ticketOpen2" && CustomId(3) == "ticketOpen3";
    assert ButtonsFrom(st, 6) == [];
    assert ButtonsFrom(st, 5) == [];
    assert ButtonsFrom(st, 4) == [];
    assert ButtonsFrom(st, 3) == [Button("ticketOpen3", "Billing Support")];
    assert ButtonsFrom(st, 2) == [Button("ticketOpen2", "Appeal Support")] + ButtonsFrom(st, 3);
  }
}
