/**
 The ticket registry: for each guild id, the list of `{authorID, channelID}`
 records of its open tickets, with the three store operations the ticket
 module performs on it — the duplicate query, the upserting `$push` and the
 `$pull` by author.
 */
module TicketRegistry {

  datatype TicketRecord = TicketRecord(authorId: string, channelId: string)

  type Registry = map<string, seq<TicketRecord>>

  /** Some record in `list` belongs to `author`. */
  predicate HasTicket(list: seq<TicketRecord>, author: string) {
    exists i :: 0 <= i < |list| && list[i].authorId == author
  }

  /** The guild's list, or the empty list when the guild has no document. */
  function TicketsOf(reg: Registry, guildId: string): seq<TicketRecord> {
    if guildId in reg then reg[guildId] else []
  }

  /**
   The duplicate query `find({guildID, 'tickets.authorID': author})`: true when
   the guild's document exists and holds a record by `author`.
   */
  function FindsTicket(reg: Registry, guildId: string, author: string): (b: bool)
    ensures b <==> HasTicket(TicketsOf(reg, guildId), author)
  {
    guildId in reg && HasTicket(reg[guildId], author)
  }

  /** `$pull: {tickets: {authorID: author}}` on one list: drop every record by `author`, keep the rest in order. */
  function Pull(list: seq<TicketRecord>, author: string): (r: seq<TicketRecord>)
    ensures !HasTicket(r, author)
    ensures forall x :: x in r <==> x in list && x.authorId != author
    ensures |r| <= |list|
    ensures !HasTicket(list, author) ==> r == list
  {
    if |list| == 0 then []
    else
      var rest := Pull(list[1..], author);
      assert list == [list[0]] + list[1..];
      if list[0].authorId == author then rest else [list[0]] + rest
  }

  /** Pulling distributes over concatenation: the survivors keep their relative order. */
  lemma {:induction false} PullAppend(a: seq<TicketRecord>, b: seq<TicketRecord>, author: string)
    ensures Pull(a + b, author) == Pull(a, author) + Pull(b, author)
    decreases |a|
  {
    if |a| == 0 {
      assert a + b == b;
    } else {
      assert (a + b)[1..] == a[1..] + b;
      assert (a + b)[0] == a[0];
      PullAppend(a[1..], b, author);
    }
  }

  /** Pulling a single record keeps it exactly when it belongs to someone else. */
  lemma PullSingle(x: TicketRecord, author: string)
    ensures Pull([x], author) == if x.authorId == author then [] else [x]
  {
    assert [x][1..] == [];
  }

  /** Pulling twice by the same author is the same as pulling once. */
  lemma {:induction false} PullIdempotent(list: seq<TicketRecord>, author: string)
    ensures Pull(Pull(list, author), author) == Pull(list, author)
  {
  }

  /** `updateOne({guildID}, {$pull ...})`: acts on the guild's list when it exists, never creates one. */
  function PullInGuild(reg: Registry, guildId: string, author: string): (r: Registry)
    ensures r.Keys == reg.Keys
    ensures guildId in reg ==> r[guildId] == Pull(reg[guildId], author)
    ensures forall g :: g in reg && g != guildId ==> r[g] == reg[g]
    ensures !HasTicket(TicketsOf(r, guildId), author)
  {
    if guildId in reg then reg[guildId := Pull(reg[guildId], author)] else reg
  }

  /** `findOneAndUpdate({guildID}, {$push: {tickets: rec}}, {upsert: true})`. */
  function PushInGuild(reg: Registry, guildId: string, rec: TicketRecord): (r: Registry)
    ensures r.Keys == reg.Keys + {guildId}
    ensures |r[guildId]| == |TicketsOf(reg, guildId)| + 1
    ensures r[guildId][..|TicketsOf(reg, guildId)|] == TicketsOf(reg, guildId)
    ensures r[guildId][|TicketsOf(reg, guildId)|] == rec
    ensures forall g :: g in reg && g != guildId ==> r[g] == reg[g]
  {
    reg[guildId := TicketsOf(reg, guildId) + [rec]]
  }

  /** No two records of `list` share an author. */
  predicate DistinctAuthors(list: seq<TicketRecord>) {
    forall i, j :: 0 <= i < j < |list| ==> list[i].authorId != list[j].authorId
  }

  /** At most one record per author in every guild's list. */
  predicate UniqueAuthors(reg: Registry) {
    forall g :: g in reg ==> DistinctAuthors(reg[g])
  }

  /** A pulled list is a subsequence of the original, so it cannot gain a duplicate author. */
  lemma {:induction false} PullKeepsAuthorsDistinct(list: seq<TicketRecord>, author: string)
    requires DistinctAuthors(list)
    ensures DistinctAuthors(Pull(list, author))
  {
    if |list| > 0 {
      var tail := list[1..];
      assert DistinctAuthors(tail);
      PullKeepsAuthorsDistinct(tail, author);
      var rest := Pull(tail, author);
      if list[0].authorId != author {
        assert Pull(list, author) == [list[0]] + rest;
        forall k | 0 <= k < |rest| ensures rest[k].authorId != list[0].authorId {
          assert rest[k] in tail;
          var m :| 0 <= m < |tail| && tail[m] == rest[k];
          assert tail[m] == list[m + 1];
        }
      }
    }
  }

  lemma PullInGuildPreservesUnique(reg: Registry, guildId: string, author: string)
    requires UniqueAuthors(reg)
    ensures UniqueAuthors(PullInGuild(reg, guildId, author))
  {
    if guildId in reg {
      PullKeepsAuthorsDistinct(reg[guildId], author);
    }
  }

  /** Pushing a record for an author who has none keeps every author unique. */
  lemma PushNewAuthorPreservesUnique(reg: Registry, guildId: string, rec: TicketRecord)
    requires UniqueAuthors(reg)
    requires !HasTicket(TicketsOf(reg, guildId), rec.authorId)
    ensures UniqueAuthors(PushInGuild(reg, guildId, rec))
  {
    var before := TicketsOf(reg, guildId);
    var after := before + [rec];
    assert DistinctAuthors(before);
    forall i, j | 0 <= i < j < |after| ensures after[i].authorId != after[j].authorId {
      if j == |before| {
        assert after[i] == before[i];
      }
    }
  }
}
