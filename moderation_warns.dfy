/**
 * commands/moderation/warns.js: the English /warnings listing. It only reads
 * the ledger. A missing or empty list gets the "no warnings" reply.
 *
 * Each field names the moderator through `warn.moderatorId`, but every warn
 * handler stores the moderator under `moderator`, so the mention always reads
 * `<@undefined>`. `Listing` models the text as written; `IntendedListing` is
 * the corrected one and shows the stored moderator.
 */
module WarningsCommand {
  import opened Common
  import opened Store

  /** What the template `<@${warn.moderatorId}>` prints for a stored record: the field is absent. */
  const ShownAsWritten: string := Mention("undefined")

  /** The fields of the listing as written, numbered from `first`. */
  function EntriesAsWritten(list: seq<WarnRecord>, first: nat): (r: seq<WarnEntry>)
    ensures |r| == |list|
    ensures forall i | 0 <= i < |list| ::
              r[i] == WarnEntry(first + i, list[i].reason, ShownAsWritten, list[i].date)
    decreases |list|
  {
    if list == [] then []
    else [WarnEntry(first, list[0].reason, ShownAsWritten, list[0].date)] + EntriesAsWritten(list[1..], first + 1)
  }

  /** The fields as evidently intended: the moderator shown is the one stored. */
  function IntendedEntries(list: seq<WarnRecord>, first: nat): (r: seq<WarnEntry>)
    ensures |r| == |list|
    ensures forall i | 0 <= i < |list| ::
              r[i] == WarnEntry(first + i, list[i].reason, Mention(list[i].moderator), list[i].date)
    decreases |list|
  {
    if list == [] then []
    else [WarnEntry(first, list[0].reason, Mention(list[0].moderator), list[0].date)] + IntendedEntries(list[1..], first + 1)
  }

  datatype WarningsReply = NoWarnings | WarnList(total: nat, entries: seq<WarnEntry>)

  /** /warnings as written. */
  function Listing(w: WarnBook, g: GuildId, u: UserId): (r: WarningsReply)
    ensures r == NoWarnings <==> Warnings(w, g, u) == []
    ensures r.WarnList? ==> r.total == |Warnings(w, g, u)| == |r.entries|
  {
    var list := Warnings(w, g, u);
    if |list| == 0 then NoWarnings else WarnList(|list|, EntriesAsWritten(list, 1))
  }

  /** /warnings as evidently intended. */
  function IntendedListing(w: WarnBook, g: GuildId, u: UserId): (r: WarningsReply)
    ensures r == NoWarnings <==> Warnings(w, g, u) == []
    ensures r.WarnList? ==> r.total == |Warnings(w, g, u)| == |r.entries|
  {
    var list := Warnings(w, g, u);
    if |list| == 0 then NoWarnings else WarnList(|list|, IntendedEntries(list, 1))
  }

  /**
   * The listing as written never names who issued a warning: whoever the
   * moderator was (unless their id is literally "undefined"), field i shows
   * someone else.
   */
  lemma ModeratorNotShown(w: WarnBook, g: GuildId, u: UserId, i: nat)
    requires i < |Warnings(w, g, u)|
    requires Warnings(w, g, u)[i].moderator != "undefined"
    ensures Listing(w, g, u).WarnList?
    ensures Listing(w, g, u).entries[i].moderatorShown != Mention(Warnings(w, g, u)[i].moderator)
  {
    var m := Warnings(w, g, u)[i].moderator;
    var shown := Mention(m);
    assert shown[2..|shown| - 1] == m;
    assert ShownAsWritten[2..|ShownAsWritten| - 1] == "undefined";
  }

  /** A concrete input: one warning issued by user "42" is listed as issued by `<@undefined>`. */
  lemma ModeratorLostExample()
    ensures var w: WarnBook := map["g" := map["u" := [WarnRecord("spam", "42", "2024-01-01")]]];
            Listing(w, "g", "u") == WarnList(1, [WarnEntry(1, "spam", "<@undefined>", "2024-01-01")])
            && IntendedListing(w, "g", "u") == WarnList(1, [WarnEntry(1, "spam", "<@42>", "2024-01-01")])
  {
    var rec := WarnRecord("spam", "42", "2024-01-01");
    var w: WarnBook := map["g" := map["u" := [rec]]];
    assert Warnings(w, "g", "u") == [rec];
    assert ShownAsWritten == "<@undefined>";
    assert Mention("42") == "<@42>";
    var a := EntriesAsWritten([rec], 1);
    assert a == [WarnEntry(1, "spam", "<@undefined>", "2024-01-01")];
    var b := IntendedEntries([rec], 1);
    assert b == [WarnEntry(1, "spam", "<@42>", "2024-01-01")];
  }

  /** The two listings differ in the moderator shown and nowhere else. */
  lemma ListingsAgreeElsewhere(w: WarnBook, g: GuildId, u: UserId)
    ensures Listing(w, g, u).NoWarnings? == IntendedListing(w, g, u).NoWarnings?
    ensures Listing(w, g, u).WarnList? ==>
              var a := Listing(w, g, u);
              var b := IntendedListing(w, g, u);
              a.total == b.total
              && forall i | 0 <= i < |a.entries| ::
                   a.entries[i] == b.entries[i].(moderatorShown := ShownAsWritten)
  {
  }

  /** Warnings issued in a row are listed in that order, after the earlier ones. */
  lemma ListingAfterWarnings(w: WarnBook, g: GuildId, u: UserId, recs: seq<WarnRecord>)
    requires recs != []
    ensures IntendedListing(WarnedAll(w, g, u, recs), g, u)
            == WarnList(|Warnings(w, g, u)| + |recs|, IntendedEntries(Warnings(w, g, u) + recs, 1))
  {
    WarnedAllInOrder(w, g, u, recs, g, u);
  }
}
