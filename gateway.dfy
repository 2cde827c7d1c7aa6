/**
 * The parts of Discord the handlers see: channel kinds, permission overwrites,
 * the privileged calls they issue, and a ticket channel as a small object.
 * Ticket channels are recognised by name only.
 */
module Gateway {
  import opened Common
  import opened Text

  datatype Permission = ViewChannel | SendMessages | ReadMessageHistory | ManageMessages

  /** One entry of a channel's permission overwrites: what it allows and what it denies. */
  datatype Overwrite = Overwrite(allow: set<Permission>, deny: set<Permission>)

  datatype ChannelKind =
    | GuildText | GuildVoice | GuildCategory | GuildAnnouncement
    | GuildStageVoice | GuildForum | Thread

  /** A channel picked in a command option. */
  datatype ChannelRef = ChannelRef(id: ChannelId, kind: ChannelKind)

  /** discord.js `isTextBased()`: every kind that carries messages; categories and forums do not. */
  predicate IsTextBased(k: ChannelKind)
    ensures k == GuildText ==> IsTextBased(k)
    ensures k == GuildVoice ==> IsTextBased(k)
    ensures k == GuildCategory ==> !IsTextBased(k)
  {
    !(k.GuildCategory? || k.GuildForum?)
  }

  /** `category?.id || null`: the id of the category picked, if one was picked and its id is not empty. */
  function CategoryIdOf(category: Option<ChannelRef>): (r: Option<ChannelId>)
    ensures r.Some? <==> category.Some? && category.value.id != ""
    ensures r.Some? ==> r.value == category.value.id
  {
    if category.Some? && category.value.id != "" then Some(category.value.id) else None
  }

  /** A privileged call made through the gateway, with the audit-log reason it carries. */
  datatype GatewayCall =
    | BanMember(user: UserId, reason: string, deleteMessageDays: int)
    | KickMember(user: UserId, reason: string)

  const TicketPrefix: string := "ticket-"

  /** The name `ticket-${n}` given to the n-th ticket channel of a guild. */
  function TicketName(n: nat): (r: string)
    ensures StartsWith(r, TicketPrefix)
    ensures r[|TicketPrefix|..] == NatToString(n)
  {
    TicketPrefix + NatToString(n)
  }

  /** The `name.startsWith('ticket-')` guard of every close and claim handler. */
  predicate IsTicketName(name: string)
  {
    StartsWith(name, TicketPrefix)
  }

  /** The ticket number a channel name carries, if it is `ticket-` followed by decimal digits. */
  function TicketNumberOf(name: string): Option<nat>
  {
    if IsTicketName(name) && |name| > |TicketPrefix|
       && forall i | |TicketPrefix| <= i < |name| :: IsDigit(name[i])
    then Some(ParseDecimal(name[|TicketPrefix|..]))
    else None
  }

  /** Every created ticket channel passes the close/claim guard, and its name gives back its number. */
  lemma TicketNameRoundTrip(n: nat)
    ensures IsTicketName(TicketName(n))
    ensures TicketNumberOf(TicketName(n)) == Some(n)
  {
    var name := TicketName(n);
    assert name[..|TicketPrefix|] == TicketPrefix;
    assert name[|TicketPrefix|..] == NatToString(n);
    ParseNatToString(n);
  }

  /** Distinct ticket numbers give distinct channel names. */
  lemma TicketNameInjective(n: nat, m: nat)
    requires TicketName(n) == TicketName(m)
    ensures n == m
  {
    TicketNameRoundTrip(n);
    TicketNameRoundTrip(m);
  }

  /**
   * `permissionOverwrites.edit(id, {P: true, ...})`: the granted permissions are
   * allowed and no longer denied; everything else in the entry is kept.
   */
  function Granted(o: Option<Overwrite>, grant: set<Permission>): (r: Overwrite)
    ensures grant <= r.allow && r.deny !! grant
    ensures o.Some? ==> r.allow == o.value.allow + grant && r.deny == o.value.deny - grant
    ensures o.None? ==> r.allow == grant && r.deny == {}
  {
    match o
    case None => Overwrite(grant, {})
    case Some(w) => Overwrite(w.allow + grant, w.deny - grant)
  }

  /** Granting the same permissions twice is the same as granting them once. */
  lemma GrantedIdempotent(o: Option<Overwrite>, grant: set<Permission>)
    ensures Granted(Some(Granted(o, grant)), grant) == Granted(o, grant)
  {
  }

  function EntryOf(m: map<string, Overwrite>, id: string): Option<Overwrite>
  {
    if id in m then Some(m[id]) else None
  }

  /** A ticket channel: its name, its permission overwrites and whether it has been deleted. */
  class TicketChannel {
    var name: string
    var overwrites: map<string, Overwrite>
    var deleted: bool

    constructor (name: string, overwrites: map<string, Overwrite>)
      ensures this.name == name && this.overwrites == overwrites && !deleted
    {
      this.name := name;
      this.overwrites := overwrites;
      deleted := false;
    }

    /** `channel.permissionOverwrites.edit(id, grant)`: only the entry of `id` changes. */
    method EditOverwrite(id: string, grant: set<Permission>)
      modifies this
      ensures overwrites == old(overwrites)[id := Granted(EntryOf(old(overwrites), id), grant)]
      ensures name == old(name) && deleted == old(deleted)
    {
      overwrites := overwrites[id := Granted(EntryOf(overwrites, id), grant)];
    }

    /** `channel.delete()`. */
    method Delete()
      modifies this
      ensures deleted
      ensures name == old(name) && overwrites == old(overwrites)
    {
      deleted := true;
    }
  }
}
