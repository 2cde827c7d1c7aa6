/**
 * commands/tickets/claim.js: /claim-ticket gives the invoker all four ticket
 * permissions on the channel. The edit is awaited outside any `try`, so a
 * failed edit reaches the dispatcher's generic error reply.
 */
module ClaimTicketCommand {
  import opened Common
  import opened Gateway

  const ClaimGrant: set<Permission> := {ViewChannel, SendMessages, ReadMessageHistory, ManageMessages}

  datatype ClaimReply = NotATicket | Claimed | GenericError

  method ClaimTicket(ch: TicketChannel, claimant: string, editSucceeds: bool) returns (reply: ClaimReply)
    modifies ch
    ensures !IsTicketName(old(ch.name)) ==> reply == NotATicket && ch.overwrites == old(ch.overwrites)
    ensures IsTicketName(old(ch.name)) && !editSucceeds ==> reply == GenericError && ch.overwrites == old(ch.overwrites)
    ensures IsTicketName(old(ch.name)) && editSucceeds ==>
              && reply == Claimed
              && ch.overwrites == AfterClaim(old(ch.overwrites), claimant)
    ensures reply == Claimed ==> ClaimGrant <= ch.overwrites[claimant].allow && ch.overwrites[claimant].deny !! ClaimGrant
    ensures forall id | id in old(ch.overwrites) && id != claimant :: id in ch.overwrites && ch.overwrites[id] == old(ch.overwrites)[id]
    ensures ch.name == old(ch.name) && ch.deleted == old(ch.deleted)
  {
    if !IsTicketName(ch.name) {
      return NotATicket;
    }
    if !editSucceeds {
      return GenericError;
    }
    ch.EditOverwrite(claimant, ClaimGrant);
    reply := Claimed;
  }

  /** The overwrites after a successful claim by `claimant`. */
  function AfterClaim(m: map<string, Overwrite>, claimant: string): map<string, Overwrite>
  {
    m[claimant := Granted(EntryOf(m, claimant), ClaimGrant)]
  }

  /** A second claim by the same user leaves the overwrites as the first left them. */
  lemma ReclaimChangesNothing(m: map<string, Overwrite>, claimant: string)
    ensures AfterClaim(AfterClaim(m, claimant), claimant) == AfterClaim(m, claimant)
  {
    var once := AfterClaim(m, claimant);
    assert EntryOf(once, claimant) == Some(Granted(EntryOf(m, claimant), ClaimGrant));
    GrantedIdempotent(EntryOf(m, claimant), ClaimGrant);
  }

  /** Claims are not exclusive: a later claimant does not take away an earlier one's access. */
  lemma ClaimsAccumulate(m: map<string, Overwrite>, first: string, second: string)
    ensures ClaimGrant <= AfterClaim(AfterClaim(m, first), second)[first].allow
  {
  }
}
