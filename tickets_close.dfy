/**
 * commands/tickets/close.js: /close-ticket announces the closure and deletes
 * the channel five seconds later; a failed deletion is only logged.
 */
module CloseTicketCommand {
  import opened Gateway

  datatype CloseReply = NotATicket | Closed

  method CloseTicket(ch: TicketChannel, deleteSucceeds: bool) returns (reply: CloseReply)
    modifies ch
    ensures reply == NotATicket <==> !IsTicketName(old(ch.name))
    ensures reply == Closed <==> IsTicketName(old(ch.name))
    ensures ch.deleted == (old(ch.deleted) || (reply == Closed && deleteSucceeds))
    ensures ch.name == old(ch.name) && ch.overwrites == old(ch.overwrites)
  {
    if !IsTicketName(ch.name) {
      return NotATicket;
    }
    reply := Closed;
    if deleteSucceeds {
      ch.Delete();
    }
  }
}
