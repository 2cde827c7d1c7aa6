/**
 * commands/ticket.js: the Spanish /setup-tickets and /cerrar-ticket. Setup
 * accepts any text-based channel and records no `enabled` flag.
 */
module TicketCommands {
  import opened Common
  import opened Gateway
  import opened Store

  datatype SetupReply = NotTextBased | Configured | SetupFailed

  method SetupTickets(cfg: BotConfig, guild: GuildId, channel: ChannelRef,
                      category: Option<ChannelRef>, panelSent: bool)
    returns (reply: SetupReply)
    modifies cfg`tickets, cfg`saves
    ensures !IsTextBased(channel.kind) ==> reply == NotTextBased
    ensures IsTextBased(channel.kind) && !panelSent ==> reply == SetupFailed
    ensures IsTextBased(channel.kind) && panelSent ==>
              && reply == Configured
              && cfg.tickets == old(cfg.tickets)[guild := TicketConfig(channel.id, CategoryIdOf(category), None)]
              && cfg.saves == old(cfg.saves) + 1
    ensures reply != Configured ==> cfg.tickets == old(cfg.tickets) && cfg.saves == old(cfg.saves)
    ensures old(cfg.Valid()) ==> cfg.Valid()
  {
    if !IsTextBased(channel.kind) {
      return NotTextBased;
    }
    if !panelSent {
      return SetupFailed;
    }
    cfg.tickets := cfg.tickets[guild := TicketConfig(channel.id, CategoryIdOf(category), None)];
    cfg.Save();
    reply := Configured;
  }

  datatype CloseReply = NotATicket | Closed

  /**
   * /cerrar-ticket: the closure notice is sent first and the channel deleted
   * after it. When the deletion fails the `catch` tries a second reply to an
   * interaction already answered, which Discord refuses: the invoker sees only
   * the notice and the channel stays.
   */
  method CerrarTicket(ch: TicketChannel, deleteSucceeds: bool) returns (reply: CloseReply)
    modifies ch
    ensures reply == NotATicket <==> !IsTicketName(old(ch.name))
    ensures reply == Closed <==> IsTicketName(old(ch.name))
    ensures ch.deleted == (old(ch.deleted) || (reply == Closed && deleteSucceeds))
    ensures ch.name == old(ch.name) && ch.overwrites == old(ch.overwrites)
  {
    if !IsTicketName(ch.name) {
      return NotATicket;
    }
    reply := Closed;
    if deleteSucceeds {
      ch.Delete();
    }
  }
}
