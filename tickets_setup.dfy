/**
 * commands/tickets/setup.js: /ticket-setup posts the ticket panel in a plain
 * text channel and, once the panel is sent, records the guild's ticket
 * configuration with `enabled: true`.
 */
module TicketSetupCommand {
  import opened Common
  import opened Gateway
  import opened Store

  datatype SetupReply = NotAText | SetUp | SetupFailed

  method SetupTicketSystem(cfg: BotConfig, guild: GuildId, channel: ChannelRef,
                           category: Option<ChannelRef>, panelSent: bool)
    returns (reply: SetupReply)
    modifies cfg`tickets, cfg`saves
    ensures channel.kind != GuildText ==> reply == NotAText
    ensures channel.kind == GuildText && !panelSent ==> reply == SetupFailed
    ensures channel.kind == GuildText && panelSent ==>
              && reply == SetUp
              && cfg.tickets == old(cfg.tickets)[guild := TicketConfig(channel.id, CategoryIdOf(category), Some(true))]
              && cfg.saves == old(cfg.saves) + 1
    ensures reply != SetUp ==> cfg.tickets == old(cfg.tickets) && cfg.saves == old(cfg.saves)
    ensures old(cfg.Valid()) ==> cfg.Valid()
  {
    if channel.kind != GuildText {
      return NotAText;
    }
    if !panelSent {
      return SetupFailed;
    }
    cfg.tickets := cfg.tickets[guild := TicketConfig(channel.id, CategoryIdOf(category), Some(true))];
    cfg.Save();
    reply := SetUp;
  }
}
