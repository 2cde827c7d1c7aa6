/** commands/moderation/warn.js: the English /warn; `modActions` is not touched. */
module WarnCommand {
  import opened Common
  import opened Store

  datatype WarnReply = WarnTargetMissing | Warned(total: nat)

  method Warn(cfg: BotConfig, guild: GuildId, target: UserId, moderator: UserId,
              reason: string, targetCached: bool, now: string)
    returns (reply: WarnReply)
    modifies cfg`warns, cfg`saves
    ensures !targetCached ==> reply == WarnTargetMissing && cfg.warns == old(cfg.warns) && cfg.saves == old(cfg.saves)
    ensures targetCached ==>
              && cfg.warns == WithWarning(old(cfg.warns), guild, target, WarnRecord(reason, moderator, now))
              && cfg.saves == old(cfg.saves) + 1
              && reply == Warned(|Warnings(cfg.warns, guild, target)|)
              && reply.total == |Warnings(old(cfg.warns), guild, target)| + 1
    ensures old(cfg.Valid()) ==> cfg.Valid()
  {
    if !targetCached {
      return WarnTargetMissing;
    }
    if WarnListsNonEmpty(cfg.warns) {
      WarningKeepsListsNonEmpty(cfg.warns, guild, target, WarnRecord(reason, moderator, now));
    }
    cfg.warns := WithWarning(cfg.warns, guild, target, WarnRecord(reason, moderator, now));
    cfg.Save();
    reply := Warned(|cfg.warns[guild][target]|);
  }
}
