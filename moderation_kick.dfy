/**
 * commands/moderation/kick.js: the English /kick. Permission first, then the
 * member cache; the kick carries `${reason} (Kicked by ${tag})`.
 */
module KickCommand {
  import opened Common
  import opened Gateway
  import opened Text
  import opened Store

  const DefaultReason: string := "No reason provided"

  function AuditReason(reason: string, moderatorTag: string): (r: string)
    ensures StartsWith(r, reason)
    ensures r[|reason|..] == " (Kicked by " + moderatorTag + ")"
  {
    reason + " (Kicked by " + moderatorTag + ")"
  }

  datatype KickReply = BotCannotKick | KickTargetMissing | Kicked(reason: string) | KickFailed

  method Kick(cfg: BotConfig, guild: GuildId, target: UserId, moderator: UserId, moderatorTag: string,
              reasonOption: Option<string>, botCanKick: bool, targetCached: bool,
              kickSucceeds: bool, now: string)
    returns (call: Option<GatewayCall>, reply: KickReply)
    modifies cfg`modActions, cfg`saves
    ensures var reason := OrDefault(reasonOption, DefaultReason);
            && (!botCanKick ==> call == None && reply == BotCannotKick)
            && (botCanKick && !targetCached ==> call == None && reply == KickTargetMissing)
            && (botCanKick && targetCached ==> call == Some(KickMember(target, AuditReason(reason, moderatorTag))))
            && (botCanKick && targetCached && !kickSucceeds ==> reply == KickFailed)
            && (botCanKick && targetCached && kickSucceeds ==>
                  && reply == Kicked(reason)
                  && cfg.modActions == WithAction(old(cfg.modActions), guild, ModAction(ActionKind.Kick, target, moderator, reason, now)))
    ensures !reply.Kicked? ==> cfg.modActions == old(cfg.modActions) && cfg.saves == old(cfg.saves)
    ensures reply.Kicked? ==> cfg.saves == old(cfg.saves) + 1
    ensures old(cfg.Valid()) ==> cfg.Valid()
  {
    var reason := OrDefault(reasonOption, DefaultReason);
    if !botCanKick {
      return None, BotCannotKick;
    }
    if !targetCached {
      return None, KickTargetMissing;
    }
    call := Some(KickMember(target, AuditReason(reason, moderatorTag)));
    if !kickSucceeds {
      return call, KickFailed;
    }
    cfg.modActions := WithAction(cfg.modActions, guild, ModAction(ActionKind.Kick, target, moderator, reason, now));
    cfg.Save();
    reply := Kicked(reason);
  }
}
