/**
 * commands/moderation/ban.js: the English /ban. The audit-log reason sent to
 * Discord names the moderator; the reason logged in `modActions` is the raw one.
 */
module BanCommand {
  import opened Common
  import opened Gateway
  import opened Text
  import opened Store

  const DefaultReason: string := "No reason provided"

  /** The reason handed to the ban call: `${reason} (Banned by ${tag})`. */
  function AuditReason(reason: string, moderatorTag: string): (r: string)
    ensures StartsWith(r, reason)
    ensures r[|reason|..] == " (Banned by " + moderatorTag + ")"
  {
    reason + " (Banned by " + moderatorTag + ")"
  }

  datatype BanReply = BotCannotBan | Banned(reason: string, days: int) | BanFailed

  method Ban(cfg: BotConfig, guild: GuildId, target: UserId, moderator: UserId, moderatorTag: string,
             reasonOption: Option<string>, daysOption: Option<int>,
             botCanBan: bool, banSucceeds: bool, now: string)
    returns (call: Option<GatewayCall>, reply: BanReply)
    requires daysOption.Some? ==> 0 <= daysOption.value <= 7
    modifies cfg`modActions, cfg`saves
    ensures var reason := OrDefault(reasonOption, DefaultReason);
            var days := if daysOption.Some? then daysOption.value else 0;
            && (!botCanBan ==> call == None && reply == BotCannotBan)
            && (botCanBan ==> call == Some(BanMember(target, AuditReason(reason, moderatorTag), days)))
            && (botCanBan && !banSucceeds ==> reply == BanFailed)
            && (botCanBan && banSucceeds ==>
                  && reply == Banned(reason, days)
                  && cfg.modActions == WithAction(old(cfg.modActions), guild, ModAction(ActionKind.Ban, target, moderator, reason, now)))
    ensures !reply.Banned? ==> cfg.modActions == old(cfg.modActions) && cfg.saves == old(cfg.saves)
    ensures reply.Banned? ==> cfg.saves == old(cfg.saves) + 1
    ensures old(cfg.Valid()) ==> cfg.Valid()
  {
    var reason := OrDefault(reasonOption, DefaultReason);
    var days := if daysOption.Some? then daysOption.value else 0;
    if !botCanBan {
      return None, BotCannotBan;
    }
    call := Some(BanMember(target, AuditReason(reason, moderatorTag), days));
    if !banSucceeds {
      return call, BanFailed;
    }
    cfg.modActions := WithAction(cfg.modActions, guild, ModAction(ActionKind.Ban, target, moderator, reason, now));
    cfg.Save();
    reply := Banned(reason, days);
  }
}
