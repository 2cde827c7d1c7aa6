/**
 * commands/moderation.js: the Spanish /ban, /kick, /warn, /warns and
 * /clearwarns handlers. Ban and kick log to `modActions`; the warn handlers
 * keep the per-user ledger `warns[guild][user]`.
 */
module ModerationCommands {
  import opened Common
  import opened Gateway
  import opened Store

  const DefaultReason: string := "No se especificó razón"

  /** `getInteger('dias') || 0`; the option schema keeps a given value within 0..7. */
  function DaysOrZero(days: Option<int>): (r: int)
    requires days.Some? ==> 0 <= days.value <= 7
    ensures 0 <= r <= 7
    ensures days.Some? ==> r == days.value
    ensures days.None? ==> r == 0
  {
    if days.Some? then days.value else 0
  }

  datatype BanReply = BotCannotBan | Banned(reason: string, days: int) | BanFailed

  /**
   * /ban: without the bot's BanMembers permission nothing happens; otherwise the
   * ban is requested, and only when it succeeds is one record logged.
   */
  method Ban(cfg: BotConfig, guild: GuildId, target: UserId, moderator: UserId,
             reasonOption: Option<string>, daysOption: Option<int>,
             botCanBan: bool, banSucceeds: bool, now: string)
    returns (call: Option<GatewayCall>, reply: BanReply)
    requires daysOption.Some? ==> 0 <= daysOption.value <= 7
    modifies cfg`modActions, cfg`saves
    ensures var reason := OrDefault(reasonOption, DefaultReason);
            var days := DaysOrZero(daysOption);
            && (!botCanBan ==> call == None && reply == BotCannotBan)
            && (botCanBan ==> call == Some(BanMember(target, reason, days)))
            && (botCanBan && !banSucceeds ==> reply == BanFailed)
            && (botCanBan && banSucceeds ==>
                  && reply == Banned(reason, days)
                  && cfg.modActions == WithAction(old(cfg.modActions), guild, ModAction(ActionKind.Ban, target, moderator, reason, now)))
    ensures !(botCanBan && banSucceeds) ==> cfg.modActions == old(cfg.modActions) && cfg.saves == old(cfg.saves)
    ensures botCanBan && banSucceeds ==> cfg.saves == old(cfg.saves) + 1
    ensures old(cfg.Valid()) ==> cfg.Valid()
  {
    var reason := OrDefault(reasonOption, DefaultReason);
    var days := DaysOrZero(daysOption);
    if !botCanBan {
      return None, BotCannotBan;
    }
    call := Some(BanMember(target, reason, days));
    if !banSucceeds {
      return call, BanFailed;
    }
    cfg.modActions := WithAction(cfg.modActions, guild, ModAction(ActionKind.Ban, target, moderator, reason, now));
    cfg.Save();
    // The direct message to the banned user may fail; that failure is caught and changes nothing.
    reply := Banned(reason, days);
  }

  datatype KickReply = BotCannotKick | KickTargetMissing | Kicked(reason: string) | KickFailed

  /** /kick: the bot's KickMembers permission is checked before the member cache. */
  method Kick(cfg: BotConfig, guild: GuildId, target: UserId, moderator: UserId,
              reasonOption: Option<string>, botCanKick: bool, targetCached: bool,
              kickSucceeds: bool, now: string)
    returns (call: Option<GatewayCall>, reply: KickReply)
    modifies cfg`modActions, cfg`saves
    ensures var reason := OrDefault(reasonOption, DefaultReason);
            && (!botCanKick ==> call == None && reply == BotCannotKick)
            && (botCanKick && !targetCached ==> call == None && reply == KickTargetMissing)
            && (botCanKick && targetCached ==> call == Some(KickMember(target, reason)))
            && (botCanKick && targetCached && !kickSucceeds ==> reply == KickFailed)
            && (botCanKick && targetCached && kickSucceeds ==>
                  && reply == Kicked(reason)
                  && cfg.modActions == WithAction(old(cfg.modActions), guild, ModAction(ActionKind.Kick, target, moderator, reason, now)))
    ensures !reply.Kicked? ==> cfg.modActions == old(cfg.modActions) && cfg.saves == old(cfg.saves)
    ensures reply.Kicked? ==> cfg.saves == old(cfg.saves) + 1
    ensures old(cfg.Valid()) ==> cfg.Valid()
  {
    var reason := OrDefault(reasonOption, DefaultReason);
    if !botCanKick {
      return None, BotCannotKick;
    }
    if !targetCached {
      return None, KickTargetMissing;
    }
    call := Some(KickMember(target, reason));
    if !kickSucceeds {
      return call, KickFailed;
    }
    cfg.modActions := WithAction(cfg.modActions, guild, ModAction(ActionKind.Kick, target, moderator, reason, now));
    cfg.Save();
    reply := Kicked(reason);
  }

  datatype WarnReply = WarnTargetMissing | Warned(total: nat)

  /** /warn: appends to the user's list and reports its new length; nothing goes to `modActions`. */
  method Warn(cfg: BotConfig, guild: GuildId, target: UserId, moderator: UserId,
              reason: string, targetCached: bool, now: string)
    returns (reply: WarnReply)
    modifies cfg`warns, cfg`saves
    ensures !targetCached ==> reply == WarnTargetMissing && cfg.warns == old(cfg.warns) && cfg.saves == old(cfg.saves)
    ensures targetCached ==>
              && cfg.warns == WithWarning(old(cfg.warns), guild, target, WarnRecord(reason, moderator, now))
              && cfg.saves == old(cfg.saves) + 1
              && reply == Warned(|Warnings(old(cfg.warns), guild, target)| + 1)
              && reply.total == |Warnings(cfg.warns, guild, target)|
    ensures old(cfg.Valid()) ==> cfg.Valid()
  {
    if !targetCached {
      return WarnTargetMissing;
    }
    if WarnListsNonEmpty(cfg.warns) {
      WarningKeepsListsNonEmpty(cfg.warns, guild, target, WarnRecord(reason, moderator, now));
    }
    cfg.warns := WithWarning(cfg.warns, guild, target, WarnRecord(reason, moderator, now));
    cfg.Save();
    reply := Warned(|cfg.warns[guild][target]|);
  }

  datatype WarnsReply = NoWarnings | WarnList(total: nat, entries: seq<WarnEntry>)

  /**
   * /warns: read-only. A missing list gets the "no warnings" reply; a present
   * one, even empty, is listed in stored order and numbered from 1.
   */
  method Warns(cfg: BotConfig, guild: GuildId, target: UserId) returns (reply: WarnsReply)
    ensures !HasWarnList(cfg.warns, guild, target) <==> reply == NoWarnings
    ensures reply.WarnList? ==>
              var list := Warnings(cfg.warns, guild, target);
              && reply.total == |list| == |reply.entries|
              && forall i | 0 <= i < |list| ::
                   reply.entries[i] == WarnEntry(i + 1, list[i].reason, Mention(list[i].moderator), list[i].date)
  {
    if !(guild in cfg.warns && target in cfg.warns[guild]) {
      return NoWarnings;
    }
    var list := cfg.warns[guild][target];
    var entries: seq<WarnEntry> := [];
    var i := 0;
    while i < |list|
      invariant 0 <= i <= |list| && |entries| == i
      invariant forall k | 0 <= k < i ::
                  entries[k] == WarnEntry(k + 1, list[k].reason, Mention(list[k].moderator), list[k].date)
    {
      entries := entries + [WarnEntry(i + 1, list[i].reason, Mention(list[i].moderator), list[i].date)];
      i := i + 1;
    }
    reply := WarnList(|list|, entries);
  }

  datatype ClearReply = NothingToClear | Cleared(count: nat)

  /** /clearwarns: reports how many warnings the user had and removes only that user's key. */
  method ClearWarns(cfg: BotConfig, guild: GuildId, target: UserId) returns (reply: ClearReply)
    modifies cfg`warns, cfg`saves
    ensures !HasWarnList(old(cfg.warns), guild, target) ==>
              reply == NothingToClear && cfg.warns == old(cfg.warns) && cfg.saves == old(cfg.saves)
    ensures HasWarnList(old(cfg.warns), guild, target) ==>
              && reply == Cleared(|Warnings(old(cfg.warns), guild, target)|)
              && cfg.warns == WithoutWarnings(old(cfg.warns), guild, target)
              && cfg.saves == old(cfg.saves) + 1
    ensures old(cfg.Valid()) ==> cfg.Valid()
  {
    if !(guild in cfg.warns && target in cfg.warns[guild]) {
      return NothingToClear;
    }
    var count := |cfg.warns[guild][target]|;
    cfg.warns := cfg.warns[guild := cfg.warns[guild] - {target}];
    cfg.Save();
    reply := Cleared(count);
  }
}
