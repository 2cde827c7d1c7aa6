/**
 * commands/moderation/clearwarns.js: the English /clearwarnings. Unlike the
 * Spanish /clearwarns it checks `?.length`, so an empty stored list is
 * answered like a missing one.
 */
module ClearWarningsCommand {
  import opened Common
  import opened Store

  datatype ClearReply = NothingToClear | Cleared(count: nat)

  /** The handler's guard: the user has at least one stored warning. */
  predicate HasWarnings(w: WarnBook, g: GuildId, u: UserId)
  {
    |Warnings(w, g, u)| > 0
  }

  method ClearWarnings(cfg: BotConfig, guild: GuildId, target: UserId) returns (reply: ClearReply)
    modifies cfg`warns, cfg`saves
    ensures !HasWarnings(old(cfg.warns), guild, target) ==>
              reply == NothingToClear && cfg.warns == old(cfg.warns) && cfg.saves == old(cfg.saves)
    ensures HasWarnings(old(cfg.warns), guild, target) ==>
              && reply == Cleared(|Warnings(old(cfg.warns), guild, target)|)
              && reply.count > 0
              && cfg.warns == WithoutWarnings(old(cfg.warns), guild, target)
              && cfg.saves == old(cfg.saves) + 1
    ensures old(cfg.Valid()) ==> cfg.Valid()
  {
    if !(guild in cfg.warns && target in cfg.warns[guild] && |cfg.warns[guild][target]| > 0) {
      return NothingToClear;
    }
    var count := |cfg.warns[guild][target]|;
    cfg.warns := cfg.warns[guild := cfg.warns[guild] - {target}];
    cfg.Save();
    reply := Cleared(count);
  }

  /**
   * On a ledger whose stored lists are all non-empty (what the warn handlers
   * and the clear handlers keep) this guard and the presence guard of the
   * Spanish /clearwarns and /warns agree.
   */
  lemma GuardsAgreeOnWellFormedLedger(w: WarnBook, g: GuildId, u: UserId)
    requires WarnListsNonEmpty(w)
    ensures HasWarnings(w, g, u) <==> HasWarnList(w, g, u)
  {
  }

  /** Without that invariant they part: an empty stored list passes the presence guard only. */
  lemma GuardsDifferOnEmptyList(w: WarnBook, g: GuildId, u: UserId)
    requires HasWarnList(w, g, u) && w[g][u] == []
    ensures !HasWarnings(w, g, u) && HasWarnList(w, g, u)
    ensures !WarnListsNonEmpty(w)
  {
  }

  /** A second /clearwarnings right after a successful one finds nothing. */
  method ClearTwice(cfg: BotConfig, guild: GuildId, target: UserId) returns (first: ClearReply, second: ClearReply)
    modifies cfg`warns, cfg`saves
    ensures second == NothingToClear
    ensures cfg.warns == if HasWarnings(old(cfg.warns), guild, target)
                         then WithoutWarnings(old(cfg.warns), guild, target)
                         else old(cfg.warns)
  {
    first := ClearWarnings(cfg, guild, target);
    second := ClearWarnings(cfg, guild, target);
  }
}
