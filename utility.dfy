/**
 * commands/utility.js: /prefix stores a per-guild prefix of at most two
 * UTF-16 code units. Every reply goes through the handler's fifth argument
 * `t`, which the dispatcher never passes, so each branch ends in the
 * dispatcher's generic error reply; the outcome says which branch ran.
 */
module UtilityCommands {
  import opened Common
  import opened Text
  import opened Store

  /** The `.length > 2` check: JavaScript counts UTF-16 code units, not characters. */
  predicate PrefixTooLong(p: string)
  {
    Utf16Length(p) > 2
  }

  datatype PrefixOutcome = NoPermission | TooLong | StoreMissing | Changed

  /**
   * /prefix: without Manage Server, or with a prefix too long, nothing changes.
   * The `prefixes` map is never created, so when it is missing the write
   * throws and nothing changes either.
   */
  method SetPrefix(cfg: BotConfig, guild: GuildId, hasManageGuild: bool, newPrefix: string)
    returns (outcome: PrefixOutcome)
    modifies cfg`prefixes, cfg`saves
    ensures !hasManageGuild ==> outcome == NoPermission
    ensures hasManageGuild && PrefixTooLong(newPrefix) ==> outcome == TooLong
    ensures hasManageGuild && !PrefixTooLong(newPrefix) && old(cfg.prefixes).None? ==> outcome == StoreMissing
    ensures outcome == Changed <==> hasManageGuild && !PrefixTooLong(newPrefix) && old(cfg.prefixes).Some?
    ensures outcome == Changed ==>
              cfg.prefixes == Some(old(cfg.prefixes).value[guild := newPrefix]) && cfg.saves == old(cfg.saves) + 1
    ensures outcome != Changed ==> cfg.prefixes == old(cfg.prefixes) && cfg.saves == old(cfg.saves)
    ensures old(cfg.Valid()) ==> cfg.Valid()
  {
    if !hasManageGuild {
      return NoPermission;
    }
    if Utf16Length(newPrefix) > 2 {
      return TooLong;
    }
    if cfg.prefixes.None? {
      return StoreMissing;
    }
    cfg.prefixes := Some(cfg.prefixes.value[guild := newPrefix]);
    cfg.Save();
    outcome := Changed;
  }

  /** A prefix of at most two characters is accepted unless a character lies outside the Basic Multilingual Plane. */
  lemma ShortPrefixAccepted(p: string)
    requires |p| <= 2
    requires forall i | 0 <= i < |p| :: p[i] as int <= 0xFFFF
    ensures !PrefixTooLong(p)
  {
    if p != [] {
      var rest := p[1..];
      assert Utf16Length(p) == Utf16Units(p[0]) + Utf16Length(rest);
      if rest != [] {
        assert rest[0] == p[1] && rest[1..] == [];
        assert Utf16Length(rest) == Utf16Units(rest[0]) + Utf16Length(rest[1..]);
      }
    }
  }

  /** Two emoji make a prefix of JavaScript length 4, which is rejected; so are three characters of any kind. */
  lemma LongPrefixRejected(p: string)
    requires |p| > 2 || (|p| == 2 && p[0] as int > 0xFFFF)
    ensures PrefixTooLong(p)
  {
    if |p| == 2 {
      assert Utf16Length(p) == Utf16Units(p[0]) + Utf16Length(p[1..]);
    }
  }
}
