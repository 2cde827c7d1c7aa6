/**
 * commands/welcome.js: /welcome-setup, /welcome-message, /welcome-embed,
 * /welcome-roles and /welcome-test. Each needs the invoker's Manage Server
 * permission. Message, embed and roles edit an existing record of the guild;
 * when the `welcomeConfigs` map itself is missing their lookup throws and
 * the handler's own error reply is sent.
 */
module WelcomeCommands {
  import opened Common
  import opened Store
  import opened Index

  const DefaultMessage: string := "¡Bienvenido {user} a {server}!"

  /** The record /welcome-setup writes, whatever the guild had before. */
  function DefaultWelcome(channelId: ChannelId): (r: WelcomeConfig)
    ensures r.channelId == channelId && r.message == DefaultMessage
    ensures r.embedEnabled && r.pingUser && r.roles == [] && r.embedImage == None
    ensures r.embedTitle == "¡Bienvenido!" && r.embedColor == "#00ff00"
  {
    WelcomeConfig(channelId, DefaultMessage, true, "¡Bienvenido!", "#00ff00", None, true, [])
  }

  function ConfigsOrEmpty(configs: Option<map<GuildId, WelcomeConfig>>): map<GuildId, WelcomeConfig>
  {
    if configs.Some? then configs.value else map[]
  }

  datatype WelcomeReply = NoPermission | NoRecord | Updated | Failed

  /** /welcome-setup: creates the map if needed and replaces the guild's record by the defaults. */
  method Setup(cfg: BotConfig, guild: GuildId, hasManageGuild: bool, channel: ChannelId)
    returns (reply: WelcomeReply)
    modifies cfg`welcomeConfigs, cfg`saves
    ensures !hasManageGuild ==> reply == NoPermission && cfg.welcomeConfigs == old(cfg.welcomeConfigs) && cfg.saves == old(cfg.saves)
    ensures hasManageGuild ==>
              && reply == Updated
              && cfg.welcomeConfigs == Some(ConfigsOrEmpty(old(cfg.welcomeConfigs))[guild := DefaultWelcome(channel)])
              && cfg.saves == old(cfg.saves) + 1
    ensures old(cfg.Valid()) ==> cfg.Valid()
  {
    if !hasManageGuild {
      return NoPermission;
    }
    var configs := if cfg.welcomeConfigs.Some? then cfg.welcomeConfigs.value else map[];
    cfg.welcomeConfigs := Some(configs[guild := DefaultWelcome(channel)]);
    cfg.Save();
    reply := Updated;
  }

  /** Which of the three outcomes an edit of an existing record has before it writes anything. */
  function EditGuard(hasManageGuild: bool, configs: Option<map<GuildId, WelcomeConfig>>, guild: GuildId): (r: Option<WelcomeReply>)
    ensures r.None? <==> hasManageGuild && configs.Some? && guild in configs.value
    ensures !hasManageGuild ==> r == Some(NoPermission)
    ensures hasManageGuild && configs.None? ==> r == Some(Failed)
    ensures hasManageGuild && configs.Some? && guild !in configs.value ==> r == Some(NoRecord)
  {
    if !hasManageGuild then Some(NoPermission)
    else if configs.None? then Some(Failed)
    else if guild !in configs.value then Some(NoRecord)
    else None
  }

  /**
   * /welcome-message: only the `message` field changes; the preview shown to
   * the invoker is the same substitution a real join gets.
   */
  method SetMessage(cfg: BotConfig, invoker: JoinEvent, hasManageGuild: bool, message: string)
    returns (reply: WelcomeReply, preview: Option<string>)
    modifies cfg`welcomeConfigs, cfg`saves
    ensures var guard := EditGuard(hasManageGuild, old(cfg.welcomeConfigs), invoker.guild);
            && (guard.Some? ==>
                  reply == guard.value && preview == None
                  && cfg.welcomeConfigs == old(cfg.welcomeConfigs) && cfg.saves == old(cfg.saves))
            && (guard.None? ==>
                  var old_ := old(cfg.welcomeConfigs).value;
                  && reply == Updated
                  && cfg.welcomeConfigs == Some(old_[invoker.guild := old_[invoker.guild].(message := message)])
                  && preview == Some(Substitute(message, Mention(invoker.user), invoker.username, invoker.serverName, invoker.memberCount))
                  && cfg.saves == old(cfg.saves) + 1)
    ensures old(cfg.Valid()) ==> cfg.Valid()
  {
    var guard := EditGuard(hasManageGuild, cfg.welcomeConfigs, invoker.guild);
    if guard.Some? {
      return guard.value, None;
    }
    var configs := cfg.welcomeConfigs.value;
    cfg.welcomeConfigs := Some(configs[invoker.guild := configs[invoker.guild].(message := message)]);
    cfg.Save();
    preview := Some(Substitute(message, Mention(invoker.user), invoker.username, invoker.serverName, invoker.memberCount));
    reply := Updated;
  }

  /**
   * The fields /welcome-embed changes: each string option only when given and
   * not empty, each boolean option whenever given (so `false` is stored).
   */
  function WithEmbedOptions(c: WelcomeConfig, color: Option<string>, title: Option<string>, image: Option<string>,
                            enabled: Option<bool>, ping: Option<bool>): (r: WelcomeConfig)
    ensures r.embedColor == (if Truthy(color) then color.value else c.embedColor)
    ensures r.embedTitle == (if Truthy(title) then title.value else c.embedTitle)
    ensures r.embedImage == (if Truthy(image) then image else c.embedImage)
    ensures r.embedEnabled == (if enabled.Some? then enabled.value else c.embedEnabled)
    ensures r.pingUser == (if ping.Some? then ping.value else c.pingUser)
    ensures r.channelId == c.channelId && r.message == c.message && r.roles == c.roles
  {
    c.(embedColor := OrDefault(color, c.embedColor),
       embedTitle := OrDefault(title, c.embedTitle),
       embedImage := if Truthy(image) then image else c.embedImage,
       embedEnabled := if enabled.Some? then enabled.value else c.embedEnabled,
       pingUser := if ping.Some? then ping.value else c.pingUser)
  }

  /** Repeating the same /welcome-embed changes nothing more. */
  lemma EmbedOptionsIdempotent(c: WelcomeConfig, color: Option<string>, title: Option<string>, image: Option<string>,
                               enabled: Option<bool>, ping: Option<bool>)
    ensures var once := WithEmbedOptions(c, color, title, image, enabled, ping);
            WithEmbedOptions(once, color, title, image, enabled, ping) == once
  {
  }

  /** /welcome-embed with no options at all leaves the record as it was (it is still saved). */
  lemma EmbedWithoutOptions(c: WelcomeConfig)
    ensures WithEmbedOptions(c, None, None, None, None, None) == c
  {
  }

  method SetEmbed(cfg: BotConfig, guild: GuildId, hasManageGuild: bool,
                  color: Option<string>, title: Option<string>, image: Option<string>,
                  enabled: Option<bool>, ping: Option<bool>)
    returns (reply: WelcomeReply)
    modifies cfg`welcomeConfigs, cfg`saves
    ensures var guard := EditGuard(hasManageGuild, old(cfg.welcomeConfigs), guild);
            && (guard.Some? ==>
                  reply == guard.value
                  && cfg.welcomeConfigs == old(cfg.welcomeConfigs) && cfg.saves == old(cfg.saves))
            && (guard.None? ==>
                  var old_ := old(cfg.welcomeConfigs).value;
                  && reply == Updated
                  && cfg.welcomeConfigs == Some(old_[guild := WithEmbedOptions(old_[guild], color, title, image, enabled, ping)])
                  && cfg.saves == old(cfg.saves) + 1)
    ensures old(cfg.Valid()) ==> cfg.Valid()
  {
    var guard := EditGuard(hasManageGuild, cfg.welcomeConfigs, guild);
    if guard.Some? {
      return guard.value;
    }
    var configs := cfg.welcomeConfigs.value;
    cfg.welcomeConfigs := Some(configs[guild := WithEmbedOptions(configs[guild], color, title, image, enabled, ping)]);
    cfg.Save();
    reply := Updated;
  }

  /** `[rol1, rol2, rol3].filter(r => r !== null).map(r => r.id)`. */
  function SelectedRoles(rol1: Option<RoleId>, rol2: Option<RoleId>, rol3: Option<RoleId>): (r: seq<RoleId>)
    ensures |r| <= 3
    ensures |r| == (if rol1.Some? then 1 else 0) + (if rol2.Some? then 1 else 0) + (if rol3.Some? then 1 else 0)
    ensures rol1.Some? ==> r[0] == rol1.value
    ensures rol2.Some? ==> r[if rol1.Some? then 1 else 0] == rol2.value
    ensures rol3.Some? ==> r[|r| - 1] == rol3.value
    ensures forall x | x in r :: Some(x) in [rol1, rol2, rol3]
  {
    (if rol1.Some? then [rol1.value] else [])
    + (if rol2.Some? then [rol2.value] else [])
    + (if rol3.Some? then [rol3.value] else [])
  }

  /** /welcome-roles: the role list is replaced by the roles given, in option order. */
  method SetRoles(cfg: BotConfig, guild: GuildId, hasManageGuild: bool,
                  rol1: Option<RoleId>, rol2: Option<RoleId>, rol3: Option<RoleId>)
    returns (reply: WelcomeReply)
    modifies cfg`welcomeConfigs, cfg`saves
    ensures var guard := EditGuard(hasManageGuild, old(cfg.welcomeConfigs), guild);
            && (guard.Some? ==>
                  reply == guard.value
                  && cfg.welcomeConfigs == old(cfg.welcomeConfigs) && cfg.saves == old(cfg.saves))
            && (guard.None? ==>
                  var old_ := old(cfg.welcomeConfigs).value;
                  && reply == Updated
                  && cfg.welcomeConfigs == Some(old_[guild := old_[guild].(roles := SelectedRoles(rol1, rol2, rol3))])
                  && cfg.saves == old(cfg.saves) + 1)
    ensures old(cfg.Valid()) ==> cfg.Valid()
  {
    var guard := EditGuard(hasManageGuild, cfg.welcomeConfigs, guild);
    if guard.Some? {
      return guard.value;
    }
    var configs := cfg.welcomeConfigs.value;
    cfg.welcomeConfigs := Some(configs[guild := configs[guild].(roles := SelectedRoles(rol1, rol2, rol3))]);
    cfg.Save();
    reply := Updated;
  }

  datatype TestReply = TestNoPermission | TestNotConfigured | TestSent(join: JoinOutcome)

  /**
   * /welcome-test: with a record for the guild it runs the join listener for
   * the invoker and reports the test as sent, whatever the listener did. The
   * configuration is not changed.
   */
  method Test(cfg: BotConfig, invoker: JoinEvent, hasManageGuild: bool,
              channelCached: bool, roleCache: set<RoleId>, sendSucceeds: bool)
    returns (reply: TestReply)
    ensures !hasManageGuild ==> reply == TestNoPermission
    ensures hasManageGuild && (cfg.welcomeConfigs.None? || invoker.guild !in cfg.welcomeConfigs.value) ==>
              reply == TestNotConfigured
    ensures reply.TestSent? <==> hasManageGuild && cfg.welcomeConfigs.Some? && invoker.guild in cfg.welcomeConfigs.value
    ensures reply.TestSent? ==>
              && reply.join == OnMemberJoin(cfg.welcomeConfigs, invoker, channelCached, roleCache, sendSucceeds)
              && reply.join != NotConfigured
  {
    if !hasManageGuild {
      return TestNoPermission;
    }
    if cfg.welcomeConfigs.None? || invoker.guild !in cfg.welcomeConfigs.value {
      return TestNotConfigured;
    }
    reply := TestSent(OnMemberJoin(cfg.welcomeConfigs, invoker, channelCached, roleCache, sendSucceeds));
  }

  /** Right after /welcome-setup a join is greeted with an embed that mentions the member and uses the default text. */
  lemma GreetingAfterSetup(configs: Option<map<GuildId, WelcomeConfig>>, channel: ChannelId, e: JoinEvent)
    ensures var after := Some(ConfigsOrEmpty(configs)[e.guild := DefaultWelcome(channel)]);
            var r := OnMemberJoin(after, e, true, {}, true);
            && r.Greeted?
            && r.greeting.EmbedGreeting?
            && r.greeting.content == Some(Mention(e.user))
            && r.greeting.title == "¡Bienvenido!"
            && r.greeting.description == Substitute(DefaultMessage, Mention(e.user), e.username, e.serverName, e.memberCount)
            && r.rolesAdded == []
  {
  }
}
