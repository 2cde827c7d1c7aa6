/**
 * index.js: the command registry and dispatcher, the ticket buttons
 * (create, close, claim) and the welcome sent when a member joins.
 */
module Index {
  import opened Common
  import opened Text
  import opened Gateway
  import opened Store

  // ---------------------------------------------------------------------------
  // Command registry (`client.commands`, a JavaScript Map keyed by name)

  /** The part of a command the registry and the help menu look at. */
  datatype CommandData = CommandData(name: string, description: string)

  function Names(s: seq<CommandData>): (r: seq<string>)
    ensures |r| == |s| && forall i | 0 <= i < |s| :: r[i] == s[i].name
  {
    if s == [] then [] else [s[0].name] + Names(s[1..])
  }

  /** `map.get(name)`: the entry registered under exactly that name. */
  function Find(s: seq<CommandData>, name: string): (r: Option<CommandData>)
    ensures r.Some? <==> name in Names(s)
    ensures r.Some? ==> r.value.name == name && r.value in s
  {
    if s == [] then None
    else if s[0].name == name then Some(s[0])
    else Find(s[1..], name)
  }

  /**
   * `map.set(c.name, c)`: a name already present keeps its place in the
   * iteration order and gets the new command; a new name goes to the end.
   */
  function Upsert(s: seq<CommandData>, c: CommandData): (r: seq<CommandData>)
    ensures c.name in Names(s) ==> Names(r) == Names(s)
    ensures c.name !in Names(s) ==> r == s + [c]
  {
    if s == [] then [c]
    else if s[0].name == c.name then [c] + s[1..]
    else [s[0]] + Upsert(s[1..], c)
  }

  /** After `set`, looking up the name finds the new command; every other name finds what it found before. */
  lemma {:induction false} FindUpsert(s: seq<CommandData>, c: CommandData, name: string)
    ensures Find(Upsert(s, c), name) == if name == c.name then Some(c) else Find(s, name)
  {
    if s != [] && s[0].name != c.name {
      FindUpsert(s[1..], c, name);
    }
  }

  /** The registry after `cmds.forEach(c => set(c.name, c))`. */
  function Registered(s: seq<CommandData>, cmds: seq<CommandData>): (r: seq<CommandData>)
    ensures |s| <= |r| <= |s| + |cmds|
    decreases |cmds|
  {
    if cmds == [] then s else Upsert(Registered(s, cmds[..|cmds| - 1]), cmds[|cmds| - 1])
  }

  /** The last command of `cmds` with the given name, if any. */
  function LastNamed(cmds: seq<CommandData>, name: string): (r: Option<CommandData>)
    ensures r.Some? <==> name in Names(cmds)
    ensures r.Some? ==> r.value.name == name && r.value in cmds
    decreases |cmds|
  {
    if cmds == [] then None
    else if cmds[|cmds| - 1].name == name then Some(cmds[|cmds| - 1])
    else
      var front := cmds[..|cmds| - 1];
      assert Names(cmds) == Names(front) + [cmds[|cmds| - 1].name];
      LastNamed(front, name)
  }

  /** After registration a name dispatches to the last command registered under it. */
  lemma {:induction false} FindAfterRegister(s: seq<CommandData>, cmds: seq<CommandData>, name: string)
    ensures Find(Registered(s, cmds), name) ==
              if name in Names(cmds) then LastNamed(cmds, name) else Find(s, name)
    decreases |cmds|
  {
    if cmds != [] {
      var front := cmds[..|cmds| - 1];
      var last := cmds[|cmds| - 1];
      assert Names(cmds) == Names(front) + [last.name];
      FindAfterRegister(s, front, name);
      FindUpsert(Registered(s, front), last, name);
    }
  }

  /** A name is registered afterwards exactly when it was before or one of the commands carries it. */
  lemma RegisteredNames(s: seq<CommandData>, cmds: seq<CommandData>, name: string)
    ensures name in Names(Registered(s, cmds)) <==> name in Names(s) || name in Names(cmds)
  {
    FindAfterRegister(s, cmds, name);
  }

  /** `client.commands`. */
  class Registry {
    var entries: seq<CommandData>

    constructor ()
      ensures entries == []
    {
      entries := [];
    }

    /** `client.commands.set(c.name, c)`. */
    method Set(c: CommandData)
      modifies this
      ensures entries == Upsert(old(entries), c)
    {
      entries := Upsert(entries, c);
    }

    /** index.js:56-58, `commands.forEach(command => client.commands.set(...))`. */
    method RegisterAll(cmds: seq<CommandData>)
      modifies this
      ensures entries == Registered(old(entries), cmds)
    {
      var i := 0;
      while i < |cmds|
        invariant 0 <= i <= |cmds|
        invariant entries == Registered(old(entries), cmds[..i])
      {
        assert cmds[..i + 1][..i] == cmds[..i];
        Set(cmds[i]);
        i := i + 1;
      }
      assert cmds[..|cmds|] == cmds;
    }
  }

  /**
   * The slash-command listener: anything that is not a command, and any name
   * with no registered command, is ignored; otherwise the command runs.
   */
  function Dispatch(commands: seq<CommandData>, isCommand: bool, name: string): (r: Option<CommandData>)
    ensures r.None? <==> !isCommand || name !in Names(commands)
    ensures r.Some? ==> r.value.name == name && r.value in commands
  {
    if !isCommand then None else Find(commands, name)
  }

  // ---------------------------------------------------------------------------
  // Ticket buttons

  const StaffGrant: set<Permission> := {ViewChannel, SendMessages, ReadMessageHistory, ManageMessages}
  const OpenerGrant: set<Permission> := {ViewChannel, SendMessages, ReadMessageHistory}

  /**
   * The overwrites a new ticket channel is created with, in the order given:
   * @everyone may not view, the opener may view, write and read history, the
   * staff role may also manage messages. A later entry for the same id wins.
   */
  function NewTicketOverwrites(guild: GuildId, user: UserId, staffRole: RoleId): (r: map<string, Overwrite>)
    ensures r.Keys == {guild, user, staffRole}
    ensures r[staffRole] == Overwrite(StaffGrant, {})
    ensures user != staffRole ==> r[user] == Overwrite(OpenerGrant, {})
    ensures guild != user && guild != staffRole ==> r[guild] == Overwrite({}, {ViewChannel})
  {
    map[guild := Overwrite({}, {ViewChannel})][user := Overwrite(OpenerGrant, {})][staffRole := Overwrite(StaffGrant, {})]
  }

  datatype CreateOutcome = Created(number: nat) | CreateFailed

  /**
   * The `create_ticket` button. The guild's counter is raised and saved before
   * anything else, and is not rolled back if a later step fails. `channelCreated`
   * stands for finding or creating the category and creating the channel;
   * `introSent` for posting the introduction in it. There is no check for a
   * ticket the user already has open, and the ticket configuration is not read.
   */
  method CreateTicket(cfg: BotConfig, guild: GuildId, user: UserId, staffRole: RoleId,
                      channelCreated: bool, introSent: bool)
    returns (outcome: CreateOutcome, channel: TicketChannel?)
    modifies cfg`ticketCounters, cfg`saves, cfg`issued
    ensures cfg.ticketCounters == Bumped(old(cfg.ticketCounters), guild)
    ensures cfg.saves == old(cfg.saves) + 1
    ensures var n := cfg.ticketCounters[guild];
            && n == Counter(old(cfg.ticketCounters), guild) + 1
            && (guild !in old(cfg.ticketCounters) ==> n == 1)
            && cfg.issued == old(cfg.issued) + {(guild, n)}
            && (old(IssuedBelow(cfg.issued, cfg.ticketCounters)) ==> (guild, n) !in old(cfg.issued))
            && (channelCreated && introSent <==> outcome == Created(n))
            && (!(channelCreated && introSent) <==> outcome == CreateFailed)
            && (channelCreated <==> channel != null)
            && (channel != null ==>
                  && fresh(channel)
                  && channel.name == TicketName(n)
                  && IsTicketName(channel.name)
                  && TicketNumberOf(channel.name) == Some(n)
                  && channel.overwrites == NewTicketOverwrites(guild, user, staffRole)
                  && !channel.deleted)
    ensures old(cfg.Valid()) ==> cfg.Valid()
  {
    ghost var before := cfg.ticketCounters;
    if IssuedBelow(cfg.issued, cfg.ticketCounters) {
      FreshTicketNumber(cfg.issued, cfg.ticketCounters, guild);
    }
    var count := if guild in cfg.ticketCounters then cfg.ticketCounters[guild] else 0;
    cfg.ticketCounters := cfg.ticketCounters[guild := count + 1];
    cfg.Save();
    var n := cfg.ticketCounters[guild];
    cfg.issued := cfg.issued + {(guild, n)};
    if !channelCreated {
      return CreateFailed, null;
    }
    TicketNameRoundTrip(n);
    channel := new TicketChannel(TicketName(n), NewTicketOverwrites(guild, user, staffRole));
    outcome := if introSent then Created(n) else CreateFailed;
  }

  /** Every ticket channel a guild has been given carries a different name. */
  lemma NewTicketNameIsUnused(issued: set<(GuildId, nat)>, c: map<GuildId, nat>, g: GuildId, m: nat)
    requires IssuedBelow(issued, c)
    requires (g, m) in issued
    ensures TicketName(m) != TicketName(Bumped(c, g)[g])
  {
    FreshTicketNumber(issued, c, g);
    if TicketName(m) == TicketName(Bumped(c, g)[g]) {
      TicketNameInjective(m, Bumped(c, g)[g]);
    }
  }

  datatype ButtonOutcome = NotATicket | Done | ErrorReply

  /**
   * The `close_ticket` button: the closure notice is posted in the channel and
   * the channel deleted; if either step fails the invoker gets an error reply.
   */
  method CloseTicketButton(ch: TicketChannel, noticeSent: bool, deleteSucceeds: bool)
    returns (outcome: ButtonOutcome, noticePosted: bool)
    modifies ch
    ensures !IsTicketName(old(ch.name)) ==> outcome == NotATicket && !noticePosted
    ensures IsTicketName(old(ch.name)) ==>
              && noticePosted == noticeSent
              && (outcome == Done <==> noticeSent && deleteSucceeds)
              && (outcome == ErrorReply <==> !(noticeSent && deleteSucceeds))
    ensures ch.deleted == (old(ch.deleted) || outcome == Done)
    ensures ch.name == old(ch.name) && ch.overwrites == old(ch.overwrites)
  {
    if !IsTicketName(ch.name) {
      return NotATicket, false;
    }
    if !noticeSent {
      return ErrorReply, false;
    }
    if !deleteSucceeds {
      return ErrorReply, true;
    }
    ch.Delete();
    return Done, true;
  }

  /** The `claim_ticket` button: the claimant may view, write and read history (not manage messages). */
  method ClaimTicketButton(ch: TicketChannel, claimant: UserId, editSucceeds: bool)
    returns (outcome: ButtonOutcome)
    modifies ch
    ensures !IsTicketName(old(ch.name)) ==> outcome == NotATicket
    ensures IsTicketName(old(ch.name)) ==> (outcome == Done <==> editSucceeds) && (outcome == ErrorReply <==> !editSucceeds)
    ensures outcome == Done ==>
              ch.overwrites == old(ch.overwrites)[claimant := Granted(EntryOf(old(ch.overwrites), claimant), OpenerGrant)]
    ensures outcome != Done ==> ch.overwrites == old(ch.overwrites)
    ensures ch.name == old(ch.name) && ch.deleted == old(ch.deleted)
  {
    if !IsTicketName(ch.name) {
      return NotATicket;
    }
    if !editSucceeds {
      return ErrorReply;
    }
    ch.EditOverwrite(claimant, OpenerGrant);
    outcome := Done;
  }

  /** A ticket just created passes the guard of both buttons: closing it can delete it. */
  method CreateThenClose(cfg: BotConfig, guild: GuildId, user: UserId, staffRole: RoleId)
    returns (closed: ButtonOutcome)
    modifies cfg`ticketCounters, cfg`saves, cfg`issued
    ensures closed == Done
  {
    var created, ch := CreateTicket(cfg, guild, user, staffRole, true, true);
    var posted;
    closed, posted := CloseTicketButton(ch, true, true);
  }

  // ---------------------------------------------------------------------------
  // Welcome on member join

  /** Who joined, and the guild facts the placeholders refer to. */
  datatype JoinEvent = JoinEvent(guild: GuildId, user: UserId, username: string, serverName: string, memberCount: nat)

  /**
   * The four global replacements, in this order: `{user}` by the mention,
   * `{username}`, `{server}` and `{membercount}` by the decimal member count.
   */
  function Substitute(message: string, mention: string, username: string, server: string, memberCount: nat): string
  {
    var a := ReplaceAll(message, "{user}", mention);
    var b := ReplaceAll(a, "{username}", username);
    var c := ReplaceAll(b, "{server}", server);
    ReplaceAll(c, "{membercount}", NatToString(memberCount))
  }

  /** Each step of the substitution is the `split(p).join(r)` of the previous text. */
  lemma SubstituteIsSplitJoin(message: string, mention: string, username: string, server: string, memberCount: nat)
    ensures Substitute(message, mention, username, server, memberCount) ==
              Join(Split(Join(Split(Join(Split(Join(Split(message, "{user}"), mention),
                "{username}"), username), "{server}"), server), "{membercount}"), NatToString(memberCount))
  {
    var a := ReplaceAll(message, "{user}", mention);
    var b := ReplaceAll(a, "{username}", username);
    var c := ReplaceAll(b, "{server}", server);
    ReplaceAllIsSplitJoin(message, "{user}", mention);
    ReplaceAllIsSplitJoin(a, "{username}", username);
    ReplaceAllIsSplitJoin(b, "{server}", server);
    ReplaceAllIsSplitJoin(c, "{membercount}", NatToString(memberCount));
  }

  /** A message without `{` has no placeholder and is sent as it stands. */
  lemma SubstituteWithoutBraces(message: string, mention: string, username: string, server: string, memberCount: nat)
    requires '{' !in message
    ensures Substitute(message, mention, username, server, memberCount) == message
  {
    OccursHasFirst(message, "{user}");
    ReplaceAllAbsent(message, "{user}", mention);
    OccursHasFirst(message, "{username}");
    ReplaceAllAbsent(message, "{username}", username);
    OccursHasFirst(message, "{server}");
    ReplaceAllAbsent(message, "{server}", server);
    OccursHasFirst(message, "{membercount}");
    ReplaceAllAbsent(message, "{membercount}", NatToString(memberCount));
  }

  /**
   * The replacements run in sequence, so a placeholder carried in by an earlier
   * value is itself replaced: a member named `{server}` is greeted by the server's name.
   */
  lemma UsernameIsSubstitutedAgain()
    ensures Substitute("{username}", "<@1>", "{server}", "Guild", 5) == "Guild"
  {
    assert ReplaceAll("{username}", "{user}", "<@1>") == "{username}" by {
      UserTokenNotInUsernameToken();
    }
    assert ReplaceAll("{username}", "{username}", "{server}") == "{server}";
    assert ReplaceAll("{server}", "{server}", "Guild") == "Guild";
    OccursHasFirst("Guild", "{membercount}");
    ReplaceAllAbsent("Guild", "{membercount}", NatToString(5));
  }

  /** `{username}` does not contain `{user}`: the first replacement leaves it whole. */
  lemma UserTokenNotInUsernameToken()
    ensures ReplaceAll("{username}", "{user}", "<@1>") == "{username}"
  {
    var s := "{username}";
    forall i | 0 <= i <= |s|
      ensures !StartsWith(s[i..], "{user}")
    {
      if i > 0 && i < |s| {
        assert s[i..][0] == s[i];
      }
      if i == 0 {
        assert s[..6] != "{user}" by { assert s[5] == 'n'; }
      }
    }
    ReplaceAllAbsent(s, "{user}", "<@1>");
  }

  /** The greeting as sent: an embed, or a plain message. */
  datatype Greeting =
    | EmbedGreeting(content: Option<string>, color: string, title: string, description: string, image: Option<string>)
    | PlainGreeting(text: string)

  datatype JoinOutcome = NotConfigured | ChannelMissing | SendFailed(greeting: Greeting) | Greeted(greeting: Greeting, rolesAdded: seq<RoleId>)

  /** The greeting for one member under one guild's welcome record. */
  function ComposeGreeting(c: WelcomeConfig, e: JoinEvent): (r: Greeting)
    ensures c.embedEnabled <==> r.EmbedGreeting?
    ensures r.PlainGreeting? ==>
              r.text == (if c.pingUser then Mention(e.user) + " " else "") + Substitute(c.message, Mention(e.user), e.username, e.serverName, e.memberCount)
    ensures r.EmbedGreeting? ==>
              && r.description == Substitute(c.message, Mention(e.user), e.username, e.serverName, e.memberCount)
              && (r.content.Some? <==> c.pingUser)
              && (r.content.Some? ==> r.content.value == Mention(e.user))
              && r.title == (if c.embedTitle != "" then c.embedTitle else "¡Bienvenido a " + e.serverName + "!")
              && r.color == (if c.embedColor != "" then c.embedColor else "#00ff00")
              && (r.image.Some? <==> Truthy(c.embedImage))
  {
    var mention := Mention(e.user);
    var text := Substitute(c.message, mention, e.username, e.serverName, e.memberCount);
    if c.embedEnabled then
      EmbedGreeting(
        if c.pingUser then Some(mention) else None,
        OrDefault(Some(c.embedColor), "#00ff00"),
        OrDefault(Some(c.embedTitle), "¡Bienvenido a " + e.serverName + "!"),
        text,
        if Truthy(c.embedImage) then c.embedImage else None)
    else
      PlainGreeting((if c.pingUser then mention + " " else "") + text)
  }

  /** The configured roles the guild's role cache knows, in configured order. */
  function KnownRoles(roles: seq<RoleId>, cache: set<RoleId>): (r: seq<RoleId>)
    ensures |r| <= |roles|
    ensures forall x | x in r :: x in roles && x in cache
    ensures forall x | x in roles && x in cache :: x in r
  {
    if roles == [] then []
    else (if roles[0] in cache then [roles[0]] else []) + KnownRoles(roles[1..], cache)
  }

  /** Roles are attempted in configured order: the roles of a split list are those of each part in turn. */
  lemma {:induction false} KnownRolesAppend(a: seq<RoleId>, b: seq<RoleId>, cache: set<RoleId>)
    ensures KnownRoles(a + b, cache) == KnownRoles(a, cache) + KnownRoles(b, cache)
    decreases |a|
  {
    if a != [] {
      KnownRolesAppend(a[1..], b, cache);
      assert (a + b)[1..] == a[1..] + b;
      assert (a + b)[0] == a[0];
    } else {
      assert a + b == b;
    }
  }

  /**
   * The `guildMemberAdd` listener. Without a welcome record, or without the
   * `welcomeConfigs` map at all (the access throws and is caught), or when the
   * configured channel is not cached, nothing is sent. Roles are added only
   * after the greeting was sent, each role the cache knows.
   */
  function OnMemberJoin(configs: Option<map<GuildId, WelcomeConfig>>, e: JoinEvent,
                        channelCached: bool, roleCache: set<RoleId>, sendSucceeds: bool): (r: JoinOutcome)
    ensures r == NotConfigured <==> configs.None? || e.guild !in configs.value
    ensures r == ChannelMissing <==> configs.Some? && e.guild in configs.value && !channelCached
    ensures r.SendFailed? || r.Greeted? ==>
              configs.Some? && e.guild in configs.value
              && r.greeting == ComposeGreeting(configs.value[e.guild], e)
    ensures r.Greeted? <==> configs.Some? && e.guild in configs.value && channelCached && sendSucceeds
    ensures r.Greeted? ==> r.rolesAdded == KnownRoles(configs.value[e.guild].roles, roleCache)
  {
    if configs.None? || e.guild !in configs.value then NotConfigured
    else if !channelCached then ChannelMissing
    else
      var c := configs.value[e.guild];
      var g := ComposeGreeting(c, e);
      if !sendSucceeds then SendFailed(g) else Greeted(g, KnownRoles(c.roles, roleCache))
  }
}
