/**
 * The bot's one configuration object (index.js:8-20): a JSON document of maps
 * keyed by guild id, and under `warns` also by user id, that every handler
 * reads and updates in place and writes to disk with `saveConfig`.
 */
module Store {
  import opened Common
  import opened Text

  /** One entry of `warns[guild][user]`, as the warn handlers write it. */
  datatype WarnRecord = WarnRecord(reason: string, moderator: UserId, date: string)

  datatype ActionKind = Ban | Kick

  /** One entry of `modActions[guild]`; dates are opaque ISO-8601 strings. */
  datatype ModAction = ModAction(kind: ActionKind, user: UserId, moderator: UserId, reason: string, date: string)

  /** `tickets[guild]`; `enabled` is only written by the ticket-setup handler. */
  datatype TicketConfig = TicketConfig(channelId: ChannelId, categoryId: Option<ChannelId>, enabled: Option<bool>)

  /** `welcomeConfigs[guild]`; `embedImage` is absent until welcome-embed sets it. */
  datatype WelcomeConfig = WelcomeConfig(
    channelId: ChannelId,
    message: string,
    embedEnabled: bool,
    embedTitle: string,
    embedColor: string,
    embedImage: Option<string>,
    pingUser: bool,
    roles: seq<RoleId>)

  type WarnBook = map<GuildId, map<UserId, seq<WarnRecord>>>
  type ActionLog = map<GuildId, seq<ModAction>>

  /**
   * The whole in-memory configuration as a value. A top-level map that is
   * missing from the object behaves like an empty one wherever the handlers
   * guard the access; `welcomeConfigs` and `prefixes` are also read without a
   * guard, so their absence is kept apart (`None`).
   */
  datatype ConfigState = ConfigState(
    welcomeConfigs: Option<map<GuildId, WelcomeConfig>>,
    ticketCounters: map<GuildId, nat>,
    tickets: map<GuildId, TicketConfig>,
    modActions: ActionLog,
    warns: WarnBook,
    prefixes: Option<map<GuildId, string>>,
    userLanguages: map<UserId, string>,
    language: Option<string>)

  /** The object `{}` the bot keeps in memory on its first run (index.js:10,15). */
  const FirstRunState: ConfigState :=
    ConfigState(None, map[], map[], map[], map[], None, map[], None)

  // ---------------------------------------------------------------------------
  // The warning ledger

  /** `warns[guild][user]` is present (possibly as an empty list). */
  predicate HasWarnList(w: WarnBook, g: GuildId, u: UserId)
  {
    g in w && u in w[g]
  }

  /** The stored list of a user's warnings, or none. */
  function Warnings(w: WarnBook, g: GuildId, u: UserId): seq<WarnRecord>
  {
    if HasWarnList(w, g, u) then w[g][u] else []
  }

  function GuildWarns(w: WarnBook, g: GuildId): map<UserId, seq<WarnRecord>>
  {
    if g in w then w[g] else map[]
  }

  /**
   * Create `warns[guild]` and `warns[guild][user]` when missing, then push the
   * record (commands/moderation.js:192-202, commands/moderation/warn.js:34-45).
   */
  function WithWarning(w: WarnBook, g: GuildId, u: UserId, rec: WarnRecord): (r: WarnBook)
    ensures HasWarnList(r, g, u) && r[g][u] == Warnings(w, g, u) + [rec]
    ensures r.Keys == w.Keys + {g}
    ensures forall h | h in w && h != g :: r[h] == w[h]
    ensures r[g].Keys == GuildWarns(w, g).Keys + {u}
    ensures forall v | v in GuildWarns(w, g) && v != u :: r[g][v] == GuildWarns(w, g)[v]
  {
    w[g := GuildWarns(w, g)[u := Warnings(w, g, u) + [rec]]]
  }

  /** `delete warns[guild][user]`: the guild's map stays, only the user's key goes. */
  function WithoutWarnings(w: WarnBook, g: GuildId, u: UserId): (r: WarnBook)
    ensures !HasWarnList(r, g, u) && Warnings(r, g, u) == []
    ensures r.Keys == w.Keys
    ensures forall h | h in w && h != g :: r[h] == w[h]
    ensures g in w ==> r[g].Keys == w[g].Keys - {u}
    ensures forall v | g in w && v in w[g] && v != u :: r[g][v] == w[g][v]
  {
    if g in w then w[g := w[g] - {u}] else w
  }

  /** The book after a run of warnings issued to one user, in call order. */
  function WarnedAll(w: WarnBook, g: GuildId, u: UserId, recs: seq<WarnRecord>): WarnBook
    decreases |recs|
  {
    if recs == [] then w
    else WithWarning(WarnedAll(w, g, u, recs[..|recs| - 1]), g, u, recs[|recs| - 1])
  }

  /** A run of warn calls lists its records in call order, after the earlier ones; others keep theirs. */
  lemma {:induction false} WarnedAllInOrder(w: WarnBook, g: GuildId, u: UserId, recs: seq<WarnRecord>, h: GuildId, v: UserId)
    ensures Warnings(WarnedAll(w, g, u, recs), g, u) == Warnings(w, g, u) + recs
    ensures (h, v) != (g, u) ==> Warnings(WarnedAll(w, g, u, recs), h, v) == Warnings(w, h, v)
    decreases |recs|
  {
    if recs != [] {
      var front := recs[..|recs| - 1];
      WarnedAllInOrder(w, g, u, front, h, v);
      assert front + [recs[|recs| - 1]] == recs;
      var before := WarnedAll(w, g, u, front);
      if (h, v) != (g, u) {
        if h == g {
          assert v in GuildWarns(before, g) ==> v in WithWarning(before, g, u, recs[|recs| - 1])[g];
        }
      }
    }
  }

  /** Clearing twice leaves the same book as clearing once. */
  lemma ClearingIsIdempotent(w: WarnBook, g: GuildId, u: UserId)
    ensures WithoutWarnings(WithoutWarnings(w, g, u), g, u) == WithoutWarnings(w, g, u)
  {
    if g in w {
      assert w[g] - {u} - {u} == w[g] - {u};
    }
  }

  /** Every stored warning list is non-empty: warn appends to it, clearing removes the key. */
  ghost predicate WarnListsNonEmpty(w: WarnBook)
  {
    forall g, u | g in w && u in w[g] :: w[g][u] != []
  }

  lemma WarningKeepsListsNonEmpty(w: WarnBook, g: GuildId, u: UserId, rec: WarnRecord)
    requires WarnListsNonEmpty(w)
    ensures WarnListsNonEmpty(WithWarning(w, g, u, rec))
  {
    var r := WithWarning(w, g, u, rec);
    forall h, v | h in r && v in r[h]
      ensures r[h][v] != []
    {
      if h == g && v != u {
        assert v in GuildWarns(w, g);
      }
    }
  }

  lemma ClearingKeepsListsNonEmpty(w: WarnBook, g: GuildId, u: UserId)
    requires WarnListsNonEmpty(w)
    ensures WarnListsNonEmpty(WithoutWarnings(w, g, u))
  {
  }

  /** `<@id>`, the mention text Discord renders as a user. */
  function Mention(id: string): string
  {
    "<@" + id + ">"
  }

  /** One field of a warnings listing: its number, the reason, the moderator shown, the stored date. */
  datatype WarnEntry = WarnEntry(number: nat, reason: string, moderatorShown: string, date: string)

  // ---------------------------------------------------------------------------
  // The moderation log

  function Actions(log: ActionLog, g: GuildId): seq<ModAction>
  {
    if g in log then log[g] else []
  }

  /**
   * Create `modActions[guild]` when missing and push the record
   * (commands/moderation.js:43-52, commands/moderation/ban.js:44-53).
   */
  function WithAction(log: ActionLog, g: GuildId, a: ModAction): (r: ActionLog)
    ensures g in r && r[g] == Actions(log, g) + [a]
    ensures r.Keys == log.Keys + {g}
    ensures forall h | h in log && h != g :: r[h] == log[h]
  {
    log[g := Actions(log, g) + [a]]
  }

  // ---------------------------------------------------------------------------
  // Ticket counters

  function Counter(c: map<GuildId, nat>, g: GuildId): nat
  {
    if g in c then c[g] else 0
  }

  /** `if (!counters[g]) counters[g] = 0; counters[g]++` (index.js:156-158). */
  function Bumped(c: map<GuildId, nat>, g: GuildId): (r: map<GuildId, nat>)
    ensures g in r && r[g] == Counter(c, g) + 1 && r[g] >= 1
    ensures r.Keys == c.Keys + {g}
    ensures forall h | h in c && h != g :: r[h] == c[h]
  {
    c[g := Counter(c, g) + 1]
  }

  function BumpedTimes(c: map<GuildId, nat>, g: GuildId, k: nat): map<GuildId, nat>
  {
    if k == 0 then c else Bumped(BumpedTimes(c, g, k - 1), g)
  }

  /** After k ticket creations a guild's counter has risen by exactly k; other guilds are untouched. */
  lemma {:induction false} CounterAfterCreations(c: map<GuildId, nat>, g: GuildId, k: nat, h: GuildId)
    ensures Counter(BumpedTimes(c, g, k), g) == Counter(c, g) + k
    ensures h != g ==> Counter(BumpedTimes(c, g, k), h) == Counter(c, h)
  {
    if k > 0 {
      CounterAfterCreations(c, g, k - 1, h);
    }
  }

  /** Every ticket number handed out so far is at most its guild's counter. */
  ghost predicate IssuedBelow(issued: set<(GuildId, nat)>, c: map<GuildId, nat>)
  {
    forall t | t in issued :: t.1 <= Counter(c, t.0)
  }

  /** The number a creation hands out was never handed out before in that guild, and the bound is kept. */
  lemma FreshTicketNumber(issued: set<(GuildId, nat)>, c: map<GuildId, nat>, g: GuildId)
    requires IssuedBelow(issued, c)
    ensures (g, Bumped(c, g)[g]) !in issued
    ensures IssuedBelow(issued + {(g, Bumped(c, g)[g])}, Bumped(c, g))
  {
    var r := Bumped(c, g);
    forall t | t in issued + {(g, r[g])}
      ensures t.1 <= Counter(r, t.0)
    {
      if t.0 != g && t.0 in c {
        assert Counter(r, t.0) == c[t.0];
      }
    }
  }

  // ---------------------------------------------------------------------------
  // Invariants the handlers keep

  ghost predicate LanguagesKnown(m: map<UserId, string>)
  {
    forall u | u in m :: m[u] == "es" || m[u] == "en"
  }

  ghost predicate PrefixesShort(p: Option<map<GuildId, string>>)
  {
    p.Some? ==> forall g | g in p.value :: Utf16Length(p.value[g]) <= 2
  }

  ghost predicate RolesBounded(w: Option<map<GuildId, WelcomeConfig>>)
  {
    w.Some? ==> forall g | g in w.value :: |w.value[g].roles| <= 3
  }

  /** What every state reached from the first run through the handlers satisfies. */
  ghost predicate WellFormed(s: ConfigState)
  {
    WarnListsNonEmpty(s.warns) && LanguagesKnown(s.userLanguages)
    && PrefixesShort(s.prefixes) && RolesBounded(s.welcomeConfigs)
  }

  /** The configuration object shared by every handler. */
  class BotConfig {
    var welcomeConfigs: Option<map<GuildId, WelcomeConfig>>
    var ticketCounters: map<GuildId, nat>
    var tickets: map<GuildId, TicketConfig>
    var modActions: ActionLog
    var warns: WarnBook
    var prefixes: Option<map<GuildId, string>>
    var userLanguages: map<UserId, string>
    var language: Option<string>
    /** How many times `saveConfig` has written the object to disk. */
    ghost var saves: nat
    /** Every (guild, number) a ticket creation has handed out. */
    ghost var issued: set<(GuildId, nat)>

    function State(): ConfigState
      reads this
    {
      ConfigState(welcomeConfigs, ticketCounters, tickets, modActions, warns, prefixes, userLanguages, language)
    }

    ghost predicate Valid()
      reads this
    {
      WellFormed(State()) && IssuedBelow(issued, ticketCounters)
    }

    /** First run: the defaults go to disk only, the object in memory stays `{}` (index.js:10-16). */
    constructor FirstRun()
      ensures State() == FirstRunState && saves == 0 && issued == {}
      ensures Valid()
    {
      welcomeConfigs, ticketCounters, tickets, modActions := None, map[], map[], map[];
      warns, prefixes, userLanguages, language := map[], None, map[], None;
      saves, issued := 0, {};
    }

    /** A later run: the object is whatever the file held (index.js:12-13). */
    constructor Load(s: ConfigState)
      ensures State() == s && saves == 0 && issued == {}
    {
      welcomeConfigs, ticketCounters, tickets, modActions := s.welcomeConfigs, s.ticketCounters, s.tickets, s.modActions;
      warns, prefixes, userLanguages, language := s.warns, s.prefixes, s.userLanguages, s.language;
      saves, issued := 0, {};
    }

    /** `saveConfig()`: the file now mirrors the object; the object itself is unchanged. */
    method Save()
      modifies this`saves
      ensures saves == old(saves) + 1
    {
      saves := saves + 1;
    }
  }
}
