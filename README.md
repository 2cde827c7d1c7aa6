# Discord staff bot: configuration store and command handlers

This project models the core of a Discord community-management bot: moderation (ban, kick, warn), support tickets, welcome messages, a help menu, a per-user language and a per-guild prefix. The core is one in-memory configuration object that every handler reads and updates in place. The object holds nested maps keyed by guild id, and under `warns` also by user id. Handlers write it to disk with `saveConfig`.

The layout follows the program:

- `Store.BotConfig` is that object, a class with one field per top-level key:
  - `welcomeConfigs`, `ticketCounters`, `tickets`, `modActions`, `warns`, `prefixes`, `userLanguages`, `language`.
  - A ghost counter `saves` counts the calls to `saveConfig`.
  - A ghost set `issued` records every ticket number handed out.
- The value-level transitions of the store (`WithWarning`, `WithoutWarnings`, `WithAction`, `Bumped`) are functions. Lemmas about them state the ledger's order, idempotence and counter properties.
- Each handler is a module-level method that takes the `BotConfig` as a parameter; only `FirstRun`, `Load` and `Save` are members of the class. A handler's modifies frame is limited to the fields of the object that it writes. Its ensures clause states the new state in terms of those functions, one clause per guard branch.
- A ticket channel is a small class, `Gateway.TicketChannel`, holding a name, a map from id to permission overwrite, and a `deleted` flag.
- The pure parts are functions with lemmas: placeholder substitution, ticket naming, help bucketing and language fallback.

`WellFormed` collects what every handler keeps true of the store:

- Every stored warning list is non-empty.
- Every stored language is `es` or `en`.
- Every prefix has a JavaScript length of at most 2.
- Every welcome record lists at most 3 roles.

`BotConfig.Valid` adds that every ticket number handed out is at most its guild's counter. Each state-changing handler ensures `old(cfg.Valid()) ==> cfg.Valid()`.

Gateway calls are boolean inputs standing for success or failure. These are ban, kick, creating the ticket category and channel, sending the panel or greeting, deleting a channel and editing an overwrite. Discord's decisions are inputs too: whether the bot or the invoker holds a permission, and whether a member, channel or role is cached. Dates are opaque strings.

How the code departs from the intended design (the model follows the code):

- Creating a ticket never checks whether the user already has one open. It does not read the ticket configuration, so it works whether or not tickets are "enabled".
- No cooldown is ever enforced. `client.cooldowns` is created and never read, and the `cooldown:` fields are unused.
- Warnings are not written to `modActions`. Ban and kick records carry no `days` field.
- On the first run the in-memory object stays `{}`. The defaults are written to disk only.
- index.js registers only the six grouped command files: moderation.js, ticket.js, welcome.js, utility.js, fun and info. The handlers in `commands/help.js`, `commands/language.js`, `commands/moderation/*.js` and `commands/tickets/*.js` are modelled as written, but no dispatcher shown here reaches them.

## Model

| member | source | states |
|---|---|---|
| Store.BotConfig.FirstRun | index.js:10-16 | on the first run the object in memory is empty: no welcome map, no prefix map, no counters; nothing saved or issued yet, and the invariant holds |
| Store.BotConfig.Load | index.js:12-13 | a later run starts from whatever the file held |
| Store.BotConfig.Save | index.js:18-20 | `saveConfig` records one more write and changes nothing in the object |
| Store.WithWarning | commands/moderation.js:192-202 | after a warning, the user's list is the old list (or empty) with the record appended at the end; the guild and user keys are created if missing; every other guild and user keeps its list |
| Store.WithoutWarnings | commands/moderation.js:290 | after a clear, the user has no list; the guild's map stays with every other user unchanged; other guilds unchanged |
| Store.WarnedAllInOrder | commands/moderation/warn.js:34-46 | a run of warnings appears in call order after the earlier ones, and no other user's list changes |
| Store.ClearingIsIdempotent | commands/moderation/clearwarns.js:17-28 | clearing twice leaves the same ledger as clearing once |
| Store.WarningKeepsListsNonEmpty | commands/moderation.js:192-202 | a warning keeps every stored list non-empty |
| Store.ClearingKeepsListsNonEmpty | commands/moderation.js:290 | a clear keeps every stored list non-empty |
| Store.WithAction | commands/moderation.js:43-53 | a logged action is appended at the end of the guild's log, which is created if missing; other guilds keep theirs |
| Store.Bumped | index.js:156-158 | a missing counter counts as 0 and is raised by exactly one, so a guild's first ticket is number 1; other guilds' counters unchanged |
| Store.CounterAfterCreations | index.js:156-158 | after k creations a guild's counter has risen by exactly k and other guilds' counters are unchanged |
| Store.FreshTicketNumber | index.js:156-174 | the number a creation hands out was never handed out before in that guild, and every issued number stays at or below its counter |
| Text.ReplaceAllIsSplitJoin | index.js:107-111 | the global literal replace equals the reference definition `split(p).join(r)` |
| Text.ReplaceAllAbsent | index.js:107-111 | a pattern that does not occur leaves the text unchanged |
| Text.ReplaceAll | index.js:107-111 | `s.replace(/p/g, r)` for a literal pattern: matches found left to right without overlap, each replaced by `r` taken literally; its meaning is stated by `Text.ReplaceAllIsSplitJoin` and `Text.ReplaceAllAbsent` |
| Text.NatToString | index.js:111 | the decimal text of a number is non-empty, all digits, with no leading zero |
| Text.ParseNatToString | index.js:176 | reading back the decimal text of a number gives the number |
| Text.NatToStringInjective | index.js:176 | distinct numbers have distinct decimal texts |
| Text.Utf16Length | commands/utility.js:18 | JavaScript's `length` lies between the number of characters and twice that |
| Gateway.CategoryIdOf | commands/tickets/setup.js:50 | `category?.id \|\| null`: an id exactly when a category with a non-empty id was picked |
| Gateway.IsTextBased | commands/ticket.js:22 | `isTextBased()`: every plain text channel and every voice channel passes, a category does not, so the guard of commands/tickets/setup.js:21 is the stricter one |
| Gateway.TicketNameRoundTrip | index.js:176 | the name `ticket-n` passes the `startsWith('ticket-')` guard and gives back n |
| Gateway.TicketName | index.js:176 | `ticket-${n}`: the prefix `ticket-` followed by the decimal text of n |
| Gateway.IsTicketName | index.js:238 | the `name.startsWith('ticket-')` guard shared by both buttons, commands/tickets/claim.js:10, commands/tickets/close.js:10 and commands/ticket.js:75; every created name passes it (`Gateway.TicketNameRoundTrip`) |
| Gateway.TicketNameInjective | index.js:176 | distinct ticket numbers give distinct channel names |
| Gateway.Granted | commands/tickets/claim.js:17-22 | granting through `permissionOverwrites.edit` adds the granted permissions to those allowed, removes them from those denied, and keeps the rest of the entry; a missing entry becomes exactly the grant |
| Gateway.GrantedIdempotent | commands/tickets/claim.js:17-22 | granting the same permissions twice is the same as once |
| Gateway.TicketChannel.constructor | index.js:175-193 | a new channel has the given name and overwrites and is not deleted |
| Gateway.TicketChannel.EditOverwrite | commands/tickets/claim.js:17 | only the entry of the given id changes |
| Gateway.TicketChannel.Delete | commands/tickets/close.js:26 | the channel is deleted; name and overwrites unchanged |
| ModerationCommands.Ban | commands/moderation.js:24-83 | without BanMembers the bot makes no call and logs nothing; otherwise it bans with the reason or 'No se especificó razón' and days or 0; only a successful ban appends one ban record and saves |
| ModerationCommands.DaysOrZero | commands/moderation.js:27 | `getInteger('dias') \|\| 0`: the given number of days, 0 when absent, always within 0..7 |
| ModerationCommands.Kick | commands/moderation.js:100-162 | the permission check comes before the member check; either failure makes no call and changes nothing; only a successful kick appends one kick record and saves |
| ModerationCommands.Warn | commands/moderation.js:179-205 | an uncached target changes nothing; otherwise the record is appended, the reported total is the old length plus one (the new length), and `modActions` is untouched |
| ModerationCommands.Warns | commands/moderation.js:240-264 | a missing list gives the "no warnings" reply (an empty one is still listed); otherwise entries are in stored order, numbered from 1, with the stored moderator, and the total is the list length |
| ModerationCommands.ClearWarns | commands/moderation.js:279-296 | a missing list changes nothing; otherwise the reply reports the prior length and only that user's key is removed |
| BanCommand.Ban | commands/moderation/ban.js:25-82 | 'No reason provided' and 0 days by default; the gateway gets `reason (Banned by tag)` while the log stores the raw reason; a failed ban appends nothing |
| BanCommand.AuditReason | commands/moderation/ban.js:39 | the reason sent to Discord is the raw reason followed by ` (Banned by <tag>)` |
| KickCommand.Kick | commands/moderation/kick.js:20-80 | permission before member cache; the gateway gets `reason (Kicked by tag)`, the log the raw reason; a failed kick appends nothing |
| KickCommand.AuditReason | commands/moderation/kick.js:40 | the reason sent to Discord is the raw reason followed by ` (Kicked by <tag>)` |
| WarnCommand.Warn | commands/moderation/warn.js:21-48 | an uncached target changes nothing; otherwise the record is appended and the total reported is the new length, old length plus one |
| WarningsCommand.EntriesAsWritten | commands/moderation/warns.js:34-40 | the fields are in stored order, numbered on from the first, each with the stored reason and date and the moderator text the template prints |
| WarningsCommand.Listing | commands/moderation/warns.js:17-25 | a missing or empty list gives the "no warnings" reply; otherwise the total is the list length |
| WarningsCommand.ModeratorNotShown | commands/moderation/warns.js:38 | the listing as written never shows the moderator who issued a warning (unless that moderator's id is the text `undefined`) |
| WarningsCommand.ModeratorLostExample | commands/moderation/warns.js:38 | a warning issued by user 42 is listed as issued by `<@undefined>`; the corrected listing shows `<@42>` |
| WarningsCommand.IntendedEntries | commands/moderation/warns.js:34-40 | corrected fields: each shows the stored moderator |
| WarningsCommand.IntendedListing | commands/moderation/warns.js:17-40 | corrected listing: "no warnings" exactly for a missing or empty list; the total is the list length |
| WarningsCommand.ListingsAgreeElsewhere | commands/moderation/warns.js:34-40 | the listing as written and the corrected one differ only in the moderator shown |
| WarningsCommand.ListingAfterWarnings | commands/moderation/warn.js:41-48 | after a run of warnings the corrected listing shows them last, in order, and the total grows by their number |
| ClearWarningsCommand.ClearWarnings | commands/moderation/clearwarns.js:13-37 | a missing or empty list changes nothing; otherwise the prior length (at least 1) is reported and only that user's key is removed |
| ClearWarningsCommand.GuardsAgreeOnWellFormedLedger | commands/moderation/clearwarns.js:17 | on a ledger with no empty list, the `?.length` guard and the presence guard of commands/moderation.js:282 agree |
| ClearWarningsCommand.GuardsDifferOnEmptyList | commands/moderation/clearwarns.js:17 | on an empty stored list the two guards part |
| ClearWarningsCommand.ClearTwice | commands/moderation/clearwarns.js:17-28 | a second clear right after the first finds nothing to clear |
| ClaimTicketCommand.ClaimTicket | commands/tickets/claim.js:9-30 | a channel not named `ticket-…` is rejected with no overwrite change; otherwise the claimant's entry gets all four permissions and every other entry stays |
| ClaimTicketCommand.ReclaimChangesNothing | commands/tickets/claim.js:17-22 | claiming again as the same user leaves the overwrites unchanged |
| ClaimTicketCommand.ClaimsAccumulate | commands/tickets/claim.js:17 | claims are not exclusive: an earlier claimant keeps access after a later claim |
| CloseTicketCommand.CloseTicket | commands/tickets/close.js:9-26 | a non-ticket channel is rejected and not deleted; a ticket channel gets the closure reply and is deleted if deletion succeeds; a failed deletion changes nothing else |
| TicketSetupCommand.SetupTicketSystem | commands/tickets/setup.js:17-66 | a channel other than a plain text channel is rejected; only after the panel is sent is the record (channel, category or none, enabled) written and saved; no other guild or map changes |
| TicketCommands.SetupTickets | commands/ticket.js:18-65 | a channel that is not text-based is rejected; only after the panel is sent is the record (channel, category or none, no enabled flag) written and saved |
| TicketCommands.CerrarTicket | commands/ticket.js:74-100 | non-ticket channels are rejected; the closure notice comes first and the channel is deleted if deletion succeeds; the configuration is not touched |
| Index.Names | index.js:56-58 | the names of the registered commands, in registry order |
| Index.Find | index.js:83-84 | lookup by exact name finds a command exactly when that name is registered |
| Index.Upsert | index.js:57 | a name already registered keeps its place in the order; a new name is appended |
| Index.FindUpsert | index.js:57 | after registering a command, its name finds it and every other name finds what it found before |
| Index.LastNamed | index.js:56-58 | the last command of a list under a name exists exactly when the name occurs |
| Index.Registered | index.js:56-58 | the registry after the `forEach` of `set`: it never shrinks and grows by at most one entry per command |
| Index.RegisteredNames | index.js:56-58 | after registration a name is registered exactly when it was before or one of the commands carries it |
| Index.FindAfterRegister | index.js:56-58 | after registering a list, each name dispatches to the last command registered under it |
| Index.Registry.constructor | index.js:35 | the registry starts empty |
| Index.Registry.Set | index.js:57 | `client.commands.set` updates the registry as `Upsert` does |
| Index.Registry.RegisterAll | index.js:56-58 | the registration loop leaves the registry as the fold of `Upsert` over the commands |
| Index.Dispatch | index.js:80-87 | non-command interactions and unknown names are ignored; otherwise the command under exactly that name runs |
| Index.NewTicketOverwrites | index.js:179-192 | the staff role gets all four permissions, the opener view, send and history, and @everyone is denied view |
| Index.CreateTicket | index.js:153-233 | the counter rises by one and is saved before the channel is created, with no rollback; the number is new for the guild; the channel, when created, is named `ticket-n`, passes the guard, carries the initial overwrites and is not deleted |
| Index.NewTicketNameIsUnused | index.js:156-176 | a new ticket never gets the name of an earlier ticket of its guild |
| Index.CloseTicketButton | index.js:237-264 | a non-ticket channel is rejected; otherwise the notice is posted, then the channel deleted; if either step fails the invoker gets an error reply and the channel stays |
| Index.ClaimTicketButton | index.js:267-296 | a non-ticket channel is rejected; otherwise the claimant's entry gets view, send and history (not manage messages), or an error reply when the edit fails |
| Index.CreateThenClose | index.js:153-264 | a channel just created passes the close button's guard and can be deleted |
| Index.SubstituteIsSplitJoin | index.js:107-111 | the substitution is the four `split/join` replacements in order `{user}`, `{username}`, `{server}`, `{membercount}` |
| Index.Substitute | index.js:107-111 | the four global replacements in order `{user}`, `{username}`, `{server}`, `{membercount}`; also the preview of commands/welcome.js:89-93; stated by `Index.SubstituteIsSplitJoin`, `Index.SubstituteWithoutBraces` and `Index.UsernameIsSubstitutedAgain` |
| Index.SubstituteWithoutBraces | index.js:107-111 | a message without `{` is sent unchanged |
| Index.UsernameIsSubstitutedAgain | index.js:107-111 | the replacements run in sequence, so a username `{server}` becomes the server's name |
| Index.ComposeGreeting | index.js:113-132 | embed or plain greeting as configured; the plain text is the mention and a space before the substituted message when ping is on, else just the message; the embed's title and colour fall back to their defaults when empty; the image is included only when set |
| Index.KnownRoles | index.js:135-141 | the roles added are exactly the configured roles the role cache knows |
| Index.KnownRolesAppend | index.js:136-141 | roles are attempted in configured order: the roles of a list split in two are those of the first part followed by those of the second |
| Index.OnMemberJoin | index.js:98-146 | nothing is sent without the welcome map, a record for the guild or a cached channel; roles are added only after the greeting is sent |
| WelcomeCommands.DefaultWelcome | commands/welcome.js:26-34 | the fixed defaults: message '¡Bienvenido {user} a {server}!', embed on, title '¡Bienvenido!', colour '#00ff00', ping on, no roles, no image |
| WelcomeCommands.Setup | commands/welcome.js:13-36 | without Manage Server nothing changes; otherwise the welcome map is created if missing and the guild's record replaced by the defaults, dropping any earlier image |
| WelcomeCommands.EditGuard | commands/welcome.js:69-84 | the edits reject without permission, fail when the map is missing, give the setup hint without a record, and proceed otherwise |
| WelcomeCommands.SetMessage | commands/welcome.js:68-104 | only the `message` field changes; the preview is the same substitution a join gets |
| WelcomeCommands.WithEmbedOptions | commands/welcome.js:160-165 | string options apply only when non-empty, boolean options whenever given; channel, message and roles are kept |
| WelcomeCommands.EmbedOptionsIdempotent | commands/welcome.js:160-165 | repeating the same embed options changes nothing more |
| WelcomeCommands.EmbedWithoutOptions | commands/welcome.js:160-165 | the embed command with no options leaves the record as it was |
| WelcomeCommands.SetEmbed | commands/welcome.js:138-167 | guards as above; otherwise only the embed fields change as `WithEmbedOptions` says |
| WelcomeCommands.SelectedRoles | commands/welcome.js:211-215 | the given roles in option order (`rol1`, then `rol2`, then `rol3`) with absent ones dropped, each position fixed, at most three |
| WelcomeCommands.SetRoles | commands/welcome.js:203-226 | guards as above; otherwise the role list is replaced by the roles given |
| WelcomeCommands.Test | commands/welcome.js:255-277 | without permission or without a record it rejects; otherwise it runs the join listener for the invoker and changes nothing |
| WelcomeCommands.GreetingAfterSetup | commands/welcome.js:26-34 | right after setup a join gets an embed that mentions the member, titled '¡Bienvenido!', with the default message substituted and no roles |
| HelpCommand.FirstSegment | commands/help.js:34 | the part of the name before its first `-`, or the whole name |
| HelpCommand.CategoryOf | commands/help.js:34 | `name.split('-')[0] \|\| 'utility'`: the first segment, or utility when it is empty; never empty |
| HelpCommand.BucketOf | commands/help.js:34-39 | every command goes to one of the six buckets: its category when known, otherwise utility |
| HelpCommand.InBucket | commands/help.js:33-40 | a bucket holds exactly the commands whose name maps to it, and no more of them than the registry has |
| HelpCommand.InBucketAppend | commands/help.js:33-40 | bucketing keeps registry order and multiplicity: the bucket of a registry split in two is the bucket of the first part followed by that of the second |
| HelpCommand.InBucketSingle | commands/help.js:35-39 | a single command makes a bucket of itself exactly when its name maps to that bucket, otherwise an empty one |
| HelpCommand.ExactlyOneBucket | commands/help.js:33-40 | each command is in the bucket of its name and in no other |
| HelpCommand.BucketSizesSum | commands/help.js:33-40 | the six bucket sizes add up to the number of commands |
| HelpCommand.Categorize | commands/help.js:24-40 | the loop leaves each bucket equal to `InBucket` |
| HelpCommand.FieldFor | commands/help.js:66-69 | a summary field shows the bucket's size, its first three names, and the count beyond three only when there are more than three |
| HelpCommand.EntryFor | commands/help.js:49-53 | a category page line shows `/name` and the description, or 'Sin descripción' when it is empty, so its text is never empty |
| HelpCommand.Help | commands/help.js:19-73 | a known requested category shows exactly its bucket with its size as the total; otherwise the six summary fields with the registry size as the total |
| HelpCommand.FirstSegmentAt | commands/help.js:34 | the category is everything before the first `-` |
| HelpCommand.SpanishTicketSetupInUtility | commands/help.js:34-39 | `setup-tickets` is filed under utility |
| LanguageCommands.SetLanguage | commands/language.js:16-30 | the chosen language is stored under the user's id and saved before the undefined `t` throws; the reply is never sent |
| LanguageCommands.ResolveLanguage | commands/language.js:38 | the user's entry when non-empty, else the global language when non-empty, else 'es'; never empty |
| LanguageCommands.DisplayName | commands/language.js:39 | 'Español' exactly for 'es', otherwise 'English' |
| LanguageCommands.ResolveAfterSet | commands/language.js:21-39 | after choosing a language the user resolves to it |
| LanguageCommands.ResolveOthersUnaffected | commands/language.js:21 | choosing a language changes no other user's resolution |
| LanguageCommands.ResolvedIsKnown | commands/language.js:12-15 | with known stored choices the resolved language is 'es' or 'en' |
| UtilityCommands.SetPrefix | commands/utility.js:13-22 | without Manage Server, or with a JavaScript length over 2, nothing changes; a missing prefix map makes the write throw and nothing changes; otherwise only this guild's prefix is set and saved |
| UtilityCommands.ShortPrefixAccepted | commands/utility.js:18 | up to two characters from the Basic Multilingual Plane pass the length check, the empty prefix included |
| UtilityCommands.LongPrefixRejected | commands/utility.js:18 | three characters, or two with the first outside the Basic Multilingual Plane, are rejected |

## Left out

- I/O and library plumbing are left out: reading and writing `config.json`, client construction, intents, registering slash commands over REST, and `login`. `saveConfig` is only the ghost counter `saves`.
- Embeds, colours, timestamps, Discord timestamp markup and `Date` arithmetic are presentation and clock reads. Only the texts and fields the properties talk about are modelled.
- The 5-second delays before deleting a ticket channel are left out; closing is an immediate transition.
- Finding or creating the `Tickets` category and creating the channel is one success flag. Adding roles to a joining member is the list of roles attempted; each addition's own failure is caught and not modelled. DMs to moderated users are left out; their failure is caught and changes nothing.
- Replies to the interaction are assumed to be delivered.
- Concurrency is left out. Interactions run one at a time.
- `commands/fun` and `commands/info` are not part of this model.
- Sending a welcome greeting or preview with an invalid embed colour or an empty field, which discord.js would refuse, is not modelled.
- WelcomeCommands.Setup, WelcomeCommands.SetMessage, WelcomeCommands.SetEmbed, WelcomeCommands.SetRoles, WelcomeCommands.Test: the check `permissions.has('MANAGE_GUILD')` (commands/welcome.js:14, 69, 139, 204, 256) sits outside each handler's `try` and is modelled as a boolean input. The bot uses discord.js v14 (index.js:4 imports `GatewayIntentBits`, `EmbedBuilder` and `ChannelType`), where `has` returns true for an administrator before it reads the flag and throws a BitFieldInvalid error on the unknown name `MANAGE_GUILD` for everyone else. So only administrators reach the handler body; every other member gets the dispatcher's generic error reply (index.js:88-94) and the store is unchanged. The model's "permission denied" reply for a false input is therefore never sent as written.
- Gateway.IsTextBased: the classification of channel kinds follows discord.js and is an assumption.
- HelpCommand.BucketOf: a name whose first segment is an inherited object property (such as `constructor`) is treated as unknown, whereas in JavaScript `categories[...]` would find the property.
- Text.ReplaceAll: `$` patterns in replacement strings are taken literally.
- Text.NatToString: member counts of 10^21 or more, which JavaScript prints in exponent form, are not modelled.
- UtilityCommands.SetPrefix: every reply calls `t`, the fifth argument that index.js:87 never passes, so it throws. The outcome records which branch ran, not the dispatcher's generic error reply that follows.
- LanguageCommands.SetLanguage: both language handlers call a `t` the file never defines. The model records only that the reply is not sent.
- ModerationCommands.Warns, WarningsCommand.Listing, WarningsCommand.IntendedListing: the listing adds one embed field per warning, and discord.js refuses an embed with more than 25 fields. A user with more than 25 warnings therefore gets no listing, but the model returns the full list.
- HelpCommand.Help: an empty bucket gives an overview field with an empty value, which discord.js refuses. Such an overview is never sent, but the model returns it. A category page with more than 25 commands is refused the same way.
- Index.CreateTicket: the ticket number is read again at index.js:174, after the category lookup at index.js:161-172 may await its creation. Two creations interleaved there in one guild read the same counter and both channels are named `ticket-n`. The model runs one interaction at a time, so its freshness promise (`Store.FreshTicketNumber`) holds only under that assumption.
- Index.NewTicketOverwrites: when ids coincide (the opener holds the staff role id, say), the later entry wins. What Discord does with duplicate ids is not modelled.
- Index.CloseTicketButton: the button interaction is never acknowledged. On success Discord shows its own failure notice. When deletion fails, the error reply at index.js:256-260 comes after the 5-second wait, past Discord's 3-second window for a first answer, so it is refused; the button listener has no outer `catch`, so the refusal is an unhandled rejection. The model's error reply rests only on the assumption above that replies are delivered.
- TicketCommands.CerrarTicket: when deletion fails, the `catch` at commands/ticket.js:94-99 tries a second reply to an interaction already answered. That reply is refused, which sends control to the dispatcher's `catch` (index.js:88-94), whose third reply is refused too and is unhandled. The model's error reply rests only on the assumption above that replies are delivered.
- TicketSetupCommand.SetupTicketSystem, TicketCommands.SetupTickets: the guild's `categoryId` is stored but never read by ticket creation, so it has no modelled effect.

## Findings

| source | as written | input that shows it | evidently intended | confidence | as-written member | corrected member |
|---|---|---|---|---|---|---|
| commands/moderation/warns.js:38 | each field shows `<@${warn.moderatorId}>`, but the warn handlers store the moderator under `moderator` | one warning `{reason: "spam", moderator: "42"}` is listed with moderator `<@undefined>` | the field shows `<@42>`, the stored moderator | high, not executed | WarningsCommand.ModeratorLostExample | WarningsCommand.IntendedListing |
