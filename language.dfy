/**
 * commands/language.js: /language stores the invoker's language and
 * /mylanguage shows the one in effect. Both build their reply with `t`, which
 * the file never defines, so neither reply is ever sent: the call throws,
 * after /language has already stored and saved its change.
 */
module LanguageCommands {
  import opened Common
  import opened Store

  /** /language: the choice, `es` or `en`, is stored under the user's id (not the guild's). */
  method SetLanguage(cfg: BotConfig, user: UserId, lang: string) returns (replySent: bool)
    requires lang == "es" || lang == "en"
    modifies cfg`userLanguages, cfg`saves
    ensures cfg.userLanguages == old(cfg.userLanguages)[user := lang]
    ensures cfg.saves == old(cfg.saves) + 1
    ensures !replySent
    ensures old(cfg.Valid()) ==> cfg.Valid()
  {
    cfg.userLanguages := cfg.userLanguages[user := lang];
    cfg.Save();
    replySent := false;
  }

  /** `config.userLanguages?.[user] || config.language || 'es'`. */
  function ResolveLanguage(userLanguages: map<UserId, string>, language: Option<string>, user: UserId): (r: string)
    ensures r != ""
    ensures user in userLanguages && userLanguages[user] != "" ==> r == userLanguages[user]
    ensures (user !in userLanguages || userLanguages[user] == "") && Truthy(language) ==> r == language.value
    ensures (user !in userLanguages || userLanguages[user] == "") && !Truthy(language) ==> r == "es"
  {
    var entry := if user in userLanguages then Some(userLanguages[user]) else None;
    OrDefault(entry, OrDefault(language, "es"))
  }

  /** The language name shown: Spanish exactly for `es`, English for anything else. */
  function DisplayName(code: string): (r: string)
    ensures r == "Español" <==> code == "es"
    ensures r == "English" <==> code != "es"
  {
    if code == "es" then "Español" else "English"
  }

  /** After /language, /mylanguage resolves to the language just chosen. */
  lemma ResolveAfterSet(userLanguages: map<UserId, string>, language: Option<string>, user: UserId, lang: string)
    requires lang == "es" || lang == "en"
    ensures ResolveLanguage(userLanguages[user := lang], language, user) == lang
    ensures DisplayName(ResolveLanguage(userLanguages[user := lang], language, user)) == if lang == "es" then "Español" else "English"
  {
  }

  /** /language changes what any other user resolves to in no way. */
  lemma ResolveOthersUnaffected(userLanguages: map<UserId, string>, language: Option<string>, user: UserId, other: UserId, lang: string)
    requires other != user
    ensures ResolveLanguage(userLanguages[user := lang], language, other) == ResolveLanguage(userLanguages, language, other)
  {
    assert (other in userLanguages[user := lang]) == (other in userLanguages);
  }

  /**
   * When every stored choice is `es` or `en` and the global default is unset or
   * one of them, the resolved language is one of the two.
   */
  lemma ResolvedIsKnown(userLanguages: map<UserId, string>, language: Option<string>, user: UserId)
    requires LanguagesKnown(userLanguages)
    requires language.Some? ==> language.value in ["es", "en", ""]
    ensures ResolveLanguage(userLanguages, language, user) in ["es", "en"]
  {
  }
}
