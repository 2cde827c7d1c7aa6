/** Identifiers and the option type shared by every handler of the bot. */
module Common {

  /** Discord snowflakes travel as decimal strings; the handlers never look inside them. */
  type GuildId = string
  type UserId = string
  type ChannelId = string
  type RoleId = string

  datatype Option<T> = None | Some(value: T)

  /** JavaScript truthiness of an optional string: present and not empty. */
  predicate Truthy(o: Option<string>)
  {
    o.Some? && o.value != ""
  }

  /** The `value || fallback` idiom the handlers use for optional string arguments. */
  function OrDefault(o: Option<string>, fallback: string): string
  {
    if Truthy(o) then o.value else fallback
  }
}
