/**
 * The parts of the chat platform's objects that the bot's handlers look at.
 * The platform client itself (event dispatch, fetching, member lookup) is not
 * modelled: a handler receives the already-resolved values as inputs.
 */
module Discord {
  import opened Wrappers
  import opened Text

  /** A Discord id: a non-empty decimal digit string. */
  type Snowflake = s: string | IsDigits(s) witness "0"

  datatype User = User(id: Snowflake, tag: string, bot: bool)

  /**
   * A chat message. `guild` is None for a direct message; `mentionedRoles`
   * is None when the message carries no role-mention collection at all.
   */
  datatype Message = Message(
    id: Snowflake,
    channelId: Snowflake,
    guild: Option<Snowflake>,
    author: User,
    content: string,
    mentionedRoles: Option<set<Snowflake>>)

  /**
   * A reaction-add event: who reacted with which emoji on which message.
   * `partial` says the payload had to be fetched and `fetchOk` whether that
   * fetch succeeded; `present` lists the emoji names already on the message.
   */
  datatype Reaction = Reaction(
    partial: bool,
    fetchOk: bool,
    emoji: string,
    reactor: User,
    message: Message,
    present: seq<string>)

  /** The payload was usable: either complete, or completed by a fetch. */
  predicate Fetched(r: Reaction) {
    !r.partial || r.fetchOk
  }

  /** A guild member whose role set the bot can extend. */
  class Member {
    const user: User
    var roles: set<Snowflake>

    constructor (user: User, roles: set<Snowflake>)
      ensures this.user == user && this.roles == roles
    {
      this.user := user;
      this.roles := roles;
    }
  }

  /** A Snowflake never contains '/', so it is one segment of a path or link. */
  lemma SnowflakeHasNoSlash(s: Snowflake)
    ensures '/' !in s
  {
    DigitsAvoid(s, '/');
  }
}
