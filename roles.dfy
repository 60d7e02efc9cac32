/**
 * Reaction roles: a static table of (channel, message, [(emoji, role)])
 * entries; a reaction on a listed message with a listed emoji grants the
 * listed role, if that role exists in the guild.
 */
module Roles {
  import opened Discord

  datatype RolePair = RolePair(emoji: string, roleId: Snowflake)
  datatype RoleAssignEntry = RoleAssignEntry(channelId: Snowflake, messageId: Snowflake, roles: seq<RolePair>)

  /** The roles that the pairs of one entry grant for this emoji, among the guild's roles. */
  function PairRoles(pairs: seq<RolePair>, emoji: string, guildRoles: set<Snowflake>): (granted: set<Snowflake>)
    ensures granted <= guildRoles
    decreases |pairs|
  {
    if pairs == [] then {}
    else
      var last := pairs[|pairs| - 1];
      PairRoles(pairs[..|pairs| - 1], emoji, guildRoles)
        + (if last.emoji == emoji && last.roleId in guildRoles then {last.roleId} else {})
  }

  /** An entry is considered only for the very message it names, in the channel it names. */
  predicate Considered(e: RoleAssignEntry, channelId: Snowflake, messageId: Snowflake) {
    e.channelId == channelId && e.messageId == messageId
  }

  /**
   * The roles that the whole table grants for a reaction with `emoji` on
   * message `messageId`; the table never grants a role the guild does not have.
   */
  function MatchedRoles(table: seq<RoleAssignEntry>, channelId: Snowflake, messageId: Snowflake,
                        emoji: string, guildRoles: set<Snowflake>): (granted: set<Snowflake>)
    ensures granted <= guildRoles
    decreases |table|
  {
    if table == [] then {}
    else
      var last := table[|table| - 1];
      MatchedRoles(table[..|table| - 1], channelId, messageId, emoji, guildRoles)
        + (if Considered(last, channelId, messageId) then PairRoles(last.roles, emoji, guildRoles) else {})
  }

  /** A role comes from a pair of an entry iff that pair has the emoji and the role exists. */
  lemma {:induction false} PairRolesSpec(pairs: seq<RolePair>, emoji: string, guildRoles: set<Snowflake>, r: Snowflake)
    ensures r in PairRoles(pairs, emoji, guildRoles) <==>
              r in guildRoles && exists j :: 0 <= j < |pairs| && pairs[j].emoji == emoji && pairs[j].roleId == r
    decreases |pairs|
  {
    if pairs != [] {
      var init := pairs[..|pairs| - 1];
      PairRolesSpec(init, emoji, guildRoles, r);
      if exists j :: 0 <= j < |pairs| && pairs[j].emoji == emoji && pairs[j].roleId == r {
        var j :| 0 <= j < |pairs| && pairs[j].emoji == emoji && pairs[j].roleId == r;
        if j < |init| {
          assert init[j] == pairs[j];
        }
      }
      if exists j :: 0 <= j < |init| && init[j].emoji == emoji && init[j].roleId == r {
        var j :| 0 <= j < |init| && init[j].emoji == emoji && init[j].roleId == r;
        assert pairs[j] == init[j];
      }
    }
  }

  /**
   * A role is granted iff it exists in the guild and some entry for this
   * channel and message has a pair with this emoji and that role.
   */
  lemma {:induction false} MatchedRolesSpec(table: seq<RoleAssignEntry>, channelId: Snowflake, messageId: Snowflake,
                                           emoji: string, guildRoles: set<Snowflake>, r: Snowflake)
    ensures r in MatchedRoles(table, channelId, messageId, emoji, guildRoles) <==>
              r in guildRoles &&
              exists i, j :: 0 <= i < |table| && Considered(table[i], channelId, messageId) &&
                             0 <= j < |table[i].roles| &&
                             table[i].roles[j].emoji == emoji && table[i].roles[j].roleId == r
    decreases |table|
  {
    if table != [] {
      var init := table[..|table| - 1];
      var last := table[|table| - 1];
      MatchedRolesSpec(init, channelId, messageId, emoji, guildRoles, r);
      PairRolesSpec(last.roles, emoji, guildRoles, r);
      if exists i, j :: 0 <= i < |table| && Considered(table[i], channelId, messageId) &&
                        0 <= j < |table[i].roles| &&
                        table[i].roles[j].emoji == emoji && table[i].roles[j].roleId == r {
        var i, j :| 0 <= i < |table| && Considered(table[i], channelId, messageId) &&
                    0 <= j < |table[i].roles| &&
                    table[i].roles[j].emoji == emoji && table[i].roles[j].roleId == r;
        if i < |init| {
          assert init[i] == table[i];
        }
      }
      if exists i, j :: 0 <= i < |init| && Considered(init[i], channelId, messageId) &&
                        0 <= j < |init[i].roles| &&
                        init[i].roles[j].emoji == emoji && init[i].roles[j].roleId == r {
        var i, j :| 0 <= i < |init| && Considered(init[i], channelId, messageId) &&
                    0 <= j < |init[i].roles| &&
                    init[i].roles[j].emoji == emoji && init[i].roles[j].roleId == r;
        assert table[i] == init[i];
      }
    }
  }

  /** The handler goes on past its guards: the payload is usable and the reactor is not a bot. */
  predicate Proceeds(r: Reaction) {
    Fetched(r) && !r.reactor.bot
  }

  /**
   * The `messageReactionAdd` handler of the role table. `member` is the
   * reactor as a guild member (null when the reactor is not one), and
   * `guildRoles` the ids in the guild's role cache. Only roles are added,
   * and only the matched, existing ones.
   */
  method OnReactionAdd(table: seq<RoleAssignEntry>, r: Reaction, member: Member?, guildRoles: set<Snowflake>)
    modifies member
    ensures member != null ==>
              member.roles == old(member.roles) +
                (if Proceeds(r) then MatchedRoles(table, r.message.channelId, r.message.id, r.emoji, guildRoles) else {})
  {
    if r.partial && !r.fetchOk {
      return;
    }
    if r.reactor.bot {
      return;
    }
    if member == null {
      return;
    }
    var channelId, messageId := r.message.channelId, r.message.id;
    var i := 0;
    while i < |table|
      invariant 0 <= i <= |table|
      invariant member.roles == old(member.roles) + MatchedRoles(table[..i], channelId, messageId, r.emoji, guildRoles)
    {
      var entry := table[i];
      assert table[..i + 1][..i] == table[..i];
      if entry.channelId == channelId && entry.messageId == messageId {
        var j := 0;
        while j < |entry.roles|
          invariant 0 <= j <= |entry.roles|
          invariant member.roles == old(member.roles) + MatchedRoles(table[..i], channelId, messageId, r.emoji, guildRoles)
                                    + PairRoles(entry.roles[..j], r.emoji, guildRoles)
        {
          var pair := entry.roles[j];
          assert entry.roles[..j + 1][..j] == entry.roles[..j];
          if pair.emoji == r.emoji && pair.roleId in guildRoles {
            member.roles := member.roles + {pair.roleId};
          }
          j := j + 1;
        }
        assert entry.roles[..j] == entry.roles;
      }
      i := i + 1;
    }
    assert table[..i] == table;
  }

  /** A reaction on a message that no entry names grants nothing. */
  lemma UnlistedMessageGrantsNothing(table: seq<RoleAssignEntry>, channelId: Snowflake, messageId: Snowflake,
                                     emoji: string, guildRoles: set<Snowflake>)
    requires forall i :: 0 <= i < |table| ==> !Considered(table[i], channelId, messageId)
    ensures MatchedRoles(table, channelId, messageId, emoji, guildRoles) == {}
  {
    forall r | r in MatchedRoles(table, channelId, messageId, emoji, guildRoles)
      ensures false
    {
      MatchedRolesSpec(table, channelId, messageId, emoji, guildRoles, r);
    }
  }
}
