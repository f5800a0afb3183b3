/**
 The member handler: a member's own per-guild settings, and the owner's moderation
 actions (ban list, ban, unban, kick). Every handler first loads the guild; the
 moderation handlers then require the caller to be the guild's owner, load the
 target user where they need it, and reject the owner as target before they write.
 Socket events follow only the writes that went through.

 The functions below (MemberSettings, EditSettings, BanList, Ban, Unban, Kick) are the
 specification of one handler call on a Store; the class GuildStore runs the same calls
 step by step on its fields and is proved to agree with them.
 */
module MemberHandler {
  import opened Api
  import opened Seqs

  const BanYourself := "BanYourselfError"
  const UnbanYourself := "UnbanYourselfError"
  const KickYourself := "KickYourselfError"

  /** A member's per-guild profile overrides. */
  datatype Settings = Settings(nickname: string, color: string)

  /** A guild row, keyed by its id: its single owner, its membership rows (member id to
      that member's settings) and its ban list in insertion order. */
  datatype Guild = Guild(ownerId: string, members: map<string, Settings>, bans: seq<string>)

  /** The guild service's rows, the ids of all registered users and the socket events so far. */
  datatype Store = Store(guilds: map<string, Guild>, users: set<string>, events: seq<Event>)

  /** The answer of one mutating handler call and the state it leaves behind. */
  datatype Step = Step(reply: Response<bool>, after: Store)

  /** The membership test the settings editor runs. */
  predicate IsMember(guild: Guild, userId: string)
  {
    userId in guild.members
  }

  // ---------------------------------------------------------------------------
  // One handler call, as a function of the state before it

  /** GetMemberSettings: the caller's own settings in the guild. */
  function MemberSettings(s: Store, userId: string, guildId: string): (r: Response<Settings>)
    ensures guildId !in s.guilds ==> r == NotFound("guild", guildId)
    ensures guildId in s.guilds && !IsMember(s.guilds[guildId], userId) ==> r == NotFound("user", userId)
    ensures guildId in s.guilds && IsMember(s.guilds[guildId], userId)
            ==> r == Ok(s.guilds[guildId].members[userId])
  {
    if guildId !in s.guilds then NotFound("guild", guildId)
    else if userId !in s.guilds[guildId].members then NotFound("user", userId)
    else Ok(s.guilds[guildId].members[userId])
  }

  /** EditMemberSettings: the caller replaces its own settings; a non-member is told
      that the guild was not found, and nothing is written. */
  function EditSettings(s: Store, userId: string, guildId: string, req: Settings, updateFails: bool): (r: Step)
    ensures r.reply.Ok? ==> r.reply == Ok(true)
    ensures guildId !in s.guilds ==> r == Step(NotFound("guild", guildId), s)
    ensures guildId in s.guilds && !IsMember(s.guilds[guildId], userId) ==> r == Step(NotFound("guild", guildId), s)
    ensures !r.reply.Ok? ==> r.after == s
    ensures guildId in s.guilds && IsMember(s.guilds[guildId], userId) && updateFails ==> r == Step(Internal, s)
    ensures r.reply.Ok? <==> guildId in s.guilds && IsMember(s.guilds[guildId], userId) && !updateFails
    ensures r.after.events == s.events && r.after.users == s.users
    ensures r.reply.Ok? ==>
              && r.after.guilds.Keys == s.guilds.Keys
              && (forall id :: id in s.guilds && id != guildId ==> r.after.guilds[id] == s.guilds[id])
              && r.after.guilds[guildId].ownerId == s.guilds[guildId].ownerId
              && r.after.guilds[guildId].bans == s.guilds[guildId].bans
              && r.after.guilds[guildId].members.Keys == s.guilds[guildId].members.Keys
              && r.after.guilds[guildId].members[userId] == req
              && (forall m :: m in s.guilds[guildId].members && m != userId ==>
                    r.after.guilds[guildId].members[m] == s.guilds[guildId].members[m])
  {
    if guildId !in s.guilds then Step(NotFound("guild", guildId), s)
    else
      var guild := s.guilds[guildId];
      if !IsMember(guild, userId) then Step(NotFound("guild", guildId), s)
      else if updateFails then Step(Internal, s)
      else Step(Ok(true), s.(guilds := s.guilds[guildId := guild.(members := guild.members[userId := req])]))
  }

  /** GetBanList: the owner reads the guild's bans; no bans is an empty list. */
  function BanList(s: Store, userId: string, guildId: string, listFails: bool): (r: Response<seq<string>>)
    ensures guildId !in s.guilds ==> r == NotFound("guild", guildId)
    ensures guildId in s.guilds && s.guilds[guildId].ownerId != userId ==> r == Unauthorized
    ensures guildId in s.guilds && s.guilds[guildId].ownerId == userId && listFails ==> r == Internal
    ensures r.Ok? <==> guildId in s.guilds && s.guilds[guildId].ownerId == userId && !listFails
    ensures r.Ok? ==> r.value == s.guilds[guildId].bans
    // A guild without bans answers with an empty list, never with a missing one.
    ensures r.Ok? && s.guilds[guildId].bans == [] ==> r == Ok([])
  {
    if guildId !in s.guilds then NotFound("guild", guildId)
    else
      var guild := s.guilds[guildId];
      if guild.ownerId != userId then Unauthorized
      else if listFails then Internal
      else if |guild.bans| == 0 then Ok([])
      else Ok(guild.bans)
  }

  /** BanMember: the owner appends the target to the ban list (first write), then deletes
      the target's membership row (second write), then notifies the guild room and the target. */
  function Ban(s: Store, userId: string, guildId: string, memberId: string,
               updateFails: bool, removeFails: bool): (r: Step)
    ensures r.reply.Ok? ==> r.reply == Ok(true)
    ensures r.after.users == s.users && r.after.guilds.Keys == s.guilds.Keys
    ensures guildId !in s.guilds ==> r == Step(NotFound("guild", guildId), s)
    ensures guildId in s.guilds && s.guilds[guildId].ownerId != userId ==> r == Step(Unauthorized, s)
    ensures guildId in s.guilds && s.guilds[guildId].ownerId == userId && memberId !in s.users
            ==> r == Step(NotFound("user", memberId), s)
    ensures guildId in s.guilds && s.guilds[guildId].ownerId == userId && memberId in s.users && memberId == userId
            ==> r == Step(BadRequest(BanYourself), s)
    ensures forall id :: id in s.guilds && id != guildId ==> r.after.guilds[id] == s.guilds[id]
    ensures guildId in s.guilds ==> r.after.guilds[guildId].ownerId == s.guilds[guildId].ownerId
    ensures updateFails ==> r.after == s
    ensures (guildId in s.guilds && s.guilds[guildId].ownerId == userId && memberId in s.users && memberId != userId
             && (updateFails || removeFails)) ==> r.reply == Internal
    ensures (guildId in s.guilds && s.guilds[guildId].ownerId == userId && memberId in s.users && memberId != userId
             && !updateFails && removeFails)
            ==> r == Step(Internal, s.(guilds := s.guilds[guildId := s.guilds[guildId].(bans := s.guilds[guildId].bans + [memberId])]))
    ensures r.reply.Ok? <==>
              && guildId in s.guilds && s.guilds[guildId].ownerId == userId
              && memberId in s.users && memberId != userId && !updateFails && !removeFails
    ensures r.reply.Ok? ==>
              && r.after.guilds[guildId].bans == s.guilds[guildId].bans + [memberId]
              && r.after.guilds[guildId].members == s.guilds[guildId].members - {memberId}
              && r.after.events == s.events + [EmitRemoveMember(guildId, memberId), EmitRemoveFromGuild(memberId, guildId)]
    ensures !r.reply.Ok? ==> r.after.events == s.events
    ensures !r.reply.Ok? && r.after != s ==>
              && removeFails && guildId in s.guilds
              && r.after.guilds[guildId] == s.guilds[guildId].(bans := s.guilds[guildId].bans + [memberId])
  {
    if guildId !in s.guilds then Step(NotFound("guild", guildId), s)
    else
      var guild := s.guilds[guildId];
      if guild.ownerId != userId then Step(Unauthorized, s)
      else if memberId !in s.users then Step(NotFound("user", memberId), s)
      else if memberId == userId then Step(BadRequest(BanYourself), s)
      else
        var banned := guild.(bans := guild.bans + [memberId]);
        if updateFails then Step(Internal, s)
        else if removeFails then Step(Internal, s.(guilds := s.guilds[guildId := banned]))
        else
          Step(Ok(true), Store(s.guilds[guildId := banned.(members := banned.members - {memberId})], s.users,
                               s.events + [EmitRemoveMember(guildId, memberId), EmitRemoveFromGuild(memberId, guildId)]))
  }

  /** UnbanMember: the owner deletes every ban row of the target. The target need not
      be a registered user, and nobody is notified. */
  function Unban(s: Store, userId: string, guildId: string, memberId: string, unbanFails: bool): (r: Step)
    ensures r.reply.Ok? ==> r.reply == Ok(true)
    ensures r.after.users == s.users && r.after.guilds.Keys == s.guilds.Keys
    ensures r.after.events == s.events
    ensures guildId !in s.guilds ==> r == Step(NotFound("guild", guildId), s)
    ensures guildId in s.guilds && s.guilds[guildId].ownerId != userId ==> r == Step(Unauthorized, s)
    ensures guildId in s.guilds && s.guilds[guildId].ownerId == userId && memberId == userId
            ==> r == Step(BadRequest(UnbanYourself), s)
    ensures !r.reply.Ok? ==> r.after == s
    ensures guildId in s.guilds && s.guilds[guildId].ownerId == userId && memberId != userId && unbanFails
            ==> r == Step(Internal, s)
    ensures r.reply.Ok? <==>
              guildId in s.guilds && s.guilds[guildId].ownerId == userId && memberId != userId && !unbanFails
    ensures forall id :: id in s.guilds && id != guildId ==> r.after.guilds[id] == s.guilds[id]
    ensures r.reply.Ok? ==>
              && memberId !in r.after.guilds[guildId].bans
              && r.after.guilds[guildId] == s.guilds[guildId].(bans := Without(s.guilds[guildId].bans, memberId))
  {
    if guildId !in s.guilds then Step(NotFound("guild", guildId), s)
    else
      var guild := s.guilds[guildId];
      if guild.ownerId != userId then Step(Unauthorized, s)
      else if memberId == userId then Step(BadRequest(UnbanYourself), s)
      else if unbanFails then Step(Internal, s)
      else Step(Ok(true), s.(guilds := s.guilds[guildId := guild.(bans := Without(guild.bans, memberId))]))
  }

  /** KickMember: the owner deletes the target's membership row and notifies the guild
      room and the target; the ban list is not touched. */
  function Kick(s: Store, userId: string, guildId: string, memberId: string, removeFails: bool): (r: Step)
    ensures r.reply.Ok? ==> r.reply == Ok(true)
    ensures r.after.users == s.users && r.after.guilds.Keys == s.guilds.Keys
    ensures guildId !in s.guilds ==> r == Step(NotFound("guild", guildId), s)
    ensures guildId in s.guilds && s.guilds[guildId].ownerId != userId ==> r == Step(Unauthorized, s)
    ensures guildId in s.guilds && s.guilds[guildId].ownerId == userId && memberId !in s.users
            ==> r == Step(NotFound("user", memberId), s)
    ensures guildId in s.guilds && s.guilds[guildId].ownerId == userId && memberId in s.users && memberId == userId
            ==> r == Step(BadRequest(KickYourself), s)
    ensures !r.reply.Ok? ==> r.after == s
    ensures (guildId in s.guilds && s.guilds[guildId].ownerId == userId && memberId in s.users && memberId != userId
             && removeFails) ==> r == Step(Internal, s)
    ensures r.reply.Ok? <==>
              && guildId in s.guilds && s.guilds[guildId].ownerId == userId
              && memberId in s.users && memberId != userId && !removeFails
    ensures forall id :: id in s.guilds && id != guildId ==> r.after.guilds[id] == s.guilds[id]
    ensures r.reply.Ok? ==>
              && r.after.guilds[guildId] == s.guilds[guildId].(members := s.guilds[guildId].members - {memberId})
              && r.after.events == s.events + [EmitRemoveMember(guildId, memberId), EmitRemoveFromGuild(memberId, guildId)]
  {
    if guildId !in s.guilds then Step(NotFound("guild", guildId), s)
    else
      var guild := s.guilds[guildId];
      if guild.ownerId != userId then Step(Unauthorized, s)
      else if memberId !in s.users then Step(NotFound("user", memberId), s)
      else if memberId == userId then Step(BadRequest(KickYourself), s)
      else if removeFails then Step(Internal, s)
      else
        Step(Ok(true), Store(s.guilds[guildId := guild.(members := guild.members - {memberId})], s.users,
                             s.events + [EmitRemoveMember(guildId, memberId), EmitRemoveFromGuild(memberId, guildId)]))
  }

  // ---------------------------------------------------------------------------
  // The handlers, step by step

  /** The rows of the guild service, the registered users and the log of socket events,
      with the six handlers as methods. The `...Fails` parameters say which store call fails. */
  class GuildStore {
    var guilds: map<string, Guild>
    var users: set<string>
    var events: seq<Event>

    constructor (rows: map<string, Guild>, registered: set<string>)
      ensures guilds == rows && users == registered && events == []
    {
      guilds := rows;
      users := registered;
      events := [];
    }

    function State(): Store
      reads this
    {
      Store(guilds, users, events)
    }

    method GetMemberSettings(userId: string, guildId: string) returns (r: Response<Settings>)
      ensures r == MemberSettings(State(), userId, guildId)
    {
      if guildId !in guilds {
        return NotFound("guild", guildId);
      }
      var memberships := guilds[guildId].members;
      if userId !in memberships {
        return NotFound("user", userId);
      }
      return Ok(memberships[userId]);
    }

    method EditMemberSettings(userId: string, guildId: string, req: Settings, updateFails: bool)
      returns (r: Response<bool>)
      modifies this
      ensures Step(r, State()) == EditSettings(old(State()), userId, guildId, req, updateFails)
    {
      if guildId !in guilds {
        return NotFound("guild", guildId);
      }
      var guild := guilds[guildId];
      if !IsMember(guild, userId) {
        return NotFound("guild", guildId);
      }
      if updateFails {
        return Internal;
      }
      guilds := guilds[guildId := guild.(members := guild.members[userId := req])];
      return Ok(true);
    }

    method GetBanList(userId: string, guildId: string, listFails: bool) returns (r: Response<seq<string>>)
      ensures r == BanList(State(), userId, guildId, listFails)
    {
      if guildId !in guilds {
        return NotFound("guild", guildId);
      }
      var guild := guilds[guildId];
      if guild.ownerId != userId {
        return Unauthorized;
      }
      if listFails {
        return Internal;
      }
      var bans := guild.bans;
      if |bans| == 0 {
        return Ok([]);
      }
      return Ok(bans);
    }

    method BanMember(userId: string, guildId: string, memberId: string, updateFails: bool, removeFails: bool)
      returns (r: Response<bool>)
      modifies this
      ensures Step(r, State()) == Ban(old(State()), userId, guildId, memberId, updateFails, removeFails)
    {
      if guildId !in guilds {
        return NotFound("guild", guildId);
      }
      var guild := guilds[guildId];
      if guild.ownerId != userId {
        return Unauthorized;
      }
      if memberId !in users {
        return NotFound("user", memberId);
      }
      if memberId == userId {
        return BadRequest(BanYourself);
      }
      guild := guild.(bans := guild.bans + [memberId]);
      if updateFails {
        return Internal;
      }
      guilds := guilds[guildId := guild];
      if removeFails {
        return Internal;
      }
      guilds := guilds[guildId := guild.(members := guild.members - {memberId})];
      events := events + [EmitRemoveMember(guildId, memberId)];
      events := events + [EmitRemoveFromGuild(memberId, guildId)];
      return Ok(true);
    }

    method UnbanMember(userId: string, guildId: string, memberId: string, unbanFails: bool)
      returns (r: Response<bool>)
      modifies this
      ensures Step(r, State()) == Unban(old(State()), userId, guildId, memberId, unbanFails)
    {
      if guildId !in guilds {
        return NotFound("guild", guildId);
      }
      var guild := guilds[guildId];
      if guild.ownerId != userId {
        return Unauthorized;
      }
      if memberId == userId {
        return BadRequest(UnbanYourself);
      }
      if unbanFails {
        return Internal;
      }
      guilds := guilds[guildId := guild.(bans := Without(guild.bans, memberId))];
      return Ok(true);
    }

    method KickMember(userId: string, guildId: string, memberId: string, removeFails: bool)
      returns (r: Response<bool>)
      modifies this
      ensures Step(r, State()) == Kick(old(State()), userId, guildId, memberId, removeFails)
    {
      if guildId !in guilds {
        return NotFound("guild", guildId);
      }
      var guild := guilds[guildId];
      if guild.ownerId != userId {
        return Unauthorized;
      }
      if memberId !in users {
        return NotFound("user", memberId);
      }
      if memberId == userId {
        return BadRequest(KickYourself);
      }
      if removeFails {
        return Internal;
      }
      guilds := guilds[guildId := guild.(members := guild.members - {memberId})];
      events := events + [EmitRemoveMember(guildId, memberId)];
      events := events + [EmitRemoveFromGuild(memberId, guildId)];
      return Ok(true);
    }
  }
}
