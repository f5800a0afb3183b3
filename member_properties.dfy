/**
 Properties of the member handler that span the state or several calls: the owner is
 never removed by moderation, settings written are settings read, a ban shows in the
 ban list and removes the member, unban undoes the ban row, and a repeated kick is a
 successful no-op on the rows.
 */
module MemberProperties {
  import opened Api
  import opened Seqs
  import opened MemberHandler

  /** Every guild's owner holds a membership row. */
  ghost predicate OwnersAreMembers(s: Store)
  {
    forall id :: id in s.guilds ==> s.guilds[id].ownerId in s.guilds[id].members
  }

  /** No handler of this module can remove a guild's owner from the guild: ban and kick
      refuse the owner as target, and unban and settings edits keep the member rows. */
  lemma ModerationKeepsOwners(s: Store, userId: string, guildId: string, memberId: string, req: Settings,
                              fails1: bool, fails2: bool)
    requires OwnersAreMembers(s)
    ensures OwnersAreMembers(Ban(s, userId, guildId, memberId, fails1, fails2).after)
    ensures OwnersAreMembers(Kick(s, userId, guildId, memberId, fails1).after)
    ensures OwnersAreMembers(Unban(s, userId, guildId, memberId, fails1).after)
    ensures OwnersAreMembers(EditSettings(s, userId, guildId, req, fails1).after)
  {
  }

  /** Settings an editor wrote are the settings the member reads back. */
  lemma EditThenGet(s: Store, userId: string, guildId: string, req: Settings)
    requires guildId in s.guilds && IsMember(s.guilds[guildId], userId)
    ensures var edited := EditSettings(s, userId, guildId, req, false);
            edited.reply == Ok(true) && MemberSettings(edited.after, userId, guildId) == Ok(req)
  {
  }

  /** After a ban that went through, the target is no member (its settings are gone) and
      the owner finds it in the ban list. */
  lemma BanShowsInBanList(s: Store, ownerId: string, guildId: string, memberId: string)
    requires Ban(s, ownerId, guildId, memberId, false, false).reply.Ok?
    ensures var banned := Ban(s, ownerId, guildId, memberId, false, false).after;
            && !IsMember(banned.guilds[guildId], memberId)
            && MemberSettings(banned, memberId, guildId) == NotFound("user", memberId)
            && BanList(banned, ownerId, guildId, false).Ok?
            && memberId in BanList(banned, ownerId, guildId, false).value
  {
  }

  /** Unbanning right after a ban deletes the new ban row: the ban list is back to what it
      was when the target had not been banned before, and the target stays out of the guild. */
  lemma BanThenUnban(s: Store, ownerId: string, guildId: string, memberId: string)
    requires Ban(s, ownerId, guildId, memberId, false, false).reply.Ok?
    requires memberId !in s.guilds[guildId].bans
    ensures var banned := Ban(s, ownerId, guildId, memberId, false, false).after;
            var unbanned := Unban(banned, ownerId, guildId, memberId, false);
            && unbanned.reply == Ok(true)
            && unbanned.after.guilds[guildId].bans == s.guilds[guildId].bans
            && !IsMember(unbanned.after.guilds[guildId], memberId)
  {
    AppendThenWithout(s.guilds[guildId].bans, memberId);
  }

  /** Ban appends without a duplicate check, and the store keeps the list it is given,
      so banning twice stores the target twice in the ban list. */
  lemma BanTwiceListsTwice(s: Store, ownerId: string, guildId: string, memberId: string)
    requires Ban(s, ownerId, guildId, memberId, false, false).reply.Ok?
    ensures var first := Ban(s, ownerId, guildId, memberId, false, false).after;
            var second := Ban(first, ownerId, guildId, memberId, false, false);
            && second.reply == Ok(true)
            && multiset(second.after.guilds[guildId].bans)[memberId] == multiset(s.guilds[guildId].bans)[memberId] + 2
  {
  }

  /** Kicking a member already kicked succeeds again and leaves the rows as they were,
      though the two removal events are emitted once more. */
  lemma KickTwice(s: Store, ownerId: string, guildId: string, memberId: string)
    requires Kick(s, ownerId, guildId, memberId, false).reply.Ok?
    ensures var first := Kick(s, ownerId, guildId, memberId, false).after;
            var second := Kick(first, ownerId, guildId, memberId, false);
            && second.reply == Ok(true)
            && second.after.guilds == first.guilds
            && second.after.events == first.events + [EmitRemoveMember(guildId, memberId), EmitRemoveFromGuild(memberId, guildId)]
  {
    var first := Kick(s, ownerId, guildId, memberId, false).after;
    assert first.guilds[guildId].members - {memberId} == first.guilds[guildId].members;
  }
}
