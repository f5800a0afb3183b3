# Friend graph and guild moderation of the Valkyrie chat backend, in Dafny

This project models the two HTTP handlers of the Valkyrie chat backend that decide who
may change the social graph and how.

- **Friend handler** (`handler/friend_handler.go`). A user row holds the user's friends
  and the user's *outgoing* pending requests. Send, accept, cancel and remove each
  reject a user who targets themself, load both users, apply a guarded change that is a
  successful no-op when its guard fails, and notify through the socket service only after
  the write went through. `isFriend` and `containsRequest` are the linear scans the
  guards use.
- **Member handler** (`handler/member_handler.go`). A guild has one owner, membership
  rows carrying each member's settings (nickname, colour), and a ban list. Every handler
  first loads the guild. Ban list, ban, unban and kick are for the owner only; ban, unban
  and kick refuse the caller as target. Ban appends to the ban list and deletes the membership row.
  Kick only deletes the row. Both then notify the guild room and the removed user.
  Settings are read and written by the member themself.

Layout:

- `api.dfy`: module `Api`. The handler's answer `Response<T>` (`Ok`, `NotFound`,
  `Unauthorized`, `BadRequest`, `Internal`) and the socket `Event`s. The events are named
  after the socket service's emit methods.
- `seqs.dfy`: module `Seqs`. `Without` is the store's delete of every row that carries an
  id, with its lemmas.
- `friend_handler.dfy`: module `FriendHandler`. It has the rows, the two scans (methods
  with loops), one pure function per handler (`SendRequest`, `AcceptRequest`,
  `CancelRequest`, `Unfriend`) that gives the answer and the next state, and the class
  `FriendStore`. The class's methods run each handler step by step on its fields and are
  proved equal to those functions.
- `friend_properties.dfy`: module `FriendProperties`. It proves the invariants each call
  keeps, and the properties of call sequences.
- `member_handler.dfy`, `member_properties.dfy`: the same for the member handler, with the
  class `GuildStore`.

Persistence and sockets are replaced by values: the rows are fields of the class and the
emitted events are an append-only log. Each store write that can fail is a boolean
parameter of the handler (`saveFails`, `deleteFails`, …). A failing write changes nothing.

Store operations whose implementation is not part of this model are modelled as their
call sites require:

- `SaveRequests(user)` replaces the user's row with the handler's updated copy.
- `DeleteRequest(memberId, userId)` removes `memberId` from `userId`'s outgoing requests.
  Both call sites (accept at line 228, cancel at line 286) name the request that way.
- `RemoveFriend(memberId, userId)` deletes the friendship in both directions.
- `RemoveMember` deletes the target's membership row, and is a no-op when there is none.
- `UnbanMember` deletes every ban row of the target.
- `isMember` (line 92) is "the user id has a membership row in the guild".
- `GetMemberSettings` finds settings exactly for members.
- `GetGuild` loads the guild with every one of its ban rows.
- `UpdateGuild(guild)` stores the handler's copy of the guild, and its `Bans` as the list
  it is given, duplicates included.
- `GetBanList(guildId)` returns the banned ids in the order they were added. The profile
  fields of each `BanResponse` (username, image) are not modelled, so the list is one of ids.

The model follows the code as written; in particular:

- Send checks only the sender's own outgoing list, so a request in the other direction
  does not block it.
- Ban appends to the ban list without checking for duplicates. With `UpdateGuild` as
  modelled above, banning twice stores the target twice (`BanTwiceListsTwice`).
- Accept's two saves and its delete are separate writes. The first save's error is
  overwritten by the second's (`AcceptIgnoresMemberSaveError`).
- A non-member editing settings is told the *guild* was not found.
- Remove and cancel report the *member's* id as not found even when the acting user is
  the one missing.

## Model

| member | source | states |
|---|---|---|
| `FriendHandler.IsFriend` | handler/friend_handler.go:302-310 | the scan finds `userId` iff it occurs among the user's friends |
| `FriendHandler.ContainsRequest` | handler/friend_handler.go:312-320 | the scan finds the current user's id iff it occurs among the user's outgoing requests |
| `FriendHandler.SendRequest` | handler/friend_handler.go:53-115 | self-target gives BadRequest with nothing changed; a missing sender, then a missing member, gives NotFound naming that id with nothing changed; a member already friend or requested gives Ok with nothing changed, whatever the save would do; otherwise a failed save gives BadRequest("Unable to add user as friend") with nothing changed, and a working save gives Ok, appends the member once to the sender's requests, changes no other row, and logs one AddFriendRequest to the member with the sender's id, username, image and type 1 |
| `FriendHandler.AcceptRequest` | handler/friend_handler.go:174-245 | self-target gives BadRequest; a missing caller, then a missing member, gives NotFound naming that id; with no request from the member to the caller the call is a successful no-op; with the request present the reply is BadRequest("Unable to accept the request") when the caller's save fails, else BadRequest("Unable to remove the user") when the delete fails, else Ok, and the member lists the caller unless the member's save failed, the caller lists the member unless its own save failed, the member's request to the caller is deleted only on Ok, the caller's requests never change, and every other field of both rows (username, image) stays as it was; both saves failing changes nothing; only the two rows change; AddFriend is logged exactly on that Ok |
| `FriendHandler.CancelRequest` | handler/friend_handler.go:247-300 | self-target gives BadRequest; a missing user gives NotFound naming the member; with no request to the member the call is a successful no-op; with one, a failed delete gives BadRequest("Unable to remove the user") with nothing changed, and a working delete gives Ok(true) and removes the member from the caller's outgoing requests and changes nothing else; the log never changes |
| `FriendHandler.Unfriend` | handler/friend_handler.go:117-172 | self-target gives BadRequest; a missing user gives NotFound naming the member; when the two are not friends the call is a successful no-op; when they are, a failed write gives BadRequest("Unable to remove the user") with nothing changed, and a working write gives Ok(true), deletes each from the other's friends, leaves every other field of both rows and every third user as it was, and logs RemoveFriend |
| `FriendHandler.FriendStore.SendFriendRequest` | handler/friend_handler.go:53-115 | the reply and the new rows and log are those of `SendRequest` on the old state |
| `FriendHandler.FriendStore.RemoveFriend` | handler/friend_handler.go:117-172 | the reply and the new rows and log are those of `Unfriend` on the old state |
| `FriendHandler.FriendStore.AcceptFriendRequest` | handler/friend_handler.go:174-245 | the reply and the new rows and log are those of `AcceptRequest` on the old state |
| `FriendHandler.FriendStore.CancelFriendRequest` | handler/friend_handler.go:247-300 | the reply and the new rows and log are those of `CancelRequest` on the old state |
| `FriendProperties.SendKeepsInvariants` | handler/friend_handler.go:90-112 | sending keeps every listed id a known user other than the row's owner, and keeps friendship symmetric |
| `FriendProperties.AcceptKeepsSound` | handler/friend_handler.go:210-241 | accepting, whichever writes fail, keeps every listed id a known user other than the row's owner |
| `FriendProperties.AcceptKeepsSymmetric` | handler/friend_handler.go:212-228 | accepting keeps friendship symmetric when the two saves both succeed or both fail |
| `FriendProperties.AcceptIgnoresMemberSaveError` | handler/friend_handler.go:213-226 | when only the member's save fails, accept still answers Ok and emits AddFriend, while only the caller lists the friendship |
| `FriendProperties.CancelKeepsInvariants` | handler/friend_handler.go:284-297 | cancelling keeps listed ids known and friendship symmetric |
| `FriendProperties.UnfriendKeepsInvariants` | handler/friend_handler.go:154-169 | removing a friend keeps listed ids known and friendship symmetric |
| `FriendProperties.SendTwiceKeepsOneRequest` | handler/friend_handler.go:90-114 | sending the same request twice succeeds both times, the second call changes nothing, and the member is requested exactly once |
| `FriendProperties.SendThenAccept` | handler/friend_handler.go:90-241 | after A sends and B accepts, each lists the other as friend, no request remains in either direction, and AddFriend is logged last |
| `FriendProperties.OnlyAddresseeAccepts` | handler/friend_handler.go:210-244 | the sender of a request cannot accept it: the attempt is a successful no-op |
| `FriendProperties.SecondAcceptIsNoOp` | handler/friend_handler.go:210-244 | once an accept went through, accepting the same request again is a successful no-op |
| `FriendProperties.SendThenCancelRestores` | handler/friend_handler.go:90-297 | cancelling a request just sent restores every row, and nothing is emitted for the cancel |
| `FriendProperties.FriendshipLifecycle` | handler/friend_handler.go:90-241 | send, accept, remove: all three succeed, the two are friends in between, every row ends as it began, and the log gains AddFriendRequest, AddFriend, RemoveFriend in that order |
| `MemberHandler.MemberSettings` | handler/member_handler.go:30-57 | an unknown guild gives NotFound for the guild; a caller without membership gives NotFound for the user; a member gets Ok with exactly its own settings in that guild |
| `MemberHandler.EditSettings` | handler/member_handler.go:70-114 | an unknown guild, and then a non-member, give NotFound for the guild with nothing written; a member whose write fails gets Internal with nothing changed; a member whose write works gets Ok(true), which happens exactly then, and only the caller's settings in that guild are replaced; no event is emitted |
| `MemberHandler.BanList` | handler/member_handler.go:124-164 | an unknown guild gives NotFound; a caller other than the owner gives Unauthorized; a failed read gives Internal; success, which happens exactly for the owner, returns the guild's bans, and the empty list when there are none |
| `MemberHandler.Ban` | handler/member_handler.go:175-247 | checks in the order guild, owner, target exists, target is not the caller, each failure leaving everything unchanged; once they pass, a failed ban write or a failed membership delete answers Internal; success, Ok(true) exactly when all checks pass and both writes work, appends the target to the bans, deletes its membership, and logs RemoveMember to the guild room then RemoveFromGuild to the target; a failed ban write changes nothing; a failed membership delete answers Internal with exactly the ban row added, the membership kept and nothing emitted; the owner and other guilds never change |
| `MemberHandler.Unban` | handler/member_handler.go:258-302 | guild, owner, and not-the-caller checks in that order, each leaving everything unchanged; the target need not exist; a failed delete answers Internal with nothing changed; success answers Ok(true) and deletes every ban row of the target and nothing else; nothing is ever emitted |
| `MemberHandler.Kick` | handler/member_handler.go:313-375 | checks as for ban, each failure leaving everything unchanged; a failed delete answers Internal with nothing changed; success answers Ok(true), deletes only the target's membership row, leaves the bans alone, and logs the same two removal events as ban |
| `MemberHandler.GuildStore.GetMemberSettings` | handler/member_handler.go:30-57 | answers what `MemberSettings` gives on the current state, changing nothing |
| `MemberHandler.GuildStore.EditMemberSettings` | handler/member_handler.go:70-114 | the reply and new state are those of `EditSettings` on the old state |
| `MemberHandler.GuildStore.GetBanList` | handler/member_handler.go:124-164 | answers what `BanList` gives on the current state, changing nothing |
| `MemberHandler.GuildStore.BanMember` | handler/member_handler.go:175-247 | the reply and new state are those of `Ban` on the old state |
| `MemberHandler.GuildStore.UnbanMember` | handler/member_handler.go:258-302 | the reply and new state are those of `Unban` on the old state |
| `MemberHandler.GuildStore.KickMember` | handler/member_handler.go:313-375 | the reply and new state are those of `Kick` on the old state |
| `MemberProperties.ModerationKeepsOwners` | handler/member_handler.go:196-358 | ban, kick, unban and settings edits never remove a guild owner's membership |
| `MemberProperties.EditThenGet` | handler/member_handler.go:44-101 | settings a member wrote are the settings it reads back |
| `MemberProperties.BanShowsInBanList` | handler/member_handler.go:222-244 | after a ban went through, the target has no membership, its settings read as not found, and the owner's ban list contains it |
| `MemberProperties.BanThenUnban` | handler/member_handler.go:222-299 | unbanning right after a ban succeeds, restores the ban list of a target not banned before, and does not restore membership |
| `MemberProperties.BanTwiceListsTwice` | handler/member_handler.go:222-232 | since ban appends without a duplicate check and `UpdateGuild` stores the list as given, banning the same target twice succeeds twice and stores two more ban rows for it |
| `MemberProperties.KickTwice` | handler/member_handler.go:360-372 | kicking an already-kicked member succeeds again, leaves the rows unchanged, and emits the two removal events again |

## Left out

- `GetUserFriends` and `GetUserRequests` (handler/friend_handler.go:15-51) only return the friend service's listings. How those listings are built is not part of this model.
- Request-body binding and validation (`bindData`, member_handler.go:73, 178, 261, 316) is HTTP glue and is not modelled. Every handler here starts at the guild lookup.
- The status a store error carries (`apperrors.Status(err)`) is not visible, so every such error is `Internal`. HTTP status codes, JSON rendering and logging are left out. The texts of `apperrors.MustBeOwner`, `BanYourselfError`, `UnbanYourselfError` and `KickYourselfError` are not part of this model, so the reasons carry the constants' names.
- A failed read of a user or guild is the same as a missing row. The store's own failure modes are reduced to one boolean per write, plus one for the ban-list read.
- Event payloads carry ids. The profiles that `EmitAddFriend` sends are not modelled, and neither is delivery to connected sockets.
- Settings are two strings. The source's optional (pointer) fields are not modelled.
- Atomicity and concurrency: the handlers issue separate writes with no transaction. The model runs one call at a time. `SecondAcceptIsNoOp` covers only the sequential interleaving of two accepts.
- Invite tokens (`GenerateInviteLink`, `GetGuildIdFromInvite`, `InvalidateInvites`): only their signatures are visible. Their expiry and redemption rules are not part of this model.
- The account handler, the user service and the message repository mock are outside the two handlers and are not part of this model.
