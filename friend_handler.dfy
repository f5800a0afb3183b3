/**
 The friend handler: sending, accepting and cancelling friend requests and removing
 friends. Each user row holds the user's friends and the user's OUTGOING pending
 requests. A handler rejects self-targeting, loads both users, applies a guarded
 change through the friend service, and notifies through the socket service only
 after the write went through.

 The pure functions below (SendRequest, AcceptRequest, CancelRequest, Unfriend) are the
 specification of one handler call on a Graph; the class FriendStore runs the same calls
 step by step on its fields and is proved to agree with them.
 */
module FriendHandler {
  import opened Api
  import opened Seqs

  const CannotAddYourself := "You cannot add yourself"
  const CannotRemoveYourself := "You cannot remove yourself"
  const CannotAcceptYourself := "You cannot accept yourself"
  const CannotCancelYourself := "You cannot cancel yourself"
  const UnableToAdd := "Unable to add user as friend"
  const UnableToAccept := "Unable to accept the request"
  const UnableToRemove := "Unable to remove the user"

  /** A user row, keyed by its id in the store: public profile, the ids of its
      friends and the ids of the users it has sent a pending request to. */
  datatype User = User(username: string, image: string, friends: seq<string>, requests: seq<string>)

  /** The friend service's rows and the socket events emitted so far. */
  datatype Graph = Graph(users: map<string, User>, events: seq<Event>)

  /** The answer of one handler call and the state it leaves behind. */
  datatype Step = Step(reply: Response<bool>, after: Graph)

  // ---------------------------------------------------------------------------
  // The two scans

  /** Linear scan of a user's friends for an id. */
  method IsFriend(user: User, userId: string) returns (found: bool)
    ensures found <==> userId in user.friends
  {
    for i := 0 to |user.friends|
      invariant userId !in user.friends[..i]
    {
      if user.friends[i] == userId {
        return true;
      }
    }
    assert user.friends[..|user.friends|] == user.friends;
    return false;
  }

  /** Linear scan of a user's outgoing requests for the id of `current`. */
  method ContainsRequest(user: User, currentId: string) returns (found: bool)
    ensures found <==> currentId in user.requests
  {
    for i := 0 to |user.requests|
      invariant currentId !in user.requests[..i]
    {
      if user.requests[i] == currentId {
        return true;
      }
    }
    assert user.requests[..|user.requests|] == user.requests;
    return false;
  }

  // ---------------------------------------------------------------------------
  // Store writes that are not a whole-row save

  /** DeleteRequest(memberId, userId): drops `memberId` from `userId`'s outgoing requests. */
  function RequestDeleted(users: map<string, User>, memberId: string, userId: string): (r: map<string, User>)
    ensures r.Keys == users.Keys
  {
    if userId in users
    then users[userId := users[userId].(requests := Without(users[userId].requests, memberId))]
    else users
  }

  /** RemoveFriend(memberId, userId): drops the friendship rows in both directions. */
  function FriendshipRemoved(users: map<string, User>, memberId: string, userId: string): (r: map<string, User>)
    ensures r.Keys == users.Keys
  {
    var once := if userId in users
                then users[userId := users[userId].(friends := Without(users[userId].friends, memberId))]
                else users;
    if memberId in once
    then once[memberId := once[memberId].(friends := Without(once[memberId].friends, userId))]
    else once
  }

  // ---------------------------------------------------------------------------
  // Invariants of the rows

  /** Every listed friend or requested user exists and is not the user itself. */
  ghost predicate Sound(users: map<string, User>)
  {
    && (forall id, f :: id in users && f in users[id].friends ==> f in users && f != id)
    && (forall id, q :: id in users && q in users[id].requests ==> q in users && q != id)
  }

  /** Friendship reads the same from both sides. */
  ghost predicate Symmetric(users: map<string, User>)
  {
    forall a, b :: a in users && b in users && b in users[a].friends ==> a in users[b].friends
  }

  // ---------------------------------------------------------------------------
  // One handler call, as a function of the state before it

  /** SendFriendRequest: `userId` asks `memberId` to become friends. */
  function SendRequest(g: Graph, userId: string, memberId: string, saveFails: bool): (r: Step)
    ensures r.after.users.Keys == g.users.Keys
    ensures userId == memberId ==> r == Step(BadRequest(CannotAddYourself), g)
    ensures userId != memberId && userId !in g.users ==> r == Step(NotFound("user", userId), g)
    ensures userId != memberId && userId in g.users && memberId !in g.users
            ==> r == Step(NotFound("user", memberId), g)
    ensures saveFails ==> r.after == g
    ensures !r.reply.Ok? ==> r.after == g
    ensures (userId != memberId && userId in g.users && memberId in g.users
             && (memberId in g.users[userId].friends || memberId in g.users[userId].requests))
            ==> r == Step(Ok(true), g)
    ensures (userId != memberId && userId in g.users && memberId in g.users
             && memberId !in g.users[userId].friends && memberId !in g.users[userId].requests)
            ==> r.reply == (if saveFails then BadRequest(UnableToAdd) else Ok(true))
                && (saveFails <==> r.after == g)
    ensures r.reply.Ok? ==> userId != memberId && userId in g.users && memberId in g.users
    ensures r.reply.Ok? ==>
              memberId in r.after.users[userId].friends || memberId in r.after.users[userId].requests
    ensures r.reply.Ok? ==>
              (r.after != g <==> memberId !in g.users[userId].friends && memberId !in g.users[userId].requests)
    ensures forall id :: id in g.users && id != userId ==> r.after.users[id] == g.users[id]
    ensures r.after != g ==>
              && userId in g.users
              && r.after.users[userId] == g.users[userId].(requests := g.users[userId].requests + [memberId])
              && r.after.events == g.events + [EmitAddFriendRequest(memberId,
                   FriendRequest(userId, g.users[userId].username, g.users[userId].image, 1))]
  {
    if userId == memberId then Step(BadRequest(CannotAddYourself), g)
    else if userId !in g.users then Step(NotFound("user", userId), g)
    else if memberId !in g.users then Step(NotFound("user", memberId), g)
    else
      var authUser := g.users[userId];
      if memberId !in authUser.friends && memberId !in authUser.requests then
        if saveFails then Step(BadRequest(UnableToAdd), g)
        else
          var request := FriendRequest(userId, authUser.username, authUser.image, 1);
          Step(Ok(true), Graph(g.users[userId := authUser.(requests := authUser.requests + [memberId])],
                               g.events + [EmitAddFriendRequest(memberId, request)]))
      else Step(Ok(true), g)
  }

  /** AcceptFriendRequest: `userId` accepts the request `memberId` sent to it. The two
      saves happen in order member, then user; only the second one's failure is seen. */
  function AcceptRequest(g: Graph, userId: string, memberId: string,
                         saveMemberFails: bool, saveUserFails: bool, deleteFails: bool): (r: Step)
    ensures userId == memberId ==> r == Step(BadRequest(CannotAcceptYourself), g)
    ensures userId != memberId && userId !in g.users ==> r == Step(NotFound("user", userId), g)
    ensures userId != memberId && userId in g.users && memberId !in g.users
            ==> r == Step(NotFound("user", memberId), g)
    ensures (userId != memberId && userId in g.users && memberId in g.users
             && userId !in g.users[memberId].requests) ==> r == Step(Ok(true), g)
    ensures r.after.users.Keys == g.users.Keys
    ensures forall id :: id in g.users && id != userId && id != memberId ==> r.after.users[id] == g.users[id]
    ensures userId in g.users ==> r.after.users[userId].requests == g.users[userId].requests
    ensures r.after.events == g.events || r.after.events == g.events + [EmitAddFriend(userId, memberId)]
    ensures r.after.events != g.events <==>
              && userId != memberId && userId in g.users && memberId in g.users
              && userId in g.users[memberId].requests && !saveUserFails && !deleteFails
    ensures r.after.events != g.events ==>
              && r.reply == Ok(true)
              && r.after.users[userId] == g.users[userId].(friends := g.users[userId].friends + [memberId])
              && r.after.users[memberId].friends ==
                   (if saveMemberFails then g.users[memberId].friends else g.users[memberId].friends + [userId])
              && r.after.users[memberId].requests == Without(g.users[memberId].requests, userId)
    ensures r.reply.Ok? ==> r.after.events != g.events || r.after == g
    ensures (userId != memberId && userId in g.users && memberId in g.users
             && userId in g.users[memberId].requests) ==>
              && r.reply == (if saveUserFails then BadRequest(UnableToAccept)
                             else if deleteFails then BadRequest(UnableToRemove)
                             else Ok(true))
              && r.after.users[memberId] == g.users[memberId].(
                   friends := if saveMemberFails then g.users[memberId].friends
                              else g.users[memberId].friends + [userId],
                   requests := if saveUserFails || deleteFails then g.users[memberId].requests
                               else Without(g.users[memberId].requests, userId))
              && r.after.users[userId] == g.users[userId].(
                   friends := if saveUserFails then g.users[userId].friends
                              else g.users[userId].friends + [memberId])
    ensures (userId != memberId && userId in g.users && memberId in g.users
             && userId in g.users[memberId].requests && saveMemberFails && saveUserFails)
            ==> r == Step(BadRequest(UnableToAccept), g)
  {
    if userId == memberId then Step(BadRequest(CannotAcceptYourself), g)
    else if userId !in g.users then Step(NotFound("user", userId), g)
    else if memberId !in g.users then Step(NotFound("user", memberId), g)
    else
      var authUser := g.users[userId];
      var member := g.users[memberId];
      if userId in member.requests then
        var savedMember := if saveMemberFails then g.users
                           else g.users[memberId := member.(friends := member.friends + [userId])];
        if saveUserFails then Step(BadRequest(UnableToAccept), Graph(savedMember, g.events))
        else
          var savedBoth := savedMember[userId := authUser.(friends := authUser.friends + [memberId])];
          if deleteFails then Step(BadRequest(UnableToRemove), Graph(savedBoth, g.events))
          else Step(Ok(true), Graph(RequestDeleted(savedBoth, userId, memberId),
                                    g.events + [EmitAddFriend(userId, memberId)]))
      else Step(Ok(true), g)
  }

  /** CancelFriendRequest: `userId` withdraws the request it sent to `memberId`.
      Whichever of the two users is missing, the error names `memberId`. */
  function CancelRequest(g: Graph, userId: string, memberId: string, deleteFails: bool): (r: Step)
    ensures r.reply.Ok? ==> r.reply == Ok(true)
    ensures userId == memberId ==> r == Step(BadRequest(CannotCancelYourself), g)
    ensures userId != memberId && (userId !in g.users || memberId !in g.users)
            ==> r == Step(NotFound("user", memberId), g)
    ensures !r.reply.Ok? ==> r.after == g
    ensures r.after.events == g.events
    ensures r.after.users.Keys == g.users.Keys
    ensures forall id :: id in g.users && id != userId ==> r.after.users[id] == g.users[id]
    ensures userId in g.users ==>
              r.after.users[userId] == g.users[userId].(requests := r.after.users[userId].requests)
    ensures r.reply.Ok? ==> userId in g.users && memberId !in r.after.users[userId].requests
    ensures r.after != g ==>
              userId in g.users && r.after.users[userId].requests == Without(g.users[userId].requests, memberId)
    ensures userId != memberId && userId in g.users && memberId in g.users && !deleteFails ==> r.reply.Ok?
    ensures (userId != memberId && userId in g.users && memberId in g.users
             && memberId in g.users[userId].requests && deleteFails)
            ==> r == Step(BadRequest(UnableToRemove), g)
    ensures (userId != memberId && userId in g.users && memberId in g.users
             && memberId !in g.users[userId].requests) ==> r == Step(Ok(true), g)
  {
    if userId == memberId then Step(BadRequest(CannotCancelYourself), g)
    else if userId !in g.users then Step(NotFound("user", memberId), g)
    else if memberId !in g.users then Step(NotFound("user", memberId), g)
    else if memberId in g.users[userId].requests then
      if deleteFails then Step(BadRequest(UnableToRemove), g)
      else Step(Ok(true), Graph(RequestDeleted(g.users, memberId, userId), g.events))
    else Step(Ok(true), g)
  }

  /** RemoveFriend: `userId` ends its friendship with `memberId`.
      Whichever of the two users is missing, the error names `memberId`. */
  function Unfriend(g: Graph, userId: string, memberId: string, removeFails: bool): (r: Step)
    ensures r.reply.Ok? ==> r.reply == Ok(true)
    ensures r.after.users.Keys == g.users.Keys
    ensures userId == memberId ==> r == Step(BadRequest(CannotRemoveYourself), g)
    ensures userId != memberId && (userId !in g.users || memberId !in g.users)
            ==> r == Step(NotFound("user", memberId), g)
    ensures !r.reply.Ok? ==> r.after == g
    ensures (userId != memberId && userId in g.users && memberId in g.users
             && memberId !in g.users[userId].friends) ==> r == Step(Ok(true), g)
    ensures (userId != memberId && userId in g.users && memberId in g.users
             && memberId in g.users[userId].friends && removeFails)
            ==> r == Step(BadRequest(UnableToRemove), g)
    ensures r.reply.Ok? ==> userId in g.users && memberId in g.users && memberId !in r.after.users[userId].friends
    ensures forall id :: id in g.users && id != userId && id != memberId ==> r.after.users[id] == g.users[id]
    ensures forall id :: id in g.users ==> r.after.users[id].requests == g.users[id].requests
    ensures r.after != g <==>
              && userId != memberId && userId in g.users && memberId in g.users
              && memberId in g.users[userId].friends && !removeFails
    ensures r.after != g ==>
              && r.reply.Ok?
              && r.after.users[userId] == g.users[userId].(friends := Without(g.users[userId].friends, memberId))
              && r.after.users[memberId] == g.users[memberId].(friends := Without(g.users[memberId].friends, userId))
              && r.after.events == g.events + [EmitRemoveFriend(userId, memberId)]
  {
    if userId == memberId then Step(BadRequest(CannotRemoveYourself), g)
    else if userId !in g.users then Step(NotFound("user", memberId), g)
    else if memberId !in g.users then Step(NotFound("user", memberId), g)
    else if memberId in g.users[userId].friends then
      if removeFails then Step(BadRequest(UnableToRemove), g)
      else Step(Ok(true), Graph(FriendshipRemoved(g.users, memberId, userId),
                                g.events + [EmitRemoveFriend(userId, memberId)]))
    else Step(Ok(true), g)
  }

  // ---------------------------------------------------------------------------
  // The handlers, step by step

  /** The rows of the friend service and the log of socket events, with the four
      handlers as methods. The `...Fails` parameters say which store write fails. */
  class FriendStore {
    var users: map<string, User>
    var events: seq<Event>

    constructor (rows: map<string, User>)
      ensures users == rows && events == []
    {
      users := rows;
      events := [];
    }

    function State(): Graph
      reads this
    {
      Graph(users, events)
    }

    method SendFriendRequest(userId: string, memberId: string, saveFails: bool) returns (r: Response<bool>)
      modifies this
      ensures Step(r, State()) == SendRequest(old(State()), userId, memberId, saveFails)
    {
      if userId == memberId {
        return BadRequest(CannotAddYourself);
      }
      if userId !in users {
        return NotFound("user", userId);
      }
      var authUser := users[userId];
      if memberId !in users {
        return NotFound("user", memberId);
      }
      var friends := IsFriend(authUser, memberId);
      var requested := false;
      if !friends {
        requested := ContainsRequest(authUser, memberId);
      }
      if !friends && !requested {
        authUser := authUser.(requests := authUser.requests + [memberId]);
        if saveFails {
          return BadRequest(UnableToAdd);
        }
        users := users[userId := authUser];
        events := events + [EmitAddFriendRequest(memberId, FriendRequest(userId, authUser.username, authUser.image, 1))];
      }
      return Ok(true);
    }

    method RemoveFriend(userId: string, memberId: string, removeFails: bool) returns (r: Response<bool>)
      modifies this
      ensures Step(r, State()) == Unfriend(old(State()), userId, memberId, removeFails)
    {
      if userId == memberId {
        return BadRequest(CannotRemoveYourself);
      }
      if userId !in users || memberId !in users {
        return NotFound("user", memberId);
      }
      var friends := IsFriend(users[userId], memberId);
      if friends {
        if removeFails {
          return BadRequest(UnableToRemove);
        }
        users := FriendshipRemoved(users, memberId, userId);
        events := events + [EmitRemoveFriend(userId, memberId)];
      }
      return Ok(true);
    }

    method AcceptFriendRequest(userId: string, memberId: string,
                               saveMemberFails: bool, saveUserFails: bool, deleteFails: bool)
      returns (r: Response<bool>)
      modifies this
      ensures Step(r, State()) ==
              AcceptRequest(old(State()), userId, memberId, saveMemberFails, saveUserFails, deleteFails)
    {
      if userId == memberId {
        return BadRequest(CannotAcceptYourself);
      }
      if userId !in users {
        return NotFound("user", userId);
      }
      var authUser := users[userId];
      if memberId !in users {
        return NotFound("user", memberId);
      }
      var member := users[memberId];
      var requested := ContainsRequest(member, userId);
      if requested {
        authUser := authUser.(friends := authUser.friends + [memberId]);
        member := member.(friends := member.friends + [userId]);
        // the member's save error is overwritten by the user's
        if !saveMemberFails {
          users := users[memberId := member];
        }
        if saveUserFails {
          return BadRequest(UnableToAccept);
        }
        users := users[userId := authUser];
        if deleteFails {
          return BadRequest(UnableToRemove);
        }
        users := RequestDeleted(users, userId, memberId);
        events := events + [EmitAddFriend(userId, memberId)];
      }
      return Ok(true);
    }

    method CancelFriendRequest(userId: string, memberId: string, deleteFails: bool) returns (r: Response<bool>)
      modifies this
      ensures Step(r, State()) == CancelRequest(old(State()), userId, memberId, deleteFails)
    {
      if userId == memberId {
        return BadRequest(CannotCancelYourself);
      }
      if userId !in users || memberId !in users {
        return NotFound("user", memberId);
      }
      var requested := ContainsRequest(users[userId], memberId);
      if requested {
        if deleteFails {
          return BadRequest(UnableToRemove);
        }
        users := RequestDeleted(users, memberId, userId);
      }
      return Ok(true);
    }
  }
}
