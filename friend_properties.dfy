/**
 Properties of the friend handler that span the state invariants or several calls:
 what each call preserves, idempotence of sending, the request lifecycle
 send -> accept -> remove, and who may accept.
 */
module FriendProperties {
  import opened Api
  import opened Seqs
  import opened FriendHandler

  // ---------------------------------------------------------------------------
  // Invariants kept by single calls

  /** Sending never lists an unknown user or the sender itself, and leaves friendship alone. */
  lemma SendKeepsInvariants(g: Graph, userId: string, memberId: string, saveFails: bool)
    requires Sound(g.users)
    ensures Sound(SendRequest(g, userId, memberId, saveFails).after.users)
    ensures Symmetric(g.users) ==> Symmetric(SendRequest(g, userId, memberId, saveFails).after.users)
  {
  }

  /** Accepting, even when some of its writes fail, keeps every listed id known and
      never lists a user in its own rows. */
  lemma AcceptKeepsSound(g: Graph, userId: string, memberId: string,
                         saveMemberFails: bool, saveUserFails: bool, deleteFails: bool)
    requires Sound(g.users)
    ensures Sound(AcceptRequest(g, userId, memberId, saveMemberFails, saveUserFails, deleteFails).after.users)
  {
  }

  /** Friendship stays symmetric through an accept whose two saves both succeed or both fail. */
  lemma AcceptKeepsSymmetric(g: Graph, userId: string, memberId: string,
                             saveMemberFails: bool, saveUserFails: bool, deleteFails: bool)
    requires Symmetric(g.users)
    requires saveMemberFails == saveUserFails
    ensures Symmetric(AcceptRequest(g, userId, memberId, saveMemberFails, saveUserFails, deleteFails).after.users)
  {
  }

  /** As written, a failed save of the member's row is not reported: the call succeeds,
      notifies, and leaves the friendship listed on the accepting user's side only. */
  lemma AcceptIgnoresMemberSaveError(g: Graph, userId: string, memberId: string)
    requires userId != memberId && userId in g.users && memberId in g.users
    requires userId in g.users[memberId].requests && userId !in g.users[memberId].friends
    ensures var r := AcceptRequest(g, userId, memberId, true, false, false);
            && r.reply == Ok(true)
            && memberId in r.after.users[userId].friends
            && userId !in r.after.users[memberId].friends
            && r.after.events == g.events + [EmitAddFriend(userId, memberId)]
  {
  }

  /** Cancelling keeps both invariants: it only deletes from the canceller's requests. */
  lemma CancelKeepsInvariants(g: Graph, userId: string, memberId: string, deleteFails: bool)
    requires Sound(g.users)
    ensures Sound(CancelRequest(g, userId, memberId, deleteFails).after.users)
    ensures Symmetric(g.users) ==> Symmetric(CancelRequest(g, userId, memberId, deleteFails).after.users)
  {
  }

  /** Removing a friend deletes both directions, so both invariants are kept. */
  lemma UnfriendKeepsInvariants(g: Graph, userId: string, memberId: string, removeFails: bool)
    requires Sound(g.users)
    ensures Sound(Unfriend(g, userId, memberId, removeFails).after.users)
    ensures Symmetric(g.users) ==> Symmetric(Unfriend(g, userId, memberId, removeFails).after.users)
  {
  }

  // ---------------------------------------------------------------------------
  // Several calls

  /** Sending the same request twice leaves exactly one pending entry and succeeds both times. */
  lemma SendTwiceKeepsOneRequest(g: Graph, userId: string, memberId: string, saveFails: bool)
    requires userId != memberId && userId in g.users && memberId in g.users
    requires memberId !in g.users[userId].friends && memberId !in g.users[userId].requests
    ensures var first := SendRequest(g, userId, memberId, false);
            var second := SendRequest(first.after, userId, memberId, saveFails);
            && first.reply == Ok(true)
            && second == Step(Ok(true), first.after)
            && multiset(second.after.users[userId].requests)[memberId] == 1
  {
  }

  /** A request sent by A and accepted by B makes them friends on both sides and leaves
      no pending request between them in either direction. */
  lemma SendThenAccept(g: Graph, a: string, b: string)
    requires a != b && a in g.users && b in g.users
    requires b !in g.users[a].friends && b !in g.users[a].requests && a !in g.users[b].requests
    ensures var sent := SendRequest(g, a, b, false);
            var accepted := AcceptRequest(sent.after, b, a, false, false, false);
            && accepted.reply == Ok(true)
            && b in accepted.after.users[a].friends && a in accepted.after.users[b].friends
            && b !in accepted.after.users[a].requests && a !in accepted.after.users[b].requests
            && accepted.after.events == sent.after.events + [EmitAddFriend(b, a)]
  {
  }

  /** The sender cannot accept its own request: only the addressed user can. */
  lemma OnlyAddresseeAccepts(g: Graph, a: string, b: string,
                             saveMemberFails: bool, saveUserFails: bool, deleteFails: bool)
    requires a != b && a in g.users && b in g.users
    requires a !in g.users[b].requests
    ensures var sent := SendRequest(g, a, b, false);
            AcceptRequest(sent.after, a, b, saveMemberFails, saveUserFails, deleteFails) == Step(Ok(true), sent.after)
  {
  }

  /** Two accepts of the same request: once the first has gone through, the second
      finds no request and is a successful no-op. */
  lemma SecondAcceptIsNoOp(g: Graph, userId: string, memberId: string, saveMemberFails: bool,
                           saveMemberFails2: bool, saveUserFails2: bool, deleteFails2: bool)
    requires AcceptRequest(g, userId, memberId, saveMemberFails, false, false).after.events != g.events
    ensures var first := AcceptRequest(g, userId, memberId, saveMemberFails, false, false);
            AcceptRequest(first.after, userId, memberId, saveMemberFails2, saveUserFails2, deleteFails2)
              == Step(Ok(true), first.after)
  {
  }

  /** Cancelling a request that was just sent restores every row; only the notification
      of the send remains in the log. */
  lemma SendThenCancelRestores(g: Graph, a: string, b: string)
    requires a != b && a in g.users && b in g.users
    requires b !in g.users[a].friends && b !in g.users[a].requests
    ensures var sent := SendRequest(g, a, b, false);
            var cancelled := CancelRequest(sent.after, a, b, false);
            && cancelled.reply == Ok(true)
            && cancelled.after.users == g.users
            && cancelled.after.events == sent.after.events
  {
    var sent := SendRequest(g, a, b, false);
    var cancelled := CancelRequest(sent.after, a, b, false);
    AppendThenWithout(g.users[a].requests, b);
    assert cancelled.after.users[a] == g.users[a];
    assert cancelled.after.users == g.users;
  }

  /** The whole lifecycle: A sends, B accepts, A removes B. Every row is back to what it
      was, and the log holds the three notifications in order. */
  lemma FriendshipLifecycle(g: Graph, a: string, b: string)
    requires a != b && a in g.users && b in g.users
    requires b !in g.users[a].friends && b !in g.users[a].requests && a !in g.users[b].friends
    ensures var sent := SendRequest(g, a, b, false);
            var accepted := AcceptRequest(sent.after, b, a, false, false, false);
            var removed := Unfriend(accepted.after, a, b, false);
            && sent.reply == Ok(true) && accepted.reply == Ok(true) && removed.reply == Ok(true)
            && b in accepted.after.users[a].friends && a in accepted.after.users[b].friends
            && removed.after.users == g.users
            && removed.after.events == g.events + [
                 EmitAddFriendRequest(b, FriendRequest(a, g.users[a].username, g.users[a].image, 1)),
                 EmitAddFriend(b, a),
                 EmitRemoveFriend(a, b)]
  {
    var sent := SendRequest(g, a, b, false);
    var accepted := AcceptRequest(sent.after, b, a, false, false, false);
    var removed := Unfriend(accepted.after, a, b, false);
    assert b in sent.after.users[a].requests;
    AppendThenWithout(g.users[a].requests, b);
    AppendThenWithout(g.users[a].friends, b);
    AppendThenWithout(g.users[b].friends, a);
    assert removed.after.users[a] == g.users[a];
    assert removed.after.users[b] == g.users[b];
    assert removed.after.users == g.users;
  }
}
