/**
 What the two handlers hand back to the outside world: the HTTP answer, reduced to
 its kind, and the real-time events pushed through the socket service.
 */
module Api {

  /** The answer of a handler. `NotFound` carries the entity kind and the id it
      reports, exactly as the handler builds the error (which is not always the id
      that was missing). A store error whose status the store chooses is `Internal`. */
  datatype Response<T> =
    | Ok(value: T)
    | NotFound(kind: string, id: string)
    | Unauthorized
    | BadRequest(reason: string)
    | Internal

  /** Payload of a friend-request notification; `requestType` 1 marks an incoming request. */
  datatype FriendRequest = FriendRequest(id: string, username: string, image: string, requestType: int)

  /** One call on the socket service, named after the service's emit methods. */
  datatype Event =
    | EmitAddFriendRequest(room: string, request: FriendRequest)
    | EmitAddFriend(userId: string, memberId: string)
    | EmitRemoveFriend(userId: string, memberId: string)
    | EmitRemoveMember(room: string, memberId: string)
    | EmitRemoveFromGuild(memberId: string, guildId: string)
}
