/**
 * Blocking and unblocking a user
 * (application/usecases/user/ToggleUserStatusUseCase.ts): look the user up and
 * store the negation of its `isBlocked` flag.
 */
module UserStatus {
  import opened Wrappers
  import opened ObjectIds
  import opened Entities
  import opened Errors
  import opened UserStore

  const UserNotFoundMessage := "User not found"

  /** The collection with the flag of the user at `i` flipped. */
  function Flipped(docs: seq<User>, i: nat): seq<User>
    requires i < |docs|
  {
    docs[i := docs[i].(isBlocked := !docs[i].isBlocked)]
  }

  /**
   * `execute(userId)`: a malformed id throws, an unknown one throws "User not
   * found", and both leave the users as they were; otherwise the user's flag is
   * negated and the updated user is returned without its password.
   */
  function ToggleEffect(docs: seq<User>, userId: string): (r: (Result<Option<User>, Error>, seq<User>))
    ensures Parse(userId).None? ==> r == (Failure(PlainError(InvalidObjectIdMessage)), docs)
    ensures Parse(userId).Some? && (forall u :: u in docs ==> u.id != Parse(userId).value) ==>
      r == (Failure(PlainError(UserNotFoundMessage)), docs)
  {
    match Parse(userId)
    case None => (Failure(PlainError(InvalidObjectIdMessage)), docs)
    case Some(id) =>
      match UserWithId(docs, id)
      case None => (Failure(PlainError(UserNotFoundMessage)), docs)
      case Some(user) =>
        var newStatus := if user.isBlocked then false else true;
        var (updated, after) := UpdateById(docs, id, WithBlocked(newStatus));
        (Success(if updated.Some? then Some(updated.value.(password := None)) else None), after)
  }

  /**
   * A toggle of a known user flips that user's flag and nothing else, and returns
   * that user with the new flag (and no password).
   */
  lemma ToggleFlipsOnlyTheFlag(docs: seq<User>, userId: string)
    requires Parse(userId).Some?
    requires IndexOfId(docs, Parse(userId).value).Some?
    ensures var i := IndexOfId(docs, Parse(userId).value).value;
      var (r, after) := ToggleEffect(docs, userId);
      && after == Flipped(docs, i)
      && r == Success(Some(after[i].(password := None)))
      && after[i].isBlocked == !docs[i].isBlocked
  {
    var id := Parse(userId).value;
    var i := IndexOfId(docs, id).value;
    var (updated, after) := UpdateById(docs, id, WithBlocked(!docs[i].isBlocked));
    assert after == Flipped(docs, i);
  }

  /** Flipping a flag moves no user, so the same id is found at the same place. */
  lemma FlipKeepsIndex(docs: seq<User>, id: ObjectId, i: nat)
    requires IndexOfId(docs, id) == Some(i)
    ensures IndexOfId(Flipped(docs, i), id) == Some(i)
  {
    assert Flipped(docs, i)[i].id == id;
  }

  /** Toggling the same user twice restores the collection. */
  lemma ToggleTwiceRestores(docs: seq<User>, userId: string)
    ensures ToggleEffect(ToggleEffect(docs, userId).1, userId).1 == docs
  {
    if Parse(userId).Some? && IndexOfId(docs, Parse(userId).value).Some? {
      var id := Parse(userId).value;
      var i := IndexOfId(docs, id).value;
      ToggleFlipsOnlyTheFlag(docs, userId);
      var once := Flipped(docs, i);
      FlipKeepsIndex(docs, id, i);
      ToggleFlipsOnlyTheFlag(once, userId);
      assert Flipped(once, i) == docs;
    }
  }

  /** `ToggleUserStatusUseCase`, wired to the users store. */
  class ToggleUserStatusUseCase {
    const users: UserRepository

    constructor (users: UserRepository)
      ensures this.users == users
    {
      this.users := users;
    }

    method Execute(userId: string) returns (r: Result<Option<User>, Error>)
      requires users.Valid()
      modifies users
      ensures users.Valid()
      ensures (r, users.docs) == ToggleEffect(old(users.docs), userId)
    {
      var id := Parse(userId);
      if id.None? {
        return Failure(PlainError(InvalidObjectIdMessage));
      }
      var user := users.FindById(id.value);
      if user.None? {
        return Failure(PlainError(UserNotFoundMessage));
      }
      var newStatus := if user.value.isBlocked then false else true;
      var updated := users.UpdateBlockStatus(id.value, newStatus);
      r := Success(updated);
    }
  }
}
