/**
 * The users collection and its repository
 * (infrastructure/database/repositories/UserRepository.ts). Documents are kept
 * in natural (insertion) order; `UserModel` declares `email` unique and `name`
 * and `email` required. Google token verification is not part of this model.
 */
module UserStore {
  import opened Wrappers
  import opened ObjectIds
  import opened Entities
  import opened Errors
  import opened Queries

  /** No two stored users share an `_id` or an `email`. */
  ghost predicate UniqueKeys(docs: seq<User>) {
    forall i, j :: 0 <= i < j < |docs| ==> docs[i].id != docs[j].id && docs[i].email != docs[j].email
  }

  predicate Conflicts(docs: seq<User>, u: User) {
    exists i :: 0 <= i < |docs| && (docs[i].id == u.id || docs[i].email == u.email)
  }

  predicate MissingRequired(u: User) {
    u.email == "" || u.name == ""
  }

  /** `create(user)`: validate, reject a duplicate key, else append; the input user is returned. */
  function CreateEffect(docs: seq<User>, u: User): (r: (Result<User, Error>, seq<User>))
    ensures r.0.Success? <==> !MissingRequired(u) && !Conflicts(docs, u)
    ensures r.0.Success? ==> r.0.value == u && r.1 == docs + [u]
    ensures r.0.Failure? ==> r.1 == docs
    ensures UniqueKeys(docs) ==> UniqueKeys(r.1)
  {
    if MissingRequired(u) then (Failure(PlainError(ValidationFailedMessage)), docs)
    else if Conflicts(docs, u) then (Failure(PlainError(DuplicateKeyMessage)), docs)
    else (Success(u), docs + [u])
  }

  /** `findOne({ email })`: the first user with that email, or null. */
  function UserWithEmail(docs: seq<User>, email: string): (r: Option<User>)
    ensures r.None? <==> forall u :: u in docs ==> u.email != email
    ensures r.Some? ==> r.value in docs && r.value.email == email
  {
    FirstMatch(docs, (u: User) => u.email == email)
  }

  /** The position of the user with `_id` = `id`. */
  function IndexOfId(docs: seq<User>, id: ObjectId): (r: Option<nat>)
    ensures r.None? <==> forall i :: 0 <= i < |docs| ==> docs[i].id != id
    ensures r.Some? ==> r.value < |docs| && docs[r.value].id == id
    ensures r.Some? ==> forall j :: 0 <= j < r.value ==> docs[j].id != id
  {
    FirstIndex(docs, (u: User) => u.id == id)
  }

  /** `findById(id)`: the user with that id, or null. */
  function UserWithId(docs: seq<User>, id: ObjectId): (r: Option<User>)
    ensures r.None? <==> forall u :: u in docs ==> u.id != id
    ensures r.Some? ==> r.value in docs && r.value.id == id
  {
    match IndexOfId(docs, id)
    case None => None
    case Some(i) => Some(docs[i])
  }

  /** `findByIdAndUpdate(id, change)` on users: the updated user (or null) and the collection after. */
  function UpdateById(docs: seq<User>, id: ObjectId, change: User -> User): (r: (Option<User>, seq<User>))
    requires forall u :: change(u).id == u.id && change(u).email == u.email
    ensures r.0.None? <==> forall i :: 0 <= i < |docs| ==> docs[i].id != id
    ensures r.0.None? ==> r.1 == docs
    ensures r.0.Some? ==>
      exists i :: 0 <= i < |docs| && docs[i].id == id && r.0.value == change(docs[i]) && r.1 == docs[i := r.0.value]
    ensures UniqueKeys(docs) ==> UniqueKeys(r.1)
  {
    match IndexOfId(docs, id)
    case None => (None, docs)
    case Some(i) =>
      var updated := change(docs[i]);
      (Some(updated), docs[i := updated])
  }

  /** `updatePassword`: the stored user with the new password hash. */
  function WithPassword(hashed: string): (change: User -> User)
    ensures forall u :: change(u) == u.(password := Some(hashed))
  {
    (u: User) => u.(password := Some(hashed))
  }

  /** `updateBlockStatus`: the stored user with the new blocked flag. */
  function WithBlocked(isBlocked: bool): (change: User -> User)
    ensures forall u :: change(u) == u.(isBlocked := isBlocked)
  {
    (u: User) => u.(isBlocked := isBlocked)
  }

  /** How `getAllUsers` reports a user: the password is null and `googleId` undefined. */
  function Listed(u: User): User {
    u.(password := None, googleId := None)
  }

  /** `getAllUsers`: every non-admin user in order, with password and Google id removed. */
  function ListNonAdmins(docs: seq<User>): (r: seq<User>)
    ensures |r| <= |docs|
    ensures forall v :: v in r <==> exists u :: u in docs && u.role != Admin && v == Listed(u)
  {
    var kept := Filter(docs, (u: User) => u.role != Admin);
    var r := seq(|kept|, i requires 0 <= i < |kept| => Listed(kept[i]));
    forall v | v in r
      ensures exists u :: u in docs && u.role != Admin && v == Listed(u)
    {
      var i :| 0 <= i < |r| && r[i] == v;
      assert kept[i] in kept;
    }
    forall u | u in docs && u.role != Admin
      ensures Listed(u) in r
    {
      assert u in kept;
      var i :| 0 <= i < |kept| && kept[i] == u;
      assert r[i] == Listed(u);
    }
    r
  }

  class UserRepository {
    var docs: seq<User>

    ghost predicate Valid()
      reads this
    {
      UniqueKeys(docs)
    }

    constructor ()
      ensures Valid() && docs == []
    {
      docs := [];
    }

    method Create(u: User) returns (r: Result<User, Error>)
      requires Valid()
      modifies this
      ensures Valid()
      ensures (r, docs) == CreateEffect(old(docs), u)
    {
      if MissingRequired(u) {
        r := Failure(PlainError(ValidationFailedMessage));
      } else if Conflicts(docs, u) {
        r := Failure(PlainError(DuplicateKeyMessage));
      } else {
        docs := docs + [u];
        r := Success(u);
      }
    }

    /** `findByEmail`: the user with that email, or null when there is none. */
    function FindByEmail(email: string): (r: Option<User>)
      reads this
      ensures r.None? <==> forall u :: u in docs ==> u.email != email
      ensures r.Some? ==> r.value in docs && r.value.email == email
    {
      UserWithEmail(docs, email)
    }

    /** `findById`: the user with that id, or null when there is none. */
    function FindById(id: ObjectId): (r: Option<User>)
      reads this
      ensures r.None? <==> forall u :: u in docs ==> u.id != id
      ensures r.Some? ==> r.value in docs && r.value.id == id
    {
      UserWithId(docs, id)
    }

    method UpdatePassword(id: ObjectId, hashed: string) returns (r: Option<User>)
      requires Valid()
      modifies this
      ensures Valid()
      ensures (r, docs) == UpdateById(old(docs), id, WithPassword(hashed))
    {
      var step := UpdateById(docs, id, WithPassword(hashed));
      r, docs := step.0, step.1;
    }

    /** `getAllUsers`. */
    function GetAllUsers(): (r: seq<User>)
      reads this
      ensures forall v :: v in r ==> v.role != Admin && v.password.None? && v.googleId.None?
      ensures forall u :: u in docs && u.role != Admin ==> Listed(u) in r
      ensures forall v :: v in r <==> exists u :: u in docs && u.role != Admin && v == Listed(u)
    {
      ListNonAdmins(docs)
    }

    /** `updateBlockStatus`: the stored user changes; the returned copy carries a null password. */
    method UpdateBlockStatus(id: ObjectId, isBlocked: bool) returns (r: Option<User>)
      requires Valid()
      modifies this
      ensures Valid()
      ensures var (updated, after) := UpdateById(old(docs), id, WithBlocked(isBlocked));
        docs == after && r == (if updated.Some? then Some(updated.value.(password := None)) else None)
    {
      var step := UpdateById(docs, id, WithBlocked(isBlocked));
      docs := step.1;
      r := if step.0.Some? then Some(step.0.value.(password := None)) else None;
    }

    /** With unique emails, a lookup by email finds the one user who holds it. */
    lemma FindByEmailUnique(u: User)
      requires Valid() && u in docs
      ensures FindByEmail(u.email) == Some(u)
    {
      var r := FindByEmail(u.email);
      var i :| 0 <= i < |docs| && docs[i] == r.value;
      var j :| 0 <= j < |docs| && docs[j] == u;
      assert i == j;
    }
  }

  /** After a successful `create`, `findByEmail` on that email returns the same user. */
  lemma CreateThenFindByEmail(docs: seq<User>, u: User)
    requires UniqueKeys(docs)
    requires CreateEffect(docs, u).0.Success?
    ensures UserWithEmail(CreateEffect(docs, u).1, u.email) == Some(u)
  {
    var after := CreateEffect(docs, u).1;
    assert after == docs + [u];
    var r := UserWithEmail(after, u.email);
    assert after[|docs|] == u;
    var i :| 0 <= i < |after| && after[i] == r.value;
  }
}
