/** The part of the User collection the authentication core reads and writes. */
module UserModel {
  import opened Results
  import opened Jwt

  /** A user document. `password` is the stored credential that `isPasswordMatch` compares
      against; the hashing done on save is not part of this model. */
  datatype User = User(id: UserId, email: string, password: string, isEmailVerified: bool)

  /** The two lookups the services make: `getUserById` and `getUserByEmail`. */
  datatype UserKey = ById(id: UserId) | ByEmail(email: string)

  predicate HasKey(u: User, key: UserKey) {
    match key
    case ById(id) => u.id == id
    case ByEmail(email) => u.email == email
  }

  /** The position of the first user with the key, as `findById` / `findOne` return it. */
  function FindUser(users: seq<User>, key: UserKey): (r: Option<nat>)
    ensures r.Some? ==> r.value < |users| && HasKey(users[r.value], key)
    ensures r.Some? ==> forall j :: 0 <= j < r.value ==> !HasKey(users[j], key)
    ensures r.None? <==> forall j :: 0 <= j < |users| ==> !HasKey(users[j], key)
  {
    if users == [] then None
    else if HasKey(users[0], key) then Some(0)
    else match FindUser(users[1..], key)
      case None => None
      case Some(i) => Some(i + 1)
  }

  /** The User collection: its documents in natural order. */
  class UserCollection {
    var docs: seq<User>

    constructor (users: seq<User>)
      ensures docs == users
    {
      docs := users;
    }

    /** `updateUserById`: the user at position `i` is replaced by its updated document. */
    method Update(i: nat, user: User)
      requires i < |docs|
      modifies this
      ensures docs == old(docs)[i := user]
    {
      docs := docs[i := user];
    }
  }
}
