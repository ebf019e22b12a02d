/**
 * The user account store. The table maps a user id to its record; ids are
 * handed out by a counter, standing for the identifiers the database assigns.
 */
module Users {
  import opened Wrappers
  import opened ApiErrors

  /** The registration body; every field of it is copied into the new record. */
  datatype UserBody = UserBody(
    name: string,
    email: string,
    password: string,
    address: string,
    walletMoney: int)

  datatype User = User(
    id: nat,
    name: string,
    email: string,
    password: string,
    address: string,
    walletMoney: int)

  /** The record the store creates from a body (`{...userBody}` plus the new id). */
  function FromBody(id: nat, body: UserBody): (u: User)
    ensures u.id == id && u.email == body.email && u.name == body.name
    ensures u.password == body.password && u.address == body.address
    ensures u.walletMoney == body.walletMoney
  {
    User(id, body.name, body.email, body.password, body.address, body.walletMoney)
  }

  class UserStore {
    var users: map<nat, User>
    var nextId: nat

    /** Every record sits under its own id, below the counter, and no two records share an email. */
    ghost predicate Valid()
      reads this
    {
      && (forall id :: id in users ==> id < nextId && users[id].id == id)
      && (forall a, b :: a in users && b in users && users[a].email == users[b].email ==> a == b)
    }

    /** The check the model makes for `User.isEmailTaken`: some record has the email. */
    predicate EmailTaken(email: string)
      reads this
    {
      exists id :: id in users && users[id].email == email
    }

    constructor ()
      ensures Valid() && users == map[] && nextId == 0
    {
      users := map[];
      nextId := 0;
    }

    /** Registration: rejected when the email is taken, otherwise one record is added. */
    method CreateUser(body: UserBody) returns (r: Outcome<User>)
      modifies this
      ensures old(EmailTaken(body.email)) ==>
        r == Err(BadRequestError("Email already taken")) && users == old(users) && nextId == old(nextId)
      ensures !old(EmailTaken(body.email)) ==>
        && r == Ok(FromBody(old(nextId), body))
        && users == old(users)[old(nextId) := FromBody(old(nextId), body)]
        && nextId == old(nextId) + 1
      ensures r.Ok? ==> EmailTaken(body.email)
      ensures old(Valid()) ==> Valid()
      ensures old(Valid()) && r.Ok? ==>
        forall id :: id in users && users[id].email == body.email ==> users[id] == r.value
    {
      if EmailTaken(body.email) {
        r := Err(BadRequestError("Email already taken"));
        return;
      }
      var user := FromBody(nextId, body);
      users := users[nextId := user];
      assert users[nextId].email == body.email;
      nextId := nextId + 1;
      r := Ok(user);
    }

    /** `findOne({email})`: a record with that email, or none when there is none. */
    method GetUserByEmail(email: string) returns (r: Option<User>)
      ensures r.None? <==> !EmailTaken(email)
      ensures r.Some? ==> r.value in users.Values && r.value.email == email
      ensures Valid() && r.Some? ==> r.value == users[r.value.id]
    {
      if id :| id in users && users[id].email == email {
        r := Some(users[id]);
      } else {
        r := None;
      }
    }

    /** `findById(id)`: the record under that id, or none when there is none. */
    method GetUserById(id: nat) returns (r: Option<User>)
      ensures r.None? <==> id !in users
      ensures r.Some? ==> r.value == users[id]
      ensures Valid() && r.Some? ==> r.value.id == id
    {
      if id in users {
        r := Some(users[id]);
      } else {
        r := None;
      }
    }

    /** Overwrites the address of a loaded user, saves it, and returns the new address. */
    method SetAddress(id: nat, newAddress: string) returns (address: string)
      requires id in users
      modifies this
      ensures address == newAddress
      ensures id in users && users[id].address == newAddress
      ensures users[id].email == old(users[id].email) && users[id].walletMoney == old(users[id].walletMoney)
      ensures users == old(users)[id := old(users[id]).(address := newAddress)]
      ensures nextId == old(nextId)
      ensures old(Valid()) ==> Valid()
    {
      users := users[id := users[id].(address := newAddress)];
      address := users[id].address;
    }
  }
}
