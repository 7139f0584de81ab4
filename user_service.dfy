/**
 * Self-registration: look the email up, check the password, hash it, build
 * the user document field by field and insert it. The user collection is
 * a sequence in insertion order; hashing is a function parameter, and
 * `fault` stands for the insert raising.
 */
module UserService {
  import opened Common
  import opened UserSchema
  import TaskSchema
  import opened AuthUtils

  const UserExists := "User already exists with this email."
  const WeakPassword := "Password does not meet the required strength."
  const Registered := "User registered successfully."
  const InternalError := "Internal Server Error"

  const SecondsPerDay := 86400

  /** `datetime.combine(day, datetime.min.time())`: midnight of a day, in seconds. */
  function Midnight(day: int): int {
    day * SecondsPerDay
  }

  /** A stored user: the password field holds the hash. */
  datatype User = User(
    name: string,
    email: string,
    phone: string,
    password: string,
    dateOfBirth: int,
    dateOfJoining: Option<int>,
    address: Option<string>,
    role: RegisterRole,
    createdAt: int)

  predicate EmailTaken(users: seq<User>, email: string) {
    exists k :: 0 <= k < |users| && users[k].email == email
  }

  predicate DistinctEmails(users: seq<User>) {
    forall i, j :: 0 <= i < j < |users| ==> users[i].email != users[j].email
  }

  /** The document a successful registration inserts. */
  function NewUser(u: RegisterUser, hashed: string, now: int): (doc: User)
    ensures doc.email == u.email && doc.password == hashed && doc.createdAt == now
    ensures doc.name == u.name && doc.phone == u.phone && doc.address == u.address && doc.role == u.role
    ensures TaskSchema.ParseRole(RegisterRoleName(doc.role)) == Some(AsRole(u.role))
    ensures AsRole(doc.role) != TaskSchema.Admin
    ensures doc.dateOfBirth == Midnight(u.dateOfBirth)
    ensures doc.dateOfJoining.Some? <==> u.dateOfJoining.Some?
    ensures u.dateOfJoining.Some? ==> doc.dateOfJoining == Some(Midnight(u.dateOfJoining.value))
  {
    User(u.name, u.email, u.phone, hashed, Midnight(u.dateOfBirth),
         if u.dateOfJoining.Some? then Some(Midnight(u.dateOfJoining.value)) else None,
         u.address, u.role, now)
  }

  /**
   * `register_user` as written: the strength check tests a two-element
   * tuple, which is always truthy, so it never refuses; a missing joining
   * date makes `datetime.combine` raise, which ends as an internal error.
   */
  function RegisterOutcomeAsWritten(users: seq<User>, u: RegisterUser, fault: bool): (r: (bool, string))
    ensures r.0 <==> !EmailTaken(users, u.email) && u.dateOfJoining.Some? && !fault
    ensures EmailTaken(users, u.email) ==> r == (false, UserExists)
    ensures !EmailTaken(users, u.email) && !r.0 ==> r.1 == InternalError
    ensures r.0 ==> r.1 == Registered
  {
    if EmailTaken(users, u.email) then (false, UserExists)
    else if u.dateOfJoining.None? then (false, InternalError)
    else if fault then (false, InternalError)
    else (true, Registered)
  }

  /**
   * `register_user` with the strength verdict honoured and an absent
   * joining date stored as absent.
   */
  function RegisterOutcome(users: seq<User>, u: RegisterUser, fault: bool): (r: (bool, string))
    ensures r.0 <==> !EmailTaken(users, u.email) && ValidatePasswordStrength(u.password).0 && !fault
    ensures EmailTaken(users, u.email) ==> r == (false, UserExists)
    ensures !EmailTaken(users, u.email) && !ValidatePasswordStrength(u.password).0 ==> r == (false, WeakPassword)
    ensures !EmailTaken(users, u.email) && ValidatePasswordStrength(u.password).0 && fault ==> r == (false, InternalError)
    ensures r.0 ==> r.1 == Registered
  {
    if EmailTaken(users, u.email) then (false, UserExists)
    else if !ValidatePasswordStrength(u.password).0 then (false, WeakPassword)
    else if fault then (false, InternalError)
    else (true, Registered)
  }

  /** Registering under a fresh email keeps the emails distinct. */
  lemma {:induction false} InsertFreshKeepsDistinct(users: seq<User>, doc: User)
    requires DistinctEmails(users) && !EmailTaken(users, doc.email)
    ensures DistinctEmails(users + [doc])
  {
    var all := users + [doc];
    forall i, j | 0 <= i < j < |all| ensures all[i].email != all[j].email {
      assert all[i] == users[i];
      if j < |users| {
        assert all[j] == users[j];
      }
    }
  }

  /** As written, a weak password is registered. */
  lemma WeakPasswordRegisteredAsWritten(u: RegisterUser)
    requires u.password == "weak" && u.dateOfJoining.Some?
    ensures !ValidatePasswordStrength(u.password).0
    ensures RegisterOutcomeAsWritten([], u, false) == (true, Registered)
  {
  }

  /** As written, leaving out the optional joining date fails the registration. */
  lemma MissingJoiningDateFailsAsWritten(u: RegisterUser)
    requires u.password == "Str0ng!pw" && u.dateOfJoining.None?
    ensures RegisterOutcomeAsWritten([], u, false) == (false, InternalError)
  {
  }

  /** Corrected: every registered password passes the strength rules. */
  lemma RegisteredPasswordsAreStrong(users: seq<User>, u: RegisterUser, fault: bool)
    ensures RegisterOutcome(users, u, fault).0 ==>
      forall k :: 0 <= k < |Rules| ==> Satisfies(u.password, Rules[k])
  {
  }

  /** Corrected: a strong password without a joining date registers. */
  lemma MissingJoiningDateRegisters(u: RegisterUser)
    requires u.password == "Str0ng!pw" && u.dateOfJoining.None?
    ensures RegisterOutcome([], u, false) == (true, Registered)
    ensures NewUser(u, "h", 0).dateOfJoining == None
  {
    SamplePasswordIsStrong();
  }

  /** The user collection. */
  class UserStore {
    var users: seq<User>

    ghost predicate Valid()
      reads this
    {
      DistinctEmails(users)
    }

    constructor ()
      ensures Valid() && users == []
    {
      users := [];
    }

    /** `get_user_by_email`: the user stored under this email, if any. */
    method GetUserByEmail(email: string) returns (found: Option<User>)
      ensures found.Some? <==> EmailTaken(users, email)
      ensures found.Some? ==> found.value in users && found.value.email == email
    {
      for i := 0 to |users|
        invariant forall k :: 0 <= k < i ==> users[k].email != email
      {
        if users[i].email == email {
          return Some(users[i]);
        }
      }
      return None;
    }

    /** `register_user` as written; see `RegisterOutcomeAsWritten`. */
    method RegisterUserAsWritten(u: RegisterUser, hash: string -> string, now: int, fault: bool)
      returns (ok: bool, message: string)
      requires Valid()
      modifies this
      ensures Valid()
      ensures (ok, message) == RegisterOutcomeAsWritten(old(users), u, fault)
      ensures users == if ok then old(users) + [NewUser(u, hash(u.password), now)] else old(users)
    {
      var existing := GetUserByEmail(u.email);
      if existing.Some? {
        return false, UserExists;
      }
      // The strength verdict is a non-empty tuple, hence truthy: no refusal here.
      var verdict := ValidatePasswordStrength(u.password);
      var hashed := hash(u.password);
      var doc := User(u.name, u.email, u.phone, "", 0, None, u.address, u.role, 0);
      doc := doc.(password := hashed);
      doc := doc.(createdAt := now);
      doc := doc.(dateOfBirth := Midnight(u.dateOfBirth));
      if u.dateOfJoining.None? {
        return false, InternalError;
      }
      doc := doc.(dateOfJoining := Some(Midnight(u.dateOfJoining.value)));
      if fault {
        return false, InternalError;
      }
      InsertFreshKeepsDistinct(users, doc);
      users := users + [doc];
      return true, Registered;
    }

    /** `register_user` as intended; see `RegisterOutcome`. */
    method RegisterUser(u: RegisterUser, hash: string -> string, now: int, fault: bool)
      returns (ok: bool, message: string)
      requires Valid()
      modifies this
      ensures Valid()
      ensures (ok, message) == RegisterOutcome(old(users), u, fault)
      ensures users == if ok then old(users) + [NewUser(u, hash(u.password), now)] else old(users)
    {
      var existing := GetUserByEmail(u.email);
      if existing.Some? {
        return false, UserExists;
      }
      var verdict := ValidatePasswordStrength(u.password);
      if !verdict.0 {
        return false, WeakPassword;
      }
      var hashed := hash(u.password);
      var doc := User(u.name, u.email, u.phone, "", 0, None, u.address, u.role, 0);
      doc := doc.(password := hashed);
      doc := doc.(createdAt := now);
      doc := doc.(dateOfBirth := Midnight(u.dateOfBirth));
      if u.dateOfJoining.Some? {
        doc := doc.(dateOfJoining := Some(Midnight(u.dateOfJoining.value)));
      }
      if fault {
        return false, InternalError;
      }
      InsertFreshKeepsDistinct(users, doc);
      users := users + [doc];
      return true, Registered;
    }
  }
}
