/**
 * The self-registration request. Dates are day numbers; the email is a
 * plain string (address syntax is not checked here).
 */
module UserSchema {
  import opened Common
  import TaskSchema

  /** The roles a user may register with; `admin` is not among them. */
  datatype RegisterRole = RegisterManager | RegisterDeveloper | RegisterTester

  function RegisterRoleName(r: RegisterRole): string {
    match r
    case RegisterManager => "manager"
    case RegisterDeveloper => "developer"
    case RegisterTester => "tester"
  }

  /** The workflow role a registered role acts as. */
  function AsRole(r: RegisterRole): (role: TaskSchema.Role)
    ensures TaskSchema.RoleName(role) == RegisterRoleName(r)
    ensures role != TaskSchema.Admin
  {
    match r
    case RegisterManager => TaskSchema.Manager
    case RegisterDeveloper => TaskSchema.Developer
    case RegisterTester => TaskSchema.Tester
  }

  /** The `role` field of a registration body: missing means developer, anything else must be one of the three. */
  function DecodeRegisterRole(s: Option<string>): (r: Option<RegisterRole>)
    ensures s.None? ==> r == Some(RegisterDeveloper)
    ensures s.Some? ==> (r.Some? <==> s.value == "manager" || s.value == "developer" || s.value == "tester")
    ensures s.Some? && r.Some? ==> RegisterRoleName(r.value) == s.value
  {
    match s
    case None => Some(RegisterDeveloper)
    case Some(v) =>
      if v == "manager" then Some(RegisterManager)
      else if v == "developer" then Some(RegisterDeveloper)
      else if v == "tester" then Some(RegisterTester)
      else None
  }

  datatype RegisterUser = RegisterUser(
    name: string,
    email: string,
    phone: string,
    password: string,
    dateOfBirth: int,
    dateOfJoining: Option<int>,
    address: Option<string>,
    role: RegisterRole)
}
