/** The records of the Users, Jobs and Applications tables, the caller
    principal carried by a signed token, and the HTTP responses the routes send. */
module Models {
  import opened Wrappers

  /** The `role` column, ENUM('candidate', 'recruiter', 'admin'). */
  datatype Role = Candidate | Recruiter | Admin

  /** The `contract` column, ENUM('full-time', 'part-time', 'contract'). */
  datatype Contract = FullTime | PartTime | FixedTerm

  /** The three spellings the listing route accepts for a contract filter. */
  const ValidContracts: seq<string> := ["full-time", "part-time", "contract"]

  function ContractName(c: Contract): (s: string)
    ensures s in ValidContracts
  {
    match c
    case FullTime => "full-time"
    case PartTime => "part-time"
    case FixedTerm => "contract"
  }

  /** Reads a contract spelling; exactly the three valid spellings are accepted. */
  function ParseContract(s: string): (r: Option<Contract>)
    ensures r.Some? <==> s in ValidContracts
    ensures r.Some? ==> ContractName(r.value) == s
  {
    if s == "full-time" then Some(FullTime)
    else if s == "part-time" then Some(PartTime)
    else if s == "contract" then Some(FixedTerm)
    else None
  }

  lemma ParseContractName(c: Contract)
    ensures ParseContract(ContractName(c)) == Some(c)
  {
  }

  /** The password column. A truthy password is stored as a bcrypt digest,
      kept symbolic: the salt drawn by genSalt and the secret it protects.
      The beforeCreate hook skips hashing for an empty password, which is then
      stored as given. Only ComparePassword looks inside the value. */
  datatype StoredPassword = Hashed(salt: nat, secret: string) | Plain(text: string)

  /** The beforeCreate hook: `if (user.password)` hash it with the drawn salt. */
  function HashPassword(password: string, salt: nat): (d: StoredPassword)
    ensures d.Hashed? <==> password != ""
    ensures d.Hashed? ==> d.salt == salt && d.secret == password
    ensures d.Plain? ==> d.text == password
  {
    if password != "" then Hashed(salt, password) else Plain(password)
  }

  /** bcrypt.compare(candidate, stored), idealised: a digest accepts exactly
      the password it was made from, whatever the salt; a stored value that is
      not a digest (bcryptjs wants 60 characters) accepts nothing. */
  predicate ComparePassword(candidate: string, d: StoredPassword) {
    d.Hashed? && candidate == d.secret
  }

  lemma ComparePasswordOfHash(password: string, candidate: string, salt: nat)
    ensures ComparePassword(candidate, HashPassword(password, salt)) <==> password != "" && candidate == password
  {
  }

  /** A row of the Users table (the columns the routes read or write). */
  datatype User = User(
    name: string,
    email: string,
    password: StoredPassword,
    role: Role,
    isBanned: bool,
    phone: Option<string>,
    location: Option<string>,
    about: Option<string>,
    website: Option<string>,
    company: Option<string>,
    position: Option<string>)

  /** A row as Users.create makes it: isBanned defaults to false and the
      nullable profile columns start out null. */
  function NewUser(name: string, email: string, password: StoredPassword, role: Role): (u: User)
    ensures u.name == name && u.email == email && u.password == password && u.role == role
    ensures !u.isBanned
    ensures u.phone.None? && u.location.None? && u.about.None? && u.website.None?
    ensures u.company.None? && u.position.None?
  {
    User(name, email, password, role, false, None, None, None, None, None, None)
  }

  /** A user without its password column: what GET and PUT /me send back. */
  datatype Profile = Profile(
    name: string,
    email: string,
    role: Role,
    isBanned: bool,
    phone: Option<string>,
    location: Option<string>,
    about: Option<string>,
    website: Option<string>,
    company: Option<string>,
    position: Option<string>)

  /** Drops the password. */
  function ProfileOf(u: User): Profile {
    Profile(u.name, u.email, u.role, u.isBanned, u.phone, u.location, u.about, u.website, u.company, u.position)
  }

  /** Puts a password back on a profile. */
  function WithPassword(p: Profile, password: StoredPassword): User {
    User(p.name, p.email, password, p.role, p.isBanned, p.phone, p.location, p.about, p.website, p.company, p.position)
  }

  /** A profile loses exactly the password: together they give the user back,
      and two users with one profile differ at most in their passwords. */
  lemma ProfileLosesOnlyPassword(u: User, v: User)
    ensures WithPassword(ProfileOf(u), u.password) == u
    ensures ProfileOf(u) == ProfileOf(v) ==> u == v.(password := u.password)
  {
  }

  /** A row of the Jobs table. */
  datatype Job = Job(
    title: string,
    company: string,
    location: string,
    description: string,
    contract: Contract,
    recruiterId: int,
    isApproved: bool)

  /** A row of the Applications table: no status column. */
  datatype Application = Application(jobId: int, candidateId: int, appliedAt: int)

  /** The payload of a signed token, `{ id, role }`: who is calling. */
  datatype Principal = Principal(id: int, role: Role)

  /** The `user` object the auth routes return beside the token. */
  datatype Account = Account(id: int, name: string, email: string, role: Role)

  /** The JSON bodies the routes send. */
  datatype Body =
    | Note(message: string)
    | JobData(job: Job)
    | JobsData(jobs: map<int, Job>)
    | UserData(user: User)
    | UsersData(users: map<int, User>)
    | ProfileData(profile: Profile)
    | Session(token: Principal, account: Account)
    | ServerFailure(message: string, error: string)

  datatype Response = Response(status: int, body: Body)

  const OK: int := 200
  const CREATED: int := 201
  const BAD_REQUEST: int := 400
  const FORBIDDEN: int := 403
  const NOT_FOUND: int := 404
  const SERVER_ERROR: int := 500
}
