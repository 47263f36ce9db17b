/** The routes under /api/users: reading and updating the caller's own profile. */
module UserRoutes {
  import opened Wrappers
  import opened Models
  import opened Store

  /** The body of PUT /me; any field may be absent. */
  datatype ProfileUpdate = ProfileUpdate(
    name: Option<string>,
    phone: Option<string>,
    location: Option<string>,
    about: Option<string>,
    website: Option<string>,
    company: Option<string>,
    position: Option<string>)

  /** `v || current` for a NOT NULL column. */
  function OrKeep(v: Option<string>, current: string): (r: string)
    ensures Truthy(v) ==> r == v.value
    ensures !Truthy(v) ==> r == current
  {
    if Truthy(v) then v.value else current
  }

  /** `v || current` for a nullable column. */
  function OrKeepNullable(v: Option<string>, current: Option<string>): (r: Option<string>)
    ensures Truthy(v) ==> r == v
    ensures !Truthy(v) ==> r == current
  {
    if Truthy(v) then v else current
  }

  /** The field-merge rule of PUT /me. */
  function MergeProfile(u: User, b: ProfileUpdate): (r: User)
    // each shared field takes the new value when it is truthy and keeps the old one otherwise
    ensures r.name == (if Truthy(b.name) then b.name.value else u.name)
    ensures r.phone == (if Truthy(b.phone) then b.phone else u.phone)
    ensures r.location == (if Truthy(b.location) then b.location else u.location)
    ensures r.about == (if Truthy(b.about) then b.about else u.about)
    ensures r.website == (if Truthy(b.website) then b.website else u.website)
    // position is a candidate's field, company a recruiter's
    ensures r.position == (if u.role == Candidate && Truthy(b.position) then b.position else u.position)
    ensures r.company == (if u.role == Recruiter && Truthy(b.company) then b.company else u.company)
    // what the update never touches
    ensures r.email == u.email && r.role == u.role && r.password == u.password && r.isBanned == u.isBanned
  {
    var merged := u.(
      name := OrKeep(b.name, u.name),
      phone := OrKeepNullable(b.phone, u.phone),
      location := OrKeepNullable(b.location, u.location),
      about := OrKeepNullable(b.about, u.about),
      website := OrKeepNullable(b.website, u.website));
    var withPosition := if u.role == Candidate then merged.(position := OrKeepNullable(b.position, u.position)) else merged;
    if u.role == Recruiter then withPosition.(company := OrKeepNullable(b.company, u.company)) else withPosition
  }

  /** Sending the same update twice gives the record one update gives. */
  lemma MergeIdempotent(u: User, b: ProfileUpdate)
    ensures MergeProfile(MergeProfile(u, b), b) == MergeProfile(u, b)
  {
  }

  /** An update whose fields are all absent or empty changes nothing. */
  lemma MergeOfFalsyUpdate(u: User, b: ProfileUpdate)
    requires !Truthy(b.name) && !Truthy(b.phone) && !Truthy(b.location) && !Truthy(b.about)
    requires !Truthy(b.website) && !Truthy(b.company) && !Truthy(b.position)
    ensures MergeProfile(u, b) == u
  {
  }

  /** GET /me: the caller's row without its password, or 404. */
  function GetMe(users: map<int, User>, caller: Principal): (r: Response)
    ensures caller.id !in users ==> r == Response(NOT_FOUND, Note("User not found"))
    ensures caller.id in users ==>
      r.status == OK && r.body.ProfileData? && WithPassword(r.body.profile, users[caller.id].password) == users[caller.id]
  {
    if caller.id in users then Response(OK, ProfileData(ProfileOf(users[caller.id])))
    else Response(NOT_FOUND, Note("User not found"))
  }

  /** PUT /me: assigns the fields one by one on the fetched row, saves it and
      answers with the row without its password. */
  method UpdateMe(db: Database, caller: Principal, b: ProfileUpdate) returns (resp: Response)
    requires db.Valid()
    modifies db
    ensures db.Valid()
    ensures caller.id !in old(db.users) ==> resp == Response(NOT_FOUND, Note("User not found")) && unchanged(db)
    ensures caller.id in old(db.users) ==>
      && db.users == old(db.users)[caller.id := MergeProfile(old(db.users[caller.id]), b)]
      && resp == Response(OK, ProfileData(ProfileOf(db.users[caller.id])))
      && db.jobs == old(db.jobs) && db.applications == old(db.applications)
      && db.nextUserId == old(db.nextUserId) && db.nextJobId == old(db.nextJobId)
      && db.nextApplicationId == old(db.nextApplicationId)
  {
    if caller.id !in db.users {
      return Response(NOT_FOUND, Note("User not found"));
    }
    var user := db.users[caller.id];
    user := user.(name := OrKeep(b.name, user.name));
    user := user.(phone := OrKeepNullable(b.phone, user.phone));
    user := user.(location := OrKeepNullable(b.location, user.location));
    user := user.(about := OrKeepNullable(b.about, user.about));
    user := user.(website := OrKeepNullable(b.website, user.website));
    if user.role == Candidate {
      user := user.(position := OrKeepNullable(b.position, user.position));
    }
    if user.role == Recruiter {
      user := user.(company := OrKeepNullable(b.company, user.company));
    }
    db.users := db.users[caller.id := user];
    resp := Response(OK, ProfileData(ProfileOf(user)));
  }
}
