/** The moderation routes under /api/admin: every one of them first passes the
    isAdmin guard, then looks the record up by primary key. */
module AdminRoutes {
  import opened Models
  import opened Store

  /** The isAdmin middleware lets the request through. */
  predicate IsAdmin(caller: Principal) {
    caller.role == Admin
  }

  const ADMINS_ONLY: string := "Access denied: Admins only"

  /** The jobs table after `job.isApproved = true; job.save()`. */
  function ApproveJobIn(jobs: map<int, Job>, id: int): (r: map<int, Job>)
    requires id in jobs
    ensures r.Keys == jobs.Keys
    ensures r[id].isApproved
    ensures r[id].(isApproved := jobs[id].isApproved) == jobs[id]
    ensures forall k :: k in jobs && k != id ==> r[k] == jobs[k]
  {
    jobs[id := jobs[id].(isApproved := true)]
  }

  /** Approving twice leaves the table as approving once. */
  lemma ApproveIdempotent(jobs: map<int, Job>, id: int)
    requires id in jobs
    ensures ApproveJobIn(ApproveJobIn(jobs, id), id) == ApproveJobIn(jobs, id)
  {
  }

  /** The users table after `user.isBanned = true; user.save()`. Admin rows
      are never touched: the route refuses an admin target before this. */
  function BanUserIn(users: map<int, User>, id: int): (r: map<int, User>)
    requires id in users && users[id].role != Admin
    ensures r.Keys == users.Keys
    ensures r[id].isBanned && r[id].(isBanned := users[id].isBanned) == users[id]
    ensures forall k :: k in users && k != id ==> r[k] == users[k]
    ensures forall k :: k in users && users[k].role == Admin ==> r[k] == users[k]
  {
    users[id := users[id].(isBanned := true)]
  }

  /** The users table after `user.isBanned = false; user.save()`, for any role. */
  function UnbanUserIn(users: map<int, User>, id: int): (r: map<int, User>)
    requires id in users
    ensures r.Keys == users.Keys
    ensures !r[id].isBanned && r[id].(isBanned := users[id].isBanned) == users[id]
    ensures forall k :: k in users && k != id ==> r[k] == users[k]
  {
    users[id := users[id].(isBanned := false)]
  }

  /** Unban undoes ban: the user ends up not banned and nothing else about
      any user has changed. */
  lemma BanThenUnban(users: map<int, User>, id: int)
    requires id in users && users[id].role != Admin
    ensures UnbanUserIn(BanUserIn(users, id), id) == users[id := users[id].(isBanned := false)]
    ensures !users[id].isBanned ==> UnbanUserIn(BanUserIn(users, id), id) == users
  {
  }

  /** GET /jobs: every job, for an admin. */
  method ListAllJobs(db: Database, caller: Principal) returns (resp: Response)
    ensures !IsAdmin(caller) ==> resp == Response(FORBIDDEN, Note(ADMINS_ONLY))
    ensures IsAdmin(caller) ==> resp == Response(OK, JobsData(db.jobs))
  {
    if caller.role != Admin {
      return Response(FORBIDDEN, Note(ADMINS_ONLY));
    }
    resp := Response(OK, JobsData(db.jobs));
  }

  /** GET /users: every user row, password column included, for an admin. */
  method ListAllUsers(db: Database, caller: Principal) returns (resp: Response)
    ensures !IsAdmin(caller) ==> resp == Response(FORBIDDEN, Note(ADMINS_ONLY))
    ensures IsAdmin(caller) ==> resp == Response(OK, UsersData(db.users))
  {
    if caller.role != Admin {
      return Response(FORBIDDEN, Note(ADMINS_ONLY));
    }
    resp := Response(OK, UsersData(db.users));
  }

  /** PUT /jobs/:id/approve. */
  method ApproveJob(db: Database, caller: Principal, id: int) returns (resp: Response)
    requires db.Valid()
    modifies db
    ensures db.Valid()
    ensures !IsAdmin(caller) ==> resp == Response(FORBIDDEN, Note(ADMINS_ONLY)) && unchanged(db)
    ensures IsAdmin(caller) && id !in old(db.jobs) ==> resp == Response(NOT_FOUND, Note("Job not found")) && unchanged(db)
    ensures IsAdmin(caller) && id in old(db.jobs) ==>
      && db.jobs == ApproveJobIn(old(db.jobs), id)
      && resp == Response(OK, JobData(db.jobs[id]))
      && db.users == old(db.users) && db.applications == old(db.applications)
      && db.nextUserId == old(db.nextUserId) && db.nextJobId == old(db.nextJobId)
      && db.nextApplicationId == old(db.nextApplicationId)
  {
    if caller.role != Admin {
      return Response(FORBIDDEN, Note(ADMINS_ONLY));
    }
    if id !in db.jobs {
      return Response(NOT_FOUND, Note("Job not found"));
    }
    var job := db.jobs[id];
    job := job.(isApproved := true);
    db.jobs := db.jobs[id := job];
    resp := Response(OK, JobData(db.jobs[id]));
  }

  /** DELETE /jobs/:id: the job row goes; applications that point at it stay. */
  method DeleteJob(db: Database, caller: Principal, id: int) returns (resp: Response)
    requires db.Valid()
    modifies db
    ensures db.Valid()
    ensures !IsAdmin(caller) ==> resp == Response(FORBIDDEN, Note(ADMINS_ONLY)) && unchanged(db)
    ensures IsAdmin(caller) && id !in old(db.jobs) ==> resp == Response(NOT_FOUND, Note("Job not found")) && unchanged(db)
    ensures IsAdmin(caller) && id in old(db.jobs) ==>
      && db.jobs == old(db.jobs) - {id}
      && resp == Response(OK, Note("Job deleted"))
      && db.users == old(db.users) && db.applications == old(db.applications)
      && db.nextUserId == old(db.nextUserId) && db.nextJobId == old(db.nextJobId)
      && db.nextApplicationId == old(db.nextApplicationId)
  {
    if caller.role != Admin {
      return Response(FORBIDDEN, Note(ADMINS_ONLY));
    }
    if id !in db.jobs {
      return Response(NOT_FOUND, Note("Job not found"));
    }
    db.jobs := db.jobs - {id};
    resp := Response(OK, Note("Job deleted"));
  }

  /** PUT /users/:id/ban: refuses an admin target with 403. */
  method BanUser(db: Database, caller: Principal, id: int) returns (resp: Response)
    requires db.Valid()
    modifies db
    ensures db.Valid()
    ensures !IsAdmin(caller) ==> resp == Response(FORBIDDEN, Note(ADMINS_ONLY)) && unchanged(db)
    ensures IsAdmin(caller) && id !in old(db.users) ==> resp == Response(NOT_FOUND, Note("User not found")) && unchanged(db)
    ensures IsAdmin(caller) && id in old(db.users) && old(db.users[id].role) == Admin ==>
      resp == Response(FORBIDDEN, Note("Cannot ban another admin")) && unchanged(db)
    ensures IsAdmin(caller) && id in old(db.users) && old(db.users[id].role) != Admin ==>
      && db.users == BanUserIn(old(db.users), id)
      && resp == Response(OK, UserData(db.users[id]))
      && db.jobs == old(db.jobs) && db.applications == old(db.applications)
      && db.nextUserId == old(db.nextUserId) && db.nextJobId == old(db.nextJobId)
      && db.nextApplicationId == old(db.nextApplicationId)
    ensures forall k :: k in old(db.users) && old(db.users[k].role) == Admin ==> k in db.users && db.users[k] == old(db.users[k])
  {
    if caller.role != Admin {
      return Response(FORBIDDEN, Note(ADMINS_ONLY));
    }
    if id !in db.users {
      return Response(NOT_FOUND, Note("User not found"));
    }
    var user := db.users[id];
    if user.role == Admin {
      return Response(FORBIDDEN, Note("Cannot ban another admin"));
    }
    user := user.(isBanned := true);
    db.users := db.users[id := user];
    resp := Response(OK, UserData(user));
  }

  /** PUT /users/:id/unban: no check on the target's role. */
  method UnbanUser(db: Database, caller: Principal, id: int) returns (resp: Response)
    requires db.Valid()
    modifies db
    ensures db.Valid()
    ensures !IsAdmin(caller) ==> resp == Response(FORBIDDEN, Note(ADMINS_ONLY)) && unchanged(db)
    ensures IsAdmin(caller) && id !in old(db.users) ==> resp == Response(NOT_FOUND, Note("User not found")) && unchanged(db)
    ensures IsAdmin(caller) && id in old(db.users) ==>
      && db.users == UnbanUserIn(old(db.users), id)
      && resp == Response(OK, UserData(db.users[id]))
      && db.jobs == old(db.jobs) && db.applications == old(db.applications)
      && db.nextUserId == old(db.nextUserId) && db.nextJobId == old(db.nextJobId)
      && db.nextApplicationId == old(db.nextApplicationId)
  {
    if caller.role != Admin {
      return Response(FORBIDDEN, Note(ADMINS_ONLY));
    }
    if id !in db.users {
      return Response(NOT_FOUND, Note("User not found"));
    }
    var user := db.users[id];
    user := user.(isBanned := false);
    db.users := db.users[id := user];
    resp := Response(OK, UserData(user));
  }
}
