/** The routes under /api/jobs: the public listing with its filters, posting a
    job (recruiters) and applying to one (candidates). */
module JobRoutes {
  import opened Wrappers
  import opened Text
  import opened Models
  import opened Store

  /** The query string of GET /: each filter may be absent. */
  datatype JobQuery = JobQuery(title: Option<string>, location: Option<string>, contract: Option<string>)

  /** The `where` object the handler builds, one entry per filter it keeps. */
  datatype Where = Where(title: Option<string>, location: Option<string>, contract: Option<Contract>)

  const INVALID_CONTRACT: string := "Invalid contract type"

  /** Builds the `where` object: a falsy filter adds no condition, a contract
      outside the three valid spellings is refused. */
  function BuildWhere(q: JobQuery): (r: Option<Where>)
    ensures r.None? <==> Truthy(q.contract) && q.contract.value !in ValidContracts
    ensures r.Some? ==> (r.value.title.Some? <==> Truthy(q.title))
    ensures r.Some? ==> (r.value.location.Some? <==> Truthy(q.location))
    ensures r.Some? ==> (r.value.contract.Some? <==> Truthy(q.contract))
    ensures r.Some? && Truthy(q.title) ==> r.value.title == q.title
    ensures r.Some? && Truthy(q.location) ==> r.value.location == q.location
    ensures r.Some? && Truthy(q.contract) ==> ParseContract(q.contract.value) == r.value.contract
  {
    var title := if Truthy(q.title) then q.title else None;
    var location := if Truthy(q.location) then q.location else None;
    if Truthy(q.contract) then
      match ParseContract(q.contract.value)
      case None => None
      case Some(c) => Some(Where(title, location, Some(c)))
    else
      Some(Where(title, location, None))
  }

  /** A job meets every condition of the `where` object: `LIKE '%v%'` as a
      substring test on title and location, equality on contract. */
  predicate Satisfies(w: Where, j: Job) {
    && (w.title.Some? ==> Contains(j.title, w.title.value))
    && (w.location.Some? ==> Contains(j.location, w.location.value))
    && (w.contract.Some? ==> j.contract == w.contract.value)
  }

  /** The query read directly: each truthy filter must hold, absent or empty
      ones impose nothing, and approval is not looked at. */
  predicate MatchesQuery(q: JobQuery, j: Job) {
    && (Truthy(q.title) ==> Contains(j.title, q.title.value))
    && (Truthy(q.location) ==> Contains(j.location, q.location.value))
    && (Truthy(q.contract) ==> ContractName(j.contract) == q.contract.value)
  }

  /** GET /: a 400 for a bad contract, before the table is read; otherwise the
      rows of `Job.findAll({ where })`. */
  function ListJobs(jobs: map<int, Job>, q: JobQuery): (r: Response)
    ensures r.status == BAD_REQUEST <==> Truthy(q.contract) && q.contract.value !in ValidContracts
    ensures r.status == BAD_REQUEST ==> r.body == Note(INVALID_CONTRACT)
    ensures r.status != BAD_REQUEST ==> r.status == OK && r.body.JobsData?
    ensures r.status == OK ==> forall k :: k in r.body.jobs <==> k in jobs && MatchesQuery(q, jobs[k])
    ensures r.status == OK ==> forall k :: k in r.body.jobs ==> r.body.jobs[k] == jobs[k]
  {
    match BuildWhere(q)
    case None => Response(BAD_REQUEST, Note(INVALID_CONTRACT))
    case Some(w) =>
      var found := map k | k in jobs && Satisfies(w, jobs[k]) :: jobs[k];
      assert forall k :: k in jobs ==> (Satisfies(w, jobs[k]) <==> MatchesQuery(q, jobs[k]));
      Response(OK, JobsData(found))
  }

  /** The listing does not hide unapproved jobs: with no filters every job,
      approved or not, is returned. */
  lemma UnapprovedJobsAreListed(jobs: map<int, Job>, k: int)
    requires k in jobs && !jobs[k].isApproved
    ensures ListJobs(jobs, JobQuery(None, None, None)).body.jobs[k] == jobs[k]
  {
  }

  /** A job is found by filters copied from its own title, location and contract. */
  lemma {:induction false} JobMatchesOwnFields(jobs: map<int, Job>, k: int)
    requires k in jobs
    ensures var j := jobs[k];
      k in ListJobs(jobs, JobQuery(Some(j.title), Some(j.location), Some(ContractName(j.contract)))).body.jobs
  {
    ContainsSelf(jobs[k].title);
    ContainsSelf(jobs[k].location);
  }

  /** The body of POST /. */
  datatype JobPosting = JobPosting(title: string, company: string, location: string, description: string, contract: Contract)

  /** POST /: recruiters only; the new job belongs to the caller and starts unapproved. */
  method PostJob(db: Database, caller: Principal, p: JobPosting) returns (resp: Response, id: int)
    requires db.Valid()
    modifies db
    ensures db.Valid()
    ensures caller.role != Recruiter ==>
      resp == Response(FORBIDDEN, Note("Only recruiters can post jobs")) && unchanged(db)
    ensures caller.role == Recruiter ==>
      && id == old(db.nextJobId) && id !in old(db.jobs)
      && db.jobs == old(db.jobs)[id := Job(p.title, p.company, p.location, p.description, p.contract, caller.id, false)]
      && resp == Response(CREATED, JobData(db.jobs[id]))
      && db.nextJobId == old(db.nextJobId) + 1
      && db.users == old(db.users) && db.applications == old(db.applications)
      && db.nextUserId == old(db.nextUserId) && db.nextApplicationId == old(db.nextApplicationId)
  {
    id := db.nextJobId;
    if caller.role != Recruiter {
      return Response(FORBIDDEN, Note("Only recruiters can post jobs")), id;
    }
    var job := Job(p.title, p.company, p.location, p.description, p.contract, caller.id, false);
    db.jobs := db.jobs[id := job];
    db.nextJobId := id + 1;
    resp := Response(CREATED, JobData(job));
  }

  /** POST /apply: candidates only, to an existing job, once per job.
      `now` is the clock reading that fills appliedAt. */
  method Apply(db: Database, caller: Principal, jobId: int, now: int) returns (resp: Response)
    requires db.Valid()
    modifies db
    ensures db.Valid()
    ensures caller.role != Candidate ==>
      resp == Response(FORBIDDEN, Note("Only candidates can apply")) && unchanged(db)
    ensures caller.role == Candidate && jobId !in old(db.jobs) ==>
      resp == Response(NOT_FOUND, Note("Job not found")) && unchanged(db)
    ensures caller.role == Candidate && jobId in old(db.jobs) && HasApplied(old(db.applications), jobId, caller.id) ==>
      resp == Response(BAD_REQUEST, Note("You have already applied to this job")) && unchanged(db)
    ensures caller.role == Candidate && jobId in old(db.jobs) && !HasApplied(old(db.applications), jobId, caller.id) ==>
      && var id := old(db.nextApplicationId);
      && id !in old(db.applications)
      && db.applications == old(db.applications)[id := Application(jobId, caller.id, now)]
      && |db.applications| == |old(db.applications)| + 1
      && resp == Response(CREATED, Note("Application submitted"))
      && db.nextApplicationId == id + 1
      && db.users == old(db.users) && db.jobs == old(db.jobs)
      && db.nextUserId == old(db.nextUserId) && db.nextJobId == old(db.nextJobId)
    ensures HasApplied(db.applications, jobId, caller.id) <==>
      (caller.role == Candidate && jobId in old(db.jobs)) || HasApplied(old(db.applications), jobId, caller.id)
  {
    if caller.role != Candidate {
      return Response(FORBIDDEN, Note("Only candidates can apply"));
    }
    if jobId !in db.jobs {
      return Response(NOT_FOUND, Note("Job not found"));
    }
    var existing := exists k | k in db.applications :: db.applications[k].jobId == jobId && db.applications[k].candidateId == caller.id;
    if existing {
      return Response(BAD_REQUEST, Note("You have already applied to this job"));
    }
    var id := db.nextApplicationId;
    var apps := db.applications;
    db.applications := apps[id := Application(jobId, caller.id, now)];
    db.nextApplicationId := id + 1;
    assert db.applications[id].jobId == jobId && db.applications[id].candidateId == caller.id;
    resp := Response(CREATED, Note("Application submitted"));
  }
}
