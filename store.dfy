/** The database: the three tables as maps from primary key to row, with the
    next value of each autoIncrement key. */
module Store {
  import opened Models

  /** The unique index on Users.email. */
  ghost predicate UniqueEmails(users: map<int, User>) {
    forall a, b :: a in users && b in users && users[a].email == users[b].email ==> a == b
  }

  /** Some user has this email (`User.findOne({ where: { email } })` finds a row). */
  ghost predicate EmailTaken(users: map<int, User>, email: string) {
    exists k :: k in users && users[k].email == email
  }

  /** The candidate has an application for the job (`Application.findOne`
      over `{ jobId, candidateId }` finds a row). */
  ghost predicate HasApplied(apps: map<int, Application>, jobId: int, candidateId: int) {
    exists k :: k in apps && apps[k].jobId == jobId && apps[k].candidateId == candidateId
  }

  /** The keys of the applications of one candidate to one job. */
  ghost function ApplicationsFor(apps: map<int, Application>, jobId: int, candidateId: int): set<int> {
    set k | k in apps && apps[k].jobId == jobId && apps[k].candidateId == candidateId
  }

  /** No two applications share a (jobId, candidateId) pair. */
  ghost predicate OneApplicationPerPair(apps: map<int, Application>) {
    forall a, b ::
      a in apps && b in apps && apps[a].jobId == apps[b].jobId && apps[a].candidateId == apps[b].candidateId
      ==> a == b
  }

  /** Under the one-per-pair invariant a candidate holds at most one
      application per job, and exactly one when HasApplied says so. */
  lemma AtMostOneApplication(apps: map<int, Application>, jobId: int, candidateId: int)
    requires OneApplicationPerPair(apps)
    ensures |ApplicationsFor(apps, jobId, candidateId)| == if HasApplied(apps, jobId, candidateId) then 1 else 0
  {
    var s := ApplicationsFor(apps, jobId, candidateId);
    if HasApplied(apps, jobId, candidateId) {
      var k :| k in apps && apps[k].jobId == jobId && apps[k].candidateId == candidateId;
      assert k in s;
      assert forall x :: x in s ==> x == k;
      assert s == {k};
    } else {
      assert forall x :: x !in s;
      assert s == {};
    }
  }

  class Database {
    var users: map<int, User>
    var jobs: map<int, Job>
    var applications: map<int, Application>
    var nextUserId: int
    var nextJobId: int
    var nextApplicationId: int

    /** Keys are below the next autoIncrement value, emails are unique and a
        candidate applies to a job at most once. */
    ghost predicate Valid()
      reads this
    {
      && 1 <= nextUserId && 1 <= nextJobId && 1 <= nextApplicationId
      && (forall k :: k in users ==> 1 <= k < nextUserId)
      && (forall k :: k in jobs ==> 1 <= k < nextJobId)
      && (forall k :: k in applications ==> 1 <= k < nextApplicationId)
      && UniqueEmails(users)
      && OneApplicationPerPair(applications)
    }

    /** Empty tables, keys starting at 1. */
    constructor ()
      ensures Valid()
      ensures users == map[] && jobs == map[] && applications == map[]
      ensures nextUserId == 1 && nextJobId == 1 && nextApplicationId == 1
    {
      users, jobs, applications := map[], map[], map[];
      nextUserId, nextJobId, nextApplicationId := 1, 1, 1;
    }
  }
}
