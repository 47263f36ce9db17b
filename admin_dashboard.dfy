/** The admin dashboard: the jobs and users tables fetched together, and the
    approve, delete and ban handlers that patch the local lists. */
module AdminDashboardPage {
  import opened Wrappers
  import opened Models
  import opened ListOps

  datatype JobRow = JobRow(id: int, title: string, company: string, recruiterName: Option<string>, isApproved: bool)
  datatype UserRow = UserRow(id: int, name: string, email: string, role: Role, isBanned: bool)

  function JobRowId(j: JobRow): int {
    j.id
  }

  function UserRowId(u: UserRow): int {
    u.id
  }

  /** Approve is offered only for a job not yet approved. */
  predicate OffersApprove(j: JobRow) {
    !j.isApproved
  }

  /** Ban is offered, in both action columns, only to a user that is neither
      banned nor an admin. */
  predicate OffersBan(u: UserRow) {
    !u.isBanned && u.role != Admin
  }

  /** A row patched with the server's approved job no longer offers approve,
      and every other row keeps its button. */
  lemma ApprovedRowOffersNoApprove(jobs: seq<JobRow>, id: int, approved: JobRow, i: int)
    requires approved.isApproved && 0 <= i < |jobs|
    ensures var r := ReplaceById(jobs, JobRowId, id, approved);
      jobs[i].id == id ==> !OffersApprove(r[i])
    ensures var r := ReplaceById(jobs, JobRowId, id, approved);
      jobs[i].id != id ==> OffersApprove(r[i]) == OffersApprove(jobs[i])
  {
  }

  class AdminDashboard {
    var jobs: seq<JobRow>
    var users: seq<UserRow>
    var loading: bool
    var error: string

    constructor ()
      ensures jobs == [] && users == [] && loading && error == ""
    {
      jobs, users, loading, error := [], [], true, "";
    }

    /** The job and user tables, with every Approve and Ban button in them,
        render only once loading is over and no error has been recorded.
        No handler clears `error`, so one failure hides them for good. */
    predicate ShowsTables()
      reads this
    {
      !loading && error == ""
    }

    /** fetchData: both requests in one Promise.all. Both lists are set only
        when both succeed; otherwise `error` takes the text of a failed one.
        Loading ends either way. */
    method FetchData(jobsReply: Reply<seq<JobRow>>, usersReply: Reply<seq<UserRow>>)
      modifies this
      ensures !loading
      ensures jobsReply.Ok? && usersReply.Ok? ==>
        jobs == jobsReply.data && users == usersReply.data && error == old(error)
      ensures jobsReply.Failed? || usersReply.Failed? ==>
        && jobs == old(jobs) && users == old(users)
        && ((jobsReply.Failed? && error == ErrorText(jobsReply.message, "Error fetching data"))
            || (usersReply.Failed? && error == ErrorText(usersReply.message, "Error fetching data")))
      ensures ShowsTables() <==> old(error) == "" && jobsReply.Ok? && usersReply.Ok?
    {
      if jobsReply.Failed? {
        error := ErrorText(jobsReply.message, "Error fetching data");
      } else if usersReply.Failed? {
        error := ErrorText(usersReply.message, "Error fetching data");
      } else {
        jobs := jobsReply.data;
        users := usersReply.data;
      }
      loading := false;
    }

    /** handleApproveJob: the row with that id is replaced by the server's job. */
    method HandleApproveJob(id: int, reply: Reply<JobRow>)
      modifies this
      ensures users == old(users) && loading == old(loading)
      ensures reply.Ok? ==> jobs == ReplaceById(old(jobs), JobRowId, id, reply.data) && error == old(error)
      ensures reply.Failed? ==> error == ErrorText(reply.message, "Error approving job") && jobs == old(jobs)
      ensures ShowsTables() <==> old(ShowsTables()) && reply.Ok?
    {
      match reply
      case Ok(job) => jobs := ReplaceById(jobs, JobRowId, id, job);
      case Failed(message) => error := ErrorText(message, "Error approving job");
    }

    /** handleDeleteJob: only the rows with that id go. */
    method HandleDeleteJob(id: int, reply: Reply<()>)
      modifies this
      ensures users == old(users) && loading == old(loading)
      ensures reply.Ok? ==> jobs == RemoveById(old(jobs), JobRowId, id) && error == old(error)
      ensures reply.Failed? ==> error == ErrorText(reply.message, "Error deleting job") && jobs == old(jobs)
      ensures ShowsTables() <==> old(ShowsTables()) && reply.Ok?
    {
      match reply
      case Ok(_) => jobs := RemoveById(jobs, JobRowId, id);
      case Failed(message) => error := ErrorText(message, "Error deleting job");
    }

    /** handleBanUser: the row with that id is replaced by the server's user. */
    method HandleBanUser(id: int, reply: Reply<UserRow>)
      modifies this
      ensures jobs == old(jobs) && loading == old(loading)
      ensures reply.Ok? ==> users == ReplaceById(old(users), UserRowId, id, reply.data) && error == old(error)
      ensures reply.Failed? ==> error == ErrorText(reply.message, "Error banning user") && users == old(users)
      ensures ShowsTables() <==> old(ShowsTables()) && reply.Ok?
    {
      match reply
      case Ok(user) => users := ReplaceById(users, UserRowId, id, user);
      case Failed(message) => error := ErrorText(message, "Error banning user");
    }
  }
}
