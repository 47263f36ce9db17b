/** The candidate's list of applications, with withdraw and the toggle that
    opens one application's message thread. */
module MyApplicationsPage {
  import opened Wrappers
  import opened ListOps

  /** One entry of GET /my-applications. `status` is whatever the server
      sends; the Applications table has no such column. */
  datatype ApplicationRow = ApplicationRow(
    id: int,
    candidateId: int,
    status: Option<string>,
    jobTitle: string,
    jobCompany: string,
    recruiterId: int,
    appliedAt: int)

  function RowId(a: ApplicationRow): int {
    a.id
  }

  /** `selected === id ? null : id`. */
  function Toggle(selected: Option<int>, id: int): (r: Option<int>)
    ensures selected == Some(id) ==> r.None?
    ensures selected != Some(id) ==> r == Some(id)
  {
    if selected == Some(id) then None else Some(id)
  }

  /** Toggling one id twice restores the selection exactly when it was empty
      or already that id; from another selection it ends empty. */
  lemma ToggleTwice(selected: Option<int>, id: int)
    ensures Toggle(Toggle(selected, id), id) == selected <==> selected.None? || selected == Some(id)
    ensures selected.Some? && selected != Some(id) ==> Toggle(Toggle(selected, id), id).None?
  {
  }

  /** The withdraw button is offered only for a pending application. */
  predicate OffersWithdraw(a: ApplicationRow) {
    a.status == Some("pending")
  }

  /** A row with no status, as the Applications table yields, never offers withdraw. */
  lemma NoStatusNoWithdraw(a: ApplicationRow)
    requires a.status.None?
    ensures !OffersWithdraw(a)
  {
  }

  class MyApplications {
    var applications: seq<ApplicationRow>
    var error: string
    var selectedApplicationId: Option<int>

    constructor ()
      ensures applications == [] && error == "" && selectedApplicationId.None?
    {
      applications, error, selectedApplicationId := [], "", None;
    }

    /** The messages panel is drawn only under the selected application. */
    predicate ShowsMessages(a: ApplicationRow)
      reads this
    {
      selectedApplicationId == Some(a.id)
    }

    /** The list fetched on mount. */
    method FetchApplications(reply: Reply<seq<ApplicationRow>>)
      modifies this
      ensures selectedApplicationId == old(selectedApplicationId)
      ensures reply.Ok? ==> applications == reply.data && error == old(error)
      ensures reply.Failed? ==>
        error == ErrorText(reply.message, "Error fetching applications") && applications == old(applications)
    {
      match reply
      case Ok(data) => applications := data;
      case Failed(message) => error := ErrorText(message, "Error fetching applications");
    }

    /** handleWithdraw: on success exactly the entries with that id go, the
        rest keep their order; a failure only sets `error`. */
    method HandleWithdraw(id: int, reply: Reply<()>)
      modifies this
      ensures selectedApplicationId == old(selectedApplicationId)
      ensures reply.Ok? ==> applications == RemoveById(old(applications), RowId, id) && error == old(error)
      ensures reply.Failed? ==>
        error == ErrorText(reply.message, "Error withdrawing application") && applications == old(applications)
    {
      match reply
      case Ok(_) => applications := RemoveById(applications, RowId, id);
      case Failed(message) => error := ErrorText(message, "Error withdrawing application");
    }

    /** toggleMessages: hides the open thread, or opens this one instead. */
    method ToggleMessages(id: int)
      modifies this
      ensures selectedApplicationId == Toggle(old(selectedApplicationId), id)
      ensures applications == old(applications) && error == old(error)
    {
      selectedApplicationId := if selectedApplicationId == Some(id) then None else Some(id);
    }
  }
}
