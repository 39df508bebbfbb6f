/**
 * The Visitor list/editor view: its state slots as fields of a class and
 * one method per event handler. The HTTP round trip of each handler is
 * replaced by a parameter holding the server's reply, and each handler
 * returns the request it would send.
 */
module VisitorListView {
  import opened Wrappers
  import opened VisitorRecords
  import Pagination

  /**
   * What awaiting a request yields: a response with its status and decoded
   * body, or an exception. A transport failure and every status outside
   * 200-299 end as `Threw`: the HTTP client rejects such a status, the shared
   * client's error interceptor resolves the rejection to `undefined`, and
   * reading `status` or `data` of that throws inside the handler's `try`.
   */
  datatype Reply<T> = Response(status: int, data: T) | Threw

  /** A reply the shared HTTP client can hand to a handler: a response only ever carries a 2xx status. */
  predicate Delivered<T>(reply: Reply<T>)
  {
    reply.Response? ==> 200 <= reply.status < 300
  }

  /** The requests the view sends. */
  datatype Request =
    | FetchAll                                                      // GET Visitor/GetAll
    | FetchById(id: int)                                            // GET Visitor/GetById/{id}
    | CreateVisitor(name: string, email: string, phoneNumber: string) // POST Visitor/Create
    | UpdateVisitor(visitor: Visitor)                               // PUT Visitor/Update

  /**
   * A create or update counts as done only on status 200 or 201; a delivered
   * response that does not count carries another 2xx status.
   */
  function Succeeded<T>(reply: Reply<T>): (r: bool)
    ensures r ==> reply.Response? && Delivered(reply)
    ensures Delivered(reply) && reply.Response? && !r ==> 202 <= reply.status < 300
  {
    reply.Response? && (reply.status == 200 || reply.status == 201)
  }

  /**
   * JavaScript truthiness of the `number | null` editing id: a truthy id
   * passes the update handler's null guard, and the one present id that is
   * falsy is 0.
   */
  function IsTruthy(id: Option<int>): (r: bool)
    ensures r ==> id.Some?
    ensures id.Some? && !r ==> id.value == 0
  {
    id.Some? && id.value != 0
  }

  const AddedMessage := "Visitor added successfully!"
  const AddFailedMessage := "Failed to add visitor."
  const AddErrorMessage := "Error adding visitor. Please try again."
  const UpdatedMessage := "Visitor updated successfully!"
  const UpdateFailedMessage := "Failed to update visitor."
  const UpdateErrorMessage := "Error updating visitor. Please try again."

  /** The five state slots that make up the create/edit form. */
  datatype Form = Form(name: string, email: string, phoneNumber: string, isAdding: bool, editingId: Option<int>)

  /** The form as `resetForm` leaves it: empty fields, hidden, not editing. */
  const ClearedForm := Form("", "", "", false, None)

  class VisitorList {
    var visitors: seq<Visitor>
    var name: string
    var email: string
    var phoneNumber: string
    var isAddingVisitor: bool
    var editingVisitorId: Option<int>
    var notification: Option<string>
    var currentPage: nat
    var selectedVisitor: Option<Visitor>
    var isPopupOpen: bool

    /** The popup is open exactly when a visitor has been loaded into it. */
    ghost predicate Valid()
      reads this
    {
      isPopupOpen <==> selectedVisitor.Some?
    }

    function FormState(): Form
      reads this
    {
      Form(name, email, phoneNumber, isAddingVisitor, editingVisitorId)
    }

    /** The rows of the table body on the current page: at most five, taken in order from the list. */
    function CurrentVisitors(): (r: seq<Visitor>)
      reads this
      ensures |r| <= Pagination.ItemsPerPage
      ensures forall k :: 0 <= k < |r| ==>
                0 <= (currentPage - 1) * Pagination.ItemsPerPage + k < |visitors| &&
                r[k] == visitors[(currentPage - 1) * Pagination.ItemsPerPage + k]
    {
      Pagination.VisibleRows(visitors, currentPage)
    }

    /** Whether submitting the form runs the update handler rather than the create handler. */
    predicate SubmitsUpdate()
      reads this
    {
      IsTruthy(editingVisitorId)
    }

    /** The popup is rendered when it is open and holds a visitor, which in a valid state is whenever it is open. */
    function PopupShown(): (r: bool)
      reads this
      requires Valid()
      ensures r <==> isPopupOpen
    {
      isPopupOpen && selectedVisitor.Some?
    }

    /** The initial values of the state slots. */
    constructor ()
      ensures Valid()
      ensures visitors == [] && FormState() == ClearedForm
      ensures notification == None && currentPage == 1
      ensures selectedVisitor == None && !isPopupOpen
    {
      visitors := [];
      name, email, phoneNumber := "", "", "";
      isAddingVisitor := false;
      editingVisitorId := None;
      notification := None;
      currentPage := 1;
      selectedVisitor := None;
      isPopupOpen := false;
    }

    /** Load the list: a reply replaces it whole, an exception leaves it as it was. */
    method FetchVisitors(reply: Reply<seq<Visitor>>) returns (sent: Request)
      requires Valid()
      requires Delivered(reply)
      modifies this`visitors
      ensures Valid()
      ensures sent == FetchAll
      ensures visitors == if reply.Response? then reply.data else old(visitors)
    {
      sent := FetchAll;
      if reply.Response? {
        visitors := reply.data;
      }
    }

    /** The View button: load one visitor and open the popup on it. */
    method FetchVisitorDetails(id: int, reply: Reply<Visitor>) returns (sent: Request)
      requires Valid()
      requires Delivered(reply)
      modifies this`selectedVisitor, this`isPopupOpen
      ensures Valid()
      ensures sent == FetchById(id)
      ensures reply.Response? ==> selectedVisitor == Some(reply.data) && isPopupOpen
      ensures reply.Threw? ==> selectedVisitor == old(selectedVisitor) && isPopupOpen == old(isPopupOpen)
    {
      sent := FetchById(id);
      if reply.Response? {
        selectedVisitor := Some(reply.data);
        isPopupOpen := true;
      }
    }

    method ClosePopup()
      requires Valid()
      modifies this`selectedVisitor, this`isPopupOpen
      ensures Valid()
      ensures !isPopupOpen && selectedVisitor == None
    {
      isPopupOpen := false;
      selectedVisitor := None;
    }

    /** Empty the three fields, hide the form and stop editing. */
    method ResetForm()
      requires Valid()
      modifies this`name, this`email, this`phoneNumber, this`isAddingVisitor, this`editingVisitorId
      ensures Valid()
      ensures FormState() == ClearedForm
    {
      name, email, phoneNumber := "", "", "";
      isAddingVisitor := false;
      editingVisitorId := None;
    }

    /** The Edit button of a row: copy the record into the form and open it for editing. */
    method EditClick(visitor: Visitor)
      requires Valid()
      modifies this`name, this`email, this`phoneNumber, this`isAddingVisitor, this`editingVisitorId
      ensures Valid()
      ensures FormState() == Form(visitor.name, visitor.email, visitor.phoneNumber, true, Some(visitor.id))
    {
      name := visitor.name;
      email := visitor.email;
      phoneNumber := visitor.phoneNumber;
      editingVisitorId := Some(visitor.id);
      isAddingVisitor := true;
    }

    /** The Add New Visitor / Cancel button: show or hide the form, nothing else. */
    method ToggleForm()
      requires Valid()
      modifies this`isAddingVisitor
      ensures Valid()
      ensures isAddingVisitor == !old(isAddingVisitor)
    {
      isAddingVisitor := !isAddingVisitor;
    }

    /** Typing into the Name field. */
    method SetName(value: string)
      requires Valid()
      modifies this`name
      ensures Valid()
      ensures name == value
    {
      name := value;
    }

    /** Typing into the Email field. */
    method SetEmail(value: string)
      requires Valid()
      modifies this`email
      ensures Valid()
      ensures email == value
    {
      email := value;
    }

    /** Typing into the Phone Number field. */
    method SetPhoneNumber(value: string)
      requires Valid()
      modifies this`phoneNumber
      ensures Valid()
      ensures phoneNumber == value
    {
      phoneNumber := value;
    }

    /**
     * Create: send the three fields; on success append the returned record
     * and reset the form; otherwise keep list and form and report the failure.
     */
    method AddVisitor(reply: Reply<Visitor>) returns (sent: Request)
      requires Valid()
      requires Delivered(reply)
      modifies this`visitors, this`notification
      modifies this`name, this`email, this`phoneNumber, this`isAddingVisitor, this`editingVisitorId
      ensures Valid()
      ensures sent == CreateVisitor(old(name), old(email), old(phoneNumber))
      ensures Succeeded(reply) ==>
                visitors == Appended(old(visitors), reply.data) &&
                FormState() == ClearedForm && notification == Some(AddedMessage)
      ensures !Succeeded(reply) ==> visitors == old(visitors) && FormState() == old(FormState())
      ensures reply.Response? && !Succeeded(reply) ==> notification == Some(AddFailedMessage)
      ensures reply.Threw? ==> notification == Some(AddErrorMessage)
    {
      sent := CreateVisitor(name, email, phoneNumber);
      if Succeeded(reply) {
        visitors := Appended(visitors, reply.data);
        notification := Some(AddedMessage);
        ResetForm();
      } else if reply.Response? {
        notification := Some(AddFailedMessage);
      } else {
        notification := Some(AddErrorMessage);
      }
    }

    /**
     * Update: without an editing id nothing is sent and nothing changes.
     * Otherwise send the id with the three fields; on success replace every
     * record with that id by the returned one, reset the form and ask for a
     * reload of the whole list (`reloads`); otherwise keep list and form and
     * report the failure.
     */
    method EditVisitor(reply: Reply<Visitor>) returns (sent: Option<Request>, reloads: bool)
      requires Valid()
      requires Delivered(reply)
      modifies this`visitors, this`notification
      modifies this`name, this`email, this`phoneNumber, this`isAddingVisitor, this`editingVisitorId
      ensures Valid()
      ensures old(editingVisitorId).None? ==>
                sent == None && !reloads &&
                visitors == old(visitors) && FormState() == old(FormState()) &&
                notification == old(notification)
      ensures old(editingVisitorId).Some? ==>
                sent == Some(UpdateVisitor(Visitor(old(editingVisitorId).value, old(name), old(email), old(phoneNumber))))
      ensures reloads <==> old(editingVisitorId).Some? && Succeeded(reply)
      ensures old(editingVisitorId).Some? && Succeeded(reply) ==>
                visitors == ReplaceById(old(visitors), old(editingVisitorId).value, reply.data) &&
                FormState() == ClearedForm && notification == Some(UpdatedMessage)
      ensures old(editingVisitorId).Some? && !Succeeded(reply) ==>
                visitors == old(visitors) && FormState() == old(FormState())
      ensures old(editingVisitorId).Some? && reply.Response? && !Succeeded(reply) ==>
                notification == Some(UpdateFailedMessage)
      ensures old(editingVisitorId).Some? && reply.Threw? ==> notification == Some(UpdateErrorMessage)
    {
      if editingVisitorId.None? {
        return None, false;
      }
      var id := editingVisitorId.value;
      sent := Some(UpdateVisitor(Visitor(id, name, email, phoneNumber)));
      reloads := false;
      if Succeeded(reply) {
        visitors := ReplaceById(visitors, id, reply.data);
        notification := Some(UpdatedMessage);
        ResetForm();
        reloads := true;
      } else if reply.Response? {
        notification := Some(UpdateFailedMessage);
      } else {
        notification := Some(UpdateErrorMessage);
      }
    }

    /**
     * Submitting the form: a truthy editing id (present and non-zero) runs
     * the update handler, anything else the create handler. The form can
     * only be submitted while it is shown, and the browser holds it back
     * while one of its `required` fields is empty.
     */
    method Submit(reply: Reply<Visitor>) returns (sent: Request, reloads: bool)
      requires Valid()
      requires Delivered(reply)
      requires isAddingVisitor
      requires name != "" && email != "" && phoneNumber != ""
      modifies this`visitors, this`notification
      modifies this`name, this`email, this`phoneNumber, this`isAddingVisitor, this`editingVisitorId
      ensures Valid()
      ensures IsTruthy(old(editingVisitorId)) ==>
                sent == UpdateVisitor(Visitor(old(editingVisitorId).value, old(name), old(email), old(phoneNumber)))
      ensures !IsTruthy(old(editingVisitorId)) ==>
                sent == CreateVisitor(old(name), old(email), old(phoneNumber))
      ensures reloads <==> IsTruthy(old(editingVisitorId)) && Succeeded(reply)
      ensures visitors ==
                if !Succeeded(reply) then old(visitors)
                else if IsTruthy(old(editingVisitorId)) then ReplaceById(old(visitors), old(editingVisitorId).value, reply.data)
                else Appended(old(visitors), reply.data)
      ensures FormState() == if Succeeded(reply) then ClearedForm else old(FormState())
      ensures notification == Some(
                if IsTruthy(old(editingVisitorId)) then
                  (if Succeeded(reply) then UpdatedMessage else if reply.Response? then UpdateFailedMessage else UpdateErrorMessage)
                else
                  (if Succeeded(reply) then AddedMessage else if reply.Response? then AddFailedMessage else AddErrorMessage))
    {
      if IsTruthy(editingVisitorId) {
        var s;
        s, reloads := EditVisitor(reply);
        sent := s.value;
      } else {
        sent := AddVisitor(reply);
        reloads := false;
      }
    }

    /** The Next button. */
    method NextPage()
      requires Valid()
      modifies this`currentPage
      ensures Valid()
      ensures currentPage == Pagination.NextPageNumber(old(currentPage), |visitors|)
    {
      currentPage := Pagination.NextPageNumber(currentPage, |visitors|);
    }

    /** The Previous button. */
    method PreviousPage()
      requires Valid()
      modifies this`currentPage
      ensures Valid()
      ensures currentPage == Pagination.PreviousPageNumber(old(currentPage))
    {
      currentPage := Pagination.PreviousPageNumber(currentPage);
    }
  }

  /**
   * Edit on a row followed by Cancel: the list is untouched, the form is
   * hidden but still holds the record and its id, so reopening it with
   * Add New Visitor and submitting runs an update of that record.
   */
  method EditThenCancel(view: VisitorList, visitor: Visitor)
    requires view.Valid()
    modifies view`name, view`email, view`phoneNumber, view`isAddingVisitor, view`editingVisitorId
    ensures view.Valid()
    ensures view.visitors == old(view.visitors)
    ensures view.FormState() == Form(visitor.name, visitor.email, visitor.phoneNumber, false, Some(visitor.id))
    ensures visitor.id != 0 ==> view.SubmitsUpdate()
  {
    view.EditClick(visitor);
    view.ToggleForm();
  }

  /**
   * A submitted edit together with the reload the update handler awaits
   * after a success: the list ends as the server's fresh copy when that
   * arrives, and as the locally patched list when the reload throws. The
   * form is reset exactly on success, and the notification reports the
   * outcome of the update.
   */
  method UpdateAndReload(view: VisitorList, reply: Reply<Visitor>, reload: Reply<seq<Visitor>>)
    returns (sent: Request)
    requires view.Valid()
    requires Delivered(reply) && Delivered(reload)
    requires view.isAddingVisitor
    requires view.name != "" && view.email != "" && view.phoneNumber != ""
    requires IsTruthy(view.editingVisitorId)
    modifies view`visitors, view`notification
    modifies view`name, view`email, view`phoneNumber, view`isAddingVisitor, view`editingVisitorId
    ensures view.Valid()
    ensures view.FormState() == if Succeeded(reply) then ClearedForm else old(view.FormState())
    ensures view.notification == Some(
              if Succeeded(reply) then UpdatedMessage
              else if reply.Response? then UpdateFailedMessage
              else UpdateErrorMessage)
    ensures sent == UpdateVisitor(Visitor(old(view.editingVisitorId).value, old(view.name), old(view.email), old(view.phoneNumber)))
    ensures !Succeeded(reply) ==> view.visitors == old(view.visitors)
    ensures Succeeded(reply) && reload.Response? ==> view.visitors == reload.data
    ensures Succeeded(reply) && reload.Threw? ==>
              view.visitors == ReplaceById(old(view.visitors), old(view.editingVisitorId).value, reply.data)
  {
    var reloads;
    sent, reloads := view.Submit(reply);
    if reloads {
      var _ := view.FetchVisitors(reload);
    }
  }
}
