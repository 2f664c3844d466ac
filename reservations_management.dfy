/** The administrator's reservation table: the status chip, which actions each row
    offers, and the handlers that change the page's state.  The page reads
    `modificationStatus` and the requested dates from each row, fields that the
    stored reservation record does not have. */
module ReservationsManagement {
  import opened Common
  import opened Models
  import Schemas

  /** One row of the table, as the listing delivers it. */
  datatype Row = Row(id: int, status: string, modificationStatus: Option<string>)

  /** The chip's label: Confirmé, Annulé, or En attente for every other status. */
  function StatusLabel(status: string): (text: string)
    ensures text == "Confirmé" <==> status == "confirmed"
    ensures text == "Annulé" <==> status == "cancelled"
    ensures text == "En attente" <==> status != "confirmed" && status != "cancelled"
  {
    if status == "confirmed" then "Confirmé"
    else if status == "cancelled" then "Annulé"
    else "En attente"
  }

  /** The chip's colour, chosen by the same tests as the label. */
  function StatusColor(status: string): (color: string)
    ensures color == "success" <==> StatusLabel(status) == "Confirmé"
    ensures color == "error" <==> StatusLabel(status) == "Annulé"
    ensures color == "warning" <==> StatusLabel(status) == "En attente"
  {
    if status == "confirmed" then "success"
    else if status == "cancelled" then "error"
    else "warning"
  }

  datatype Action = Confirm | Cancel | ManageModification

  /** The buttons a row offers, in display order. */
  function RowActions(row: Row): (actions: seq<Action>)
    ensures Confirm in actions <==> row.status == "pending"
    ensures Cancel in actions <==> row.status == "pending"
    ensures ManageModification in actions <==> row.modificationStatus == Some("pending")
    ensures |actions| <= 3
  {
    (if row.status == "pending" then [Confirm, Cancel] else [])
    + (if row.modificationStatus == Some("pending") then [ManageModification] else [])
  }

  /** Whether the row shows the requested dates and the "Modif. demandée" chip. */
  predicate ShowsModificationRequest(row: Row)
  {
    row.modificationStatus == Some("pending")
  }

  /** The requested dates are shown exactly on the rows that offer to manage them. */
  lemma RequestShownWithItsAction(row: Row)
    ensures ShowsModificationRequest(row) <==> ManageModification in RowActions(row)
  {
  }

  /** The status each status action sends. */
  function ActionStatus(a: Action): (status: string)
    requires a != ManageModification
    ensures a == Confirm ==> status == "confirmed"
    ensures a == Cancel ==> status == "cancelled"
  {
    if a == Confirm then "confirmed" else "cancelled"
  }

  /** Both statuses the page sends pass the server's status-update schema, and
      confirm and cancel send different ENUM values. */
  lemma ActionsSendValidStatuses()
    ensures Schemas.ValidStatusUpdate(Some(ActionStatus(Confirm)))
    ensures Schemas.ValidStatusUpdate(Some(ActionStatus(Cancel)))
    ensures ParseReservationStatus(ActionStatus(Confirm)) == Some(Confirmed)
    ensures ParseReservationStatus(ActionStatus(Cancel)) == Some(Cancelled)
  {
    Schemas.StatusUpdateMatchesEnum(Some("confirmed"));
    Schemas.StatusUpdateMatchesEnum(Some("cancelled"));
  }

  datatype Decision = Approve | Reject

  /** A request the page sends to the server. */
  datatype Request =
    | StatusUpdate(id: int, status: string)
    | ModificationDecision(id: int, decision: Decision)

  /** The page's state: the listed rows and the row whose modification dialog is
      open, if any.  Every server answer is a parameter: `serverOk` says whether
      the request succeeded and `fetched` is the list a reload returns. */
  class Page {
    var reservations: seq<Row>
    var dialog: Option<Row>

    constructor ()
      ensures reservations == [] && dialog == None
    {
      reservations := [];
      dialog := None;
    }

    /** The manage-modification button opens the dialog on its row. */
    method OpenModificationDialog(row: Row)
      modifies this`dialog
      ensures dialog == Some(row)
    {
      dialog := Some(row);
    }

    /** `handleStatusUpdate`: send the status; reload on success, alert otherwise. */
    method HandleStatusUpdate(id: int, status: string, serverOk: bool, fetched: seq<Row>)
      returns (request: Request, alert: Option<string>)
      modifies this`reservations
      ensures request == StatusUpdate(id, status)
      ensures serverOk ==> reservations == fetched && alert == None
      ensures !serverOk ==>
                reservations == old(reservations) && alert == Some("Erreur lors de la mise à jour du statut")
    {
      request := StatusUpdate(id, status);
      if serverOk {
        reservations := fetched;
        alert := None;
      } else {
        alert := Some("Erreur lors de la mise à jour du statut");
      }
    }

    /** `handleApproveModification` and `handleRejectModification`: with no open
        dialog nothing is sent and nothing changes; otherwise the decision on the
        dialog's row is sent, and on success the list is reloaded and the dialog
        closed, while a failure alerts and leaves the dialog open. */
    method HandleModificationDecision(decision: Decision, serverOk: bool, fetched: seq<Row>)
      returns (request: Option<Request>, alert: Option<string>)
      modifies this`reservations, this`dialog
      ensures old(dialog).None? ==> request == None && alert == None && unchanged(this)
      ensures old(dialog).Some? ==> request == Some(ModificationDecision(old(dialog).value.id, decision))
      ensures old(dialog).Some? && serverOk ==> dialog == None && reservations == fetched && alert == None
      ensures old(dialog).Some? && !serverOk ==>
                && dialog == old(dialog) && reservations == old(reservations)
                && alert == Some(DecisionAlert(decision))
    {
      if dialog.None? {
        return None, None;
      }
      request := Some(ModificationDecision(dialog.value.id, decision));
      if serverOk {
        reservations := fetched;
        dialog := None;
        alert := None;
      } else {
        alert := Some(DecisionAlert(decision));
      }
    }
  }

  function DecisionAlert(decision: Decision): string
  {
    match decision
    case Approve => "Erreur lors de l'approbation de la modification"
    case Reject => "Erreur lors du rejet de la modification"
  }
}
