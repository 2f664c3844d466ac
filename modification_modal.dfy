/** The dialog in which a client asks for new dates on a reservation.  The two
    pickers hold a chosen day or nothing; the reason is free text. */
module ModificationModal {
  import opened Common

  /** The dialog's state: the two picked days (as day numbers) and the reason. */
  datatype ModalState = ModalState(startDate: Option<int>, endDate: Option<int>, reason: string)

  /** The request body the dialog hands to its `onSubmit` callback. */
  datatype ModificationPayload = ModificationPayload(startDate: int, endDate: int, reason: string)

  datatype Effect =
    | Submitted(reservationId: int, payload: ModificationPayload)
    | Closed

  /** The condition under which the send button is disabled. */
  predicate SubmitDisabled(s: ModalState)
  {
    s.startDate.None? || s.endDate.None? || s.reason == ""
  }

  /** `handleSubmit`: return early unless both days and a reason are given;
      otherwise call `onSubmit` with the reservation's id and the three values,
      then `onClose`. */
  function HandleSubmit(s: ModalState, reservationId: int): (effects: seq<Effect>)
    ensures |effects| == 0 || |effects| == 2
    ensures effects != [] <==> s.startDate.Some? && s.endDate.Some? && s.reason != ""
    ensures effects != [] ==>
              effects == [Submitted(reservationId, ModificationPayload(s.startDate.value, s.endDate.value, s.reason)), Closed]
  {
    if s.startDate.None? || s.endDate.None? || s.reason == "" then []
    else [Submitted(reservationId, ModificationPayload(s.startDate.value, s.endDate.value, s.reason)), Closed]
  }

  /** The button is disabled exactly when pressing it would do nothing, and
      `onClose` follows only a call of `onSubmit`. */
  lemma DisabledMatchesGuard(s: ModalState, reservationId: int)
    ensures SubmitDisabled(s) <==> HandleSubmit(s, reservationId) == []
    ensures Closed in HandleSubmit(s, reservationId) ==> HandleSubmit(s, reservationId)[0].Submitted?
  {
  }

  /** The days the pickers offer: nothing before today, and for the end picker
      nothing before the chosen start day. */
  predicate StartSelectable(day: int, today: int)
  {
    day >= today
  }

  predicate EndSelectable(day: int, today: int, startDate: Option<int>)
  {
    day >= today && (startDate.Some? ==> day >= startDate.value)
  }

  /** The pickers allow an end day equal to the start day, and such a zero-length
      stay passes the guard and is sent (booking itself requires a later end). */
  lemma PickersAllowZeroLengthStay(today: int, day: int)
    requires day >= today
    ensures StartSelectable(day, today) && EndSelectable(day, today, Some(day))
    ensures HandleSubmit(ModalState(Some(day), Some(day), "x"), 0) != []
  {
  }
}
