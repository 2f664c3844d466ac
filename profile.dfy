/** The password dialog of the profile page: the two checks made before any
    request, the request it sends to the profile update, and what the dialog
    holds afterwards.  The server's answer is a parameter: `serverOk` says
    whether the update succeeded and `serverMessage` is the message of a
    refusal. */
module Profile {
  import opened Common
  import opened Models
  import Users

  const MISMATCH: string := "Les nouveaux mots de passe ne correspondent pas"
  const TOO_SHORT: string := "Le mot de passe doit contenir au moins 8 caractères"
  const CHANGED: string := "Mot de passe modifié avec succès"
  const CHANGE_FAILED: string := "Erreur lors du changement de mot de passe"

  datatype Notice = Success(text: string) | Error(text: string)

  /** The profile-update body the dialog sends: the current password as
      `password`, the new one as `newPassword`, and no profile field. */
  function PasswordRequest(currentPassword: string, newPassword: string): (p: Users.ProfilePatch)
    ensures p.password == Some(currentPassword) && p.newPassword == Some(newPassword)
    ensures p.firstName.None? && p.lastName.None? && p.phoneNumber.None? && p.birthDate.None?
  {
    Users.ProfilePatch(None, None, None, None, Some(currentPassword), Some(newPassword))
  }

  /** The checks in order: a mismatch is reported first, then a new password
      shorter than 8 characters; None lets the request go. */
  function PasswordCheck(newPassword: string, confirmPassword: string): (error: Option<string>)
    ensures newPassword != confirmPassword ==> error == Some(MISMATCH)
    ensures newPassword == confirmPassword && |newPassword| < 8 ==> error == Some(TOO_SHORT)
    ensures error == None <==> newPassword == confirmPassword && |newPassword| >= 8
  {
    if newPassword != confirmPassword then Some(MISMATCH)
    else if |newPassword| < 8 then Some(TOO_SHORT)
    else None
  }

  /** What a request that passed the checks meets on the server: with the
      current-password field left empty the server refuses it; with one that
      matches the stored hash the password becomes the new one and the profile
      fields stay as they were. */
  lemma CheckedRequestOnServer(u: User, currentPassword: string, newPassword: string, confirmPassword: string,
                               matches: (string, string) -> bool, hash: string -> string)
    requires PasswordCheck(newPassword, confirmPassword) == None
    ensures currentPassword == "" ==>
              Users.ApplyProfile(u, PasswordRequest(currentPassword, newPassword), matches, hash)
                == BadRequest("Current password is required to set a new password")
    ensures currentPassword != "" && matches(currentPassword, u.password) ==>
              Users.ApplyProfile(u, PasswordRequest(currentPassword, newPassword), matches, hash)
                == Ok(u.(password := hash(newPassword)))
  {
    assert Truthy(Some(newPassword));
  }

  class PasswordDialog {
    var currentPassword: string
    var newPassword: string
    var confirmPassword: string
    var open: bool

    constructor ()
      ensures currentPassword == "" && newPassword == "" && confirmPassword == "" && !open
    {
      currentPassword := "";
      newPassword := "";
      confirmPassword := "";
      open := false;
    }

    /** `handlePasswordSubmit`.  A failed check notifies its error, sends nothing
        and changes nothing.  Otherwise the request is sent; on success the
        dialog closes and its three fields are emptied, and on a refusal the
        server's message (or a default) is shown and the dialog is left as it
        was. */
    method HandlePasswordSubmit(serverOk: bool, serverMessage: Option<string>)
      returns (request: Option<Users.ProfilePatch>, notice: Notice)
      modifies this
      ensures PasswordCheck(old(newPassword), old(confirmPassword)).Some? ==>
                && request == None && unchanged(this)
                && notice == Error(PasswordCheck(old(newPassword), old(confirmPassword)).value)
      ensures PasswordCheck(old(newPassword), old(confirmPassword)).None? ==>
                request == Some(PasswordRequest(old(currentPassword), old(newPassword)))
      ensures PasswordCheck(old(newPassword), old(confirmPassword)).None? && serverOk ==>
                && currentPassword == "" && newPassword == "" && confirmPassword == "" && !open
                && notice == Success(CHANGED)
      ensures PasswordCheck(old(newPassword), old(confirmPassword)).None? && !serverOk ==>
                && unchanged(this) && notice == Error(OrString(serverMessage, CHANGE_FAILED))
    {
      var error := PasswordCheck(newPassword, confirmPassword);
      if error.Some? {
        return None, Error(error.value);
      }
      request := Some(PasswordRequest(currentPassword, newPassword));
      if serverOk {
        open := false;
        currentPassword, newPassword, confirmPassword := "", "", "";
        notice := Success(CHANGED);
      } else {
        notice := Error(OrString(serverMessage, CHANGE_FAILED));
      }
    }
  }
}
