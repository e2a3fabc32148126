/** The account part of `src/pages/SettingsPage.tsx`: which email, password
    and phone changes are sent, the phone verification gate, the handling
    of the server's reply, and the defaults used when personalisation loads.
    The authentication server's replies and `isValidPhoneNumber` are
    parameters. */
module SettingsPage {
  import opened Wrappers
  import Text

  const InvalidPhoneMessage := "Please enter a valid, new phone number to verify."
  const NoChangesMessage := "No Email/Password changes detected."
  const CaptchaServerMessage := "CAPTCHA verification failed on server. Please try again."
  const UpdateFailedMessage := "Failed to update account."
  const EmailUpdatedMessage := "Email updated. Check your new email for verification."
  const PhoneUpdatedMessage := "Phone number updated successfully."
  const PasswordUpdatedMessage := "Password updated successfully."
  const AccountUpdatedMessage := "Account details updated successfully."
  const AccountSavedMessage := "Account details saved."
  const RefreshFailedMessage := "Update process completed, but user data refresh failed."
  const CaptchaTokenMissing := "CAPTCHA verification failed. Please try again."
  const PhoneMissing := "Phone number details missing. Please close and try saving again."

  /** The signed-in user as the page reads it. */
  datatype User = User(email: Option<string>, phone: Option<string>, isAnonymous: bool)

  /** The `phone` key of an update: absent, `null`, or a number. */
  datatype PhoneField = NoPhone | PhoneNull | PhoneNumber(number: string)

  /** The argument of `supabase.auth.updateUser`; `None` is an absent key. */
  datatype Updates = Updates(email: Option<string>, password: Option<string>, phone: PhoneField)

  /** `Object.keys(updates).length`. */
  function KeyCount(u: Updates): nat {
    (if u.email.Some? then 1 else 0) + (if u.password.Some? then 1 else 0) + (if u.phone != NoPhone then 1 else 0)
  }

  /** The email and password changes the account form asks for: the email
      when it is non-empty and not the current one, the password when it is
      non-empty. */
  function AccountUpdates(newEmail: string, currentEmail: Option<string>, newPassword: string): (u: Updates)
    ensures u.phone == NoPhone
    ensures u.email.Some? <==> newEmail != "" && currentEmail != Some(newEmail)
    ensures u.email.Some? ==> u.email.value == newEmail
    ensures u.password.Some? <==> newPassword != ""
    ensures u.password.Some? ==> u.password.value == newPassword
  {
    Updates(if newEmail != "" && currentEmail != Some(newEmail) then Some(newEmail) else None,
            if newPassword != "" then Some(newPassword) else None,
            NoPhone)
  }

  /** The `updates` object that `handleUpdateAccount` builds by mutation. */
  method BuildAccountUpdates(newEmail: string, currentEmail: Option<string>, newPassword: string) returns (updates: Updates, emailChanged: bool)
    ensures updates == AccountUpdates(newEmail, currentEmail, newPassword)
    ensures emailChanged <==> updates.email.Some?
  {
    updates := Updates(None, None, NoPhone);
    emailChanged := false;
    if newEmail != "" && currentEmail != Some(newEmail) {
      updates := updates.(email := Some(newEmail));
      emailChanged := true;
    }
    if newPassword != "" {
      updates := updates.(password := Some(newPassword));
    }
  }

  /** The `isPhoneUpdate` test of `performUpdateUser`. */
  predicate IsPhoneUpdate(u: Updates) {
    u.phone != NoPhone && u.email.None? && u.password.None?
  }

  /** The email/password form never makes a phone update, and an update made
      only of a phone number always is one. */
  lemma PhoneUpdateKinds(u: Updates, number: string)
    ensures u.phone == NoPhone ==> !IsPhoneUpdate(u)
    ensures IsPhoneUpdate(Updates(None, None, PhoneNumber(number)))
    ensures IsPhoneUpdate(u) ==> KeyCount(u) == 1
  {
  }

  /** `finalUpdates`: an empty phone string is sent as `null`. */
  function FinalUpdates(u: Updates): (f: Updates)
    ensures f.email == u.email && f.password == u.password
    ensures f.phone == PhoneNull <==> u.phone == PhoneNull || u.phone == PhoneNumber("")
    ensures f.phone.PhoneNumber? ==> f.phone == u.phone && f.phone.number != ""
    ensures f.phone == NoPhone <==> u.phone == NoPhone
  {
    if u.phone == PhoneNumber("") then u.(phone := PhoneNull) else u
  }

  /** Normalising twice is normalising once, and it never changes whether
      the update is a phone update. */
  lemma FinalUpdatesStable(u: Updates)
    ensures FinalUpdates(FinalUpdates(u)) == FinalUpdates(u)
    ensures IsPhoneUpdate(FinalUpdates(u)) == IsPhoneUpdate(u)
    ensures KeyCount(FinalUpdates(u)) == KeyCount(u)
  {
  }

  /** The server message names a CAPTCHA problem, ignoring ASCII case. */
  predicate MentionsCaptcha(message: string) {
    Text.Includes(Text.ToLower(message), "captcha") || Text.Includes(Text.ToLower(message), "verification failed")
  }

  /** The message of the `Error` thrown for a server error, which the catch
      block reports unchanged since it is never empty. */
  function ThrownMessage(serverMessage: string): (m: string)
    ensures m != ""
    ensures serverMessage != "" && MentionsCaptcha(serverMessage) ==> m == CaptchaServerMessage
    ensures serverMessage != "" && !MentionsCaptcha(serverMessage) ==> m == serverMessage
    ensures serverMessage == "" ==> m == UpdateFailedMessage
  {
    if serverMessage != "" && MentionsCaptcha(serverMessage) then CaptchaServerMessage
    else if serverMessage != "" then serverMessage
    else UpdateFailedMessage
  }

  /** The classification ignores case: a message and its lower-case form are
      treated alike. */
  lemma ThrownMessageIgnoresCase(serverMessage: string)
    requires MentionsCaptcha(serverMessage)
    ensures ThrownMessage(Text.ToLower(serverMessage)) == CaptchaServerMessage
  {
    Text.ToLowerIdempotent(serverMessage);
  }

  /** A server message mentioning the CAPTCHA in capitals is replaced. */
  lemma CapitalisedCaptchaReplaced()
    ensures ThrownMessage("Invalid CAPTCHA token") == CaptchaServerMessage
  {
    var lowered := Text.ToLower("Invalid CAPTCHA token");
    assert lowered == "invalid captcha token";
    assert Text.OccursAt(lowered, "captcha", 8);
  }

  /** The number of kinds of change that were applied. */
  function KindCount(email: bool, phone: bool, password: bool): nat {
    (if email then 1 else 0) + (if phone then 1 else 0) + (if password then 1 else 0)
  }

  /** The success message, stated as the design intends it: one kind of
      change gets its own message, several get the general one. */
  function SuccessMessage(email: bool, phone: bool, password: bool): (m: string)
    ensures KindCount(email, phone, password) > 1 <==> m == AccountUpdatedMessage
    ensures KindCount(email, phone, password) == 0 <==> m == AccountSavedMessage
  {
    if KindCount(email, phone, password) > 1 then AccountUpdatedMessage
    else if email then EmailUpdatedMessage
    else if phone then PhoneUpdatedMessage
    else if password then PasswordUpdatedMessage
    else AccountSavedMessage
  }

  /** The three kinds of change `performUpdateUser` recognises in the final
      updates: an email key, a phone key, and a non-empty password. */
  function EmailUpdated(f: Updates): bool { f.email.Some? }
  function PhoneUpdated(f: Updates): bool { f.phone != NoPhone }
  function PasswordUpdated(f: Updates): bool { f.password.Some? && f.password.value != "" }

  /** The `successMsg` reassignments of `performUpdateUser`. */
  method ChooseSuccessMessage(f: Updates) returns (successMsg: string)
    ensures successMsg == SuccessMessage(EmailUpdated(f), PhoneUpdated(f), PasswordUpdated(f))
  {
    successMsg := "";
    var emailUpdated := false;
    var passwordUpdated := false;
    var phoneUpdated := false;
    if f.email.Some? {
      successMsg := EmailUpdatedMessage;
      emailUpdated := true;
    }
    if f.phone != NoPhone {
      successMsg := PhoneUpdatedMessage;
      phoneUpdated := true;
    }
    if f.password.Some? && f.password.value != "" {
      successMsg := PasswordUpdatedMessage;
      passwordUpdated := true;
    }
    if phoneUpdated && !emailUpdated && !passwordUpdated {
      successMsg := PhoneUpdatedMessage;
    } else if emailUpdated && !phoneUpdated && !passwordUpdated {
      successMsg := EmailUpdatedMessage;
    } else if passwordUpdated && !phoneUpdated && !emailUpdated {
      successMsg := PasswordUpdatedMessage;
    } else if phoneUpdated || emailUpdated || passwordUpdated {
      successMsg := AccountUpdatedMessage;
    } else if successMsg == "" {
      successMsg := AccountSavedMessage;
    }
  }

  /** The user record returned by a successful update. */
  datatype ReturnedUser = ReturnedUser(email: Option<string>, phone: Option<string>)

  /** The reply of `supabase.auth.updateUser`: an error with its message, or
      data whose `user` may be missing. */
  datatype UpdateReply = ServerError(message: string) | Updated(user: Option<ReturnedUser>)

  /** The account section's state. */
  datatype Form = Form(
    newEmail: string, newPassword: string, newPhoneNumber: string, isPhoneNumberValid: bool,
    accountError: Option<string>, accountSuccess: Option<string>, captchaError: Option<string>,
    loadingAccount: bool, isSavingPhone: bool, phoneBeingVerified: Option<string>, isCaptchaModalOpen: bool)

  /** `handlePhoneInputChange`. */
  function PhoneInputChange(f: Form, number: string, isValidPhoneNumber: string -> bool): (r: Form)
    ensures r.newPhoneNumber == number
    ensures r.isPhoneNumberValid <==> number != "" && isValidPhoneNumber(number)
    ensures r.accountError == if r.isPhoneNumberValid then None else f.accountError
    ensures r.(newPhoneNumber := f.newPhoneNumber, isPhoneNumberValid := f.isPhoneNumberValid, accountError := f.accountError) == f
  {
    if number != "" && isValidPhoneNumber(number) then
      f.(newPhoneNumber := number, isPhoneNumberValid := true, accountError := None)
    else
      f.(newPhoneNumber := number, isPhoneNumberValid := false)
  }

  /** The effect on `[user]`: the phone flag is valid exactly when the user
      has a non-empty phone that passes `isValidPhoneNumber`. */
  function PhoneValidOnLoad(userPhone: Option<string>, isValidPhoneNumber: string -> bool): bool {
    userPhone.Some? && userPhone.value != "" && isValidPhoneNumber(userPhone.value)
  }

  /** The guard of `handleVerifyAndSavePhone`: the number to verify, or the
      message shown instead. */
  function VerifyPhoneGate(isPhoneNumberValid: bool, newPhoneNumber: string, userPhone: Option<string>): (r: Result<string>)
    ensures r.Ok? <==> isPhoneNumberValid && newPhoneNumber != "" && userPhone != Some(newPhoneNumber)
    ensures r.Ok? ==> r.value == newPhoneNumber
    ensures r.Err? ==> r.error == InvalidPhoneMessage
  {
    if !isPhoneNumberValid || newPhoneNumber == "" || userPhone == Some(newPhoneNumber) then Err(InvalidPhoneMessage)
    else Ok(newPhoneNumber)
  }

  /** `handleVerifyAndSavePhone`: open the CAPTCHA for the number, or report. */
  function VerifyAndSavePhone(f: Form, userPhone: Option<string>): Form {
    match VerifyPhoneGate(f.isPhoneNumberValid, f.newPhoneNumber, userPhone)
    case Err(m) => f.(accountError := Some(m))
    case Ok(p) => f.(phoneBeingVerified := Some(p), isCaptchaModalOpen := true,
                     accountError := None, accountSuccess := None, captchaError := None)
  }

  /** After typing a number, verification starts exactly when the number is
      non-empty, valid, and not the user's current phone; a refused number
      leaves the dialog closed. */
  lemma TypedNumberGate(f: Form, number: string, isValidPhoneNumber: string -> bool, userPhone: Option<string>)
    ensures var r := VerifyAndSavePhone(PhoneInputChange(f, number, isValidPhoneNumber), userPhone);
      && (number != "" && isValidPhoneNumber(number) && userPhone != Some(number) ==>
            r.phoneBeingVerified == Some(number) && r.isCaptchaModalOpen && r.accountError == None)
      && (!(number != "" && isValidPhoneNumber(number) && userPhone != Some(number)) ==>
            && r.accountError == Some(InvalidPhoneMessage)
            && r.isCaptchaModalOpen == f.isCaptchaModalOpen && r.phoneBeingVerified == f.phoneBeingVerified)
  {
  }

  /** Right after the profile loads, the phone field holds the user's own
      number (or `''`), so verifying it is refused whatever the validity
      check says: only a changed number can be verified. */
  lemma LoadedPhoneNotReverified(f: Form, userPhone: Option<string>, isValidPhoneNumber: string -> bool)
    ensures var loaded := f.(newPhoneNumber := userPhone.GetOr(""), isPhoneNumberValid := PhoneValidOnLoad(userPhone, isValidPhoneNumber));
      VerifyAndSavePhone(loaded, userPhone) == loaded.(accountError := Some(InvalidPhoneMessage))
  {
  }

  /** The catch block of `performUpdateUser`. */
  function ReportFailure(f: Form, message: string, isPhone: bool): (r: Form)
    ensures r.accountError == Some(message) && r.accountSuccess == None
    ensures r.captchaError == if isPhone then Some(message) else f.captchaError
    ensures r.(accountError := f.accountError, accountSuccess := f.accountSuccess, captchaError := f.captchaError) == f
  {
    f.(accountError := Some(message), accountSuccess := None, captchaError := if isPhone then Some(message) else f.captchaError)
  }

  /** The success branch of `performUpdateUser` with a returned user: each
      changed field is refreshed from the returned user. */
  function ReportSuccess(f: Form, final: Updates, u: ReturnedUser, isValidPhoneNumber: string -> bool): (r: Form)
    ensures r.accountError == None
    ensures r.accountSuccess == Some(SuccessMessage(EmailUpdated(final), PhoneUpdated(final), PasswordUpdated(final)))
    ensures r.newEmail == if EmailUpdated(final) then u.email.GetOr("") else f.newEmail
    ensures r.newPassword == if PasswordUpdated(final) then "" else f.newPassword
    ensures r.newPhoneNumber == if PhoneUpdated(final) then u.phone.GetOr("") else f.newPhoneNumber
    ensures PhoneUpdated(final) ==> (r.isPhoneNumberValid <==> u.phone.Some? && u.phone.value != "" && isValidPhoneNumber(u.phone.value))
    ensures r.(newEmail := f.newEmail, newPassword := f.newPassword, newPhoneNumber := f.newPhoneNumber,
               isPhoneNumberValid := f.isPhoneNumberValid, accountError := f.accountError, accountSuccess := f.accountSuccess) == f
  {
    var email := if EmailUpdated(final) then u.email.GetOr("") else f.newEmail;
    var phone := if PhoneUpdated(final) then u.phone.GetOr("") else f.newPhoneNumber;
    var valid := if PhoneUpdated(final) then u.phone.Some? && u.phone.value != "" && isValidPhoneNumber(u.phone.value)
                 else f.isPhoneNumberValid;
    var password := if PasswordUpdated(final) then "" else f.newPassword;
    f.(newEmail := email, newPhoneNumber := phone, isPhoneNumberValid := valid, newPassword := password,
       accountError := None, accountSuccess := Some(SuccessMessage(EmailUpdated(final), PhoneUpdated(final), PasswordUpdated(final))))
  }

  /** `performUpdateUser`: the state after the server replies. The loader of
      the kind of update is cleared at the end whatever the outcome. */
  function PerformUpdate(f: Form, updates: Updates, reply: UpdateReply, isValidPhoneNumber: string -> bool): (r: Form)
    ensures IsPhoneUpdate(updates) ==> !r.isSavingPhone && r.loadingAccount == f.loadingAccount
    ensures !IsPhoneUpdate(updates) ==> !r.loadingAccount && r.isSavingPhone == f.isSavingPhone
    ensures r.accountError.Some? <==> reply.ServerError?
    ensures r.accountSuccess.Some? <==> reply.Updated?
    ensures r.phoneBeingVerified == f.phoneBeingVerified && r.isCaptchaModalOpen == f.isCaptchaModalOpen
  {
    var isPhone := IsPhoneUpdate(updates);
    var done := match reply
      case ServerError(m) => ReportFailure(f, ThrownMessage(m), isPhone)
      case Updated(None) => f.(accountError := None, accountSuccess := Some(RefreshFailedMessage))
      case Updated(Some(u)) => ReportSuccess(f, FinalUpdates(updates), u, isValidPhoneNumber);
    if isPhone then done.(isSavingPhone := false) else done.(loadingAccount := false)
  }

  /** A failed update reports the classified message, mirrors it on the
      CAPTCHA dialog for a phone update, and changes none of the inputs. */
  lemma FailedUpdateReports(f: Form, updates: Updates, message: string, isValidPhoneNumber: string -> bool)
    ensures var r := PerformUpdate(f, updates, ServerError(message), isValidPhoneNumber);
      && r.accountError == Some(ThrownMessage(message))
      && r.accountSuccess == None
      && r.captchaError == (if IsPhoneUpdate(updates) then r.accountError else f.captchaError)
      && r.newEmail == f.newEmail && r.newPassword == f.newPassword && r.newPhoneNumber == f.newPhoneNumber
  {
  }

  /** A successful update with a returned user shows the message for the kinds
      of change made, and clears the password field after a password change. */
  lemma SuccessfulUpdateReports(f: Form, updates: Updates, u: ReturnedUser, isValidPhoneNumber: string -> bool)
    ensures var r := PerformUpdate(f, updates, Updated(Some(u)), isValidPhoneNumber);
      var final := FinalUpdates(updates);
      && r.accountSuccess == Some(SuccessMessage(EmailUpdated(final), PhoneUpdated(final), PasswordUpdated(final)))
      && (PasswordUpdated(updates) ==> r.newPassword == "")
      && (updates.email.Some? ==> r.newEmail == u.email.GetOr(""))
      && (updates.email.None? ==> r.newEmail == f.newEmail)
  {
  }

  /** The email/password form's single change gets its own message. */
  lemma SingleChangeMessages(email: string, password: string)
    requires email != "" && password != ""
    ensures var e := FinalUpdates(Updates(Some(email), None, NoPhone));
      SuccessMessage(EmailUpdated(e), PhoneUpdated(e), PasswordUpdated(e)) == EmailUpdatedMessage
    ensures var p := FinalUpdates(Updates(None, Some(password), NoPhone));
      SuccessMessage(EmailUpdated(p), PhoneUpdated(p), PasswordUpdated(p)) == PasswordUpdatedMessage
    ensures var b := FinalUpdates(Updates(Some(email), Some(password), NoPhone));
      SuccessMessage(EmailUpdated(b), PhoneUpdated(b), PasswordUpdated(b)) == AccountUpdatedMessage
  {
  }

  /** `handleUpdateAccount`: nothing for a missing or anonymous user, a
      notice when nothing changed, otherwise `performUpdateUser`. */
  function UpdateAccount(f: Form, user: Option<User>, reply: UpdateReply, isValidPhoneNumber: string -> bool): Form {
    if user.None? || user.value.isAnonymous then f
    else
      var updates := AccountUpdates(f.newEmail, user.value.email, f.newPassword);
      if KeyCount(updates) == 0 then f.(loadingAccount := false, accountError := None, accountSuccess := Some(NoChangesMessage))
      else PerformUpdate(f.(loadingAccount := true, accountError := None, accountSuccess := None), updates, reply, isValidPhoneNumber)
  }

  /** A missing or anonymous user changes nothing; otherwise the account
      loader is off afterwards. With no change the notice is shown and the
      server's reply plays no part. */
  lemma UpdateAccountOutcome(f: Form, user: Option<User>, reply: UpdateReply, other: UpdateReply, isValidPhoneNumber: string -> bool)
    ensures user.None? || user.value.isAnonymous ==> UpdateAccount(f, user, reply, isValidPhoneNumber) == f
    ensures user.Some? && !user.value.isAnonymous ==> !UpdateAccount(f, user, reply, isValidPhoneNumber).loadingAccount
    ensures user.Some? && !user.value.isAnonymous && (f.newEmail == "" || user.value.email == Some(f.newEmail)) && f.newPassword == "" ==>
      && UpdateAccount(f, user, reply, isValidPhoneNumber).accountSuccess == Some(NoChangesMessage)
      && UpdateAccount(f, user, reply, isValidPhoneNumber) == UpdateAccount(f, user, other, isValidPhoneNumber)
  {
  }

  /** Changes from the account form are never phone updates, so they use the
      account loader and leave the CAPTCHA dialog's error alone. */
  lemma AccountFormNeverPhoneUpdate(newEmail: string, currentEmail: Option<string>, newPassword: string)
    ensures !IsPhoneUpdate(AccountUpdates(newEmail, currentEmail, newPassword))
    ensures KeyCount(AccountUpdates(newEmail, currentEmail, newPassword)) == 0 <==>
      (newEmail == "" || currentEmail == Some(newEmail)) && newPassword == ""
  {
  }

  /** `handleCaptchaVerified`: without a token or a number the dialog reports
      the problem; otherwise the phone update is sent and the dialog closes. */
  function CaptchaVerified(f: Form, token: Option<string>, reply: UpdateReply, isValidPhoneNumber: string -> bool): Form {
    if token.None? || token.value == "" then f.(captchaError := Some(CaptchaTokenMissing))
    else if f.phoneBeingVerified.None? || f.phoneBeingVerified.value == "" then
      f.(captchaError := Some(PhoneMissing), isCaptchaModalOpen := false, phoneBeingVerified := None)
    else
      var updates := Updates(None, None, PhoneNumber(f.phoneBeingVerified.value));
      PerformUpdate(f.(captchaError := None, isSavingPhone := true), updates, reply, isValidPhoneNumber)
        .(isSavingPhone := false, isCaptchaModalOpen := false, phoneBeingVerified := None)
  }

  /** A verified number is sent as a phone update: the dialog closes, the
      saving flag is off, and a failure shows the same message in the dialog
      and on the page. */
  lemma CaptchaVerifiedOutcome(f: Form, token: string, message: string, isValidPhoneNumber: string -> bool)
    requires token != "" && f.phoneBeingVerified.Some? && f.phoneBeingVerified.value != ""
    ensures var r := CaptchaVerified(f, Some(token), ServerError(message), isValidPhoneNumber);
      && !r.isCaptchaModalOpen && !r.isSavingPhone && r.phoneBeingVerified == None
      && r.accountError == Some(ThrownMessage(message)) && r.captchaError == r.accountError
      && r.loadingAccount == f.loadingAccount
  {
    PhoneUpdateKinds(Updates(None, None, NoPhone), f.phoneBeingVerified.value);
  }

  /** The personalisation fields of the settings page. */
  datatype Personalisation = Personalisation(nickname: string, userRole: string, botTraits: string, otherInfo: string, enableMemory: bool)

  /** A profile row, or the record stored locally for anonymous users; any
      column may be missing. */
  datatype ProfileRow = ProfileRow(nickname: Option<string>, userRole: Option<string>, botTraits: Option<string>,
                                   additionalInfo: Option<string>, enableMemory: Option<bool>)

  /** The values taken from a loaded row: missing text becomes `''` and a
      missing memory flag becomes `true`. */
  function FromRow(row: ProfileRow): (p: Personalisation)
    ensures row.nickname.Some? ==> p.nickname == row.nickname.value
    ensures row.nickname.None? ==> p.nickname == ""
    ensures p.userRole == row.userRole.GetOr("") && p.botTraits == row.botTraits.GetOr("")
    ensures p.otherInfo == row.additionalInfo.GetOr("")
    ensures p.enableMemory <==> row.enableMemory != Some(false)
  {
    Personalisation(row.nickname.GetOr(""), row.userRole.GetOr(""), row.botTraits.GetOr(""),
                    row.additionalInfo.GetOr(""), row.enableMemory.GetOr(true))
  }

  /** The reply of the profile query: an error code and the row, if any. */
  datatype ProfileReply = ProfileReply(errorCode: Option<string>, data: Option<ProfileRow>)

  /** Code the server uses when there is no profile row. */
  const NoRowsCode := "PGRST116"

  /** The effect that loads personalisation: from the profile table for a
      signed-in user, otherwise from local storage, falling back to the memory
      setting. A failed query keeps the current values. */
  function LoadPersonalisation(current: Personalisation, signedIn: bool, reply: ProfileReply,
                               local: Option<ProfileRow>, memoryEnabled: bool): (p: Personalisation)
    ensures signedIn && reply.errorCode.Some? && reply.errorCode.value != NoRowsCode ==> p == current
    ensures signedIn && reply.data.None? ==> p == current
    ensures !signedIn && local.None? ==> p == current.(enableMemory := memoryEnabled)
    ensures !signedIn && local.Some? ==> p == FromRow(local.value)
  {
    if signedIn then
      if reply.errorCode.Some? && reply.errorCode.value != NoRowsCode then current
      else if reply.data.Some? then FromRow(reply.data.value)
      else current
    else if local.Some? then FromRow(local.value)
    else current.(enableMemory := memoryEnabled)
  }

  /** A row with no columns loads the documented defaults. */
  lemma EmptyRowDefaults()
    ensures FromRow(ProfileRow(None, None, None, None, None)) == Personalisation("", "", "", "", true)
  {
  }

  /** The account section of the component. */
  class SettingsForm {
    var newEmail: string
    var newPassword: string
    var newPhoneNumber: string
    var isPhoneNumberValid: bool
    var accountError: Option<string>
    var accountSuccess: Option<string>
    var captchaError: Option<string>
    var loadingAccount: bool
    var isSavingPhone: bool
    var phoneBeingVerified: Option<string>
    var isCaptchaModalOpen: bool

    function State(): Form
      reads this
    {
      Form(newEmail, newPassword, newPhoneNumber, isPhoneNumberValid, accountError, accountSuccess,
           captchaError, loadingAccount, isSavingPhone, phoneBeingVerified, isCaptchaModalOpen)
    }

    /** The initial state, with the signed-in user's email, if any. */
    constructor(userEmail: Option<string>)
      ensures State() == Form(userEmail.GetOr(""), "", "", false, None, None, None, false, false, None, false)
    {
      newEmail, newPassword, newPhoneNumber, isPhoneNumberValid := userEmail.GetOr(""), "", "", false;
      accountError, accountSuccess, captchaError := None, None, None;
      loadingAccount, isSavingPhone, phoneBeingVerified, isCaptchaModalOpen := false, false, None, false;
    }

    /** `handlePhoneInputChange`. */
    method HandlePhoneInputChange(number: string, isValidPhoneNumber: string -> bool)
      modifies this
      ensures State() == PhoneInputChange(old(State()), number, isValidPhoneNumber)
    {
      newPhoneNumber := number;
      if number != "" && isValidPhoneNumber(number) {
        isPhoneNumberValid := true;
        accountError := None;
      } else {
        isPhoneNumberValid := false;
      }
    }

    /** `handleVerifyAndSavePhone`. */
    method HandleVerifyAndSavePhone(userPhone: Option<string>)
      modifies this
      ensures State() == VerifyAndSavePhone(old(State()), userPhone)
    {
      if !isPhoneNumberValid || newPhoneNumber == "" || userPhone == Some(newPhoneNumber) {
        accountError := Some(InvalidPhoneMessage);
        return;
      }
      phoneBeingVerified := Some(newPhoneNumber);
      isCaptchaModalOpen := true;
      accountError := None;
      accountSuccess := None;
      captchaError := None;
    }

    /** The success branch of `performUpdateUser` for a returned user. */
    method RefreshFromUser(finalUpdates: Updates, u: ReturnedUser, isValidPhoneNumber: string -> bool)
      requires accountError == None
      modifies this
      ensures State() == ReportSuccess(old(State()), finalUpdates, u, isValidPhoneNumber)
    {
      if finalUpdates.email.Some? {
        newEmail := u.email.GetOr("");
      }
      if finalUpdates.phone != NoPhone {
        newPhoneNumber := u.phone.GetOr("");
        isPhoneNumberValid := u.phone.Some? && u.phone.value != "" && isValidPhoneNumber(u.phone.value);
      }
      if finalUpdates.password.Some? && finalUpdates.password.value != "" {
        newPassword := "";
      }
      var successMsg := ChooseSuccessMessage(finalUpdates);
      accountSuccess := Some(successMsg);
    }

    /** `performUpdateUser`, with the server's reply as a parameter. */
    method PerformUpdateUser(updates: Updates, reply: UpdateReply, isValidPhoneNumber: string -> bool)
      modifies this
      ensures State() == PerformUpdate(old(State()), updates, reply, isValidPhoneNumber)
    {
      var isPhoneUpdate := IsPhoneUpdate(updates);
      if isPhoneUpdate { isSavingPhone := true; } else { loadingAccount := true; }
      accountError := None;
      accountSuccess := None;
      var finalUpdates := FinalUpdates(updates);
      match reply {
        case ServerError(m) =>
          var errorMsg := ThrownMessage(m);
          accountError := Some(errorMsg);
          if isPhoneUpdate {
            captchaError := Some(errorMsg);
          }
        case Updated(None) =>
          accountSuccess := Some(RefreshFailedMessage);
        case Updated(Some(u)) =>
          RefreshFromUser(finalUpdates, u, isValidPhoneNumber);
      }
      if isPhoneUpdate { isSavingPhone := false; } else { loadingAccount := false; }
    }

    /** `handleUpdateAccount`, with the server's reply as a parameter. */
    method HandleUpdateAccount(user: Option<User>, reply: UpdateReply, isValidPhoneNumber: string -> bool)
      modifies this
      ensures State() == UpdateAccount(old(State()), user, reply, isValidPhoneNumber)
    {
      if user.None? || user.value.isAnonymous {
        return;
      }
      loadingAccount := true;
      accountError := None;
      accountSuccess := None;
      var updates, emailChanged := BuildAccountUpdates(newEmail, user.value.email, newPassword);
      if KeyCount(updates) == 0 {
        accountSuccess := Some(NoChangesMessage);
        loadingAccount := false;
        return;
      }
      PerformUpdateUser(updates, reply, isValidPhoneNumber);
    }

    /** `handleCaptchaVerified`, with the server's reply as a parameter. */
    method HandleCaptchaVerified(token: Option<string>, reply: UpdateReply, isValidPhoneNumber: string -> bool)
      modifies this
      ensures State() == CaptchaVerified(old(State()), token, reply, isValidPhoneNumber)
    {
      if token.None? || token.value == "" {
        captchaError := Some(CaptchaTokenMissing);
        return;
      }
      captchaError := None;
      if phoneBeingVerified.None? || phoneBeingVerified.value == "" {
        captchaError := Some(PhoneMissing);
        isCaptchaModalOpen := false;
        phoneBeingVerified := None;
        return;
      }
      var updates := Updates(None, None, PhoneNumber(phoneBeingVerified.value));
      isSavingPhone := true;
      PerformUpdateUser(updates, reply, isValidPhoneNumber);
      isSavingPhone := false;
      isCaptchaModalOpen := false;
      phoneBeingVerified := None;
    }
  }
}
