/**
 * The admin dialog that invites a user: a form over a `UserInvitation`, its own
 * validation (checked before the invite use case runs its own), a random-password
 * button, and the submit flow with its toasts and delayed reset.
 */
module InviteUserDialog {
  import opened Common
  import opened UserEntity
  import opened AuthEntities
  import UserUseCases
  import AuthContext

  /** The empty form the dialog opens with and resets to. */
  const EmptyForm := UserInvitation("", "", "", "", "", Some(""), Some([]), Some([]))

  /** The inputs of the form, by their `name` attribute. */
  datatype FormField = UsernameField | EmailField | FirstNameField | LastNameField | PasswordField

  /** `{ ...prev, [name]: value }`. */
  function SetField(form: UserInvitation, field: FormField, value: string): (r: UserInvitation)
    ensures r.tenantId == form.tenantId && r.roles == form.roles && r.groups == form.groups
    ensures r.username == (if field == UsernameField then value else form.username)
    ensures r.email == (if field == EmailField then value else form.email)
    ensures r.firstName == (if field == FirstNameField then value else form.firstName)
    ensures r.lastName == (if field == LastNameField then value else form.lastName)
    ensures r.password == (if field == PasswordField then value else form.password)
  {
    match field
    case UsernameField => form.(username := value)
    case EmailField => form.(email := value)
    case FirstNameField => form.(firstName := value)
    case LastNameField => form.(lastName := value)
    case PasswordField => form.(password := value)
  }

  // ---------------------------------------------------------------------------
  // Random password
  // ---------------------------------------------------------------------------

  /** The 70 characters a generated password is drawn from. */
  const PasswordAlphabet := "ABCDEFGHIJKLMNOPQRSTUVWXYZabcdefghijklmnopqrstuvwxyz0123456789!@#$%^&*"

  /** The number of characters a generated password has. */
  const GeneratedLength := 12

  /**
   * The loop of `generateRandomPassword`. `draws[i]` is `Math.floor(Math.random() * 70)`
   * at step `i`, so it is an index into the alphabet.
   */
  method BuildRandomPassword(draws: seq<int>) returns (password: string)
    requires |draws| == GeneratedLength
    requires forall i :: 0 <= i < |draws| ==> 0 <= draws[i] < |PasswordAlphabet|
    ensures |password| == GeneratedLength
    ensures forall i :: 0 <= i < |password| ==> password[i] == PasswordAlphabet[draws[i]]
    ensures forall i :: 0 <= i < |password| ==> password[i] in PasswordAlphabet
  {
    password := "";
    for i := 0 to GeneratedLength
      invariant |password| == i
      invariant forall j :: 0 <= j < i ==> password[j] == PasswordAlphabet[draws[j]]
    {
      password := password + [PasswordAlphabet[draws[i]]];
    }
  }

  /** Every generated password passes the dialog's and the use case's length check. */
  lemma GeneratedPasswordIsLongEnough(password: string)
    requires |password| == GeneratedLength
    ensures JsLength(password) >= 8
  {
    JsLengthBounds(password);
  }

  // ---------------------------------------------------------------------------
  // Validation
  // ---------------------------------------------------------------------------

  /** The dialog's validation messages. */
  const FirstNameRequired := "First name is required"
  const LastNameRequired := "Last name is required"
  const UsernameRequired := "Username is required"
  const EmailRequired := "Email is required"
  const PasswordTooShort := "Password must be at least 8 characters long"
  const InvalidEmail := "Please enter a valid email address"
  const UsernameLength := "Username must be between 3 and 20 characters"

  /** `validateForm`: the message of the first failing check, in the dialog's order. */
  function ValidateForm(form: UserInvitation): (err: Option<string>)
    ensures err.None? <==>
      !IsBlank(form.firstName) && !IsBlank(form.lastName) && !IsBlank(form.username) && !IsBlank(form.email) &&
      JsLength(form.password) >= 8 && MatchesEmailPattern(form.email) && 3 <= JsLength(form.username) <= 20
    ensures err == Some(FirstNameRequired) <==> IsBlank(form.firstName)
    ensures err == Some(LastNameRequired) <==> !IsBlank(form.firstName) && IsBlank(form.lastName)
    ensures err == Some(UsernameRequired) <==>
      !IsBlank(form.firstName) && !IsBlank(form.lastName) && IsBlank(form.username)
    ensures err == Some(EmailRequired) <==>
      !IsBlank(form.firstName) && !IsBlank(form.lastName) && !IsBlank(form.username) && IsBlank(form.email)
    ensures err == Some(PasswordTooShort) <==>
      !IsBlank(form.firstName) && !IsBlank(form.lastName) && !IsBlank(form.username) && !IsBlank(form.email) &&
      JsLength(form.password) < 8
    ensures err == Some(InvalidEmail) <==>
      !IsBlank(form.firstName) && !IsBlank(form.lastName) && !IsBlank(form.username) && !IsBlank(form.email) &&
      JsLength(form.password) >= 8 && !MatchesEmailPattern(form.email)
    ensures err == Some(UsernameLength) <==>
      !IsBlank(form.firstName) && !IsBlank(form.lastName) && !IsBlank(form.username) && !IsBlank(form.email) &&
      JsLength(form.password) >= 8 && MatchesEmailPattern(form.email) && !(3 <= JsLength(form.username) <= 20)
  {
    TrimEmptyIffBlank(form.firstName);
    TrimEmptyIffBlank(form.lastName);
    TrimEmptyIffBlank(form.username);
    TrimEmptyIffBlank(form.email);
    EmailRegexTestCorrect(form.email);
    if Trim(form.firstName) == "" then Some(FirstNameRequired)
    else if Trim(form.lastName) == "" then Some(LastNameRequired)
    else if Trim(form.username) == "" then Some(UsernameRequired)
    else if Trim(form.email) == "" then Some(EmailRequired)
    else if form.password == "" || JsLength(form.password) < 8 then Some(PasswordTooShort)
    else if !EmailRegexTest(form.email) then Some(InvalidEmail)
    else if JsLength(form.username) < 3 || JsLength(form.username) > 20 then Some(UsernameLength)
    else None
  }

  /**
   * The dialog and the invite use case accept exactly the same invitations (they differ
   * only in the order of their checks and in the wording of the email message), so an
   * invitation submitted from the dialog is never refused by the use case's validation.
   */
  lemma DialogAndUseCaseAgree(form: UserInvitation)
    ensures ValidateForm(form).None? <==> UserUseCases.ValidateInvitation(form).None?
  {
  }

  // ---------------------------------------------------------------------------
  // The dialog's state
  // ---------------------------------------------------------------------------

  /** A toast: title, description, and whether it is the destructive variant. */
  datatype Toast = Toast(title: string, description: string, destructive: bool)

  /** The success toast's title as the source file spells it: a party-popper emoji whose UTF-8 bytes were read as Windows-1252. */
  const SuccessTitle := "User Invited Successfully! \U{00F0}\U{0178}\U{017D}\U{2030}"

  const InvitedSuffix := " has been invited to join the team."

  /** The description of the success toast: the invitee's first and last name, then the fixed sentence. */
  function InvitedDescription(form: UserInvitation): (d: string)
    ensures |d| == |form.firstName| + 1 + |form.lastName| + |InvitedSuffix|
    ensures d[..|form.firstName|] == form.firstName && d[|form.firstName|] == ' '
    ensures d[|form.firstName| + 1..|form.firstName| + 1 + |form.lastName|] == form.lastName
    ensures d[|d| - |InvitedSuffix|..] == InvitedSuffix
  {
    form.firstName + " " + form.lastName + InvitedSuffix
  }

  /** The message a failed invitation shows: the use case's prefix and the repository's message. */
  function FailureMessage(error: Thrown): (m: string)
    ensures PlainError(m) == UserUseCases.Wrap("Failed to invite user: ", error)
  {
    "Failed to invite user: " + error.MessageOrUnknown()
  }

  /**
   * A form the dialog accepts settles in the invite use case as the repository did, with
   * a rejection re-thrown under the use case's prefix.
   */
  lemma ValidFormSettlement(form: UserInvitation, repositoryOutcome: Result<User, Thrown>)
    requires ValidateForm(form).None?
    ensures UserUseCases.InviteUser(form, None, repositoryOutcome).calls == [UserUseCases.InviteUserCall(form, None)]
    ensures UserUseCases.InviteUser(form, None, repositoryOutcome).result ==
      if repositoryOutcome.Ok? then repositoryOutcome else Err(PlainError(FailureMessage(repositoryOutcome.error)))
  {
    DialogAndUseCaseAgree(form);
  }

  class InviteUserDialog {
    var isOpen: bool
    var form: UserInvitation
    var isLoading: bool
    var error: Option<string>
    var success: bool
    var toasts: seq<Toast>
    /** The invitations handed to the invite use case, oldest first. */
    var submitted: seq<UserInvitation>
    /** The users handed to `onInviteSuccess`, oldest first. */
    var invited: seq<User>
    /** A 2-second reset-and-close timer has been started and has not fired. */
    var resetPending: bool

    constructor ()
      ensures !isOpen && form == EmptyForm && !isLoading && error == None && !success
      ensures toasts == [] && submitted == [] && invited == [] && !resetPending
    {
      isOpen := false;
      form := EmptyForm;
      isLoading := false;
      error := None;
      success := false;
      toasts := [];
      submitted := [];
      invited := [];
      resetPending := false;
    }

    /** `handleInputChange`: one field takes the typed value and a shown error is cleared. */
    method HandleInputChange(field: FormField, value: string)
      modifies this`form, this`error
      ensures form == SetField(old(form), field, value)
      ensures !Truthy(error)
      ensures !Truthy(old(error)) ==> error == old(error)
    {
      form := SetField(form, field, value);
      if Truthy(error) {
        error := None;
      }
    }

    /** `generateRandomPassword`: the password field takes twelve drawn characters; the error stays. */
    method GenerateRandomPassword(draws: seq<int>)
      requires |draws| == GeneratedLength
      requires forall i :: 0 <= i < |draws| ==> 0 <= draws[i] < |PasswordAlphabet|
      modifies this`form
      ensures form == old(form).(password := form.password)
      ensures |form.password| == GeneratedLength && JsLength(form.password) >= 8
      ensures forall i :: 0 <= i < GeneratedLength ==> form.password[i] == PasswordAlphabet[draws[i]]
    {
      var password := BuildRandomPassword(draws);
      GeneratedPasswordIsLongEnough(password);
      form := form.(password := password);
    }

    /**
     * `handleSubmit`. `repositoryOutcome` is how the repository's `inviteUser` settles
     * if it is called. An invalid form only shows the message; a valid one is handed to
     * the invite use case and its settlement is shown.
     */
    method HandleSubmit(repositoryOutcome: Result<User, Thrown>, hasCallback: bool)
      modifies this
      ensures form == old(form) && isOpen == old(isOpen)
      ensures ValidateForm(old(form)).Some? ==>
        error == ValidateForm(old(form)) && isLoading == old(isLoading) && submitted == old(submitted) &&
        toasts == old(toasts) && success == old(success) && invited == old(invited) && resetPending == old(resetPending)
      ensures ValidateForm(old(form)).None? ==> submitted == old(submitted) + [old(form)] && !isLoading
      ensures ValidateForm(old(form)).None? && repositoryOutcome.Ok? ==>
        success && error == None && resetPending &&
        toasts == old(toasts) + [Toast(SuccessTitle, InvitedDescription(old(form)), false)] &&
        invited == old(invited) + (if hasCallback then [repositoryOutcome.value] else [])
      ensures ValidateForm(old(form)).None? && repositoryOutcome.Err? ==>
        error == Some(FailureMessage(repositoryOutcome.error)) && resetPending == old(resetPending) &&
        success == old(success) && invited == old(invited) &&
        toasts == old(toasts) + [Toast("Invitation Failed", FailureMessage(repositoryOutcome.error), true)]
    {
      var invalid := ValidateForm(form);
      if invalid.Some? {
        error := invalid;
      } else {
        ValidFormSettlement(form, repositoryOutcome);
        ShowSettlement(UserUseCases.InviteUser(form, None, repositoryOutcome).result, hasCallback);
      }
    }

    /**
     * The rest of `handleSubmit` once the form is valid, over the use case's settlement:
     * success toasts and starts the reset timer; failure shows and toasts the message.
     */
    method ShowSettlement(settled: Result<User, Thrown>, hasCallback: bool)
      modifies this
      ensures form == old(form) && isOpen == old(isOpen) && !isLoading
      ensures submitted == old(submitted) + [old(form)]
      ensures settled.Ok? ==>
        success && error == None && resetPending &&
        toasts == old(toasts) + [Toast(SuccessTitle, InvitedDescription(old(form)), false)] &&
        invited == old(invited) + (if hasCallback then [settled.value] else [])
      ensures settled.Err? ==>
        var message := AuthContext.ErrorMessage(settled.error, "Failed to invite user");
        error == Some(message) && success == old(success) && invited == old(invited) &&
        resetPending == old(resetPending) && toasts == old(toasts) + [Toast("Invitation Failed", message, true)]
    {
      isLoading := true;
      error := None;
      submitted := submitted + [form];
      if settled.Ok? {
        success := true;
        toasts := toasts + [Toast(SuccessTitle, InvitedDescription(form), false)];
        if hasCallback {
          invited := invited + [settled.value];
        }
        resetPending := true;
      } else {
        var message := AuthContext.ErrorMessage(settled.error, "Failed to invite user");
        error := Some(message);
        toasts := toasts + [Toast("Invitation Failed", message, true)];
      }
      isLoading := false;
    }

    /** `resetForm`: the empty form, no error, no success. */
    method ResetForm()
      modifies this`form, this`error, this`success
      ensures form == EmptyForm && error == None && !success
    {
      form := EmptyForm;
      error := None;
      success := false;
    }

    /** The 2-second timer started by a successful submit fires: reset and close. */
    method ResetTimerFires()
      requires resetPending
      modifies this
      ensures form == EmptyForm && error == None && !success && !isOpen && !resetPending
      ensures toasts == old(toasts) && submitted == old(submitted) && invited == old(invited)
    {
      ResetForm();
      isOpen := false;
      resetPending := false;
    }

    /**
     * `onOpenChange={setIsOpen}`: the dialog's trigger opens it, and the dialog's own
     * close gestures (overlay click, Escape) close it without resetting the form.
     */
    method SetOpen(open: bool)
      modifies this`isOpen
      ensures isOpen == open
    {
      isOpen := open;
    }

    /** `handleClose`: reset and close. A pending reset timer is not cancelled. */
    method HandleClose()
      modifies this
      ensures form == EmptyForm && error == None && !success && !isOpen
      ensures resetPending == old(resetPending) && toasts == old(toasts) && submitted == old(submitted)
    {
      ResetForm();
      isOpen := false;
    }
  }
}
