/**
 * The self-service signup form: its fields, its validation, and the submit that posts
 * the registration through the gateway and shows the gateway's error message.
 */
module SignupForm {
  import opened Common
  import opened UserEntity
  import opened ApiGateway
  import InviteUserDialog

  /** The empty form. */
  const EmptyForm := UserRegistrationData("", "", "", "", "", "")

  /** The inputs of the form, by their `name` attribute. */
  datatype SignupField = UsernameField | EmailField | FirstNameField | LastNameField | PasswordField | OrganizationField

  /** `{ ...prev, [name]: value }`. */
  function SetField(form: UserRegistrationData, field: SignupField, value: string): (r: UserRegistrationData)
    ensures r.username == (if field == UsernameField then value else form.username)
    ensures r.email == (if field == EmailField then value else form.email)
    ensures r.firstName == (if field == FirstNameField then value else form.firstName)
    ensures r.lastName == (if field == LastNameField then value else form.lastName)
    ensures r.password == (if field == PasswordField then value else form.password)
    ensures r.organization == (if field == OrganizationField then value else form.organization)
  {
    match field
    case UsernameField => form.(username := value)
    case EmailField => form.(email := value)
    case FirstNameField => form.(firstName := value)
    case LastNameField => form.(lastName := value)
    case PasswordField => form.(password := value)
    case OrganizationField => form.(organization := value)
  }

  /** The form's validation messages. */
  const FirstNameRequired := "First name is required"
  const LastNameRequired := "Last name is required"
  const UsernameRequired := "Username is required"
  const EmailRequired := "Email is required"
  const PasswordTooShort := "Password must be at least 8 characters long"
  const OrganizationRequired := "Organization is required"
  const InvalidEmail := "Please enter a valid email address"

  /** `validateForm`: the message of the first failing check. The username's length is not checked. */
  function ValidateForm(form: UserRegistrationData): (err: Option<string>)
    ensures err.None? <==>
      !IsBlank(form.firstName) && !IsBlank(form.lastName) && !IsBlank(form.username) && !IsBlank(form.email) &&
      JsLength(form.password) >= 8 && !IsBlank(form.organization) && MatchesEmailPattern(form.email)
    ensures err == Some(FirstNameRequired) <==> IsBlank(form.firstName)
    ensures err == Some(LastNameRequired) <==> !IsBlank(form.firstName) && IsBlank(form.lastName)
    ensures err == Some(UsernameRequired) <==>
      !IsBlank(form.firstName) && !IsBlank(form.lastName) && IsBlank(form.username)
    ensures err == Some(EmailRequired) <==>
      !IsBlank(form.firstName) && !IsBlank(form.lastName) && !IsBlank(form.username) && IsBlank(form.email)
    ensures err == Some(PasswordTooShort) <==>
      !IsBlank(form.firstName) && !IsBlank(form.lastName) && !IsBlank(form.username) && !IsBlank(form.email) &&
      JsLength(form.password) < 8
    ensures err == Some(OrganizationRequired) <==>
      !IsBlank(form.firstName) && !IsBlank(form.lastName) && !IsBlank(form.username) && !IsBlank(form.email) &&
      JsLength(form.password) >= 8 && IsBlank(form.organization)
    ensures err == Some(InvalidEmail) <==>
      !IsBlank(form.firstName) && !IsBlank(form.lastName) && !IsBlank(form.username) && !IsBlank(form.email) &&
      JsLength(form.password) >= 8 && !IsBlank(form.organization) && !MatchesEmailPattern(form.email)
  {
    TrimEmptyIffBlank(form.firstName);
    TrimEmptyIffBlank(form.lastName);
    TrimEmptyIffBlank(form.username);
    TrimEmptyIffBlank(form.email);
    TrimEmptyIffBlank(form.organization);
    EmailRegexTestCorrect(form.email);
    if Trim(form.firstName) == "" then Some(FirstNameRequired)
    else if Trim(form.lastName) == "" then Some(LastNameRequired)
    else if Trim(form.username) == "" then Some(UsernameRequired)
    else if Trim(form.email) == "" then Some(EmailRequired)
    else if form.password == "" || JsLength(form.password) < 8 then Some(PasswordTooShort)
    else if Trim(form.organization) == "" then Some(OrganizationRequired)
    else if !EmailRegexTest(form.email) then Some(InvalidEmail)
    else None
  }

  /** The invitation carrying the same person as a signup form, as the invite dialog would build it. */
  function AsInvitation(form: UserRegistrationData): UserInvitation {
    UserInvitation(form.username, form.email, form.firstName, form.lastName, form.password, Some(""), Some([]), Some([]))
  }

  /**
   * Signup is more permissive than the invite dialog: a form accepted for signup stays
   * accepted with the two-letter username "ab", which the invite dialog refuses.
   */
  lemma SignupAcceptsShortUsernames(form: UserRegistrationData)
    requires ValidateForm(form).None?
    ensures ValidateForm(form.(username := "ab")).None?
    ensures InviteUserDialog.ValidateForm(AsInvitation(form.(username := "ab"))) ==
      Some(InviteUserDialog.UsernameLength)
  {
    assert !IsBlank("ab") by { assert !IsJsSpace("ab"[0]); }
    assert JsLength("ab") == 2;
  }

  class SignupForm {
    var form: UserRegistrationData
    var isLoading: bool
    var error: Option<string>
    var success: bool
    /** The registrations posted to the gateway, oldest first. */
    var posted: seq<UserRegistrationData>
    /** How many times `onSuccess` was called. */
    var successCallbacks: nat

    constructor ()
      ensures form == EmptyForm && !isLoading && error == None && !success && posted == [] && successCallbacks == 0
    {
      form := EmptyForm;
      isLoading := false;
      error := None;
      success := false;
      posted := [];
      successCallbacks := 0;
    }

    /** `handleInputChange`: one field takes the typed value and a shown error is cleared. */
    method HandleInputChange(field: SignupField, value: string)
      modifies this`form, this`error
      ensures form == SetField(old(form), field, value)
      ensures !Truthy(error)
      ensures !Truthy(old(error)) ==> error == old(error)
    {
      form := SetField(form, field, value);
      if Truthy(error) {
        error := None;
      }
    }

    /**
     * `handleSubmit` over how the registration exchange ends. The gateway never throws,
     * so the generic "unexpected error" message of the `catch` is never shown.
     */
    method HandleSubmit<D>(exchange: Result<HttpResponse<D>, HttpFailure>, hasCallback: bool)
      modifies this
      ensures form == old(form)
      ensures ValidateForm(old(form)).Some? ==>
        error == ValidateForm(old(form)) && isLoading == old(isLoading) && posted == old(posted) &&
        success == old(success) && successCallbacks == old(successCallbacks)
      ensures ValidateForm(old(form)).None? ==> !isLoading && posted == old(posted) + [old(form)]
      ensures ValidateForm(old(form)).None? && exchange.Ok? ==>
        success && error == None && successCallbacks == old(successCallbacks) + (if hasCallback then 1 else 0)
      ensures ValidateForm(old(form)).None? && exchange.Err? ==>
        error == Some(HandleApiError(exchange.error).message) && success == old(success) &&
        successCallbacks == old(successCallbacks)
    {
      var invalid := ValidateForm(form);
      if invalid.Some? {
        error := invalid;
        return;
      }
      isLoading := true;
      error := None;
      posted := posted + [form];
      var response := Call(Endpoint.RegisterUser(form), exchange);
      ErrorFieldSignalsFailure(Endpoint.RegisterUser(form), exchange);
      if Truthy(response.error) {
        error := response.error;
      } else {
        success := true;
        if hasCallback {
          successCallbacks := successCallbacks + 1;
        }
      }
      isLoading := false;
    }
  }
}
