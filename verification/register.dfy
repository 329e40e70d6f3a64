/** The registration form (src/pages/Register.tsx): field and role updates,
    the password and admin-secret checks on submit, and the payload handed to
    the authentication service. */
module RegisterPage {
  import opened Wrappers

  datatype Role = User | Admin

  /** The text inputs of the form, by their `name` attribute. */
  datatype Field = Name | Email | Password | ConfirmPassword | SecretKey

  datatype FormData = FormData(
    name: string, email: string, password: string, confirmPassword: string, role: Role, secretKey: string)

  /** The credentials passed to `authService.register`. */
  datatype RegisterPayload = RegisterPayload(
    name: string, email: string, password: string, role: Role, secretKey: Option<string>)

  /** How `authService.register` ended: with the server's response token, or
      by throwing, with the message the server sent if any. */
  datatype RegisterReply = Registered(token: Option<string>) | Rejected(serverMessage: Option<string>)

  const AdminSecret := "admin123"
  const PasswordMismatch := "Passwords do not match"
  const InvalidSecret := "Invalid secret key for admin registration"
  const RegistrationFailed := "Registration failed. Please try again."

  /** `{...prev, [name]: value}`: only the named field changes. */
  function WithField(form: FormData, field: Field, value: string): (r: FormData)
    ensures r.role == form.role
    ensures r.name == (if field == Name then value else form.name)
    ensures r.email == (if field == Email then value else form.email)
    ensures r.password == (if field == Password then value else form.password)
    ensures r.confirmPassword == (if field == ConfirmPassword then value else form.confirmPassword)
    ensures r.secretKey == (if field == SecretKey then value else form.secretKey)
  {
    match field
    case Name => form.(name := value)
    case Email => form.(email := value)
    case Password => form.(password := value)
    case ConfirmPassword => form.(confirmPassword := value)
    case SecretKey => form.(secretKey := value)
  }

  /** The outcome of `validateAdminSecretKey`: only an admin with a key other
      than the fixed secret fails. */
  function AdminSecretOk(form: FormData): (ok: bool)
    ensures !ok <==> form.role == Admin && form.secretKey != AdminSecret
    ensures form.role == User ==> ok
  {
    !(form.role == Admin && form.secretKey != AdminSecret)
  }

  /** The credentials sent on submit: the secret key travels only with the
      admin role. */
  function PayloadFor(form: FormData): (p: RegisterPayload)
    ensures p.secretKey.Some? <==> form.role == Admin
    ensures p.secretKey.Some? ==> p.secretKey.value == form.secretKey
    ensures p.name == form.name && p.email == form.email && p.password == form.password
    ensures p.role == form.role
  {
    RegisterPayload(form.name, form.email, form.password, form.role,
                    if form.role == Admin then Some(form.secretKey) else None)
  }

  /** The error shown when registration throws. */
  function FailureMessage(serverMessage: Option<string>): (m: string)
    ensures serverMessage.Some? && serverMessage.value != "" ==> m == serverMessage.value
    ensures serverMessage.None? || serverMessage.value == "" ==> m == RegistrationFailed
    ensures m != ""
  {
    if serverMessage.Some? && serverMessage.value != "" then serverMessage.value else RegistrationFailed
  }

  class RegisterForm {
    var form: FormData
    var error: string
    var secretKeyError: string

    constructor ()
      ensures form == FormData("", "", "", "", User, "")
      ensures error == "" && secretKeyError == ""
    {
      form := FormData("", "", "", "", User, "");
      error := "";
      secretKeyError := "";
    }

    /** `handleInputChange`: the named field takes the value; typing in the
        secret key clears its error. */
    method HandleInputChange(field: Field, value: string)
      modifies this`form, this`secretKeyError
      ensures form == WithField(old(form), field, value)
      ensures secretKeyError == (if field == SecretKey then "" else old(secretKeyError))
    {
      form := WithField(form, field, value);
      if field == SecretKey {
        secretKeyError := "";
      }
    }

    /** `handleRoleChange`: the role changes and the secret-key error is cleared. */
    method HandleRoleChange(role: Role)
      modifies this`form, this`secretKeyError
      ensures form == old(form).(role := role)
      ensures secretKeyError == ""
    {
      form := form.(role := role);
      secretKeyError := "";
    }

    /** `validateAdminSecretKey`, which reports a wrong key in `secretKeyError`. */
    method ValidateAdminSecretKey() returns (ok: bool)
      modifies this`secretKeyError
      ensures ok == AdminSecretOk(form)
      ensures secretKeyError == (if ok then old(secretKeyError) else InvalidSecret)
    {
      if form.role == Admin && form.secretKey != AdminSecret {
        secretKeyError := InvalidSecret;
        return false;
      }
      return true;
    }

    /** `handleSubmit`. `sent` is the payload passed to `register` (none when
        a check stops the submit); `navigated` says whether the page moves on. */
    method HandleSubmit(reply: RegisterReply) returns (sent: Option<RegisterPayload>, navigated: bool)
      modifies this`error, this`secretKeyError
      ensures form == old(form)
      ensures form.password != form.confirmPassword ==>
        sent.None? && !navigated && error == PasswordMismatch && secretKeyError == old(secretKeyError)
      ensures form.password == form.confirmPassword && !AdminSecretOk(form) ==>
        sent.None? && !navigated && error == old(error) && secretKeyError == InvalidSecret
      ensures form.password == form.confirmPassword && AdminSecretOk(form) ==>
        && sent == Some(PayloadFor(form))
        && secretKeyError == old(secretKeyError)
        && (navigated <==> reply.Registered?)
        && error == (if reply.Rejected? then FailureMessage(reply.serverMessage) else old(error))
    {
      sent, navigated := None, false;
      if form.password != form.confirmPassword {
        error := PasswordMismatch;
        return;
      }
      if form.role == Admin {
        var ok := ValidateAdminSecretKey();
        if !ok {
          return;
        }
      }
      sent := Some(PayloadFor(form));
      match reply {
        case Registered(_) =>
          navigated := true;
        case Rejected(message) =>
          error := FailureMessage(message);
      }
    }
  }
}
