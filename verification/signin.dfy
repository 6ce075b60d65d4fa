/**
 * The sign-in page: the identifier and password checks, the request they
 * gate, and what the reply does to the errors and to the stored token.
 */
module SignInPage {
  import opened Wrappers
  import opened Text
  import opened SignupRules
  import opened Storage

  const IdentifierRequired: string := "This field is required"
  const IdentifierInvalid: string := "Enter a valid +91 phone number or username (e.g. john.doe)"
  const PasswordRequired: string := "Password is required"
  const FallbackError: string := "Something went wrong"
  const ServerError: string := "Server error. Try again later."

  /** `/^\+91[6-9]\d{9}$/`: "+91", a digit from 6 to 9, and nine more digits. */
  predicate IsMobile(s: string) {
    && |s| == 13 && s[..3] == "+91" && '6' <= s[3] <= '9'
    && forall i :: 4 <= i < 13 ==> IsDigit(s[i])
  }

  /** Every number sign-in accepts is one sign-up accepts. */
  lemma MobileIsPhone(s: string)
    requires IsMobile(s)
    ensures IsPhone(s)
  {
  }

  /** The converse fails: sign-up accepts a number that sign-in rejects. */
  lemma PhoneNotMobile()
    ensures IsPhone("+910000000000") && !IsMobile("+910000000000")
  {
  }

  /** The trimmed identifier is a +91 mobile number or a username. */
  predicate IdentifierValid(identifier: string) {
    IsMobile(Trim(identifier)) || IsUsername(Trim(identifier))
  }

  /** The identifier's error: none when valid, "required" when blank, the format message otherwise. */
  function IdentifierError(identifier: string): (e: Option<string>)
    ensures e.None? <==> IdentifierValid(identifier)
    ensures e.Some? ==> e.value == if Blank(identifier) then IdentifierRequired else IdentifierInvalid
  {
    BlankIffTrimEmpty(identifier);
    var trimmed := Trim(identifier);
    if trimmed == [] then Some(IdentifierRequired)
    else if !IsMobile(trimmed) && !IsUsername(trimmed) then Some(IdentifierInvalid)
    else None
  }

  /**
   * The `newErrors` map of `handleSubmit`: a key is present exactly for a
   * failing field, and the map is empty exactly when the identifier is valid
   * and the password is not blank.
   */
  function SignInErrors(identifier: string, password: string): (errs: map<string, string>)
    ensures errs.Keys <= {"identifier", "password"}
    ensures "identifier" in errs <==> !IdentifierValid(identifier)
    ensures "identifier" in errs ==>
      errs["identifier"] == if Blank(identifier) then IdentifierRequired else IdentifierInvalid
    ensures "password" in errs <==> Blank(password)
    ensures "password" in errs ==> errs["password"] == PasswordRequired
    ensures errs == map[] <==> IdentifierValid(identifier) && !Blank(password)
  {
    var e := IdentifierError(identifier);
    var withIdentifier: map<string, string> := if e.Some? then map["identifier" := e.value] else map[];
    var errs := if Blank(password) then withIdentifier["password" := PasswordRequired] else withIdentifier;
    assert e.Some? ==> "identifier" in errs;
    errs
  }

  /** The JSON body of the sign-in request. */
  datatype Credentials = Credentials(identifier: string, password: string)

  /**
   * How the sign-in request ended: a success body with its token, a non-ok
   * status with the body's `message` (possibly absent), or a thrown error.
   */
  datatype SignInReply = Token(token: string) | Refused(message: Option<string>) | Unreachable

  class SignIn {
    var identifier: string
    var password: string
    var errors: map<string, string>
    const storage: LocalStorage

    constructor (storage: LocalStorage)
      ensures identifier == "" && password == "" && errors == map[] && this.storage == storage
    {
      identifier := "";
      password := "";
      errors := map[];
      this.storage := storage;
    }

    /** A keystroke in the identifier box; its message is blanked. */
    method EditIdentifier(value: string)
      modifies this`identifier, this`errors
      ensures identifier == value && errors == old(errors)["identifier" := ""]
    {
      identifier := value;
      errors := errors["identifier" := ""];
    }

    /** A keystroke in the password box; its message is blanked. */
    method EditPassword(value: string)
      modifies this`password, this`errors
      ensures password == value && errors == old(errors)["password" := ""]
    {
      password := value;
      errors := errors["password" := ""];
    }

    /**
     * `handleSubmit`. The checks run on the trimmed identifier; with any
     * error nothing is sent. Otherwise the trimmed identifier and the
     * untrimmed password are sent; a success stores the token and leaves for
     * the dashboard, a refusal shows the server's message (or a fallback)
     * as the only error, and a thrown error shows the server-error message.
     */
    method Submit(reply: SignInReply) returns (request: Option<Credentials>, redirect: bool)
      modifies this`errors, storage
      ensures request.Some? <==> IdentifierValid(identifier) && !Blank(password)
      ensures request.Some? ==> request.value == Credentials(Trim(identifier), password)
      ensures request.None? ==> errors == SignInErrors(identifier, password)
                                && storage.items == old(storage.items) && !redirect
      ensures request.Some? && reply.Token? ==>
        errors == map[] && storage.items == old(storage.items)[TokenKey := reply.token] && redirect
      ensures request.Some? && reply.Refused? ==>
        errors == map["identifier" := OrElse(reply.message, FallbackError)]
        && storage.items == old(storage.items) && !redirect
      ensures request.Some? && reply.Unreachable? ==>
        errors == map["identifier" := ServerError] && storage.items == old(storage.items) && !redirect
    {
      var newErrors: map<string, string> := map[];
      var trimmedIdentifier := Trim(identifier);
      var identifierError := IdentifierError(identifier);
      if identifierError.Some? {
        newErrors := newErrors["identifier" := identifierError.value];
      }
      if Blank(password) {
        newErrors := newErrors["password" := PasswordRequired];
      }
      assert identifierError.Some? ==> "identifier" in newErrors;
      assert newErrors == SignInErrors(identifier, password);
      errors := newErrors;
      redirect := false;
      if newErrors != map[] {
        request := None;
        return;
      }
      request := Some(Credentials(trimmedIdentifier, password));
      match reply
      case Refused(message) =>
        errors := map["identifier" := OrElse(message, FallbackError)];
      case Unreachable =>
        errors := map["identifier" := ServerError];
      case Token(token) =>
        storage.SetItem(TokenKey, token);
        redirect := true;
    }
  }
}
