/**
 * The sign-up page: field validation into an error map, the keystroke
 * filters of its inputs, and the flags that drive the OTP and submit flow.
 * Server replies arrive as parameters.
 */
module SignupPage {
  import opened Wrappers
  import opened Text
  import opened SignupRules

  /** The chosen profile picture (a browser File; only its presence matters). */
  datatype ImageFile = ImageFile(name: string)

  datatype Form = Form(username: string, phone: string, image: Option<ImageFile>, password: string)

  const EmptyForm: Form := Form("", "", None, "")

  const UsernameRequired: string := "Username is required"
  const UsernameInvalid: string := "Invalid username format"
  const PhoneRequired: string := "Phone number is required"
  const PhoneInvalid: string := "Invalid phone number"
  const ImageRequired: string := "Profile image is required"
  const PasswordRequired: string := "Password is required"
  const PasswordInvalid: string :=
    "Use at least 6 characters including uppercase, lowercase, number, and special character"
  const OtpPhoneRequired: string := "Phone number is required to send OTP"
  const VerifyFirst: string := "Please verify your WhatsApp number before signing up."

  /** Every field passes: the trimmed username and phone, the image, the untrimmed password. */
  predicate FormValid(form: Form) {
    && IsUsername(Trim(form.username))
    && IsPhone(Trim(form.phone))
    && form.image.Some?
    && IsPassword(form.password)
  }

  /** The username's error: none when the trimmed name passes, else "required" for a blank one, else the format message. */
  function UsernameError(username: string): (e: Option<string>)
    ensures e.None? <==> IsUsername(Trim(username))
    ensures e.Some? ==> e.value == if Blank(username) then UsernameRequired else UsernameInvalid
  {
    BlankIffTrimEmpty(username);
    var trimmed := Trim(username);
    if trimmed == [] then Some(UsernameRequired)
    else if !IsUsername(trimmed) then Some(UsernameInvalid)
    else None
  }

  /** The phone's error: none when the trimmed number passes, else "required" for a blank one, else the format message. */
  function PhoneError(phone: string): (e: Option<string>)
    ensures e.None? <==> IsPhone(Trim(phone))
    ensures e.Some? ==> e.value == if Blank(phone) then PhoneRequired else PhoneInvalid
  {
    BlankIffTrimEmpty(phone);
    var trimmed := Trim(phone);
    if trimmed == [] then Some(PhoneRequired)
    else if !IsPhone(trimmed) then Some(PhoneInvalid)
    else None
  }

  /** The password's error: none when the untrimmed password passes, else "required" for an empty one, else the format message. */
  function PasswordError(password: string): (e: Option<string>)
    ensures e.None? <==> IsPassword(password)
    ensures e.Some? ==> e.value == if password == "" then PasswordRequired else PasswordInvalid
  {
    if password == "" then Some(PasswordRequired)
    else if !IsPassword(password) then Some(PasswordInvalid)
    else None
  }

  /** `errs[key] = message` when there is a message; the map is kept otherwise. */
  function AddError(errs: map<string, string>, key: string, e: Option<string>): map<string, string>
  {
    if e.Some? then errs[key := e.value] else errs
  }

  /**
   * What `validate()` returns. A key is present exactly for a failing field;
   * a blank field gets the "required" message, any other failing field the
   * format message. The map is empty exactly when the whole form is valid.
   */
  function ValidationErrors(form: Form): (errs: map<string, string>)
    ensures errs.Keys <= {"username", "phone", "image", "password"}
    ensures "username" in errs <==> !IsUsername(Trim(form.username))
    ensures "username" in errs ==>
      errs["username"] == if Blank(form.username) then UsernameRequired else UsernameInvalid
    ensures "phone" in errs <==> !IsPhone(Trim(form.phone))
    ensures "phone" in errs ==>
      errs["phone"] == if Blank(form.phone) then PhoneRequired else PhoneInvalid
    ensures "image" in errs <==> form.image.None?
    ensures "image" in errs ==> errs["image"] == ImageRequired
    ensures "password" in errs <==> !IsPassword(form.password)
    ensures "password" in errs ==>
      errs["password"] == if form.password == "" then PasswordRequired else PasswordInvalid
    ensures errs == map[] <==> FormValid(form)
  {
    var u, p, w := UsernameError(form.username), PhoneError(form.phone), PasswordError(form.password);
    var i := if form.image.None? then Some(ImageRequired) else None;
    var errs := AddError(AddError(AddError(AddError(map[], "username", u), "phone", p), "image", i), "password", w);
    assert errs == map[] <==> u.None? && p.None? && i.None? && w.None? by {
      if u.Some? { assert "username" in errs; }
      if p.Some? { assert "phone" in errs; }
      if i.Some? { assert "image" in errs; }
      if w.Some? { assert "password" in errs; }
    }
    errs
  }

  /** `validate()`, filling the error map field by field. */
  method Validate(form: Form) returns (errs: map<string, string>)
    ensures errs == ValidationErrors(form)
  {
    errs := map[];
    var usernameError := UsernameError(form.username);
    if usernameError.Some? {
      errs := errs["username" := usernameError.value];
    }
    assert errs == AddError(map[], "username", usernameError);
    var phoneError := PhoneError(form.phone);
    if phoneError.Some? {
      errs := errs["phone" := phoneError.value];
    }
    assert errs == AddError(AddError(map[], "username", usernameError), "phone", phoneError);
    var imageError := if form.image.None? then Some(ImageRequired) else None;
    if form.image.None? {
      errs := errs["image" := ImageRequired];
    }
    assert errs == AddError(AddError(AddError(map[], "username", usernameError), "phone", phoneError), "image", imageError);
    var passwordError := PasswordError(form.password);
    if passwordError.Some? {
      errs := errs["password" := passwordError.value];
    }
  }

  /** `if (errors.key) setErrors({ ...errors, key: '' })`: a shown message is blanked, the map is otherwise kept. */
  function ClearShownError(errors: map<string, string>, key: string): (r: map<string, string>)
    ensures r.Keys == errors.Keys
    ensures key in r ==> r[key] == ""
    ensures forall k :: k in r && k != key ==> r[k] == errors[k]
  {
    if key in errors && errors[key] != "" then errors[key := ""] else errors
  }

  class Signup {
    var form: Form
    var errors: map<string, string>
    var otpSent: bool
    var otp: string
    var isVerified: bool

    /** The OTP box and the verified notice are never shown together: a verified number has no OTP pending. */
    predicate Valid()
      reads this`otpSent, this`isVerified
    {
      !(otpSent && isVerified)
    }

    constructor ()
      ensures Valid()
      ensures form == EmptyForm && errors == map[] && !otpSent && otp == "" && !isVerified
    {
      form := EmptyForm;
      errors := map[];
      otpSent := false;
      otp := "";
      isVerified := false;
    }

    /** A keystroke in the username box: kept only if it is made of `[a-z.]`. */
    method EditUsername(value: string) returns (accepted: bool)
      modifies this`form, this`errors
      ensures accepted == UsernameEditAllowed(value)
      ensures accepted ==> form == old(form).(username := value) && errors == ClearShownError(old(errors), "username")
      ensures !accepted ==> form == old(form) && errors == old(errors)
    {
      accepted := UsernameEditAllowed(value);
      if accepted {
        form := form.(username := value);
        errors := ClearShownError(errors, "username");
      }
    }

    /**
     * A keystroke in the phone box: kept only if it is an optional "+" then
     * digits, at most 13 long. The verified flag is left as it is.
     */
    method EditPhone(value: string) returns (accepted: bool)
      modifies this`form, this`errors
      ensures accepted == PhoneEditAllowed(value)
      ensures accepted ==> form == old(form).(phone := value) && errors == ClearShownError(old(errors), "phone")
      ensures !accepted ==> form == old(form) && errors == old(errors)
    {
      accepted := PhoneEditAllowed(value);
      if accepted {
        form := form.(phone := value);
        errors := ClearShownError(errors, "phone");
      }
    }

    /** Choosing a picture (absent when the file dialog is cancelled). */
    method SelectImage(image: Option<ImageFile>)
      modifies this`form, this`errors
      ensures form == old(form).(image := image) && errors == ClearShownError(old(errors), "image")
    {
      form := form.(image := image);
      errors := ClearShownError(errors, "image");
    }

    /** A keystroke in the password box: always kept. */
    method EditPassword(value: string)
      modifies this`form, this`errors
      ensures form == old(form).(password := value) && errors == ClearShownError(old(errors), "password")
    {
      form := form.(password := value);
      errors := ClearShownError(errors, "password");
    }

    /** A keystroke in the OTP box, shown only once an OTP was sent and the number is not yet verified. */
    method EditOtp(value: string) returns (accepted: bool)
      requires otpSent && !isVerified
      modifies this`otp
      ensures accepted == OtpEditAllowed(value)
      ensures otp == if accepted then value else old(otp)
    {
      accepted := OtpEditAllowed(value);
      if accepted {
        otp := value;
      }
    }

    /**
     * `handleSendOtp`, whose button is shown only while no OTP is pending and
     * the number is unverified: a blank phone sets an error and sends nothing;
     * otherwise the untrimmed phone is sent and an accepted request marks the
     * OTP as sent. `accepted` is whether the server answered with a success.
     */
    method SendOtp(accepted: bool) returns (request: Option<string>)
      requires !otpSent && !isVerified
      modifies this`otpSent, this`errors
      ensures Valid()
      ensures request == if Blank(form.phone) then None else Some(form.phone)
      ensures request.None? ==> errors == old(errors)["phone" := OtpPhoneRequired] && !otpSent
      ensures request.Some? ==> errors == old(errors) && otpSent == accepted
    {
      if Blank(form.phone) {
        errors := errors["phone" := OtpPhoneRequired];
        request := None;
        return;
      }
      request := Some(form.phone);
      if accepted {
        otpSent := true;
      }
    }

    /**
     * `handleVerifyOtp`, whose button is shown only while an OTP is pending
     * and the number is unverified: the phone and the code are always sent; a
     * success verifies the number, hides the OTP box, empties the code and
     * blanks the phone error.
     */
    method VerifyOtp(accepted: bool) returns (request: (string, string))
      requires otpSent && !isVerified
      modifies this`otpSent, this`otp, this`isVerified, this`errors
      ensures Valid()
      ensures request == (form.phone, old(otp))
      ensures accepted ==> isVerified && !otpSent && otp == "" && errors == old(errors)["phone" := ""]
      ensures !accepted ==> isVerified == old(isVerified) && otpSent == old(otpSent)
                            && otp == old(otp) && errors == old(errors)
    {
      request := (form.phone, otp);
      if accepted {
        isVerified := true;
        otpSent := false;
        otp := "";
        errors := errors["phone" := ""];
      }
    }

    /**
     * `handleSubmit`. Without a verified number nothing is sent and the
     * errors become the previous ones plus the verification message: that
     * update is computed from the errors of the render, so it replaces the
     * validation result set just before it. With a verified number the
     * validation result is shown, the form is sent only when it is empty,
     * and a successful reply resets the form and the verified flag.
     */
    method Submit(accepted: bool) returns (request: Option<Form>)
      requires Valid()
      modifies this`form, this`errors, this`isVerified
      ensures Valid()
      ensures !old(isVerified) ==> request == None && errors == old(errors)["phone" := VerifyFirst]
                                   && form == old(form) && !isVerified
      ensures old(isVerified) ==> errors == ValidationErrors(old(form))
      ensures request.Some? <==> old(isVerified) && FormValid(old(form))
      ensures request.Some? ==> request.value == old(form)
      ensures request.Some? && accepted ==> form == EmptyForm && !isVerified
      ensures !(request.Some? && accepted) ==> form == old(form) && isVerified == old(isVerified)
    {
      var validationErrors := Validate(form);
      var previous := errors;
      errors := validationErrors;
      if !isVerified {
        errors := previous["phone" := VerifyFirst];
        request := None;
        return;
      }
      if |validationErrors| == 0 {
        request := Some(form);
        if accepted {
          form := EmptyForm;
          isVerified := false;
        }
      } else {
        request := None;
      }
    }
  }
}
