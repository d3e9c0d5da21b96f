/**
 * The registration page: a form of six text fields and a terms checkbox, a
 * submit handler that runs three checks in a fixed order and stops at the
 * first that fails, and the loading flag set only when all three pass.
 */
module RegisterPage {

  /** The form's text inputs, by their `name` attribute. */
  datatype TextField = FirstName | LastName | Email | Password | ConfirmPassword | DateOfBirth

  datatype RegisterForm = RegisterForm(
    firstName: string,
    lastName: string,
    email: string,
    password: string,
    confirmPassword: string,
    dateOfBirth: string,
    acceptTerms: bool)
  {
    function Get(f: TextField): string
    {
      match f
      case FirstName => firstName
      case LastName => lastName
      case Email => email
      case Password => password
      case ConfirmPassword => confirmPassword
      case DateOfBirth => dateOfBirth
    }
  }

  const EmptyForm := RegisterForm("", "", "", "", "", "", false)

  /** `{ ...formData, [name]: value }` for a text input: exactly the named field takes the new value. */
  function WithField(form: RegisterForm, f: TextField, value: string): (r: RegisterForm)
    ensures r.Get(f) == value
    ensures forall g :: g != f ==> r.Get(g) == form.Get(g)
    ensures r.acceptTerms == form.acceptTerms
  {
    match f
    case FirstName => form.(firstName := value)
    case LastName => form.(lastName := value)
    case Email => form.(email := value)
    case Password => form.(password := value)
    case ConfirmPassword => form.(confirmPassword := value)
    case DateOfBirth => form.(dateOfBirth := value)
  }

  /** What a submit leads to: one of the three error toasts, or the start of registration. */
  datatype Outcome = MissingInformation | PasswordMismatch | TermsNotAccepted | Registered

  /** The four fields whose emptiness is checked; the confirmation and the birth date are not among them. */
  predicate RequiredFilled(form: RegisterForm)
  {
    form.firstName != "" && form.lastName != "" && form.email != "" && form.password != ""
  }

  /**
   * `handleRegister`'s checks, first failing check wins: missing fields,
   * then mismatching passwords, then unaccepted terms.
   */
  function Validate(form: RegisterForm): (r: Outcome)
    ensures r == MissingInformation <==> !RequiredFilled(form)
    ensures r == PasswordMismatch <==> RequiredFilled(form) && form.password != form.confirmPassword
    ensures r == TermsNotAccepted <==>
      RequiredFilled(form) && form.password == form.confirmPassword && !form.acceptTerms
    ensures r == Registered <==>
      RequiredFilled(form) && form.password == form.confirmPassword && form.acceptTerms
  {
    if form.firstName == "" || form.lastName == "" || form.email == "" || form.password == "" then
      MissingInformation
    else if form.password != form.confirmPassword then
      PasswordMismatch
    else if !form.acceptTerms then
      TermsNotAccepted
    else
      Registered
  }

  /** The date of birth never affects the outcome. */
  lemma DateOfBirthIrrelevant(form: RegisterForm, d: string)
    ensures Validate(form.(dateOfBirth := d)) == Validate(form)
  {
  }

  /** An empty confirmation is not a missing field: with the rest filled in, it is a password mismatch. */
  lemma EmptyConfirmationIsMismatch(form: RegisterForm)
    requires RequiredFilled(form) && form.confirmPassword == ""
    ensures Validate(form) == PasswordMismatch
  {
  }

  /** While a required field is empty, neither the passwords nor the terms are looked at. */
  lemma MissingMasksLaterChecks(form: RegisterForm, confirm: string, terms: bool)
    requires !RequiredFilled(form)
    ensures Validate(form.(confirmPassword := confirm, acceptTerms := terms)) == MissingInformation
  {
  }

  /** The toast shown for each outcome. */
  function ToastTitle(o: Outcome): string
  {
    match o
    case MissingInformation => "Missing information"
    case PasswordMismatch => "Passwords don't match"
    case TermsNotAccepted => "Terms & Conditions"
    case Registered => "Registration successful"
  }

  /** The four outcomes are told apart by their toast titles. */
  lemma ToastTitlesDistinct(o1: Outcome, o2: Outcome)
    requires o1 != o2
    ensures ToastTitle(o1) != ToastTitle(o2)
  {
    assert ToastTitle(o1)[0] != ToastTitle(o2)[0] || |ToastTitle(o1)| != |ToastTitle(o2)|;
  }

  /** The value the terms checkbox reports: Radix checkboxes can also be indeterminate. */
  datatype CheckedState = Checked | Unchecked | Indeterminate

  /** `checked === true`. */
  function AcceptsTerms(c: CheckedState): (r: bool)
    ensures r <==> c == Checked
  {
    c.Checked?
  }

  class RegisterPageState {
    var isLoading: bool
    var form: RegisterForm
    var showPassword: bool
    var showConfirmPassword: bool

    /** Mounted with an empty form, both passwords hidden, not loading. */
    constructor ()
      ensures form == EmptyForm && !isLoading && !showPassword && !showConfirmPassword
    {
      isLoading := false;
      form := EmptyForm;
      showPassword := false;
      showConfirmPassword := false;
    }

    /** `handleInputChange` for a text input: only the named field changes. */
    method InputChange(f: TextField, value: string)
      modifies this
      ensures form == WithField(old(form), f, value)
      ensures isLoading == old(isLoading)
      ensures showPassword == old(showPassword) && showConfirmPassword == old(showConfirmPassword)
    {
      form := WithField(form, f, value);
    }

    /** The terms checkbox: `acceptTerms` becomes `checked === true`, nothing else changes. */
    method TermsCheckedChange(c: CheckedState)
      modifies this
      ensures form == old(form).(acceptTerms := AcceptsTerms(c))
      ensures isLoading == old(isLoading)
      ensures showPassword == old(showPassword) && showConfirmPassword == old(showConfirmPassword)
    {
      form := form.(acceptTerms := AcceptsTerms(c));
    }

    /** `handleRegister`: the form is validated; loading starts only on success. */
    method Submit() returns (outcome: Outcome)
      modifies this
      ensures outcome == Validate(form)
      ensures outcome == Registered ==> isLoading
      ensures outcome != Registered ==> isLoading == old(isLoading)
      ensures form == old(form)
      ensures showPassword == old(showPassword) && showConfirmPassword == old(showConfirmPassword)
    {
      if form.firstName == "" || form.lastName == "" || form.email == "" || form.password == "" {
        outcome := MissingInformation;
        return;
      }
      if form.password != form.confirmPassword {
        outcome := PasswordMismatch;
        return;
      }
      if !form.acceptTerms {
        outcome := TermsNotAccepted;
        return;
      }
      isLoading := true;
      outcome := Registered;
    }

    /** The registration timer fires: loading ends; the form stays as it is. */
    method CompleteRegistration()
      modifies this
      ensures !isLoading
      ensures form == old(form)
      ensures showPassword == old(showPassword) && showConfirmPassword == old(showConfirmPassword)
    {
      isLoading := false;
    }

    /** The eye button of the password field. */
    method ToggleShowPassword()
      modifies this
      ensures showPassword == !old(showPassword)
      ensures form == old(form) && isLoading == old(isLoading) && showConfirmPassword == old(showConfirmPassword)
    {
      showPassword := !showPassword;
    }

    /** The eye button of the confirmation field. */
    method ToggleShowConfirmPassword()
      modifies this
      ensures showConfirmPassword == !old(showConfirmPassword)
      ensures form == old(form) && isLoading == old(isLoading) && showPassword == old(showPassword)
    {
      showConfirmPassword := !showConfirmPassword;
    }

    /** The submit button's text. */
    function SubmitLabel(): (r: string)
      reads this
      ensures r == "Creating your account..." <==> isLoading
      ensures r == "Sign up" <==> !isLoading
    {
      if isLoading then "Creating your account..." else "Sign up"
    }
  }
}
