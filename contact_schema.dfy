/**
 * The contact form's values and the validation schema `contactSchema`: one
 * rule per field, and a record is valid when every rule holds. Whether a text
 * is an email address is decided by the validation library; it is a
 * parameter `isEmail` here.
 */
module ContactSchema {
  import opened Wrappers
  import opened CepText

  /** The form's fields, in the schema's order. */
  datatype Field = Name | EmailOrPhone | Cep | Street | Number | Complement | Neighborhood | City | State

  const AllFields: set<Field> := {Name, EmailOrPhone, Cep, Street, Number, Complement, Neighborhood, City, State}

  /** The fields the postal-code lookup fills in and then re-validates. */
  const LookupFields: set<Field> := {Street, Neighborhood, City, State}

  /** The form's values; `complement` is the one optional field. */
  datatype ContactForm = ContactForm(
    name: string,
    emailOrPhone: string,
    cep: string,
    street: string,
    number: string,
    complement: Option<string>,
    neighborhood: string,
    city: string,
    state: string)

  /** The form as it starts: every text field empty, no complement. */
  const EmptyForm := ContactForm("", "", "", "", "", None, "", "", "")

  /** The input name under which each field is registered. */
  function FieldName(f: Field): string {
    match f
    case Name => "name"
    case EmailOrPhone => "emailOrPhone"
    case Cep => "cep"
    case Street => "street"
    case Number => "number"
    case Complement => "complement"
    case Neighborhood => "neighborhood"
    case City => "city"
    case State => "state"
  }

  /** The field registered under input name `n`, if any. */
  function FieldNamed(n: string): (r: Option<Field>)
    ensures r.Some? ==> FieldName(r.value) == n
    ensures r.None? ==> forall f :: FieldName(f) != n
  {
    if n == "name" then Some(Name)
    else if n == "emailOrPhone" then Some(EmailOrPhone)
    else if n == "cep" then Some(Cep)
    else if n == "street" then Some(Street)
    else if n == "number" then Some(Number)
    else if n == "complement" then Some(Complement)
    else if n == "neighborhood" then Some(Neighborhood)
    else if n == "city" then Some(City)
    else if n == "state" then Some(State)
    else None
  }

  /** The value of field `f`; only the complement can be absent. */
  function Get(form: ContactForm, f: Field): Option<string> {
    match f
    case Name => Some(form.name)
    case EmailOrPhone => Some(form.emailOrPhone)
    case Cep => Some(form.cep)
    case Street => Some(form.street)
    case Number => Some(form.number)
    case Complement => form.complement
    case Neighborhood => Some(form.neighborhood)
    case City => Some(form.city)
    case State => Some(form.state)
  }

  /** `setValue(f, v)`: field `f` holds `v` afterwards and no other field changes. */
  function Set(form: ContactForm, f: Field, v: string): (r: ContactForm)
    ensures Get(r, f) == Some(v)
    ensures forall g :: g != f ==> Get(r, g) == Get(form, g)
  {
    match f
    case Name => form.(name := v)
    case EmailOrPhone => form.(emailOrPhone := v)
    case Cep => form.(cep := v)
    case Street => form.(street := v)
    case Number => form.(number := v)
    case Complement => form.(complement := Some(v))
    case Neighborhood => form.(neighborhood := v)
    case City => form.(city := v)
    case State => form.(state := v)
  }

  /** A phone number: exactly ten or eleven decimal digits and nothing else. */
  predicate IsPhone(s: string) {
    10 <= |s| <= 11 && AllDigits(s)
  }

  predicate NameOk(s: string) { |s| >= 3 }

  predicate EmailOrPhoneOk(s: string, isEmail: string -> bool) { isEmail(s) || IsPhone(s) }

  /** The schema asks for eight characters only; digits are the form's doing. */
  predicate CepOk(s: string) { |s| == CepLength }

  predicate Required(s: string) { |s| >= 1 }

  predicate StateOk(s: string) { |s| == 2 }

  /** The rule of field `f`; the complement may be absent or any text. */
  predicate FieldOk(form: ContactForm, f: Field, isEmail: string -> bool) {
    match f
    case Name => NameOk(form.name)
    case EmailOrPhone => EmailOrPhoneOk(form.emailOrPhone, isEmail)
    case Cep => CepOk(form.cep)
    case Street => Required(form.street)
    case Number => Required(form.number)
    case Complement => true
    case Neighborhood => Required(form.neighborhood)
    case City => Required(form.city)
    case State => StateOk(form.state)
  }

  /** The schema as a whole: the conjunction of its field rules. */
  predicate Valid(form: ContactForm, isEmail: string -> bool) {
    && NameOk(form.name)
    && EmailOrPhoneOk(form.emailOrPhone, isEmail)
    && CepOk(form.cep)
    && Required(form.street)
    && Required(form.number)
    && Required(form.neighborhood)
    && Required(form.city)
    && StateOk(form.state)
  }

  lemma EveryField(f: Field)
    ensures f in AllFields
  {
  }

  /** The fields whose rule fails: the field-level errors the form shows. */
  function Errors(form: ContactForm, isEmail: string -> bool): (r: set<Field>)
    ensures forall f :: f in r <==> !FieldOk(form, f, isEmail)
  {
    forall f ensures f in AllFields { EveryField(f); }
    set f | f in AllFields && !FieldOk(form, f, isEmail)
  }

  /** A record passes the schema exactly when no field shows an error. */
  lemma ValidIffNoErrors(form: ContactForm, isEmail: string -> bool)
    ensures Valid(form, isEmail) <==> Errors(form, isEmail) == {}
  {
    if Errors(form, isEmail) == {} {
      forall f ensures FieldOk(form, f, isEmail) {
        assert f !in Errors(form, isEmail);
      }
      assert FieldOk(form, Name, isEmail) && FieldOk(form, EmailOrPhone, isEmail) && FieldOk(form, Cep, isEmail);
      assert FieldOk(form, Street, isEmail) && FieldOk(form, Number, isEmail) && FieldOk(form, Neighborhood, isEmail);
      assert FieldOk(form, City, isEmail) && FieldOk(form, State, isEmail);
    } else {
      var f :| f in Errors(form, isEmail);
    }
  }

  /** The untouched form fails every required rule; its contact field
      fails exactly when the email check rejects the empty text. */
  lemma EmptyFormRejected(isEmail: string -> bool)
    ensures !Valid(EmptyForm, isEmail)
    ensures {Name, Cep, Street, Number, Neighborhood, City, State} <= Errors(EmptyForm, isEmail)
    ensures EmailOrPhone in Errors(EmptyForm, isEmail) <==> !isEmail("")
    ensures Complement !in Errors(EmptyForm, isEmail)
  {
  }

  /** A name of fewer than three characters is rejected, whatever else holds. */
  lemma ShortNameRejected(form: ContactForm, isEmail: string -> bool)
    requires |form.name| < 3
    ensures !Valid(form, isEmail) && Name in Errors(form, isEmail)
  {
  }

  /** Ten or eleven digits pass as a phone number; other lengths, or any
      non-digit, pass only as an email address. */
  lemma PhoneRule(s: string, isEmail: string -> bool)
    requires !isEmail(s)
    ensures EmailOrPhoneOk(s, isEmail) <==> (10 <= |s| <= 11 && forall i :: 0 <= i < |s| ==> '0' <= s[i] <= '9')
  {
  }

  /** A state of exactly two characters passes and any other length fails. */
  lemma StateRule(form: ContactForm, isEmail: string -> bool)
    ensures State in Errors(form, isEmail) <==> |form.state| != 2
  {
  }

  /** The schema's cep rule counts characters only: eight letters pass it. */
  lemma CepRuleIgnoresDigits()
    ensures CepOk("abcdefgh") && !AllDigits("abcdefgh")
  {
    assert !IsDigit("abcdefgh"[0]);
  }

  /** Whatever the form's normaliser leaves at length eight passes the cep
      rule and consists of digits only. */
  lemma NormalizedCepOk(typed: string)
    requires |Normalize(typed)| == CepLength
    ensures CepOk(Normalize(typed)) && AllDigits(Normalize(typed))
  {
  }
}
