/** The candidate profile form: a six-field record edited one field at a time, a
    password-visibility switch, and a save that hands the whole record over. */
module CandidateConfig {

  /** The candidate's credentials and contact details. */
  datatype CandidateData = CandidateData(
    email: string, password: string, firstName: string,
    lastName: string, phone: string, location: string)

  /** The all-empty record the dashboard starts with. */
  const EmptyCandidate: CandidateData := CandidateData([], [], [], [], [], [])

  /** The six inputs of the form. */
  datatype Field = Email | Password | FirstName | LastName | Phone | Location

  /** The value of field `f` of `d`. */
  function Get(d: CandidateData, f: Field): string {
    match f
    case Email => d.email
    case Password => d.password
    case FirstName => d.firstName
    case LastName => d.lastName
    case Phone => d.phone
    case Location => d.location
  }

  /** `{ ...d, f: v }`: field `f` becomes `v` and the other five keep their values. */
  function With(d: CandidateData, f: Field, v: string): (r: CandidateData)
    ensures Get(r, f) == v
    ensures forall g :: g != f ==> Get(r, g) == Get(d, g)
  {
    match f
    case Email => d.(email := v)
    case Password => d.(password := v)
    case FirstName => d.(firstName := v)
    case LastName => d.(lastName := v)
    case Phone => d.(phone := v)
    case Location => d.(location := v)
  }

  /** A record is determined by its six fields. */
  lemma Extensional(a: CandidateData, b: CandidateData)
    requires forall f :: Get(a, f) == Get(b, f)
    ensures a == b
  {
    assert Get(a, Email) == Get(b, Email) && Get(a, Password) == Get(b, Password);
    assert Get(a, FirstName) == Get(b, FirstName) && Get(a, LastName) == Get(b, LastName);
    assert Get(a, Phone) == Get(b, Phone) && Get(a, Location) == Get(b, Location);
  }

  /** With is fully determined by its contract: any record that has `v` in field
      `f` and agrees with `d` on the other five fields is `With(d, f, v)`. */
  lemma WithDetermined(d: CandidateData, f: Field, v: string, r: CandidateData)
    requires Get(r, f) == v
    requires forall g :: g != f ==> Get(r, g) == Get(d, g)
    ensures r == With(d, f, v)
  {
    Extensional(r, With(d, f, v));
  }

  /** Typing a field's current value back into it changes nothing. */
  lemma WithSame(d: CandidateData, f: Field)
    ensures With(d, f, Get(d, f)) == d
  {
  }

  /** Only the last edit of a field counts. */
  lemma WithTwice(d: CandidateData, f: Field, v: string, w: string)
    ensures With(With(d, f, v), f, w) == With(d, f, w)
  {
  }

  /** Edits of different fields do not interfere: their order does not matter. */
  lemma WithCommutes(d: CandidateData, f: Field, v: string, g: Field, w: string)
    requires f != g
    ensures With(With(d, f, v), g, w) == With(With(d, g, w), f, v)
  {
  }

  /** The form's state: the record being edited and whether the password is shown. */
  class CandidateForm {
    var formData: CandidateData
    var showPassword: bool

    /** The form starts from the record it is given, with the password hidden. */
    constructor (data: CandidateData)
      ensures formData == data && !showPassword
    {
      formData := data;
      showPassword := false;
    }

    /** The `onChange` of input `f`: that field takes the typed value. */
    method Edit(f: Field, v: string)
      modifies this
      ensures formData == With(old(formData), f, v)
      ensures showPassword == old(showPassword)
    {
      formData := With(formData, f, v);
    }

    /** handleSave: the whole current record is handed to `onSave`, unchanged. */
    method Save() returns (saved: CandidateData)
      ensures saved == formData
    {
      saved := formData;
    }

    /** The eye button: the password switches between shown and hidden. */
    method TogglePassword()
      modifies this
      ensures showPassword == !old(showPassword)
      ensures formData == old(formData)
    {
      showPassword := !showPassword;
    }

    /** The `type` the password input currently has: plain text exactly when the
        password is shown. */
    function InputType(): (t: string)
      reads this
      ensures t == "text" <==> showPassword
    {
      if showPassword then "text" else "password"
    }
  }
}
