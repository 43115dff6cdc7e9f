/** The order form and its validator (`validate` in App.tsx): one rule per
    field, each recording a localized message when it fails. */
module OrderForm {
  import opened Base
  import opened Text

  /** The buyer and shipping fields, as typed (nothing is normalized here). */
  datatype Form = Form(
    name: string,
    email: string,
    phone: string,
    document: string,
    zipCode: string,
    street: string,
    number: string,
    complement: string,
    neighborhood: string,
    city: string,
    state: string)

  datatype Field = Name | Email | Phone | Document | ZipCode | Street | Number | Complement | Neighborhood | City | State

  const AllFields: set<Field> := {Name, Email, Phone, Document, ZipCode, Street, Number, Complement, Neighborhood, City, State}

  const EmptyForm: Form := Form("", "", "", "", "", "", "", "", "", "", "")

  /** The outcome of `validate`: the returned flag and the error map it stores. */
  datatype Validation = Validation(valid: bool, errors: map<Field, string>)

  /** A run of the class `[^\s@]`: no white space and no `@`. */
  predicate NoSpaceNorAt(s: string) {
    forall k :: 0 <= k < |s| ==> !IsSpace(s[k]) && s[k] != '@'
  }

  /** `/^[^\s@]+@[^\s@]+\.[^\s@]+$/.test(s)`: `s` splits at an `@` and a later
      `.` into three non-empty runs of `[^\s@]`. */
  predicate EmailMatches(s: string) {
    exists at :: 0 < at < |s| && s[at] == '@' && NoSpaceNorAt(s[..at]) &&
      exists dot :: at + 1 < dot < |s| - 1 && s[dot] == '.' && NoSpaceNorAt(s[at + 1..dot]) && NoSpaceNorAt(s[dot + 1..])
  }

  /** Lengths are JavaScript's `.length`, in UTF-16 code units. */
  predicate NameOk(name: string) {
    !(Trim(name) == [] || Utf16Length(name) < 3)
  }

  predicate EmailOk(email: string) {
    !(email == [] || !EmailMatches(email))
  }

  predicate PhoneOk(phone: string) {
    !(phone == [] || Utf16Length(phone) < 10)
  }

  predicate DocumentOk(document: string) {
    var clean := DigitsOnly(document);
    !(|clean| != 11 && |clean| != 14)
  }

  predicate ZipCodeOk(zipCode: string) {
    |DigitsOnly(zipCode)| == 8
  }

  predicate Filled(s: string) {
    Trim(s) != []
  }

  /** Whether field `f` passes its rule; the complement has none. */
  predicate FieldOk(form: Form, f: Field) {
    match f
    case Name => NameOk(form.name)
    case Email => EmailOk(form.email)
    case Phone => PhoneOk(form.phone)
    case Document => DocumentOk(form.document)
    case ZipCode => ZipCodeOk(form.zipCode)
    case Street => Filled(form.street)
    case Number => Filled(form.number)
    case Complement => true
    case Neighborhood => Filled(form.neighborhood)
    case City => Filled(form.city)
    case State => Filled(form.state)
  }

  /** The message a field records when its rule fails. */
  function Message(f: Field): string {
    match f
    case Name => "Nome deve ter pelo menos 3 caracteres."
    case Email => "Insira um e-mail válido."
    case Phone => "Telefone inválido."
    case Document => "CPF ou CNPJ inválido."
    case ZipCode => "CEP inválido."
    case Street => "Endereço obrigatório."
    case Number => "Número obrigatório."
    case Complement => ""
    case Neighborhood => "Bairro obrigatório."
    case City => "Cidade obrigatória."
    case State => "Estado obrigatório."
  }

  /** The fields `validate` checks, in the order it checks them. */
  const Checked: seq<Field> := [Name, Email, Phone, Document, ZipCode, Street, Number, Neighborhood, City, State]

  /** The running `isValid` flag after checking `fields`: false once any
      rule has failed. */
  predicate AllPass(form: Form, fields: seq<Field>) {
    if fields == [] then true else FieldOk(form, fields[0]) && AllPass(form, fields[1..])
  }

  /** The `newErrors` object after checking `fields`: one entry per failing
      field, holding that field's message. */
  function Errors(form: Form, fields: seq<Field>): (m: map<Field, string>)
    ensures forall f :: f in m <==> f in fields && !FieldOk(form, f)
    ensures forall f :: f in m ==> m[f] == Message(f)
  {
    if fields == [] then map[]
    else
      var rest := Errors(form, fields[1..]);
      if FieldOk(form, fields[0]) then rest else rest[fields[0] := Message(fields[0])]
  }

  /** Every cleared `isValid` is paired with a recorded error, and every
      recorded error cleared it. */
  lemma {:induction false} AllPassIffNoErrors(form: Form, fields: seq<Field>)
    ensures AllPass(form, fields) <==> Errors(form, fields) == map[]
  {
    if fields != [] {
      AllPassIffNoErrors(form, fields[1..]);
      if !FieldOk(form, fields[0]) {
        assert fields[0] in Errors(form, fields);
      }
    }
  }

  /** `validate()`: the flag is true exactly when no error was recorded, a
      field has an entry exactly when its rule fails, each entry is that
      field's message, and the complement is never checked. */
  function Validate(form: Form): (r: Validation)
    ensures r.valid <==> r.errors == map[]
    ensures forall f :: f in r.errors <==> f in Checked && !FieldOk(form, f)
    ensures forall f :: f in r.errors ==> r.errors[f] == Message(f)
    ensures Complement !in r.errors
  {
    AllPassIffNoErrors(form, Checked);
    Validation(AllPass(form, Checked), Errors(form, Checked))
  }

  /** The name is rejected exactly when it is shorter than three UTF-16 code
      units (counting white space) or consists of white space only. */
  lemma NameRule(form: Form)
    ensures Name in Validate(form).errors <==> Utf16Length(form.name) < 3 || IsBlank(form.name)
  {
  }

  /** The phone is rejected exactly when its raw length in UTF-16 code units
      is below ten; digits are not counted, so ten letters pass. */
  lemma PhoneRule(form: Form)
    ensures Phone in Validate(form).errors <==> Utf16Length(form.phone) < 10
  {
  }

  /** The document passes exactly when it holds 11 (CPF) or 14 (CNPJ) digits,
      whatever punctuation surrounds them; the postal code passes exactly when
      it holds 8 digits. */
  lemma DigitRules(form: Form)
    ensures Document !in Validate(form).errors <==> |DigitsOnly(form.document)| in {11, 14}
    ensures ZipCode !in Validate(form).errors <==> |DigitsOnly(form.zipCode)| == 8
  {
  }

  /** The text typed into field `f`. */
  function FieldValue(form: Form, f: Field): string {
    match f
    case Name => form.name
    case Email => form.email
    case Phone => form.phone
    case Document => form.document
    case ZipCode => form.zipCode
    case Street => form.street
    case Number => form.number
    case Complement => form.complement
    case Neighborhood => form.neighborhood
    case City => form.city
    case State => form.state
  }

  /** Each address field other than the complement is rejected exactly when it
      is blank. */
  lemma AddressRule(form: Form, f: Field)
    requires f in {Street, Number, Neighborhood, City, State}
    ensures f in Validate(form).errors <==> IsBlank(FieldValue(form, f))
  {
    assert f in Checked;
    assert FieldOk(form, f) <==> Filled(FieldValue(form, f));
  }

  lemma FieldOkIgnoresComplement(form: Form, complement: string, f: Field)
    ensures FieldOk(form.(complement := complement), f) == FieldOk(form, f)
  {
    match f
    case Name =>
    case Email =>
    case Phone =>
    case Document =>
    case ZipCode =>
    case Street =>
    case Number =>
    case Complement =>
    case Neighborhood =>
    case City =>
    case State =>
  }

  lemma {:induction false} ErrorsIgnoreComplement(form: Form, complement: string, fields: seq<Field>)
    ensures Errors(form.(complement := complement), fields) == Errors(form, fields)
    ensures AllPass(form.(complement := complement), fields) == AllPass(form, fields)
  {
    if fields != [] {
      ErrorsIgnoreComplement(form, complement, fields[1..]);
      FieldOkIgnoresComplement(form, complement, fields[0]);
    }
  }

  /** The complement is optional: whatever it holds, the outcome of the
      validation is the same. */
  lemma ComplementUnchecked(form: Form, complement: string)
    ensures Validate(form.(complement := complement)) == Validate(form)
  {
    ErrorsIgnoreComplement(form, complement, Checked);
  }

  /** No white space anywhere. */
  predicate NoSpace(s: string) {
    forall k :: 0 <= k < |s| ==> !IsSpace(s[k])
  }

  /** `at` is the position of the only `@` in `s`. */
  predicate SingleAt(s: string, at: int) {
    0 <= at < |s| && s[at] == '@' && forall k :: 0 <= k < |s| && s[k] == '@' ==> k == at
  }

  /** The e-mail pattern, read as a shape: no white space, exactly one `@`,
      not in first position, and a `.` after it that neither touches the `@`
      nor ends the address. */
  lemma {:induction false} EmailRule(s: string)
    ensures EmailMatches(s) <==>
      NoSpace(s) && exists at :: 0 < at && SingleAt(s, at) && exists dot :: at + 1 < dot < |s| - 1 && s[dot] == '.'
  {
    if EmailMatches(s) {
      var at :| 0 < at < |s| && s[at] == '@' && NoSpaceNorAt(s[..at]) &&
        exists dot :: at + 1 < dot < |s| - 1 && s[dot] == '.' && NoSpaceNorAt(s[at + 1..dot]) && NoSpaceNorAt(s[dot + 1..]);
      var dot :| at + 1 < dot < |s| - 1 && s[dot] == '.' && NoSpaceNorAt(s[at + 1..dot]) && NoSpaceNorAt(s[dot + 1..]);
      forall k | 0 <= k < |s| ensures !IsSpace(s[k]) && (s[k] == '@' ==> k == at) {
        if k < at {
          assert s[..at][k] == s[k];
        } else if at < k < dot {
          assert s[at + 1..dot][k - at - 1] == s[k];
        } else if k > dot {
          assert s[dot + 1..][k - dot - 1] == s[k];
        }
      }
      assert SingleAt(s, at);
    }
    if NoSpace(s) && exists at :: 0 < at && SingleAt(s, at) && exists dot :: at + 1 < dot < |s| - 1 && s[dot] == '.' {
      var at :| 0 < at && SingleAt(s, at) && exists dot :: at + 1 < dot < |s| - 1 && s[dot] == '.';
      var dot :| at + 1 < dot < |s| - 1 && s[dot] == '.';
      assert NoSpaceNorAt(s[..at]);
      assert NoSpaceNorAt(s[at + 1..dot]);
      assert NoSpaceNorAt(s[dot + 1..]);
    }
  }

  /** Characters beyond the Basic Multilingual Plane count twice: two emoji
      make an acceptable name, and five make an acceptable phone. */
  lemma AstralCharactersCountTwice()
    ensures NameOk("\U{1F600}\U{1F600}")
    ensures PhoneOk("\U{1F4DE}\U{1F4DE}\U{1F4DE}\U{1F4DE}\U{1F4DE}")
  {
    var name := "\U{1F600}\U{1F600}";
    Utf16LengthOfAstralPair();
    assert !IsSpace(name[0]);
    var phone := "\U{1F4DE}\U{1F4DE}\U{1F4DE}\U{1F4DE}\U{1F4DE}";
    assert phone[1..][1..][1..][1..][1..] == [];
  }

  /** A form whose every rule passes is valid. */
  lemma {:induction false} ValidWhenAllRulesPass(form: Form)
    requires NameOk(form.name) && EmailOk(form.email) && PhoneOk(form.phone)
    requires DocumentOk(form.document) && ZipCodeOk(form.zipCode)
    requires Filled(form.street) && Filled(form.number) && Filled(form.neighborhood)
    requires Filled(form.city) && Filled(form.state)
    ensures Validate(form).valid
  {
    forall f | f in Checked ensures FieldOk(form, f) {
    }
    assert Validate(form).errors == map[];
  }
}
