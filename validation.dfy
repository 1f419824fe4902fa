/** The values the contact form works on and the four checks of
    `validateForm` (app/components/ContactSection.js). */
module ContactValidation {
  import opened JsString
  import opened EmailPattern

  datatype Option<+T> = None | Some(value: T)

  /** The three user-editable inputs, by their `name` attribute. */
  datatype Field = Name | Email | Message

  /** The keys of the `errors` object: one per input, plus `recaptcha`. */
  datatype ErrorKey = FieldError(field: Field) | RecaptchaError

  /** `formData`: the current text of the three inputs. */
  datatype FormData = FormData(name: string, email: string, message: string)
  {
    /** `formData[f]`. */
    function Get(f: Field): string {
      match f
      case Name => name
      case Email => email
      case Message => message
    }

    /** `{ ...formData, [f]: v }`: field `f` becomes `v`, the others keep
        their text. */
    function With(f: Field, v: string): (r: FormData)
      ensures r.Get(f) == v
      ensures forall g :: g != f ==> r.Get(g) == Get(g)
    {
      match f
      case Name => this.(name := v)
      case Email => this.(email := v)
      case Message => this.(message := v)
    }
  }

  /** The initial form, and the form after a successful send. */
  const EmptyForm := FormData("", "", "")

  /** The messages `validateForm` stores; none of them is "". */
  const NameRequired := "Name is required"
  const EmailRequired := "Email is required"
  const EmailInvalid := "Please enter a valid email address"
  const MessageRequired := "Message is required"
  const RecaptchaRequired := "Please verify you are not a robot"

  type Errors = map<ErrorKey, string>

  /** `errors[k]` is truthy: the key is present with a non-empty message.
      An absent key and the value "" both mean "no error". */
  predicate HasError(errors: Errors, k: ErrorKey) {
    k in errors && errors[k] != ""
  }

  /** The keys whose error is shown: the abstract content of `errors`. */
  function Shown(errors: Errors): set<ErrorKey> {
    set k | k in errors && errors[k] != ""
  }

  /** `if (errors[k]) setErrors(prev => ({ ...prev, [k]: "" }))`: the error of
      `k` stops being shown, every other entry is untouched. */
  function ClearError(errors: Errors, k: ErrorKey): (r: Errors)
    ensures !HasError(r, k)
    ensures Shown(r) == Shown(errors) - {k}
    ensures forall k' :: k' != k ==> (k' in r <==> k' in errors)
    ensures forall k' :: k' != k && k' in r ==> r[k'] == errors[k']
  {
    if HasError(errors, k) then errors[k := ""] else errors
  }

  /** `!recaptchaToken`: no token, or the falsy empty token. */
  predicate TokenMissing(token: Option<string>) {
    token.None? || token.value == ""
  }

  /** The name check: required after trimming. */
  function NameCheck(name: string): Option<string> {
    if IsBlank(name) then Some(NameRequired) else None
  }

  /** The e-mail check: required after trimming; otherwise the pattern is
      applied to the untrimmed text. */
  function EmailCheck(email: string): Option<string> {
    if IsBlank(email) then Some(EmailRequired)
    else if !MatchesEmailRegex(email) then Some(EmailInvalid)
    else None
  }

  /** The message check: required after trimming. */
  function MessageCheck(message: string): Option<string> {
    if IsBlank(message) then Some(MessageRequired) else None
  }

  /** The CAPTCHA check: a token must have been issued. */
  function RecaptchaCheck(token: Option<string>): Option<string> {
    if TokenMissing(token) then Some(RecaptchaRequired) else None
  }

  /** The verdict of the check that owns key `k`. */
  function Check(data: FormData, token: Option<string>, k: ErrorKey): Option<string> {
    match k
    case FieldError(Name) => NameCheck(data.name)
    case FieldError(Email) => EmailCheck(data.email)
    case FieldError(Message) => MessageCheck(data.message)
    case RecaptchaError => RecaptchaCheck(token)
  }

  const AllKeys: set<ErrorKey> :=
    {FieldError(Name), FieldError(Email), FieldError(Message), RecaptchaError}

  /** The entries that the checks of the keys in `ks` contribute. */
  function ChecksOf(data: FormData, token: Option<string>, ks: set<ErrorKey>): Errors {
    map k | k in ks && Check(data, token, k).Some? :: Check(data, token, k).value
  }

  /** The `newErrors` object `validateForm` builds: one entry for each check
      that fires, holding that check's message, and nothing else. */
  function FormErrors(data: FormData, token: Option<string>): Errors {
    ChecksOf(data, token, AllKeys)
  }

  /** Every key of `FormErrors` is one of the four, and it is present exactly
      when its check fires. */
  lemma FormErrorsKeys(data: FormData, token: Option<string>, k: ErrorKey)
    ensures k in FormErrors(data, token) <==> Check(data, token, k).Some?
    ensures k in FormErrors(data, token) ==> k in AllKeys && FormErrors(data, token)[k] == Check(data, token, k).value
  {
    match k
    case FieldError(f) => assert f == Name || f == Email || f == Message;
    case RecaptchaError =>
  }

  /** Every message `validateForm` stores is non-empty, so its entries are
      exactly the errors the form shows. */
  lemma FormErrorsAllShown(data: FormData, token: Option<string>)
    ensures Shown(FormErrors(data, token)) == FormErrors(data, token).Keys
  {
    var e := FormErrors(data, token);
    forall k | k in e ensures e[k] != "" {
      FormErrorsKeys(data, token, k);
    }
  }

  /** `name` gets "Name is required" exactly when it is white space only,
      whatever the other inputs and the token hold. */
  lemma NameErrorIff(data: FormData, token: Option<string>)
    ensures FieldError(Name) in FormErrors(data, token) <==> AllWs(data.name)
    ensures FieldError(Name) in FormErrors(data, token) ==>
              FormErrors(data, token)[FieldError(Name)] == NameRequired
  {
    FormErrorsKeys(data, token, FieldError(Name));
    BlankIffAllWs(data.name);
  }

  /** `message` gets "Message is required" exactly when it is white space
      only, whatever the other inputs and the token hold. */
  lemma MessageErrorIff(data: FormData, token: Option<string>)
    ensures FieldError(Message) in FormErrors(data, token) <==> AllWs(data.message)
    ensures FieldError(Message) in FormErrors(data, token) ==>
              FormErrors(data, token)[FieldError(Message)] == MessageRequired
  {
    FormErrorsKeys(data, token, FieldError(Message));
    BlankIffAllWs(data.message);
  }

  /** `email` gets "Email is required" exactly when it is white space only;
      otherwise it gets the format error exactly when the untrimmed text is
      not of address shape; never both. */
  lemma EmailErrorCases(data: FormData, token: Option<string>)
    ensures var e := FormErrors(data, token);
      (FieldError(Email) in e && e[FieldError(Email)] == EmailRequired) <==> AllWs(data.email)
    ensures var e := FormErrors(data, token);
      (FieldError(Email) in e && e[FieldError(Email)] == EmailInvalid) <==>
        !AllWs(data.email) && !IsAddressShape(data.email)
    ensures var e := FormErrors(data, token);
      FieldError(Email) in e ==> e[FieldError(Email)] in {EmailRequired, EmailInvalid}
  {
    FormErrorsKeys(data, token, FieldError(Email));
    BlankIffAllWs(data.email);
    RegexIffAddressShape(data.email);
  }

  /** A `recaptcha` entry is present exactly when the token is missing,
      whatever the inputs hold. */
  lemma RecaptchaErrorIff(data: FormData, token: Option<string>)
    ensures RecaptchaError in FormErrors(data, token) <==> TokenMissing(token)
    ensures RecaptchaError in FormErrors(data, token) ==>
              FormErrors(data, token)[RecaptchaError] == RecaptchaRequired
  {
    FormErrorsKeys(data, token, RecaptchaError);
  }

  /** The condition under which the form passes validation: every input has a
      non-white-space character, the e-mail is of address shape, and a
      token is present. `!AllWs(data.email)` follows from the address shape;
      it is kept so that each of the four checks has its own conjunct. */
  predicate Acceptable(data: FormData, token: Option<string>) {
    !AllWs(data.name) && !AllWs(data.message) &&
    !AllWs(data.email) && IsAddressShape(data.email) && !TokenMissing(token)
  }

  /** `validateForm` returns true (no key in `newErrors`) exactly when none
      of the four checks fires. */
  lemma FormErrorsEmptyIff(data: FormData, token: Option<string>)
    ensures FormErrors(data, token) == map[] <==> Acceptable(data, token)
  {
    NameErrorIff(data, token);
    MessageErrorIff(data, token);
    EmailErrorCases(data, token);
    RecaptchaErrorIff(data, token);
    if Acceptable(data, token) {
      forall k | k in FormErrors(data, token) ensures false {
        FormErrorsKeys(data, token, k);
      }
    }
  }

  /** Each entry depends on its own input only: changing the other inputs or
      the token leaves it as it was. */
  lemma FormErrorsLocal(d1: FormData, t1: Option<string>, d2: FormData, t2: Option<string>, k: ErrorKey)
    requires k.FieldError? ==> d1.Get(k.field) == d2.Get(k.field)
    requires k == RecaptchaError ==> t1 == t2
    ensures (k in FormErrors(d1, t1)) == (k in FormErrors(d2, t2))
    ensures k in FormErrors(d1, t1) ==> FormErrors(d1, t1)[k] == FormErrors(d2, t2)[k]
  {
    FormErrorsKeys(d1, t1, k);
    FormErrorsKeys(d2, t2, k);
  }

  /** A form whose three inputs are all white space, submitted without a
      token, surfaces all four errors at once. */
  lemma BlankFormAllErrors(data: FormData, token: Option<string>)
    requires AllWs(data.name) && AllWs(data.email) && AllWs(data.message)
    requires TokenMissing(token)
    ensures FormErrors(data, token).Keys == AllKeys
  {
    var e := FormErrors(data, token);
    forall k ensures k in e <==> k in AllKeys {
      FormErrorsKeys(data, token, k);
      match k
      case FieldError(Name) => BlankIffAllWs(data.name);
      case FieldError(Email) => BlankIffAllWs(data.email);
      case FieldError(Message) => BlankIffAllWs(data.message);
      case RecaptchaError =>
    }
  }
}
