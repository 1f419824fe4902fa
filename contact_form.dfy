/** The contact-form controller of `ContactSection`
    (app/components/ContactSection.js): its five pieces of React state as the
    fields of a class, and each event that changes them as a method. */
module ContactForm {
  import opened JsString
  import opened EmailPattern
  import opened ContactValidation

  /** `submitStatus`: `null` (no banner), `"success"` or `"error"`. */
  datatype SubmitStatus = Idle | Success | Error

  /** The template parameters handed to the mail service. */
  datatype Payload = Payload(fromName: string, fromEmail: string, message: string,
                             recaptchaResponse: string)

  /** What `handleSubmit` sends for the given form and token. */
  function PayloadOf(data: FormData, token: string): Payload {
    Payload(data.name, data.email, data.message, token)
  }

  /** The payload determines the input and token it was built from: two sends
      carry the same template parameters exactly when they were made from the
      same three inputs and the same token. */
  lemma PayloadInjective(d1: FormData, t1: string, d2: FormData, t2: string)
    ensures PayloadOf(d1, t1) == PayloadOf(d2, t2) <==> d1 == d2 && t1 == t2
  {
  }

  class ContactSection {
    var formData: FormData
    var errors: Errors
    var isSubmitting: bool
    var submitStatus: SubmitStatus
    var recaptchaToken: Option<string>

    /** Every payload ever handed to the mail service, in order. */
    ghost var dispatched: seq<Payload>
    /** How many of those sends have completed, either way. */
    ghost var settled: nat

    /** At most one send is in flight, and only while `isSubmitting`; while
        it is, no banner and no error is shown. */
    ghost predicate Valid()
      reads this
    {
      |dispatched| == settled + (if isSubmitting then 1 else 0) &&
      (isSubmitting ==> submitStatus == Idle && Shown(errors) == {})
    }

    /** The state React starts the component in. */
    constructor ()
      ensures Valid()
      ensures formData == EmptyForm && errors == map[] && !isSubmitting
      ensures submitStatus == Idle && recaptchaToken == None
      ensures dispatched == [] && settled == 0
    {
      formData := EmptyForm;
      errors := map[];
      isSubmitting := false;
      submitStatus := Idle;
      recaptchaToken := None;
      dispatched := [];
      settled := 0;
    }

    /** `handleChange`: input `f` now reads `value`; if `f` showed an error,
        its entry is blanked. Nothing else changes. */
    method HandleChange(f: Field, value: string)
      requires Valid()
      modifies this`formData, this`errors
      ensures Valid()
      ensures formData == old(formData).With(f, value)
      ensures errors == ClearError(old(errors), FieldError(f))
    {
      formData := formData.With(f, value);
      if HasError(errors, FieldError(f)) {
        errors := errors[FieldError(f) := ""];
      }
    }

    /** The CAPTCHA `callback(token)`. The error test reads `captured`, the
        `errors` of the render that installed the widget, while the blanking
        is applied to the current `errors`. */
    method OnRecaptchaVerified(token: string, captured: Errors)
      requires Valid()
      modifies this`recaptchaToken, this`errors
      ensures Valid()
      ensures recaptchaToken == Some(token)
      ensures errors == if HasError(captured, RecaptchaError)
                        then old(errors)[RecaptchaError := ""] else old(errors)
      ensures Shown(errors) == if HasError(captured, RecaptchaError)
                               then old(Shown(errors)) - {RecaptchaError} else old(Shown(errors))
    {
      recaptchaToken := Some(token);
      if HasError(captured, RecaptchaError) {
        BlankingHides(errors, RecaptchaError);
        errors := errors[RecaptchaError := ""];
      }
    }

    /** The CAPTCHA `expired-callback()`: the token is dropped. */
    method OnRecaptchaExpired()
      requires Valid()
      modifies this`recaptchaToken
      ensures Valid()
      ensures recaptchaToken == None
    {
      recaptchaToken := None;
    }

    /** `validateForm`: `errors` is replaced by a fresh object holding one
        entry per failing check; the result says whether there was none. */
    method ValidateForm() returns (ok: bool)
      requires Valid() && !isSubmitting
      modifies this`errors
      ensures Valid()
      ensures errors == FormErrors(formData, recaptchaToken)
      ensures ok <==> Acceptable(formData, recaptchaToken)
    {
      var newErrors := CollectErrors(formData, recaptchaToken);
      errors := newErrors;
      ok := |newErrors| == 0;
      NoKeysIsEmpty(newErrors);
      FormErrorsEmptyIff(formData, recaptchaToken);
    }

    /** The synchronous part of `handleSubmit`, up to the `await` of the
        send. The button is disabled while a send is in flight, so the event
        only arrives when `!isSubmitting`. If validation fails, only `errors`
        changes and nothing is sent; otherwise the current fields and token
        are sent exactly once, with the banner cleared. */
    method BeginSubmit() returns (sent: Option<Payload>)
      requires Valid() && !isSubmitting
      modifies this
      ensures Valid()
      ensures errors == FormErrors(old(formData), old(recaptchaToken))
      ensures formData == old(formData) && recaptchaToken == old(recaptchaToken)
      ensures settled == old(settled)
      ensures sent.Some? <==> Acceptable(formData, recaptchaToken)
      ensures sent.None? ==>
                !isSubmitting && submitStatus == old(submitStatus) && dispatched == old(dispatched)
      ensures sent.Some? ==>
                isSubmitting && submitStatus == Idle && recaptchaToken.Some? &&
                sent.value == PayloadOf(formData, recaptchaToken.value) &&
                dispatched == old(dispatched) + [sent.value]
    {
      var ok := ValidateForm();
      if !ok {
        return None;
      }
      FormErrorsEmptyIff(formData, recaptchaToken);
      isSubmitting := true;
      submitStatus := Idle;
      var p := PayloadOf(formData, recaptchaToken.value);
      dispatched := dispatched + [p];
      sent := Some(p);
    }

    /** The rest of `handleSubmit`, once the send has resolved. On success the
        banner reads "success", the inputs are emptied and the token is
        dropped (the widget is reset); on failure the banner reads "error"
        and the inputs and token are kept. Either way submitting ends. */
    method SettleSend(succeeded: bool)
      requires Valid() && isSubmitting
      modifies this
      ensures Valid() && !isSubmitting
      ensures settled == old(settled) + 1 && dispatched == old(dispatched)
      ensures errors == old(errors)
      ensures succeeded ==>
                submitStatus == Success && formData == EmptyForm && recaptchaToken == None
      ensures !succeeded ==>
                submitStatus == Error && formData == old(formData) &&
                recaptchaToken == old(recaptchaToken)
    {
      if succeeded {
        submitStatus := Success;
        formData := EmptyForm;
        recaptchaToken := None;
      } else {
        submitStatus := Error;
      }
      isSubmitting := false;
      settled := settled + 1;
    }

    /** `handleSubmit` from start to finish when no other event arrives while
        the send is in flight; `sendSucceeds` is the outcome of the send. */
    method HandleSubmit(sendSucceeds: bool) returns (sent: Option<Payload>)
      requires Valid() && !isSubmitting
      modifies this
      ensures Valid() && !isSubmitting
      ensures errors == FormErrors(old(formData), old(recaptchaToken))
      ensures sent.Some? <==> Acceptable(old(formData), old(recaptchaToken))
      ensures sent.None? ==>
                formData == old(formData) && recaptchaToken == old(recaptchaToken) &&
                submitStatus == old(submitStatus) &&
                dispatched == old(dispatched) && settled == old(settled)
      ensures sent.Some? ==>
                old(recaptchaToken).Some? &&
                sent.value == PayloadOf(old(formData), old(recaptchaToken).value) &&
                dispatched == old(dispatched) + [sent.value] && settled == old(settled) + 1
      ensures sent.Some? && sendSucceeds ==>
                submitStatus == Success && formData == EmptyForm && recaptchaToken == None
      ensures sent.Some? && !sendSucceeds ==>
                submitStatus == Error && formData == old(formData) &&
                recaptchaToken == old(recaptchaToken)
    {
      sent := BeginSubmit();
      if sent.Some? {
        SettleSend(sendSucceeds);
      }
    }

    /** The close button of either banner, which is only rendered while a
        banner is shown. */
    method DismissBanner()
      requires Valid() && submitStatus != Idle
      modifies this`submitStatus
      ensures Valid() && submitStatus == Idle
    {
      submitStatus := Idle;
    }

    /** Expiry of the 15-second timer, which is only armed while a banner
        is shown. */
    method StatusTimerExpired()
      requires Valid() && submitStatus != Idle
      modifies this`submitStatus
      ensures Valid() && submitStatus == Idle
    {
      submitStatus := Idle;
    }
  }

  /** The checks of `validateForm`, run one after the other on the inputs
      and token, each adding its entry to `newErrors` when it fires. */
  method CollectErrors(data: FormData, token: Option<string>) returns (newErrors: Errors)
    ensures newErrors == FormErrors(data, token)
  {
    newErrors := map[];
    ghost var done: set<ErrorKey> := {};
    ghost var before := newErrors;
    if IsBlank(data.name) {
      newErrors := newErrors[FieldError(Name) := NameRequired];
    }
    AddCheck(data, token, done, FieldError(Name), before, newErrors);
    done, before := done + {FieldError(Name)}, newErrors;
    if IsBlank(data.email) {
      newErrors := newErrors[FieldError(Email) := EmailRequired];
    } else if !MatchesEmailRegex(data.email) {
      newErrors := newErrors[FieldError(Email) := EmailInvalid];
    }
    AddCheck(data, token, done, FieldError(Email), before, newErrors);
    done, before := done + {FieldError(Email)}, newErrors;
    if IsBlank(data.message) {
      newErrors := newErrors[FieldError(Message) := MessageRequired];
    }
    AddCheck(data, token, done, FieldError(Message), before, newErrors);
    done, before := done + {FieldError(Message)}, newErrors;
    if TokenMissing(token) {
      newErrors := newErrors[RecaptchaError := RecaptchaRequired];
    }
    AddCheck(data, token, done, RecaptchaError, before, newErrors);
    AllChecksRun(data, token, newErrors);
  }

  /** Helper: running the check of `k` after those of `ks` adds its own
      entry and no other. */
  lemma AddCheck(data: FormData, token: Option<string>, ks: set<ErrorKey>, k: ErrorKey,
                 e: Errors, e': Errors)
    requires e == ChecksOf(data, token, ks)
    requires e' == if Check(data, token, k).Some?
                   then e[k := Check(data, token, k).value] else e
    ensures e' == ChecksOf(data, token, ks + {k})
  {
  }

  /** Helper: after the four checks, the entries are those of `FormErrors`. */
  lemma AllChecksRun(data: FormData, token: Option<string>, e: Errors)
    requires e == ChecksOf(data, token, {} + {FieldError(Name)} + {FieldError(Email)} +
                                        {FieldError(Message)} + {RecaptchaError})
    ensures e == FormErrors(data, token)
  {
    assert {} + {FieldError(Name)} + {FieldError(Email)} + {FieldError(Message)} +
           {RecaptchaError} == AllKeys;
  }

  /** Helper: `Object.keys(newErrors).length === 0` tests for `{}`. */
  lemma NoKeysIsEmpty(e: Errors)
    ensures |e| == 0 <==> e == map[]
  {
    if |e| == 0 {
      assert e.Keys == {};
    }
  }

  /** Blanking an entry hides exactly that entry's error. */
  lemma BlankingHides(errors: Errors, k: ErrorKey)
    ensures Shown(errors[k := ""]) == Shown(errors) - {k}
  {
  }

  const AvaForm := FormData("Ava", "ava@x.com", "Hi")

  /** Ava's input with the token "tok1" passes validation. */
  lemma AvaAcceptable()
    ensures Acceptable(AvaForm, Some("tok1"))
  {
    AvaAddress();
    assert !IsWs(AvaForm.name[0]);
    assert !IsWs(AvaForm.email[0]);
    assert !IsWs(AvaForm.message[0]);
  }

  /** "ava@x.com" is of address shape. */
  lemma AvaAddress()
    ensures IsAddressShape("ava@x.com")
  {
    var s := "ava@x.com";
    assert s[..3] == "ava" && s[4..5] == "x" && s[6..] == "com";
    assert MatchesAt(s, 3, 5);
    RegexIffAddressShape(s);
  }

  /** Ava fills in the form, solves the CAPTCHA and the send succeeds: the
      mail service receives exactly her input and token, the banner reads
      "success", and the form and token are cleared. */
  method ScenarioSuccessfulSend() returns (sent: Option<Payload>, status: SubmitStatus,
                                           form: FormData, token: Option<string>)
    ensures sent == Some(Payload("Ava", "ava@x.com", "Hi", "tok1"))
    ensures status == Success && form == EmptyForm && token == None
  {
    var c := new ContactSection();
    c.HandleChange(Name, "Ava");
    c.HandleChange(Email, "ava@x.com");
    c.HandleChange(Message, "Hi");
    c.OnRecaptchaVerified("tok1", c.errors);
    assert c.formData == AvaForm;
    AvaAcceptable();
    sent := c.HandleSubmit(true);
    status, form, token := c.submitStatus, c.formData, c.recaptchaToken;
  }

  /** Submitting the untouched form without solving the CAPTCHA shows all
      four errors and sends nothing. */
  method ScenarioEmptySubmit() returns (sent: Option<Payload>, errorKeys: set<ErrorKey>)
    ensures sent == None && errorKeys == AllKeys
  {
    var c := new ContactSection();
    assert AllWs("");
    BlankFormAllErrors(EmptyForm, None);
    FormErrorsEmptyIff(EmptyForm, None);
    sent := c.HandleSubmit(true);
    errorKeys := c.errors.Keys;
  }

  /** A failed send keeps the input; dismissing the "error" banner clears it
      at once, and the next attempt sends the same input again. */
  method ScenarioFailedSendRetry() returns (banner: SubmitStatus, afterDismiss: SubmitStatus,
                                            first: Option<Payload>, second: Option<Payload>)
    ensures banner == Error && afterDismiss == Idle
    ensures first.Some? && second == first
  {
    var c := new ContactSection();
    c.HandleChange(Name, "Ava");
    c.HandleChange(Email, "ava@x.com");
    c.HandleChange(Message, "Hi");
    c.OnRecaptchaVerified("tok1", c.errors);
    assert c.formData == AvaForm;
    AvaAcceptable();
    first := c.HandleSubmit(false);
    banner := c.submitStatus;
    c.DismissBanner();
    afterDismiss := c.submitStatus;
    second := c.HandleSubmit(true);
  }
}
