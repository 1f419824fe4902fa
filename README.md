# Contact-form controller of the portfolio site

This project models the one piece of logic in the site that has a contract:
the controller inside the `ContactSection` component. It keeps five pieces of
React state:

- `formData`: the name, e-mail and message inputs.
- `errors`: a map from `name`, `email`, `message` and `recaptcha` to a message.
- `isSubmitting`.
- `submitStatus`: `null`, `"success"` or `"error"`.
- `recaptchaToken`.

These events change that state:

- typing into an input (`handleChange`);
- the CAPTCHA widget's solve and expiry callbacks;
- form submission (`handleSubmit`, which runs `validateForm` and then sends the
  message through the mail service);
- the close button of the status banner;
- expiry of the status timer.

The project has four modules, one per concern:

- `JsString` (`js_string.dfy`): the ECMAScript white-space set and `String.prototype.trim`. Both `trim` and the
  regular-expression escape `\s` use this same set (WhiteSpace plus
  LineTerminator), so one predicate `IsWs` serves both. "Empty after trim" is
  proved to mean "every character is white space".
- `EmailPattern` (`email_pattern.dfy`): the regular expression
  `^[^\s@]+@[^\s@]+\.[^\s@]+$`, stated as what it denotes (three class runs
  around an "@" and a "."). It is proved equal to the reading "local part, one
  "@", domain with an inner dot". This is a minimal shape test, not the address
  syntax of RFC 5322.
- `ContactValidation` (`validation.dfy`): the form data, the error map and the four checks of
  `validateForm` as pure functions. `FormErrors` is the object that
  `validateForm` builds. The lemmas state when each entry appears, that the
  entries are independent of each other, and that validation passes exactly
  when no check fires.
- `ContactForm` (`contact_form.dfy`): the component state as the class `ContactSection`, one method per
  event. The mail send is asynchronous, so `handleSubmit` is split at its
  `await`:
  - `BeginSubmit` is the synchronous part up to the dispatch.
  - `SettleSend(succeeded)` is the continuation once the send resolves. Its
    outcome, success or failure, is a parameter chosen by the environment.
  - `HandleSubmit(sendSucceeds)` chains the two for a run in which no other
    event arrives while the send is in flight.

  Two ghost fields record history: `dispatched` (every payload sent) and
  `settled` (how many sends have completed). The invariant `Valid()` uses them
  to state that at most one send is in flight, and only while `isSubmitting`
  holds.

Behaviours of the code that are easy to misread:

- The CAPTCHA check tests `!recaptchaToken`, which is JavaScript truthiness. An
  empty token string therefore counts as missing, just like `null`
  (`TokenMissing`).
- `handleSubmit` never tests `isSubmitting` itself. The only guard is that the
  submit button is disabled while a send is in flight. So "a second submit
  while submitting" is a precondition of the submit event
  (`requires !isSubmitting`), not a rejection inside the method.
- The CAPTCHA solve callback decides whether to clear the `recaptcha` error by
  reading the `errors` value that its closure captured when the widget was
  rendered, not the current one. The blanking itself goes through the
  functional update, so it applies to the current map. The model passes that
  captured map as a parameter (`captured`). It does not claim that solving the
  CAPTCHA clears a shown error.
- Clearing an error writes `""` under the key rather than deleting it.
  `errors` is therefore a `map<ErrorKey, string>` in which an absent key and
  `""` both mean "no error" (`HasError`). `Shown` gives the set of errors
  actually displayed, and `ClearError` is proved to remove `k`, and only `k`,
  from that set (nothing, if `k` was not shown).

## Model

| member | source | states |
|---|---|---|
| `JsString.IsWs` | app/components/ContactSection.js:176-183 | the one white-space set shared by `trim` (176, 181, 188) and `\s` in the pattern (183); its meaning for `trim` is stated by `TrimSpec` and `BlankIffAllWs`, for the pattern by `RegexRejectsWs` |
| `JsString.TrimStart` | app/components/ContactSection.js:176 | trimming the front never lengthens the string |
| `JsString.TrimEnd` | app/components/ContactSection.js:176 | trimming the back never lengthens the string |
| `JsString.TrimStartSpec` | app/components/ContactSection.js:176 | the front trim keeps a suffix, drops only white space, and what it keeps does not start with white space |
| `JsString.TrimEndSpec` | app/components/ContactSection.js:176 | the back trim keeps a prefix, drops only white space, and what it keeps does not end with white space |
| `JsString.TrimSpec` | app/components/ContactSection.js:176 | `trim` returns a slice of its input with only white space cut from either end, and the slice neither starts nor ends with white space |
| `JsString.Trim` | app/components/ContactSection.js:176 | `s.trim()`; `TrimSpec` states that it is the slice of `s` between leading and trailing white space |
| `JsString.IsBlank` | app/components/ContactSection.js:176 | `!s.trim()`; `BlankIffAllWs` states that it holds exactly for white-space-only strings |
| `JsString.BlankIffAllWs` | app/components/ContactSection.js:176-188 | `!s.trim()` holds exactly when every character of `s` is white space |
| `JsString.TrimOfNoWs` | app/components/ContactSection.js:181-183 | `trim` leaves a string without white space unchanged |
| `EmailPattern.MatchesEmailRegex` | app/components/ContactSection.js:183 | `/^[^\s@]+@[^\s@]+\.[^\s@]+$/.test(s)` as an "@" and a "." splitting `s` into three non-empty class runs; `RegexIffAddressShape` relates it to the independent address-shape reading |
| `EmailPattern.RegexIffAddressShape` | app/components/ContactSection.js:183 | the regex accepts `s` iff `s` is a non-empty local part without "@" or white space, one "@", then a domain without "@" or white space that has a "." neither first nor last |
| `EmailPattern.RegexRejectsWs` | app/components/ContactSection.js:183 | because the regex is applied to the untrimmed value, any white space anywhere, leading or trailing included, makes it fail |
| `EmailPattern.RegexSingleAt` | app/components/ContactSection.js:183 | an accepted string holds exactly one "@" |
| `EmailPattern.RegexMatchIsTrimmed` | app/components/ContactSection.js:181-183 | an accepted string is its own trim, so a value that passes the format check can never fail the required check |
| `EmailPattern.AcceptsShortAddress` | app/components/ContactSection.js:183 | "a@b.co" passes the format check |
| `EmailPattern.RejectsNoAt` | app/components/ContactSection.js:183 | "not-an-email" fails the format check |
| `EmailPattern.RejectsLeadingSpace` | app/components/ContactSection.js:183 | " a@b.co" fails the format check because of its leading space |
| `ContactValidation.FormData.With` | app/components/ContactSection.js:158-161 | writing input `f` sets `f` to the new value and keeps the other two inputs |
| `ContactValidation.HasError` | app/components/ContactSection.js:164 | `errors[k]` is truthy: present and not `""`; `ClearError` and `BlankingHides` state how blanking changes it |
| `ContactValidation.Shown` | app/components/ContactSection.js:126 | the keys whose `errors[k]` is truthy, i.e. the errors on screen; `FormErrorsAllShown` states that every entry of `newErrors` is one |
| `ContactValidation.ClearError` | app/components/ContactSection.js:164-169 | after clearing, `k` shows no error, the shown set loses exactly `k`, and every other key keeps its presence and message |
| `ContactValidation.TokenMissing` | app/components/ContactSection.js:193 | `!recaptchaToken`: `null` or the empty token; `RecaptchaErrorIff` states that it decides the `recaptcha` entry |
| `ContactValidation.NameCheck` | app/components/ContactSection.js:176-178 | the name check; `NameErrorIff` states its meaning |
| `ContactValidation.EmailCheck` | app/components/ContactSection.js:181-185 | the e-mail check, required before format; `EmailErrorCases` states its meaning |
| `ContactValidation.MessageCheck` | app/components/ContactSection.js:188-190 | the message check; `MessageErrorIff` states its meaning |
| `ContactValidation.RecaptchaCheck` | app/components/ContactSection.js:193-195 | the CAPTCHA check; `RecaptchaErrorIff` states its meaning |
| `ContactValidation.FormErrors` | app/components/ContactSection.js:173-195 | the `newErrors` object; `FormErrorsKeys`, `FormErrorsEmptyIff` and `FormErrorsLocal` state its meaning, and `ContactForm.CollectErrors` proves the step-by-step build equal to it |
| `ContactValidation.FormErrorsKeys` | app/components/ContactSection.js:173-195 | a key is in the validation result exactly when its own check fires, it is one of the four keys, and its value is that check's message |
| `ContactValidation.FormErrorsAllShown` | app/components/ContactSection.js:173-195 | every message validation stores is non-empty, so each stored entry is a shown error |
| `ContactValidation.NameErrorIff` | app/components/ContactSection.js:176-178 | `name` gets "Name is required" iff the name is white space only |
| `ContactValidation.EmailErrorCases` | app/components/ContactSection.js:181-185 | "Email is required" iff the e-mail is white space only; otherwise the format message iff the untrimmed value is not of address shape; no other message |
| `ContactValidation.MessageErrorIff` | app/components/ContactSection.js:188-190 | `message` gets "Message is required" iff the message is white space only |
| `ContactValidation.RecaptchaErrorIff` | app/components/ContactSection.js:193-195 | a `recaptcha` entry is present iff the token is missing, whatever the inputs hold |
| `ContactValidation.FormErrorsEmptyIff` | app/components/ContactSection.js:197-198 | the result has no keys exactly when none of the four checks fires |
| `ContactValidation.FormErrorsLocal` | app/components/ContactSection.js:176-195 | each entry depends only on its own input, or on the token for `recaptcha` |
| `ContactValidation.BlankFormAllErrors` | app/components/ContactSection.js:172-198 | inputs that are all white space plus a missing token give all four errors at once |
| `ContactForm.PayloadOf` | app/components/ContactSection.js:223-228 | the template parameters of the send: `from_name`, `from_email` and `message` are the three inputs, `g-recaptcha-response` is the token; `PayloadInjective` states that none of them is lost |
| `ContactForm.PayloadInjective` | app/components/ContactSection.js:223-228 | the template parameters determine the input and token they were built from: two payloads are equal exactly when the inputs and tokens are |
| `ContactForm.CollectErrors` | app/components/ContactSection.js:173-195 | building `newErrors` check by check yields exactly `FormErrors` of the inputs and token |
| `ContactForm.NoKeysIsEmpty` | app/components/ContactSection.js:198 | `Object.keys(newErrors).length === 0` holds exactly for the empty map |
| `ContactForm.BlankingHides` | app/components/ContactSection.js:127 | writing `""` under a key hides exactly that key's error |
| `ContactForm.ContactSection.Valid` | app/components/ContactSection.js:201-245 | the class invariant: at most one send is in flight, and only while `isSubmitting`; while it is, no banner and no error is shown. Every event method preserves it |
| `ContactForm.ContactSection.constructor` | app/components/ContactSection.js:93-101 | the initial state: empty inputs and no errors, not submitting, no status and no token |
| `ContactForm.ContactSection.HandleChange` | app/components/ContactSection.js:156-170 | only input `f` changes, to `value`; `errors[f]` is blanked only if it was shown; no other state changes |
| `ContactForm.ContactSection.OnRecaptchaVerified` | app/components/ContactSection.js:124-129 | the token becomes the issued one; the `recaptcha` entry is blanked only if the captured `errors` showed it |
| `ContactForm.ContactSection.OnRecaptchaExpired` | app/components/ContactSection.js:130-132 | the token is dropped and nothing else changes |
| `ContactForm.ContactSection.ValidateForm` | app/components/ContactSection.js:172-199 | `errors` is replaced wholesale by `FormErrors` of the current inputs and token; the result is true iff no check fires; called only from `handleSubmit`, so outside a send, and it keeps the invariant `Valid()` |
| `ContactForm.ContactSection.BeginSubmit` | app/components/ContactSection.js:201-230 | on invalid input only `errors` changes and nothing is sent; otherwise exactly one payload with the current inputs and token is dispatched, `isSubmitting` is set and the status is `null` |
| `ContactForm.ContactSection.SettleSend` | app/components/ContactSection.js:232-244 | submitting ends either way; on success the status is "success", the inputs are emptied and the token is dropped; on failure the status is "error" and the inputs and token are kept |
| `ContactForm.ContactSection.HandleSubmit` | app/components/ContactSection.js:201-245 | the whole handler with no interleaved event: invalid input sends nothing and changes only `errors`; valid input sends once; success clears the inputs and token; failure keeps exactly the submitted input |
| `ContactForm.ContactSection.DismissBanner` | app/components/ContactSection.js:486-504 | the close button of either banner (the success one at 486, the error one at 504); closing a shown banner resets the status to `null` |
| `ContactForm.ContactSection.StatusTimerExpired` | app/components/ContactSection.js:143-148 | expiry of the armed status timer resets the status to `null` |
| `ContactForm.AvaAcceptable` | app/components/ContactSection.js:172-198 | "Ava", "ava@x.com", "Hi" with the token "tok1" passes validation |
| `ContactForm.AvaAddress` | app/components/ContactSection.js:183 | "ava@x.com" is of address shape |
| `ContactForm.ScenarioSuccessfulSend` | app/components/ContactSection.js:201-245 | after filling in the form, solving the CAPTCHA and a successful send, the service got exactly that input and token, the status is "success", and the inputs and token are cleared |
| `ContactForm.ScenarioEmptySubmit` | app/components/ContactSection.js:172-211 | `handleSubmit` called directly on the untouched form without a token (the browser's own constraint validation, which would stop this submit first, is not modelled) sends nothing and stores all four errors |
| `ContactForm.ScenarioFailedSendRetry` | app/components/ContactSection.js:239-244 | a failed send shows "error" and keeps the input; dismissing clears the status; the retry sends the same payload again |

## Left out

- Loading the reCAPTCHA script, `grecaptcha.ready` and `grecaptcha.render`
  (lines 106-140). These are DOM and foreign-library calls; only their
  effect, the two callbacks, is modelled.
- `grecaptcha.reset()` after a successful send (lines 235-237). This is a
  foreign call; only the local effect, dropping the token, is modelled.
- The dynamic `import("@emailjs/browser")` and `emailjs.send` (lines 218-230).
  These are I/O. The send is the dispatched payload plus an outcome parameter,
  and a failed import counts as a failed send, just as the `catch` treats it.
- The 15-second `setTimeout` and its cleanup (lines 143-153). Wall-clock time
  is not modelled; expiry is the discrete event `StatusTimerExpired`. Because
  the effect depends on `errors` as well as on `submitStatus`, the real timer
  restarts whenever `errors` changes. That timing is not captured.
- The shake animation on failed validation (lines 206-209). It only adds and
  removes a DOM class.
- `e.preventDefault()`, `console.log` and `console.error`. These have no effect
  on the state.
- React's batching of state updates. Each event is one atomic step. Within an
  event, reads see the state left by the previous event, which matches the
  code when no updates are pending.
- JavaScript strings are UTF-16 code units; Dafny `char` is a Unicode scalar
  value. All white-space code points lie in the Basic Multilingual Plane, so
  the checks agree on every string. Unpaired surrogates are not represented.
- The browser's constraint validation of the `<form>` (lines 374-378, no
  `noValidate`). The inputs carry `required` (lines 392, 422, 452) and the
  e-mail input has `type="email"` (line 417), so on the page the `submit`
  event, and with it `handleSubmit`, does not fire while an input is `""` or
  the e-mail is not a valid HTML e-mail address; the browser shows its own
  tooltip instead. The e-mail input's value is also sanitized by the browser
  (newlines stripped, leading and trailing ASCII white space trimmed) before
  `handleChange` sees it. The model lets every submit event and every input
  value through to the handlers. This over-approximates what the page allows,
  so the proved properties still hold on the page, but some modelled outcomes
  (all four errors on an untouched form, "Email is required", an e-mail with
  a leading space) cannot be reached there.
- The `ContactItem` component, the rest of the JSX and styling, and the other components
  (`HeroSection`, `Header`, `ClientReviews`, `Services`, `ProjectsShowcase`,
  `Footer`, `page.js`, `constants.js`). These are markup, animation or static
  content with no further contract of their own.
