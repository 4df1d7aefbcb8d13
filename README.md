# Change-password form and window routes, modelled in Dafny

This project models the decision logic of two files from a desktop
application's password-change flow:

- **change-password.js**: the page where a signed-in user changes their
  password. While the user types, five requirement indicators are updated:
  length, uppercase, lowercase, number and special character. Each shows
  `valid` or `invalid`. On submit, the trimmed values go through a fixed
  sequence of checks, and the first failing check's message is shown. If
  every check passes, the button is disabled and the identity provider is
  asked to update the password. On failure the button is re-enabled. On
  success the page navigates to the admin window or the user dashboard,
  depending on the account's role.
- **adminRoutes.js**: three resolvers that turn the runtime context into
  the URL of the auth, admin or dashboard window. The context is a
  bundler-injected entry constant, the global `window` and its `location`.
  The resolvers distinguish three environments: a development server on
  port 9000, a packaged `file:` build, and a page already inside one of
  the windows. They never raise: every failure ends in a relative fallback
  path.

The modules:

- `JsStrings` (js_strings.dfy): the JavaScript string operations the code
  relies on. `trim` strips ECMAScript white space and line terminators.
  `includes` tests for a substring. `length` is counted in UTF-16 code
  units, so a character outside the Basic Multilingual Plane counts twice.
- `PasswordPolicy` (password_policy.dfy): the four character classes, the
  regular-expression `test` as a left-to-right scan, the five requirement
  flags and the submit validation chain. The chain is proved against an
  independent statement of its precedence: an ordered list of rules and the
  index of the first rule that fails.
- `AdminRoutes` (admin_routes.dfy): `resolveFileUrl` and the three
  resolvers, as functions over a `Context`. The `URL` constructor is a
  parameter of the context: a partial function that yields `None` where
  the constructor would raise.
- `ChangePassword` (change_password.dfy): the page's mutable state.
  `Indicator` is an element whose `classList` the input handler edits by
  removing one class and then adding the other. `ChangePasswordForm` holds
  the five indicators, the error and success messages, the button's
  `disabled` flag and label, and the last navigation. Its input handler
  and its two-phase submit handler are methods.
- `Wrappers` (wrappers.dfy): `Option`, which stands for JavaScript's
  `undefined`/`null` and for operations that may raise.

## Model

| member | source | states |
|---|---|---|
| `JsStrings.TrimStartIsSuffix` | change-password.js:125-126 | Stripping leading white space leaves a suffix that does not start with white space, and everything dropped is white space |
| `JsStrings.TrimEndIsPrefix` | change-password.js:125-126 | Stripping trailing white space leaves a prefix that does not end with white space, and everything dropped is white space |
| `JsStrings.TrimIsSlice` | change-password.js:125-126 | `trim()` returns the slice between a run of leading and a run of trailing white space, and the slice neither starts nor ends with white space |
| `JsStrings.TrimKeeps` | change-password.js:125-126 | A character that is not white space occurs in the trimmed string exactly when it occurs in the original |
| `JsStrings.TrimOfUnpadded` | change-password.js:125-126 | A string with no white space at either end is its own trim |
| `JsStrings.TrimDropsLeading` | change-password.js:125-126 | A leading white-space character does not change the trim |
| `JsStrings.TrimIdempotent` | change-password.js:125-126 | Trimming twice gives the same result as trimming once |
| `JsStrings.TrimShortens` | change-password.js:125-126 | Trimming never increases the length in code units |
| `JsStrings.Utf16Length` | change-password.js:73 | `length` lies between the number of characters and twice that number |
| `JsStrings.Utf16LengthIsCount` | change-password.js:73 | `length` equals the number of characters exactly when every character lies in the Basic Multilingual Plane |
| `JsStrings.Utf16LengthAppend` | change-password.js:73 | `length` adds up over concatenation |
| `PasswordPolicy.TestMeaning` | change-password.js:82-115 | A one-class regular-expression test succeeds exactly when some character of the string lies in the class |
| `PasswordPolicy.TestFinds` | change-password.js:82-115 | The test succeeds whenever some position holds a class member |
| `PasswordPolicy.TestMisses` | change-password.js:82-115 | The test fails on a string with no class member |
| `PasswordPolicy.EvaluateMeaning` | change-password.js:73-115 | The length flag holds exactly when `length` >= 8. The uppercase, lowercase, number and special flags each hold exactly when the string contains a character in `A-Z`, `a-z`, `0-9` or the special set, respectively |
| `PasswordPolicy.NotSpecial` | change-password.js:109 | Backtick, tilde, space, letters and digits are not in the special set |
| `PasswordPolicy.ClassNotTrimmable` | change-password.js:109 | No character of the four classes is white space that `trim` strips |
| `PasswordPolicy.TrimPreservesClass` | change-password.js:125 | Trimming does not change whether a string contains a member of a class |
| `PasswordPolicy.TrimPreservesClasses` | change-password.js:70 | The four class flags are the same on the raw and the trimmed value, so only the length check can differ between the live and the submit view |
| `PasswordPolicy.MessagesDistinct` | change-password.js:129-162 | Each check reports a different message, so a message identifies its check |
| `PasswordPolicy.Validate` | change-password.js:129-162 | The chain reports no failure exactly when the two values are equal and the new one meets all five requirements |
| `PasswordPolicy.SubmitError` | change-password.js:125-162 | Submit reports no message exactly when the trimmed values are equal and the trimmed new password meets all five requirements |
| `PasswordPolicy.FirstFailing` | change-password.js:129-162 | Returns the index of a failing rule such that every rule before it passes, or the end of the list when all rules pass |
| `PasswordPolicy.FirstFailingUnique` | change-password.js:129-162 | FirstFailing is the only index with that property |
| `PasswordPolicy.ValidateIsFirstFailure` | change-password.js:129-162 | The chain reports the first failing rule in the order empty, length, uppercase, lowercase, number, special, mismatch |
| `PasswordPolicy.SubmitErrorIsFirstFailure` | change-password.js:125-162 | Submit shows the message of the first rule the trimmed values fail, in that order, and no message when none fails |
| `PasswordPolicy.MismatchOnlyAfterPolicy` | change-password.js:159-162 | Mismatch is the first failure exactly when the confirmation is filled in, the new password meets all five requirements and the two trimmed values differ |
| `PasswordPolicy.ShortRawValueIsRefusedEarly` | change-password.js:134-137 | When the raw value is under 8 code units, submit fails at the empty check or the length check, before any class check |
| `PasswordPolicy.AcceptedImpliesLiveMet` | change-password.js:69-162 | Any value that submit accepts showed all five live indicators as met |
| `PasswordPolicy.LiveAndSubmitDiffer` | change-password.js:70-137 | `" Abc123!"` shows all five indicators met while typing, but submit refuses it with the length message, because submit checks the trimmed value |
| `PasswordPolicy.PaddedPasswordFlags` | change-password.js:73-115 | `" Abc123!"` meets all five requirements as typed |
| `PasswordPolicy.PaddedPasswordTrimmed` | change-password.js:125 | Trimming `" Abc123!"` leaves `"Abc123!"`, which is under 8 code units |
| `PasswordPolicy.Abc123IsUnpaddedAndShort` | change-password.js:134 | `"Abc123!"` is its own trim and is under 8 code units |
| `PasswordPolicy.ConfirmedStrongPasswordAccepted` | change-password.js:125-162 | A password that meets all five requirements and has no white space at either end passes submit when the confirmation repeats it |
| `PasswordPolicy.StrongPasswordMeetsPolicy` | change-password.js:73-115 | `"Abc12345!"` meets all five requirements |
| `PasswordPolicy.StrongPasswordAccepted` | change-password.js:125-164 | `"Abc12345!"`, confirmed, passes submit, so the provider is called |
| `PasswordPolicy.ShortPasswordRefused` | change-password.js:129-137 | With both fields filled in, a trimmed new password under 8 code units is refused with the length message, whatever else it lacks |
| `PasswordPolicy.WeakPasswordFlags` | change-password.js:73-115 | `"abc"` fails the length, uppercase, number and special requirements and meets only the lowercase one |
| `PasswordPolicy.WeakPasswordRefused` | change-password.js:129-137 | `"abc"` is refused with the length message whenever the confirmation is not blank |
| `PasswordPolicy.AbcIsUnpaddedAndShort` | change-password.js:134 | `"abc"` is its own trim and is under 8 code units |
| `PasswordPolicy.BmpLength` | change-password.js:73 | For a string inside the Basic Multilingual Plane, `length` is its number of characters |
| `AdminRoutes.ResolveFileUrl` | adminRoutes.js:5-22 | Returns the relative path unchanged when there is no location or URL construction raises, and the resolved `href` otherwise |
| `AdminRoutes.FileUrlIgnoresProtocol` | adminRoutes.js:13-17 | The `file:` branch and the other branch return the same result |
| `AdminRoutes.ResolveAuthLocation` | adminRoutes.js:24-52 | Precedence: a defined entry constant is returned as is. Otherwise a missing or unreadable window or location gives the auth fallback. Otherwise localhost or 127.0.0.1 on port `9000` gives `origin + '/main_window'`. Otherwise a pathname containing `/main_window` gives the current `href`. Otherwise the fallback is resolved |
| `AdminRoutes.ResolveAdminLocation` | adminRoutes.js:60-94 | Precedence: a defined entry constant is returned as is. Otherwise a missing or unreadable window or location gives the admin fallback. Otherwise `file:` resolves the fallback. Otherwise a dev server, or a pathname containing `/main_window` or `/auth/`, gives `origin + '/admin/'`. Otherwise the fallback is resolved |
| `AdminRoutes.ResolveUserDashboardLocation` | adminRoutes.js:96-130 | The same precedence as the admin resolver, with `/dashboard/` and the dashboard fallback |
| `AdminRoutes.EntryOverridesWindow` | adminRoutes.js:25-27 | A defined entry constant is returned whatever the window and URL resolution are, for each of the three resolvers |
| `AdminRoutes.AuthIgnoresProtocol` | adminRoutes.js:24-52 | The auth resolver has no `file:` branch, so its result never depends on the protocol |
| `AdminRoutes.AuthDevServerBeforePathname` | adminRoutes.js:36-45 | On the dev server, the auth resolver returns `origin + '/main_window'` even when the pathname already contains `/main_window` |
| `AdminRoutes.FileProtocolBeforeDevServer` | adminRoutes.js:72-74 | Under `file:`, the admin and dashboard resolvers resolve their fallback even on a local host at port `9000` |
| `AdminRoutes.PackagedAuthWindow` | adminRoutes.js:43-45 | In a packaged auth window, the auth resolver returns the current `href` while the admin resolver resolves its fallback |
| `AdminRoutes.AdminAndDashboardAgree` | adminRoutes.js:60-130 | With neither entry constant defined, the admin and dashboard resolvers always take the same branch |
| `AdminRoutes.ServedSectionsStayInOrigin` | adminRoutes.js:76-87 | Outside `file:`, a dev server or a pathname containing `/main_window` or `/auth/` sends admin and dashboard to a path in the current origin |
| `ChangePassword.Indicator.Reflect` | change-password.js:73-79 | After the update the element carries exactly one of `valid`/`invalid`, matching the requirement, and its other classes are unchanged |
| `ChangePassword.ChangePasswordForm.OnInput` | change-password.js:69-116 | After an input event, each of the five indicators shows its requirement evaluated on the raw value, and no other class changes |
| `ChangePassword.ChangePasswordForm.BeginSubmit` | change-password.js:119-165 | Both messages are cleared. When a check fails, its message is shown, nothing is sent and the button is untouched. Otherwise the button is disabled, labelled `Changing Password...`, and the trimmed password is what gets sent |
| `ChangePassword.ChangePasswordForm.FinishSubmit` | change-password.js:167-212 | A provider error shows the provider's message; an exception shows the generic message; both re-enable the button with label `Change Password`. Success shows the success message, keeps the button disabled and navigates by role |
| `ChangePassword.RedirectLocation` | change-password.js:193-205 | The admin location exactly when the role is `'admin'`; the dashboard location for any other role or a missing row |
| `ChangePassword.Submit` | change-password.js:119-212 | The provider is called only when submit reports no message, and then with the trimmed new password. A refused submit shows the first failing check's message, clears the success message and leaves the button's state and label as they were. A failed update shows the provider's message, or the generic one when the call raised, clears the success message, leaves the button enabled with label `Change Password` and does not navigate. A successful one leaves it disabled, shows the success message and navigates by role |

## Left out

- The identity-provider calls are foreign network operations: `getUser`, `updateUser`, and the `users` table update and select. Only their outcomes enter the model. `UpdateOutcome` says whether the update succeeded, returned an error message, or raised. `role` is the looked-up role, or `None` for a missing row.
- The page-load guard that sends a visitor without a session to `index.html` depends only on `getUser`, so it is not modelled.
- `ChangePassword.ChangePasswordForm.FinishSubmit`: collapses the 2000 ms `setTimeout` and the role lookup inside it into the same step. The delay is timing. A role lookup that raises inside the timer would leave the page without navigating; that case is not modelled.
- The result of the `needs_password_change` flag write is not modelled: an error there is only logged. The flag write raising is covered by `UpdateOutcome.Threw`, as is `updateUser` raising.
- Console logging (`console.error`, `console.warn`) is not modelled.
- The show/hide password toggles (focus, selection range, aria attributes) are DOM plumbing and are not modelled.
- `AdminRoutes.ResolveFileUrl`: takes the location directly, because its only callers have already read `window`. An undeclared `window` would make `window || {}` raise outside its `try`, and that path is not modelled.
- WHATWG URL parsing inside `new URL(relative, base)` is library behaviour. It enters as the `resolveUrl` parameter, a partial function.
- `JsStrings.Utf16Length`/`JsStrings.Trim`: a Dafny `string` holds Unicode scalar values, so a JavaScript string with an unpaired surrogate cannot be represented. Such a code unit would count once in `length`, survive `trim` and belong to none of the four classes. Every property here is for well-formed UTF-16 strings only.
- `classList` is modelled as a set of class names. The order of classes in a `DOMTokenList` is not captured.
- The public recovery-link flow is not part of this model: token and code parsing, the code exchange and sign-out. No file in the modelled core implements it.
- The entry constants are modelled as optional strings. A constant defined with a non-string value would be returned as is by the source, and the model does not represent such values.
