# Chat client front end: a verified model

This project models the logic of a small React chat client. An authenticated user talks to an AI assistant and browses past peer conversations. The model covers four source files:

- **Dashboard** (`src/pages/Dashboard.jsx`). The assistant's send pipeline works in two steps. First the user message and a `"Typing..."` placeholder are appended. Then only that placeholder tail is replaced, by the answer or by a fixed apology. The model also covers:
  - the theme-colour and font-size preferences in local storage, with their defaults;
  - the view switch and the conversation selection;
  - logout;
  - `getFontSizeClass` and `getInitials`.
- **Sign-up** (`src/pages/Signup.jsx`): the three regular expressions as character predicates; the `validate()` error map; the keystroke filters of the username, phone and OTP boxes; the `otpSent` / `isVerified` / `otp` / form flow of sending, verifying and submitting.
- **Sign-in** (`src/pages/SignIn.jsx`): the checks on the trimmed identifier and the password; the request they gate; the errors and the stored token after the reply.
- **App shell** (`src/App.jsx`): the effect that removes `token` from local storage on `/`, `/signin` and `/signup`, and the route table.

Local storage is one `Storage.LocalStorage` object (a `map<string, string>`). The dashboard, the sign-in page and the app shell all act on it.

Server replies come in as parameters:
- `Chat.AskOutcome` is an `answer` or a thrown error.
- The sign-up requests take a success flag.
- `SignInPage.SignInReply` is a token, a refusal with its message, or a thrown error.

The dashboard's issued `saveMessage` and `ask` requests are kept as ghost logs. The sign-up and sign-in methods return the request they issue.

`String.prototype.trim` is modelled exactly. `Text.IsSpace` holds ECMAScript's WhiteSpace and LineTerminator code points, all of which lie in the Basic Multilingual Plane. `toUpperCase` is modelled on ASCII only.

Behaviours of the code worth knowing, which the model keeps:
- The send pipeline does not check `res.ok`. A non-ok reply whose body parses therefore takes the answer branch (`Chat.AskOutcome.Answer`), not the failure branch.
- Messages carry no delivery state; the placeholder is an ordinary bot message.
- There is no way to deselect a conversation.
- When sign-up is submitted without a verified number, the errors become the previous errors plus the verification message. The validation result set just before is overwritten, because the second update is computed from the render's `errors` (`SignupPage.Signup.Submit`).
- Editing the phone after verification leaves `isVerified` set (`SignupPage.Signup.EditPhone`).

## Model

| member | source | states |
|---|---|---|
| `Text.Trim` | src/pages/SignIn.jsx:17 | `trim()` leaves neither end of the result as white space and never lengthens the string |
| `Text.TrimKeepsMiddle` | src/pages/SignIn.jsx:17 | what `trim()` keeps is a contiguous slice of the input, with only white space before and after it |
| `Text.TrimStartIsSuffix` | src/pages/SignIn.jsx:17 | what the leading trim keeps is exactly the suffix of the input after the dropped characters |
| `Text.TrimEndIsPrefix` | src/pages/SignIn.jsx:17 | what the trailing trim keeps is exactly the prefix of the input before the dropped characters |
| `Text.BlankIffTrimEmpty` | src/pages/Dashboard.jsx:120 | `!s.trim()` holds exactly when every character of `s` is white space |
| `Text.ToUpper` | src/pages/Dashboard.jsx:168 | `toUpperCase` maps a-z to A-Z and leaves other characters alone (ASCII only) |
| `Wrappers.OrElse` | src/pages/Dashboard.jsx:40-41 | `value \|\| fallback`: a missing or empty string gives the fallback, any other string is kept |
| `Chat.Resolution` | src/pages/Dashboard.jsx:140-152 | the bubble that replaces the placeholder: the bot's `answer` with the current time, or `"Sorry, something went wrong."` with no time when the request throws |
| `Chat.ReplaceTail` | src/pages/Dashboard.jsx:148 | `[...prev.slice(0, -1), m]` keeps every element but the last, ends in `m`, keeps the length of a non-empty list, and gives `[m]` on an empty one |
| `Chat.ExchangeAppendsTwo` | src/pages/Dashboard.jsx:122-152 | a whole exchange leaves the earlier history as the prefix, followed by the user message and the resolution; the list grows by exactly two on either outcome |
| `DashboardPage.LoadPreferences` | src/pages/Dashboard.jsx:40-41 | an absent or empty `themeColor` gives `"#3b82f6"`, an absent or empty `fontSize` gives `"medium"`, a stored non-empty value is used as is, and neither loaded value is empty |
| `DashboardPage.PersistPreferences` | src/pages/Dashboard.jsx:96-102 | the persisting effects write both keys with the current values and keep every other key (the token included) |
| `DashboardPage.PersistThenLoad` | src/pages/Dashboard.jsx:38-44 | non-empty preferences that were persisted are what the next mount loads |
| `DashboardPage.ReloadAfterThemeColor` | src/pages/Dashboard.jsx:96-98 | after a colour is chosen, a reload returns that colour and the old font size |
| `DashboardPage.ReloadAfterFontSize` | src/pages/Dashboard.jsx:100-102 | after a font size is chosen, a reload returns that size and the old colour |
| `DashboardPage.FontSizeClass` | src/pages/Dashboard.jsx:170-176 | `"text-sm"` exactly for `"small"`, `"text-lg"` exactly for `"large"`, `"text-base"` for everything else |
| `DashboardPage.FirstSegment` | src/pages/Dashboard.jsx:168 | `split(".")[0]` is the prefix before the first dot: it holds no dot and is followed by a dot or the end |
| `DashboardPage.Initials` | src/pages/Dashboard.jsx:168 | `getInitials`: an absent name gives `"U"`; an empty name or one starting with a dot throws a TypeError; otherwise the result is the upper-cased first character |
| `DashboardPage.InitialsOrDefault` | src/pages/Dashboard.jsx:168 | the corrected initials are always one character, agree with `getInitials` wherever it does not throw, and are `"U"` where it throws |
| `DashboardPage.InitialsThrowOnAcceptedUsername` | src/pages/Signup.jsx:66 | the username `".ab"` passes sign-up's rule, yet its initials throw; the corrected version gives `"U"` |
| `DashboardPage.Dashboard.Mount` | src/pages/Dashboard.jsx:38-102 | the mounted page holds the loaded history and conversations, an empty input, the assistant view, no selection and no send in flight; its preferences are the loaded ones with their defaults, and the store holds them written back |
| `DashboardPage.Dashboard.EditInput` | src/pages/Dashboard.jsx:380 | typing sets only the input |
| `DashboardPage.Dashboard.AddEmoji` | src/pages/Dashboard.jsx:396-398 | an emoji is appended to the input |
| `DashboardPage.Dashboard.BeginSend` | src/pages/Dashboard.jsx:119-138 | blank input changes nothing and issues no request. Otherwise: the untrimmed input is appended as a user message, then the placeholder as the new tail; the input is cleared and `isSending` is set; one user save and one ask with exactly that text are issued; the tail-placeholder invariant holds |
| `DashboardPage.Dashboard.ResolveSend` | src/pages/Dashboard.jsx:140-155 | only the placeholder tail is replaced, by the answer or by `"Sorry, something went wrong."`; the list is the pre-send list plus the user message and the resolution (net +2); a bot save is issued only for an answer; `isSending` ends false; the input and the view are untouched |
| `DashboardPage.Dashboard.SetActiveView` | src/pages/Dashboard.jsx:204 | switching views changes only `activeView`: messages, input, sending state, conversations and selection are kept, so switching there and back is the identity on them |
| `DashboardPage.Dashboard.SelectConversation` | src/pages/Dashboard.jsx:406-443 | an entry of the conversation list, which is shown only in the conversations view, becomes the selection; nothing else changes |
| `DashboardPage.Dashboard.SetThemeColor` | src/pages/Dashboard.jsx:292 | the colour is set and only the `themeColor` key of the store is written |
| `DashboardPage.Dashboard.SetFontSize` | src/pages/Dashboard.jsx:308 | the size is set and only the `fontSize` key of the store is written |
| `DashboardPage.Dashboard.Logout` | src/pages/Dashboard.jsx:158-161 | the token key is removed, every other key is kept, and `/` is the next location |
| `SignupRules.IsUsername` | src/pages/Signup.jsx:66 | `/^(?=.{3,}$)[a-z0-9_]*\.[a-z0-9_]+$/`: at least three characters, a possibly empty `[a-z0-9_]` part, a dot, and a non-empty `[a-z0-9_]` part (sign-in uses the same rule, src/pages/SignIn.jsx:19) |
| `SignupRules.IsPhone` | src/pages/Signup.jsx:65 | `/^\+91\d{10}$/`: `+91` followed by exactly ten ASCII digits |
| `SignupRules.IsPassword` | src/pages/Signup.jsx:67 | the password regex: six or more characters from `[A-Za-z0-9@$!%*?&]`, with at least one lower-case letter, one upper-case letter, one digit and one of `@$!%*?&` |
| `SignupRules.UsernameEditAllowed` | src/pages/Signup.jsx:161-162 | the username box's filter `/^[a-z.]*$/` |
| `SignupRules.PhoneEditAllowed` | src/pages/Signup.jsx:181-183 | the phone box's filter: `/^\+?[0-9]*$/` and at most 13 characters |
| `SignupRules.OtpEditAllowed` | src/pages/Signup.jsx:218 | the OTP box's filter `/^\d{0,6}$/` |
| `SignupRules.UsernameByDotCount` | src/pages/Signup.jsx:66 | the username regex holds exactly for strings of length at least 3 over `[a-z0-9_.]` with exactly one dot, which is not the last character |
| `SignupRules.UsernameHasOneDot` | src/pages/Signup.jsx:66 | one direction of that equivalence: an accepted username has one dot, not last |
| `SignupRules.OneDotIsUsername` | src/pages/Signup.jsx:66 | the other direction: such a string is accepted by the regex |
| `SignupRules.FilteredUsername` | src/pages/Signup.jsx:161-162 | on anything the username box lets through, validity is only about length and the single dot, which must not be last |
| `SignupRules.UsernameFilterNarrowerThanRule` | src/pages/Signup.jsx:161 | `"a_b.c"` is a valid username that the box's `[a-z.]` filter never lets the user type |
| `SignupRules.PhoneCanBeTyped` | src/pages/Signup.jsx:181-183 | every prefix of a valid `+91` number passes the phone filter, so it can be typed keystroke by keystroke |
| `SignupRules.OtpEditPrefixes` | src/pages/Signup.jsx:218 | every prefix of an accepted OTP value is accepted too |
| `SignupRules.PasswordIsTrimmed` | src/pages/Signup.jsx:67 | an accepted password contains no white space anywhere, so it is its own trim |
| `SignupRules.PaddedPasswordRejected` | src/pages/Signup.jsx:77-78 | the password is checked untrimmed: `" Abc12@"` is rejected although its trim `"Abc12@"` passes |
| `SignupPage.UsernameError` | src/pages/Signup.jsx:69-70 | no error exactly when the trimmed name passes; otherwise "required" for a blank name, else the format message |
| `SignupPage.PhoneError` | src/pages/Signup.jsx:72-73 | no error exactly when the trimmed number is `+91` and ten digits; otherwise "required" for a blank one, else the format message |
| `SignupPage.PasswordError` | src/pages/Signup.jsx:77-80 | no error exactly when the untrimmed password passes; otherwise "required" for the empty one, else the format message |
| `SignupPage.ValidationErrors` | src/pages/Signup.jsx:63-83 | the error map has a key exactly for each failing field, "required" before format messages; it is empty exactly when all four fields pass |
| `SignupPage.Validate` | src/pages/Signup.jsx:63-83 | the map filled field by field is exactly that error map |
| `SignupPage.ClearShownError` | src/pages/Signup.jsx:164 | a shown message is blanked; no key is added or removed and the other keys keep their messages |
| `SignupPage.Signup.constructor` | src/pages/Signup.jsx:8-13 | the page starts with an empty form and no errors, nothing sent and nothing verified; the OTP box and the verified state are never both on |
| `SignupPage.Signup.EditUsername` | src/pages/Signup.jsx:159-166 | an edit is kept exactly when it is made of `[a-z.]`, and then the username error is blanked; a rejected edit leaves the form and errors unchanged |
| `SignupPage.Signup.EditPhone` | src/pages/Signup.jsx:179-187 | an edit is kept exactly when it is an optional `+` then digits, at most 13 long; a rejected edit leaves the form and errors unchanged |
| `SignupPage.Signup.SelectImage` | src/pages/Signup.jsx:258-261 | the chosen (or absent) file is stored and its error blanked |
| `SignupPage.Signup.EditPassword` | src/pages/Signup.jsx:282-285 | every password edit is kept and its error blanked |
| `SignupPage.Signup.EditOtp` | src/pages/Signup.jsx:209-221 | the OTP box exists only while an OTP is pending and the number is unverified; an edit is kept exactly when it is 0 to 6 digits, otherwise the code is unchanged |
| `SignupPage.Signup.SendOtp` | src/pages/Signup.jsx:16-39 | offered only while no OTP is pending and the number is unverified (the button at src/pages/Signup.jsx:192-196); a blank phone sets the phone error and sends nothing; otherwise the untrimmed phone is sent, and `otpSent` becomes exactly whether the server accepted |
| `SignupPage.Signup.VerifyOtp` | src/pages/Signup.jsx:41-60 | offered only while an OTP is pending and the number is unverified (the button at src/pages/Signup.jsx:209-233); phone and code are sent; a success sets `isVerified`, clears `otpSent`, empties the code and blanks the phone error; a failure changes nothing |
| `SignupPage.Signup.Submit` | src/pages/Signup.jsx:85-121 | unverified: nothing is sent and the phone error is set. Verified: the validation map is shown and the form is sent exactly when it is valid. A successful sign-up resets the form and clears `isVerified`; the OTP box and the verified state stay exclusive |
| `SignInPage.IsMobile` | src/pages/SignIn.jsx:18 | `/^\+91[6-9]\d{9}$/`: `+91`, a digit from 6 to 9, and nine more digits |
| `SignInPage.IdentifierValid` | src/pages/SignIn.jsx:17-26 | the trimmed identifier is a mobile number or a username |
| `SignInPage.MobileIsPhone` | src/pages/SignIn.jsx:18 | every number sign-in accepts is accepted by sign-up's phone rule |
| `SignInPage.PhoneNotMobile` | src/pages/SignIn.jsx:18 | the converse fails: `"+910000000000"` passes sign-up's rule but not sign-in's |
| `SignInPage.IdentifierError` | src/pages/SignIn.jsx:17-28 | no error exactly when the trimmed identifier is a `+91` mobile number or a username; otherwise "required" for a blank one, else the format message |
| `SignInPage.SignInErrors` | src/pages/SignIn.jsx:15-32 | a key exactly for each failing field; the password error exactly for a blank password; the map is empty exactly when the identifier is valid and the password is not blank |
| `SignInPage.SignIn.constructor` | src/pages/SignIn.jsx:8-10 | the form starts empty with no errors |
| `SignInPage.SignIn.EditIdentifier` | src/pages/SignIn.jsx:116-119 | the identifier is set and its message blanked |
| `SignInPage.SignIn.EditPassword` | src/pages/SignIn.jsx:143-146 | the password is set and its message blanked |
| `SignInPage.SignIn.Submit` | src/pages/SignIn.jsx:13-69 | a request is made exactly when the error map is empty, and it carries the trimmed identifier and the untrimmed password. On a success the token is stored under `"token"` and the page leaves for the dashboard. On a refusal the errors are exactly `{identifier: message or "Something went wrong"}`, and on a thrown error the server-error message; in both cases the store is unchanged |
| `App.IsPublicPath` | src/App.jsx:17 | `['/', '/signin', '/signup'].includes(pathname)`: an exact comparison with the three paths |
| `App.AfterNavigation` | src/App.jsx:16-20 | on `/`, `/signin` and `/signup` the token key is gone; any other path leaves the store unchanged; no other key is ever touched |
| `App.OnPathnameChange` | src/App.jsx:16-20 | the effect leaves the store as that rule says |
| `App.NavigationIdempotent` | src/App.jsx:17-18 | applying the rule twice gives the same store as applying it once |
| `App.NavigationKeepsPreferences` | src/App.jsx:18 | the loaded theme colour and font size are the same after any navigation |
| `App.SignInTokenLifetime` | src/App.jsx:17 | the token sign-in stores survives opening `/dashboard` and is removed on every public path |
| `App.MatchesRouteIff` | src/App.jsx:25-34 | the router's pattern for `/signin`, `/signup` or `/dashboard` matches a pathname exactly when the pathname, lower-cased and stripped of trailing slashes, is that route |
| `App.MatchesRootIff` | src/App.jsx:24 | the pattern for `/` matches exactly the non-empty pathnames made only of slashes |
| `App.RouteFor` | src/App.jsx:23-36 | a pathname whose lower-cased form without trailing slashes is `/signin`, `/signup` or `/dashboard` gets the sign-in page, the sign-up page or the guarded dashboard; the landing page is exactly for pathnames of slashes only; every other pathname gets the not-found page |
| `App.ClearingPathsArePublicPages` | src/App.jsx:17 | every path on which the token is removed renders the landing, sign-in or sign-up page |
| `App.PublicPageKeepsToken` | src/App.jsx:17 | the converse fails: `/signin/` and `/SignUp` render the sign-in and sign-up pages, and the token stays in the store |
| `App.AfterNavigationByRoute` | src/App.jsx:16-20 | the corrected effect removes the token exactly when the router renders the landing, sign-in or sign-up page, and touches no other key |
| `App.ByRouteExtendsExactPaths` | src/App.jsx:16-20 | the corrected effect agrees with the written one on the three exact paths, also clears the token on `/signin/` and `/SignUp`, and leaves the store unchanged on `/dashboard` |

## Left out

- Network transport: `fetch`, `res.json()`, headers and URLs are not modelled. Each reply is a parameter of the method that consumes it.
- `saveMessage` internals are not modelled. The dashboard records issued saves and asks in ghost logs only.
- The dashboard's mount-time fetch chain (`fetchProfile`, `fetchChatHistory`, `fetchConversations`) is left out. This includes the redirect when no token is present and the `loading` flag. `DashboardPage.Dashboard.Mount` takes the loaded history and conversations as parameters.
- `DashboardPage.Dashboard.BeginSend`: requires that no send is in flight. The send button is disabled while sending, but the Enter key path does not check `isSending`. Two interleaved sends, each replacing "the last element", are not modelled.
- `DashboardPage.Dashboard.BeginSend`, `DashboardPage.Dashboard.ResolveSend`: timestamps are opaque strings passed in by the caller. `formatTime` and locale formatting are not modelled.
- `Chat.AskOutcome`: an `answer` field that is absent from the reply body is not modelled; the answer is always a string.
- `SignInPage.SignInReply`: a success body without `token` is not modelled. The code would store the string `"undefined"`.
- `SignupPage.Signup.SendOtp`, `SignupPage.Signup.VerifyOtp`, `SignupPage.Signup.Submit`: server messages shown with `alert` are not modelled. The `otpLoading` spinner flag is not modelled either. A reply is just a success flag.
- Rendering is not modelled, including JSX, Tailwind classes other than `getFontSizeClass`, and scrolling with `setTimeout`. Also left out:
  - the emoji-picker and password-visibility toggles;
  - animations;
  - `URL.createObjectURL`;
  - `navigate` and `window.location`. Navigation is returned as a value at most.
- `ProtectedRoute`, `Landing` and `NotFound` are not part of this model. The guarded dashboard route is an opaque page value.
- `App.RouteFor`: models react-router's case-insensitive matching, which allows trailing slashes. It does not model the router's percent-decoding of the pathname or a basename.
- `DashboardPage.Dashboard.SetThemeColor`: the page never offers this handler. The theme menu (src/pages/Dashboard.jsx:282-317) renders only when `showThemeOptions` is set, and nothing ever sets it from its initial `false`. The member models what the handler and its persisting effect would do.
- `DashboardPage.Dashboard.SetFontSize`: never offered, for the same reason; the font-size buttons sit in the same hidden menu.
- `DashboardPage.ReloadAfterThemeColor`, `DashboardPage.ReloadAfterFontSize`: these start from a choice this page cannot make. A value can reach the store only from elsewhere, for example another page of the same origin.
- `DashboardPage.Dashboard.Mount`: runs the mount effects once, as a production build does. `src/main.jsx` wraps the app in `React.StrictMode`, and a development build runs mount effects twice. On that second run, the persisting effects have already written the initial `"#3b82f6"` and `"medium"`, so the load reads those defaults. The same holds for `DashboardPage.PersistThenLoad`, `DashboardPage.ReloadAfterThemeColor` and `DashboardPage.ReloadAfterFontSize`: they describe the production effect order, and in a development build the stored preferences are replaced by the defaults on every mount.
- `Text.ToUpper`: upper-cases ASCII letters only, because JavaScript's full Unicode case mapping is not modelled. Indexing a string by UTF-16 code unit is modelled as indexing by code point.
- `src/components/Hero.jsx`, `src/components/Navbar.jsx` and `src/main.jsx` hold no logic and are not modelled.

## Findings

| source | as written | input that shows it | evidently intended | confidence | as-written member | corrected member |
|---|---|---|---|---|---|---|
| src/pages/Dashboard.jsx:168 | `name?.split(".")[0][0].toUpperCase()` indexes the first dot-separated segment unguarded; an empty segment yields `undefined`, whose `toUpperCase` throws a TypeError | the username `".ab"`, which sign-up's rule (src/pages/Signup.jsx:66) and its username box both accept | the `\|\| "U"` fallback also covers an empty first segment, giving `"U"` | medium, not executed; the call is reached only for a user or conversation partner without an image (src/pages/Dashboard.jsx:234-242, 447-454), and sign-up demands an image (src/pages/Signup.jsx:75) | `DashboardPage.Initials` (counterexample: `DashboardPage.InitialsThrowOnAcceptedUsername`) | `DashboardPage.InitialsOrDefault` |
| src/App.jsx:17 | the token is removed only when `location.pathname` equals `/`, `/signin` or `/signup` exactly, while the router (src/App.jsx:23-36) also renders those pages for other spellings | `/signin/` or `/SignUp`: the sign-in or sign-up page renders and the previous session's token stays in local storage | drop the token on every pathname that renders the landing, sign-in or sign-up page | medium, not executed | `App.AfterNavigation` (counterexample: `App.PublicPageKeepsToken`) | `App.AfterNavigationByRoute` (property: `App.ByRouteExtendsExactPaths`) |
