# Course-platform front end: UI state machines and form validation in Dafny

This project models the small pieces of logic in a course-platform website's
React front end. It covers five components. Each one becomes a Dafny module.
Each event handler becomes a method call on a class that holds the
component's state. Timers and promise completions become separate methods.

- `AuthForm` (`src/components/AuthModal.tsx`): the sign-in / sign-up modal.
  - `Validate` is `validateForm`'s error map. It has one entry for each
    violated rule: email present and matching `/\S+@\S+\.\S+/` (unanchored),
    password at least 6 UTF-16 code units, and name present when registering.
  - The class `AuthModal` holds `isLogin`, `showPassword`, `formData`,
    `errors` and whether `onClose` was called. Its methods are field edits,
    the mode toggle and submit.
  - Submit takes the outcome of the awaited `login`/`register` call as a
    parameter. It returns which of the two was called, or `NoCall`.
- `Tutor` (`src/components/TutorWidget.tsx`): the chat widget.
  - The chat history is append-only and always starts with the greeting.
  - Sending is guarded by "the trimmed input is non-empty". The send button
    uses the same rule.
  - The delayed reply is a separate transition. It appends one of the eight
    canned replies, chosen by an index that stands for the random draw.
  - `pendingReplies` counts reply timers that have started and not yet fired.
  - The window is hidden, shows only its header, or is fully open. Closing it
    keeps the minimised flag.
  - Nothing ever sets the mood to `excited`. So `Valid()` proves that the mood
    is `thinking` exactly while typing and `happy` otherwise.
- `VerifyEmail` (`src/pages/VerifyEmailPage.tsx`): the resend countdown.
  - It starts at 60. Each tick lowers it by one while it is positive.
  - The resend button is enabled only when nothing is resending and the
    countdown is 0. Its caption is "Sending...", "Resend in Ns" or
    "Resend Email".
  - Completing a resend restarts the countdown at 60. Verifying switches the
    page to the verified view.
- `Support` (`src/pages/SupportPage.tsx`): the FAQ accordion.
  - The state is one optional index. The answer and the rotated chevron are
    shown exactly for that index. The search query filters nothing.
  - Clicking the same question twice leaves nothing expanded, except from the
    state where that question was already expanded. From there, two clicks
    expand it again (`ToggleTwice`, `ToggleTwiceFromExpanded`).
- `Courses` (`src/components/Courses.tsx`): the level badge.
  - Each named level has its own badge class, and any other level gets the
    gray one.
  - Every course in the hard-coded catalogue has a named level.
- `Text` holds helpers for the JavaScript built-ins the components use:
  - the ECMAScript whitespace class, used by `\s`/`\S` and by
    `String.prototype.trim`. This is the exact WhiteSpace and LineTerminator
    set, not an approximation;
  - `trim`;
  - `length` in UTF-16 code units;
  - the decimal form of a number rendered as a JSX child, with its
    inverse.

Some requires clauses stand for what the browser rules out. A disabled
button delivers no click, and a control that is not rendered delivers no
event at all:
- `ClickResend` requires the button to be enabled and the check-email view
  to be shown. `Verify` also requires that view, which holds its button.
- `SetInput`, `SendMessage` and `KeyPress` require the chat window to be
  fully open, because the input and the send button exist only then.
  `Close` and `ToggleMinimized` require the window to be open, because
  their buttons are in its header.
- `HandleInputChange` may edit the name only in sign-up mode, because only
  the sign-up form renders the name input. So `Valid()` keeps the name
  empty while signing in.
- `CompleteResend` requires a resend in flight.
- `ReceiveReply` requires a started reply timer and an index below 8. The
  index stands for `Math.floor(Math.random() * 8)`.
- `ClickFaq` requires an index of `faqs`.

## Model

| member | source | states |
|---|---|---|
| `Text.IsWhitespace` | src/components/AuthModal.tsx:25 | the code points `\s` matches and `trim` removes (also used at src/components/TutorWidget.tsx:118): exactly the 25 listed WhiteSpace and LineTerminator code points, each one UTF-16 code unit |
| `Text.Trim` | src/components/TutorWidget.tsx:118 | `trim` cuts only whitespace from both ends and keeps a contiguous slice whose first and last characters are not whitespace; the result is empty exactly when the input is all whitespace |
| `Text.Utf16Length` | src/components/AuthModal.tsx:31 | `length` counts UTF-16 code units: at least one and at most two per character |
| `Text.NatToString` | src/pages/VerifyEmailPage.tsx:89 | a number rendered as a JSX child is a non-empty string of decimal digits with no leading zero |
| `Text.DecimalValueOfNatToString` | src/pages/VerifyEmailPage.tsx:89 | reading the rendered digits back gives the number |
| `Text.NatToStringInjective` | src/pages/VerifyEmailPage.tsx:89 | different numbers render differently |
| `AuthForm.FormData.With` | src/components/AuthModal.tsx:62 | the spread `{...prev, [name]: value}`: the named field takes the value and the other two fields are unchanged |
| `AuthForm.EmailTest` | src/components/AuthModal.tsx:25 | `/\S+@\S+\.\S+/.test(email)` as an executable search: an `@` and a later `.`, with non-whitespace on each side and only non-whitespace between them; a match needs at least five characters. Its agreement with the pattern is `EmailTestMatchesPattern` |
| `AuthForm.EmailTestMatchesPattern` | src/components/AuthModal.tsx:25 | the executable check equals the unanchored pattern `\S+@\S+\.\S+`: some substring is non-whitespace, `@`, non-whitespace, `.`, non-whitespace, each part non-empty |
| `AuthForm.Validate` | src/components/AuthModal.tsx:20-40 | only email, password and name keys appear. "email" is present iff the email is empty or does not match, with "Email is required" for an empty email and "Email is invalid" otherwise. "password" is present iff it is shorter than 6 code units, with "Password is required" for an empty password and the minimum-length message otherwise. "name" is present iff registering with an empty name. The map is empty iff all three rules hold |
| `AuthForm.LoginHasNoNameError` | src/components/AuthModal.tsx:35-37 | in sign-in mode there is never a name error |
| `AuthForm.AuthModal.constructor` | src/components/AuthModal.tsx:10-17 | the modal starts in sign-in mode, with the password hidden, empty fields, no errors and not closed. Every method keeps `Valid()`: errors are stored only under "email", "password", "name" or "submit", and the name is empty while signing in |
| `AuthForm.AuthModal.ValidateForm` | src/components/AuthModal.tsx:20-41 | it stores `Validate`'s map and returns true iff every rule holds |
| `AuthForm.AuthModal.HandleSubmit` | src/components/AuthModal.tsx:43-58 | on failed validation: no call, the modal stays open, and the errors are the validation map. Otherwise it calls login (sign-in mode) or register (sign-up) with the form's fields. On success it closes with no errors. On failure the map is exactly `{submit: "Authentication failed. Please try again."}` and the modal stays open |
| `AuthForm.AuthModal.HandleInputChange` | src/components/AuthModal.tsx:60-66 | an edit of a rendered input (the name only in sign-up mode, line 98): only the edited field changes. A non-empty error stored under that field's key becomes "", and every other entry is unchanged |
| `AuthForm.AuthModal.ToggleMode` | src/components/AuthModal.tsx:192-196 | flips sign-in and sign-up, empties the error map and clears all three fields |
| `AuthForm.AuthModal.TogglePasswordVisibility` | src/components/AuthModal.tsx:156 | flips whether the password is shown |
| `AuthForm.AuthModal.Close` | src/components/AuthModal.tsx:71-84 | the backdrop and the close button call `onClose` |
| `Tutor.MoodAnimation` | src/components/TutorWidget.tsx:154-163 | excited, and only excited, gives `animate-bounce`; thinking, and only thinking, gives `animate-pulse`; happy, and only happy, gives "" |
| `Tutor.CanSend` | src/components/TutorWidget.tsx:118 | the send guard, which is also the send button's enabled rule at line 255, holds iff the input has a non-whitespace character |
| `Tutor.NeverBounces` | src/components/TutorWidget.tsx:154-157 | in every reachable state the mood is not excited, so `animate-bounce` is never the character's class |
| `Tutor.TutorWidget.constructor` | src/components/TutorWidget.tsx:17-32 | the history is exactly the greeting, a non-user message. The window is closed and not minimised, the input is empty, nothing is typing and the mood is happy |
| `Tutor.TutorWidget.CurrentView` | src/components/TutorWidget.tsx:168-204 | the window is hidden iff closed and shows only its header iff open and minimised |
| `Tutor.TutorWidget.SetInput` | src/components/TutorWidget.tsx:248 | in the fully open window, where the input is rendered, the input buffer takes the typed value |
| `Tutor.TutorWidget.SendMessage` | src/components/TutorWidget.tsx:117-131 | sent from the fully open window. With a blank input nothing changes. Otherwise it appends exactly one user message holding the untrimmed input, keeps the earlier messages, empties the input, sets typing and the thinking mood, and starts one reply timer. The old history is always a prefix of the new one |
| `Tutor.TutorWidget.ReceiveReply` | src/components/TutorWidget.tsx:133-144 | appends exactly one non-user message holding a canned reply, clears typing and sets the happy mood |
| `Tutor.TutorWidget.KeyPress` | src/components/TutorWidget.tsx:147-152 | Enter without Shift has the effect of a send. Any other key, or Shift+Enter, changes nothing |
| `Tutor.TutorWidget.ToggleOpen` | src/components/TutorWidget.tsx:271 | clicking the character flips whether the window is open |
| `Tutor.TutorWidget.Close` | src/components/TutorWidget.tsx:196 | the close button of the open window closes it |
| `Tutor.TutorWidget.ToggleMinimized` | src/components/TutorWidget.tsx:190 | the header button of the open window flips minimised |
| `VerifyEmail.NextCountdown` | src/pages/VerifyEmailPage.tsx:11-17 | a tick lowers a positive countdown by exactly one; at zero there is no tick |
| `VerifyEmail.CountdownAfterTicks` | src/pages/VerifyEmailPage.tsx:11-17 | after n ticks a non-negative countdown c is c - n, or 0 once n >= c, so it is never negative |
| `VerifyEmail.ResendEnabled` | src/pages/VerifyEmailPage.tsx:80 | the button is enabled iff not resending and the countdown is not positive; for a non-negative countdown, as `Valid()` keeps it, that means countdown 0 |
| `VerifyEmail.ResendLabel` | src/pages/VerifyEmailPage.tsx:83-95 | the caption is "Sending..." iff resending, "Resend in {countdown}s" when idle with a positive countdown, and "Resend Email" iff idle with no countdown left |
| `VerifyEmail.LabelShowsEnabled` | src/pages/VerifyEmailPage.tsx:80-95 | the button reads "Resend Email" exactly when `disabled` is false, that is, not resending and countdown 0 |
| `VerifyEmail.CountdownLabelsDiffer` | src/pages/VerifyEmailPage.tsx:88-89 | different remaining counts show different captions |
| `VerifyEmail.VerifyEmailPage.constructor` | src/pages/VerifyEmailPage.tsx:6-8 | the page starts unverified and not resending, with the countdown at 60 |
| `VerifyEmail.VerifyEmailPage.CurrentScreen` | src/pages/VerifyEmailPage.tsx:34-49 | the verified view is rendered iff the verified flag is set |
| `VerifyEmail.VerifyEmailPage.Tick` | src/pages/VerifyEmailPage.tsx:11-17 | a tick updates the countdown by `NextCountdown` and keeps it within 0..60 |
| `VerifyEmail.VerifyEmailPage.ClickResend` | src/pages/VerifyEmailPage.tsx:19-20 | a click on the enabled button of the check-email view sets resending |
| `VerifyEmail.VerifyEmailPage.CompleteResend` | src/pages/VerifyEmailPage.tsx:22-24 | completion clears resending and resets the countdown to 60 |
| `VerifyEmail.VerifyEmailPage.Verify` | src/pages/VerifyEmailPage.tsx:27-28 | the button of the check-email view sets the verified flag |
| `Support.Toggle` | src/pages/SupportPage.tsx:146 | clicking index i gives none iff i was expanded, and i otherwise |
| `Support.ToggleTwice` | src/pages/SupportPage.tsx:146 | two clicks on i leave nothing expanded, except when i started expanded: then i is expanded again |
| `Support.ToggleTwiceFromExpanded` | src/pages/SupportPage.tsx:146 | an example state from which two clicks do not collapse the accordion |
| `Support.RenderFaqs` | src/pages/SupportPage.tsx:143-158 | all six questions are listed in order. An answer, and it alone, is shown exactly for the expanded index, and the chevron is rotated exactly there |
| `Support.AtMostOneAnswerShown` | src/pages/SupportPage.tsx:150-152 | two shown answers are the same entry |
| `Support.SearchDoesNotFilter` | src/pages/SupportPage.tsx:91-97 | what is rendered is the same for every search query |
| `Support.SupportPage.constructor` | src/pages/SupportPage.tsx:7-8 | the page starts with no FAQ expanded and an empty query |
| `Support.SupportPage.ClickFaq` | src/pages/SupportPage.tsx:146 | the state changes by `Toggle`. The expanded index stays none or a valid index into the six FAQs |
| `Support.SupportPage.SetSearchQuery` | src/pages/SupportPage.tsx:95 | the query takes the typed value |
| `Courses.LevelColor` | src/components/Courses.tsx:92-99 | "Beginner", "Intermediate" and "Advanced" give the green, yellow and red classes respectively, each for that level alone. Every other string, and only those, gives the gray class |
| `Courses.BadgesDistinct` | src/components/Courses.tsx:94-97 | the four badge classes are pairwise distinct |
| `Courses.CatalogueLevelsNamed` | src/components/Courses.tsx:5-90 | every course in the catalogue has one of the three named levels, so no card gets the gray default |

## Left out

- `src/components/ParticleNetwork.tsx` is not part of this model. It is floating-point kinematics and canvas drawing.
- The tutor's eye tracking is left out because it is trigonometry on floats. So are the debounced mouse tracking, the random blink timers, the hover state and the auto-scroll. The message ids and timestamps are also left out: they come from `Date`.
- The reply delay and the random choice of reply are not modelled. The reply is an explicit call that carries the drawn index.
- The authentication context (`login`, `register`, `isLoading`) is not part of this model. Its outcome is a parameter of `HandleSubmit`, so the loading state and the disabled submit button are not modelled.
- `AuthForm.AuthModal.HandleSubmit`: runs the awaited call as one atomic step. So no other event can come between validation and the outcome.
- The browser's own constraint check on the `type="email"` input is left out. It can block a submit before `handleSubmit` runs.
- The delay of the resend request and of the redirect after verification is not modelled. Navigation itself (`navigate`) is left out too.
- Names, labels and styling in the markup are left out, except for the captions and classes that the modelled functions return.
- General regular expressions and JavaScript string semantics are not modelled. Only this one email pattern, `trim`, and UTF-16 `length` are encoded.
