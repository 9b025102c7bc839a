# clear-clause-ai front-end logic, modelled in Dafny

The repository is a React front-end for a "legal document AI" demo. It
contains no backend and no real analysis. It does hold several small pieces
of sequential logic that can be stated precisely, and this project models
them:

- **Upload queue** (`Upload`): a list of at most five file entries. Each entry
  has a status (`uploading`/`success`/`error`) and an integer progress. A drop
  appends a batch or rejects it whole. Progress ticks and completions are
  addressed by entry id. Removal filters by id. "Analyze" needs a finished
  entry.
- **Registration modal** (`Auth`): the digit sanitisers of the phone and
  Aadhaar inputs, and the validation chain (required fields, then the
  12-digit Aadhaar format, then the 10-digit phone format). The form state
  has a simulated round trip that stores the record under `legalai_user`.
- **Page shell** (`Shell`): the authentication gate over local storage, the
  modal it hosts, and the forwarding of the language toggle.
- **Application root** (`AppRoot`): the `en`/`hi` language state with its
  toggle, and the route table.
- **Chat widget** (`Chat`): an append-only log seeded with a welcome message,
  the blank-input guard (JavaScript `trim`), a canned reply chosen by
  language only, and the voice and open/close flags.
- **Contact form** (`ContactForm`): a record edited one field at a time, the
  required-field check, and a reset after the simulated send.
- **Analysis and profile tables** (`Analysis`, `Profile`): the constant mock
  clauses and summary figures, the risk-level label tables, and the
  colour, icon and badge mappings. The model proves the consistency facts
  between these tables.

Every timer callback becomes a named event, and no clock is modelled. A
timer that was scheduled but has not fired is recorded in the state:
`AuthModal.pending` holds the form snapshot each submit captured,
`ChatBot.pendingReplies` the language each send captured,
`ContactPage.pendingSends` and `ChatBot.pendingVoiceReverts` count the
scheduled sends and reverts. An event can fire only for a timer that was
scheduled. All delays of one kind are equal, so these timers fire in the
order they were scheduled. Upload ticks and completions are allowed for any
id, because the source's map-by-id makes an absent id a no-op.

Modules follow the source files. `Common` holds `Option` and the two
locales. `LocalStore` holds browser local storage as a map from keys to
stored values.

Two behaviours of the code are easy to misread:

- The analysis page's microphone button only flips its flag
  (`Analysis.PressMic`). Only the chat widget's voice toggle is reverted by
  a timer.
- The gate tests whether the stored flag is truthy, not whether it equals
  `"true"`, so `"false"` also counts as signed in
  (`Shell.GateTestsPresenceOnly`).

## Model

| member | source | states |
|---|---|---|
| `Common.ParseLang` | src/pages/DocumentUpload.tsx:95 | a page's `content[currentLanguage]` lookup hits exactly for "en" and "hi", and finds the table of that code |
| `AppRoot.ToggleLanguage` | src/App.tsx:21-23 | the toggle gives "hi" exactly for "en"; every other input, known or not, gives "en"; the result is always a known language |
| `AppRoot.ToggleTwice` | src/App.tsx:22 | on "en" and "hi" two toggles give back the original language |
| `AppRoot.ToggleTwiceElsewhere` | src/App.tsx:22 | off those two values two toggles do not give the input back ("fr" becomes "hi") |
| `AppRoot.AppState.constructor` | src/App.tsx:19 | the language starts as "en" |
| `AppRoot.AppState.HandleLanguageToggle` | src/App.tsx:21-23 | the new language is the toggle of the old one; from any state, only "en" or "hi" is reachable |
| `AppRoot.AppState.Language` | src/App.tsx:19-23 | in every reachable state the language has a locale whose code is the state |
| `AppRoot.PathOf` | src/App.tsx:36-43 | each routed page has a path from the six routed paths; the catch-all has none |
| `AppRoot.Route` | src/App.tsx:35-44 | a path reaches a page other than NotFound exactly when it is one of `/`, `/upload`, `/analysis`, `/about`, `/help`, `/contact`, and then reaches the page declared under that path |
| `AppRoot.RouteRoundTrip` | src/App.tsx:36-41 | each routed page is reached from its own path, so no two routes share a page |
| `AppRoot.ProfileIsNotRouted` | src/App.tsx:36-43 | `/profile` falls to NotFound |
| `LocalStore.Truthy` | src/components/layout/Layout.tsx:19-20 | a stored value is falsy exactly when the key is absent (`null`) or the value is the empty string |
| `LocalStore.LocalStorage.GetItem` | src/components/layout/Layout.tsx:19 | `getItem` returns a value exactly for a key that was set, and then the value last set |
| `LocalStore.LocalStorage.SetItem` | src/components/layout/Layout.tsx:26 | `setItem` overwrites that one key and leaves every other key as it was |
| `Shell.NeedsAuth` | src/components/layout/Layout.tsx:19-20 | `!isAuthenticated` holds exactly when the flag is absent or empty |
| `Shell.AfterAuthSuccess` | src/components/layout/Layout.tsx:25-28 | success stores "true" under `legalai_authenticated` and keeps every other key |
| `Shell.AuthSuccessOpensGate` | src/components/layout/Layout.tsx:17-28 | after a success, a later mount does not show the modal |
| `Shell.AuthSuccessIdempotent` | src/components/layout/Layout.tsx:25-28 | a second success leaves the storage as the first left it |
| `Shell.GateTestsPresenceOnly` | src/components/layout/Layout.tsx:17-23 | only an absent or empty flag shows the modal; "false" counts as signed in |
| `Shell.Layout.constructor` | src/components/layout/Layout.tsx:14-15 | the modal starts hidden; the language defaults to "en"; the hosted modal shares the shell's storage and starts empty |
| `Shell.Layout.Mount` | src/components/layout/Layout.tsx:17-23 | the modal is shown when the stored flag is absent or empty; otherwise the flag is left alone |
| `Shell.Layout.HandleAuthSuccess` | src/components/layout/Layout.tsx:25-28 | the storage becomes `AfterAuthSuccess` of the old storage, and the modal is hidden |
| `Shell.Layout.RequestClose` | src/components/layout/Layout.tsx:57 | closing the modal without signing up changes nothing |
| `Shell.Layout.AuthRoundTripDone` | src/components/auth/AuthModal.tsx:99-107 | the oldest pending submit finishes: its validated record is stored under `legalai_user`, then the flag is set, loading is cleared and the modal is hidden |
| `Shell.Layout.HandleLanguageToggle` | src/components/layout/Layout.tsx:30-34 | with a parent handler, the parent's language is toggled; without one, nothing is modified |
| `Auth.WithField` | src/components/auth/AuthModal.tsx:110-112 | the named field takes the value and the other two keep theirs |
| `Auth.MatchesDigits` | src/components/auth/AuthModal.tsx:77-87 | `/^\d{n}$/.test(s)` holds exactly when s has n characters and the digit filter drops none of them |
| `Auth.DigitsOnly` | src/components/auth/AuthModal.tsx:145 | `replace(/\D/g, '')` keeps only ASCII digits, each digit as often as in the input, and never lengthens; the order is stated by `Auth.DigitsOnlyDistributes` |
| `Auth.DigitsOnlyDistributes` | src/components/auth/AuthModal.tsx:145 | filtering a concatenation is concatenating the filtered parts, so the digits keep their order |
| `Auth.Truncate` | src/components/auth/AuthModal.tsx:145 | `slice(0, n)` is the prefix of length min(n, length) |
| `Auth.Sanitize` | src/components/auth/AuthModal.tsx:145-158 | a sanitised value is all digits, at most `max` long, a prefix of the input's digits, and all of them when there are fewer than `max` |
| `Auth.DigitsOnlyKeepsDigits` | src/components/auth/AuthModal.tsx:145 | the digit filter leaves a digit string unchanged |
| `Auth.SanitizeIdempotent` | src/components/auth/AuthModal.tsx:145-158 | sanitising twice gives the same result as sanitising once |
| `Auth.SanitizedPhoneMatches` | src/components/auth/AuthModal.tsx:87-94 | a sanitised phone passes the 10-digit check exactly when at least ten digits were typed |
| `Auth.SanitizedAadhaarMatches` | src/components/auth/AuthModal.tsx:77-84 | a sanitised Aadhaar number passes the 12-digit check exactly when at least twelve digits were typed |
| `Auth.CheckSubmission` | src/components/auth/AuthModal.tsx:64-95 | a submit passes exactly when the name is non-empty, the Aadhaar number is 12 ASCII digits and the phone is 10; any empty field is reported first, then a bad Aadhaar number, then a bad phone |
| `Auth.BlankNameAccepted` | src/components/auth/AuthModal.tsx:67 | the name is not trimmed: a single space passes |
| `Auth.DecoratedAadhaarRejected` | src/components/auth/AuthModal.tsx:77-84 | twelve digits with a leading `+` ("+123456789012") or with spaces ("1234 5678 9012") fail, and so does the twelve-character "+12345678901"; each is reported as an Aadhaar error |
| `Auth.Serialized` | src/components/auth/AuthModal.tsx:100 | the stored record carries exactly the submitted name, phone and Aadhaar number |
| `Auth.AuthModal.constructor` | src/components/auth/AuthModal.tsx:18-23 | the form starts empty, not loading, with nothing pending |
| `Auth.AuthModal.HandleInputChange` | src/components/auth/AuthModal.tsx:110-112 | only the named field changes |
| `Auth.AuthModal.OnPhoneInput` | src/components/auth/AuthModal.tsx:145 | the phone field becomes the sanitised input: digits only, at most 10 |
| `Auth.AuthModal.OnAadhaarInput` | src/components/auth/AuthModal.tsx:158 | the Aadhaar field becomes the sanitised input: digits only, at most 12 |
| `Auth.AuthModal.HandleSubmit` | src/components/auth/AuthModal.tsx:64-97 | the reported error is the first failed check; a rejected submit changes nothing; an accepted one sets loading and queues the form as it is now |
| `Auth.AuthModal.CompleteSubmit` | src/components/auth/AuthModal.tsx:99-107 | the oldest queued form, which passed validation, is stored under `legalai_user`; loading is cleared and the form is untouched |
| `Chat.WelcomeText` | src/components/chat/ChatBot.tsx:32-40 | the greeting is the Hindi one exactly for Hindi |
| `Chat.ReplyText` | src/components/chat/ChatBot.tsx:75-77 | the reply is the Hindi text exactly when the language is Hindi; nothing else is consulted |
| `Chat.TrimStart` | src/components/chat/ChatBot.tsx:59 | a suffix of the input; what it strips is white space, and it does not start with white space |
| `Chat.TrimEnd` | src/components/chat/ChatBot.tsx:59 | a prefix of the input; what it strips is white space, and it does not end with white space |
| `Chat.Trim` | src/components/chat/ChatBot.tsx:59 | `trim()` strips the leading white space, then the trailing: the result is a prefix of the left-stripped string with only white space after it, it neither starts nor ends with white space, and it is empty exactly for a string of white space only |
| `Chat.TrimEmptyIffBlank` | src/components/chat/ChatBot.tsx:59 | stripping both ends gives the empty string exactly for strings made only of white space |
| `Chat.ChatBot.constructor` | src/components/chat/ChatBot.tsx:46-56 | the log starts as the single bot message `welcome` in the mount-time language; the widget is closed, the input empty, voice off |
| `Chat.ChatBot.ReceiveLanguage` | src/components/chat/ChatBot.tsx:19 | a new language prop changes only the language later replies are scheduled with |
| `Chat.ChatBot.Open` | src/components/chat/ChatBot.tsx:95 | opening changes only `isOpen` |
| `Chat.ChatBot.Close` | src/components/chat/ChatBot.tsx:112 | closing changes only `isOpen`; the messages persist |
| `Chat.ChatBot.SetInput` | src/components/chat/ChatBot.tsx:146 | typing changes only the input |
| `Chat.ChatBot.HandleSendMessage` | src/components/chat/ChatBot.tsx:58-83 | blank input changes nothing; otherwise exactly one user message with the raw, untrimmed input is appended, the input is cleared and a reply in the current language is queued |
| `Chat.ChatBot.DeliverReply` | src/components/chat/ChatBot.tsx:72-82 | exactly one bot message is appended, with the reply of the language captured at send time |
| `Chat.ChatBot.HandleVoiceToggle` | src/components/chat/ChatBot.tsx:85-89 | the voice flag flips and a revert is scheduled |
| `Chat.ChatBot.RevertVoice` | src/components/chat/ChatBot.tsx:88 | a scheduled revert sets the voice flag to false whatever it was |
| `ContactForm.WithField` | src/pages/Contact.tsx:167-169 | the named field takes the value and every other field keeps its own |
| `ContactForm.OptionalFieldsIgnored` | src/pages/Contact.tsx:174 | editing phone, subject or inquiry type never changes whether the form can be sent |
| `ContactForm.RequiredFilled` | src/pages/Contact.tsx:174 | the form passes exactly when each required field (name, e-mail, message) is non-empty |
| `ContactForm.RequiredFieldsDecide` | src/pages/Contact.tsx:174-181 | emptying name, e-mail or message makes the form unsendable; white-space values pass; the initial form cannot be sent |
| `ContactForm.InquiryOptions` | src/pages/Contact.tsx:269-271 | the options are `general`, `support`, `partnership`, `feedback` in that order, in both languages |
| `ContactForm.InitialKindIsAnOption` | src/pages/Contact.tsx:24-31 | the initial inquiry type is one of the options in both languages |
| `ContactForm.ContactPage.constructor` | src/pages/Contact.tsx:24-32 | every text field starts empty, the type is `general`, nothing is sending |
| `ContactForm.ContactPage.HandleInputChange` | src/pages/Contact.tsx:167-169 | only the named field changes |
| `ContactForm.ContactPage.HandleSubmit` | src/pages/Contact.tsx:171-185 | accepted exactly when name, e-mail and message are non-empty; a rejected submit changes nothing and schedules no send; an accepted one sets `isSubmitting` |
| `ContactForm.ContactPage.SendDone` | src/pages/Contact.tsx:186-202 | a finished send clears `isSubmitting` and resets every field to its initial value |
| `Upload.Advance` | src/pages/DocumentUpload.tsx:123 | a step never passes 100, never goes down from a value at most 100, and is either +20 or 100 |
| `Upload.NewEntries` | src/pages/DocumentUpload.tsx:108-113 | one entry per dropped file, in drop order, with its id, uploading, at progress 0 |
| `Upload.TickById` | src/pages/DocumentUpload.tsx:119-126 | length, order, files, ids and statuses are kept; entries with another id are unchanged; entries with the id advance one step |
| `Upload.CompleteById` | src/pages/DocumentUpload.tsx:129-137 | length, order, files and ids are kept; entries with another id are unchanged; entries with the id become `success` at 100 |
| `Upload.RemoveById` | src/pages/DocumentUpload.tsx:159-161 | no entry with the id survives, and every other entry survives as often as it occurred |
| `Upload.TickKeepsQueue` | src/pages/DocumentUpload.tsx:119-126 | a tick keeps the queue invariant (at most five entries, progress a multiple of 20 in 0..100, never `error`, `success` only at 100) and no progress decreases |
| `Upload.CompleteKeepsQueue` | src/pages/DocumentUpload.tsx:129-137 | a completion keeps the queue invariant and no progress decreases |
| `Upload.RemoveKeepsQueue` | src/pages/DocumentUpload.tsx:159-161 | a removal keeps the queue invariant |
| `Upload.AbsentIdIsNoOp` | src/pages/DocumentUpload.tsx:120-137 | a tick, completion or removal for an id not in the queue changes nothing |
| `Upload.AbsentIdNotRemoved` | src/pages/DocumentUpload.tsx:160 | filtering out an absent id returns the queue unchanged |
| `Upload.RemoveDistributes` | src/pages/DocumentUpload.tsx:160 | removal distributes over concatenation, so the survivors keep their order |
| `Upload.AnySuccess` | src/pages/DocumentUpload.tsx:164 | `some(f => f.status === "success")` holds exactly when some entry of the queue is `success` |
| `Upload.NewEntriesNotFinished` | src/pages/DocumentUpload.tsx:108-113 | a fresh drop adds no finished entry |
| `Upload.TickKeepsAnalyzable` | src/pages/DocumentUpload.tsx:119-126 | a tick never finishes an entry, so whether analysis may start is unchanged |
| `Upload.CompleteEnablesAnalyze` | src/pages/DocumentUpload.tsx:129-137 | completing an entry in the queue makes analysis possible |
| `Upload.TickAfterComplete` | src/pages/DocumentUpload.tsx:119-137 | a tick after completion changes nothing: a finished entry stays at 100 |
| `Upload.UploadPage.constructor` | src/pages/DocumentUpload.tsx:30-31 | the queue starts empty and not processing |
| `Upload.UploadPage.OnDrop` | src/pages/DocumentUpload.tsx:97-115 | a batch that would take the queue past five is rejected whole and the queue is unchanged; otherwise it is appended after the existing entries |
| `Upload.UploadPage.Tick` | src/pages/DocumentUpload.tsx:119-127 | the queue becomes its tick by id, and the invariant is kept |
| `Upload.UploadPage.Complete` | src/pages/DocumentUpload.tsx:129-137 | the queue becomes its completion by id, and the invariant is kept |
| `Upload.UploadPage.RemoveFile` | src/pages/DocumentUpload.tsx:159-161 | the queue becomes its filter by id, and the invariant is kept |
| `Upload.UploadPage.HandleAnalyze` | src/pages/DocumentUpload.tsx:163-170 | processing starts exactly when some entry is `success`; otherwise nothing changes |
| `Analysis.RiskLevelLabels` | src/pages/DocumentAnalysis.tsx:48-52 | each language's label table has exactly the keys `safe`, `moderate`, `high` |
| `Analysis.CountRisk` | src/pages/DocumentAnalysis.tsx:121-124 | a count never exceeds the number of clauses, and is 0 exactly when no clause has that level |
| `Analysis.CountsPartition` | src/pages/DocumentAnalysis.tsx:121-124 | when every clause has one of the three levels, the three counts add up to the number of clauses |
| `Analysis.Risks` | src/pages/DocumentAnalysis.tsx:127-207 | the risk column has one entry per clause, that clause's level |
| `Analysis.CountIsMultiplicity` | src/pages/DocumentAnalysis.tsx:121-124 | counting clauses by level equals the multiplicity of that level in the risk column |
| `Analysis.MockRisksColumn` | src/pages/DocumentAnalysis.tsx:127-207 | the clause levels in order are safe ×4, moderate, safe, high, moderate, high ×2, safe |
| `Analysis.MockRiskCounts` | src/pages/DocumentAnalysis.tsx:127-207 | that column holds 6 `safe`, 2 `moderate` and 3 `high` |
| `Analysis.SummaryMatchesClauses` | src/pages/DocumentAnalysis.tsx:118-125 | the hard-coded counts 6/2/3 equal the counts in the clause list, and `totalClauses` (11) is both the list length and their sum |
| `Analysis.EveryClauseRiskHasLabel` | src/pages/DocumentAnalysis.tsx:334 | every clause's level is a key of the label table in both languages |
| `Analysis.ClauseIdsAreOneToEleven` | src/pages/DocumentAnalysis.tsx:127-207 | clause ids are 1..11 in order, hence distinct and ascending |
| `Analysis.ScoresWithinBars` | src/pages/DocumentAnalysis.tsx:118-120 | the risk level (75) and the confidence score (92) lie within 0..100 |
| `Analysis.RiskColor` | src/pages/DocumentAnalysis.tsx:209-220 | any string other than the three levels gets the muted default, and only such strings do |
| `Analysis.RiskColorsDistinct` | src/pages/DocumentAnalysis.tsx:209-220 | the three levels get three different classes |
| `Analysis.RiskIcon` | src/pages/DocumentAnalysis.tsx:222-233 | any string other than the three levels gets the document icon, and only such strings do |
| `Analysis.SelectTab` | src/pages/DocumentAnalysis.tsx:304 | switching tab changes only the tab |
| `Analysis.PressMic` | src/pages/DocumentAnalysis.tsx:408 | the microphone button flips the voice flag and keeps the tab |
| `Analysis.InitialViewOffersRecording` | src/pages/DocumentAnalysis.tsx:27-28 | the page opens on the clause tab with the microphone off, so the button reads "start recording" |
| `Analysis.PressMicTwice` | src/pages/DocumentAnalysis.tsx:408 | two presses give back the view |
| `Analysis.MicLabel` | src/pages/DocumentAnalysis.tsx:412-414 | the label is "stop recording" exactly when the flag is on |
| `Analysis.StopRecording` | src/pages/DocumentAnalysis.tsx:67-68 | the stop and start labels differ in each language |
| `Profile.RiskBadgeVariant` | src/pages/Profile.tsx:80-87 | `medium` gives secondary, `high` destructive, and everything else, `low` included, default |
| `Profile.BadgeNotInjective` | src/pages/Profile.tsx:82-85 | `low` and an unknown level get the same badge |
| `Profile.RiskLabel` | src/pages/Profile.tsx:89-95 | a label exists in each language exactly for `low`, `medium` and `high` |
| `Profile.HistoryLevelsHaveLabels` | src/pages/Profile.tsx:53-78 | every history entry is `processed` and has a level with a label in both languages |
| `Profile.HistoryIdsDistinct` | src/pages/Profile.tsx:53-78 | history ids are pairwise distinct |
| `Profile.ProfileLanguage` | src/pages/Profile.tsx:11 | the language is the prop when given and "en" otherwise |
| `Profile.HistoryNeverEmpty` | src/pages/Profile.tsx:148 | the constant history is not empty, so the empty-state branch is never shown |

## Left out

- Timer timing: the 300 ms interval, the 2000/1000/3000 ms timeouts and how they interleave are not modelled. Ticks and completions are independent events, so the model does not say how many ticks land before a completion.
- The `Date.now()`-based ids of upload entries and chat messages are opaque parameters. Uniqueness is not assumed. Two files with the same name dropped together can share an id, and then every by-id operation affects both.
- The react-dropzone MIME/extension allow-list and the 10 MB `maxSize` belong to a foreign library. `OnDrop` receives the files the library accepted.
- Navigation after "analyze" (`navigate("/analysis", ...)`) is not modelled. Neither are toasts, icons, JSX, styling, floating-point size display or locale date formatting.
- `JSON.stringify` is not modelled: the stored `legalai_user` value is the record itself (`LocalStore.Stored.UserJson`).
- Lookups into the JavaScript tables (`content[currentLanguage]`, `riskLabels[language][level]`) are modelled as plain maps. `Common.ParseLang` and `Profile.RiskLabel` therefore say nothing about keys that name inherited `Object.prototype` members, such as `"constructor"` or `"toString"`. No caller passes such a key.
- Router path normalisation is not modelled. React Router matches case-insensitively and ignores a trailing slash; `AppRoot.Route` takes the exact pathname.
- Native HTML form validation is not modelled (`required`, `type="email"`, `maxLength`). Neither is the submit button's `disabled` state. The model runs `handleSubmit` whenever it is called, so a second submit while loading queues a second completion.
- Message and upload timestamps (`new Date()`) and the `File` contents are not modelled.
- The static bilingual copy of every page is not modelled, apart from the strings the modelled logic returns. So are the Home, About, Help, Navbar and Footer components.
- `Shell.Layout.currentLanguage` is the prop as received at construction. Re-rendering with a new prop is not modelled for the shell. The chat widget models it with `ReceiveLanguage`.
