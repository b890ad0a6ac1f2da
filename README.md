# Vibeletter, modelled in Dafny

Vibeletter lets a visitor describe a newsletter (a name and a prompt) and then sign up for it by email. A Flask
backend stores newsletters, subscribers and issues. Each issue is generated by a language model. The backend mails
due issues to subscribers and runs a daily job that generates and sends one issue per newsletter. A React frontend
lists the newsletters with a live search, shows the creation form, and shows a success page with an email sign-up
form.

The model has three parts:

- **The list view** (`newsletters_page.dfy`, module `NewslettersPage`). This is the case-insensitive search over
  name and prompt, the "no newsletters found" state, and the one fetch on mount. It is written as pure functions
  over `seq<Newsletter>`, with lemmas. The JavaScript string operations it uses (`trim`, `toLowerCase`,
  `includes`) are in `text.dfy` (module `Text`).
- **The view controller** (`app.dfy`, module `AppComponent`). The eight pieces of React state are the fields of
  `class App`, and each event handler is a method that updates them.
  - Every method is specified by a pure transition on the value `AppState`.
  - Properties of whole sessions are proved on `Run`, which folds those transitions over a sequence of `Event`s:
    busy flags never clear, the success page always has something to show, and a created newsletter's data
    outlives the selection of another one.
- **The backend's data rules** (`backend.dfy`, module `Backend`). The three tables are `seq` fields of
  `class Store`, and `Valid()` states the schema's constraints: every id column is a primary key (distinct and
  below the id counter), every subscriber's newsletter exists, emails are unique, and every issue's newsletter
  exists.
  - Each route and job is a method: `CreateNewsletter`, `List`, `Subscribe`, `CreateIssue`,
    `SendPendingIssues` and `DailyGenerateAndSend`.
  - Each method is specified by its status codes, by the exact new tables, and by the messages it hands to the
    mail server.

`integration.dfy` (module `ClientServer`) connects the frontend and the backend.

- Every create request the controller sends passes the backend's validation. The backend's check is strictly
  weaker than the controller's: it also accepts a whitespace-only name and prompt.
- Every subscribe request the controller sends carries an email, so the backend's missing-email 400 never answers
  it. The backend can still answer 400 for an email already taken, or for a newsletter id it does not know
  (including the literal `undefined` a request sent without a selection carries).

Some things are parameters instead of being computed:

- The current time: microseconds since 0001-01-01 00:00, the origin of Python's `datetime`.
- The generated issue text.
- The parsed JSON request bodies: `None` is a body that parses to `null`.
- The outcome of each HTTP response the frontend awaits.

Random ids (`os.urandom(16).hex()`) are modelled as a counter, so a new id is always fresh.

## Model

| member | source | states |
|---|---|---|
| Text.TrimStartSpec | frontend/src/App.tsx:34 | `trimStart` keeps a suffix that does not start with whitespace and drops only ECMAScript whitespace |
| Text.TrimEndSpec | frontend/src/App.tsx:34 | `trimEnd` keeps a prefix that does not end with whitespace and drops only whitespace |
| Text.TrimEmptyIff | frontend/src/App.tsx:34 | `s.trim()` is falsy exactly when `s` is whitespace only; a non-empty trim comes from a non-empty string |
| Text.TrimIsTrimmed | frontend/src/App.tsx:93 | `trim()` returns a contiguous slice of the input with no whitespace at either end |
| Text.LowerChar | frontend/src/pages/NewslettersPage.tsx:29 | the result is never an upper-case ASCII letter, and a character changes only when it is one, into the lower-case letter at the same alphabet position |
| Text.Lower | frontend/src/pages/NewslettersPage.tsx:29-30 | `toLowerCase` keeps the length and lower-cases each character |
| Text.LowerIdempotent | frontend/src/pages/NewslettersPage.tsx:29-30 | lower-casing twice equals lower-casing once |
| Text.ContainsIff | frontend/src/pages/NewslettersPage.tsx:29-30 | `includes(t)` holds exactly when `t` occurs at some index |
| Text.ContainsEmpty | frontend/src/pages/NewslettersPage.tsx:29-30 | every string includes the empty string |
| NewslettersPage.Filter | frontend/src/pages/NewslettersPage.tsx:28-31 | a newsletter is in the result exactly when it is loaded and its lower-cased name or prompt includes the lower-cased term; each matching newsletter keeps its multiplicity and every other one is gone; the result is never longer than the list |
| NewslettersPage.FilterIsSubsequence | frontend/src/pages/NewslettersPage.tsx:28-31 | the filtered list keeps the loaded order: it is the list with some elements deleted |
| NewslettersPage.FilterEmptyTerm | frontend/src/pages/NewslettersPage.tsx:12 | with the initial empty search term the whole list shows, in order |
| NewslettersPage.FilterIdempotent | frontend/src/pages/NewslettersPage.tsx:28-31 | filtering the filtered list again with the same term changes nothing |
| NewslettersPage.FilterCaseInsensitive | frontend/src/pages/NewslettersPage.tsx:29-30 | two terms that lower-case to the same string select the same newsletters |
| NewslettersPage.LowerTermSameFilter | frontend/src/pages/NewslettersPage.tsx:29-30 | searching for the lower-cased term gives the same result as the term itself |
| NewslettersPage.EmptyStateIff | frontend/src/pages/NewslettersPage.tsx:107 | the empty state renders exactly when no loaded newsletter matches the term |
| NewslettersPage.FetchOutcomeShown | frontend/src/pages/NewslettersPage.tsx:13-25 | after a successful fetch the initial empty term shows exactly the fetched list; a failed fetch shows the same list and empty state as a fetch of no newsletters, for every term |
| NewslettersPage.FailedFetchShowsEmptyState | frontend/src/pages/NewslettersPage.tsx:22-25 | after a failed fetch the empty state shows, whatever the search term |
| NewslettersPage.MissingFirstCharNotContained | frontend/src/pages/NewslettersPage.tsx:29-30 | a string lacking the first character of a non-empty term does not include the term |
| NewslettersPage.LowersTo | frontend/src/pages/NewslettersPage.tsx:29-30 | a string lower-cases to `t` when each of its characters lower-cases to the character of `t` at the same index |
| NewslettersPage.TechWeeklyNameLowered | frontend/src/pages/NewslettersPage.tsx:29 | "Tech Weekly" lower-cases to "tech weekly" |
| NewslettersPage.TechWeeklyPromptLowered | frontend/src/pages/NewslettersPage.tsx:30 | "AI news" lower-cases to "ai news" |
| NewslettersPage.TermsLowered | frontend/src/pages/NewslettersPage.tsx:29-30 | the terms "tech" and "xyz" are already lower-case |
| NewslettersPage.FilterSingleton | frontend/src/pages/NewslettersPage.tsx:28-31 | a one-element list is kept exactly when its element matches |
| NewslettersPage.TechWeeklyMatchesTech | frontend/src/pages/NewslettersPage.tsx:28-31 | "Tech Weekly" matches the term "tech" |
| NewslettersPage.XyzNotInLowered | frontend/src/pages/NewslettersPage.tsx:29-30 | neither "tech weekly" nor "ai news" includes "xyz" |
| NewslettersPage.TechWeeklyMissesXyz | frontend/src/pages/NewslettersPage.tsx:28-31 | neither the name nor the prompt of "Tech Weekly" includes "xyz" |
| NewslettersPage.TechWeeklyScenario | frontend/src/pages/NewslettersPage.tsx:28-31 | searching a one-newsletter list with "tech" keeps it; searching with "xyz" empties it and shows the empty state |
| AppComponent.FormValidIff | frontend/src/App.tsx:93 | the form is valid exactly when neither the name nor the prompt is whitespace only |
| AppComponent.ButtonsEnabledIff | frontend/src/App.tsx:197 | the generate button is enabled exactly for a valid form while not generating; the sign-up button exactly for a non-blank email while not signing up |
| AppComponent.RunAppend | frontend/src/App.tsx:11-91 | running a session and then one more event equals one more step after the session |
| AppComponent.SubmitGenerateGate | frontend/src/App.tsx:32-47 | a blank name or prompt makes submit change nothing and send nothing; otherwise only `isGenerating` is set and the untrimmed values are posted |
| AppComponent.CreateResponseShowsRecord | frontend/src/App.tsx:48-52 | an ok create response stores and selects the returned record and shows its name and prompt, with the back button leading to the list |
| AppComponent.FailedCreateLeavesBusy | frontend/src/App.tsx:48 | a failed create response throws before any update, so the state is unchanged and the generate button stays disabled |
| AppComponent.BackToListResets | frontend/src/App.tsx:76-81 | back-to-list shows the list, clears the sign-up state and the selection, and keeps the form, the created data and the busy flags |
| AppComponent.CreateNewDisablesGenerate | frontend/src/App.tsx:83-86 | after create-new the empty form is invalid and the generate button is disabled |
| AppComponent.CreateNewClearsForm | frontend/src/App.tsx:83-86 | create-new opens the form view with empty fields and keeps every other piece of state |
| AppComponent.SelectAfterCreateShowsCreated | frontend/src/App.tsx:88-91 | once a newsletter was created, selecting any newsletter shows the created one's name and prompt |
| AppComponent.SelectBeforeCreateShowsSelected | frontend/src/App.tsx:88-91 | before any creation, selecting a newsletter shows exactly that newsletter |
| AppComponent.SubmitEmailGate | frontend/src/App.tsx:55-65 | a blank email makes submit change nothing and send nothing; otherwise only `isSigningUp` is set and the email as typed is posted for the selected newsletter's id |
| AppComponent.SignupResponseEffect | frontend/src/App.tsx:66-67 | an ok response sets `signupSuccess` only; a failed one changes nothing, and the sign-up button stays disabled |
| AppComponent.StepKeepsBusyFlags | frontend/src/App.tsx:24-91 | no handler clears `isGenerating`, `isSigningUp` or stored created data |
| AppComponent.RunKeepsBusyFlags | frontend/src/App.tsx:24-91 | in every session, once set, the busy flags and the created data stay set |
| AppComponent.ButtonsStayDisabled | frontend/src/App.tsx:197 | after the first submission the corresponding button stays disabled for the rest of the session |
| AppComponent.RunConsistent | frontend/src/App.tsx:50-52 | the success page always has a selected newsletter, whatever events follow |
| AppComponent.ReachableViewMatchesPage | frontend/src/App.tsx:96-125 | from the initial state the rendered view always matches the page, and the success view's back button always leads to the list |
| AppComponent.StaleDisplayScenario | frontend/src/App.tsx:50-51 | create, go back to the list, select another newsletter: the other one is selected but the created one's name and prompt are shown |
| AppComponent.App.View | frontend/src/App.tsx:96-125 | on the list page the component renders the list; in a consistent state the success view renders exactly on the success page, with its back button leading to the list, and the form exactly on the form page |
| AppComponent.App.constructor | frontend/src/App.tsx:12-22 | the initial state: the list page, empty forms, all flags false |
| AppComponent.App.HandleInputChange | frontend/src/App.tsx:24-30 | the named form field takes the new value; nothing else changes |
| AppComponent.App.HandleEmailChange | frontend/src/App.tsx:188 | the email field takes the new value |
| AppComponent.App.HandleGenerate | frontend/src/App.tsx:32-47 | ignores a form with a blank name or prompt; otherwise sets `isGenerating` and returns the create request with the values as typed (see `SubmitGenerateGate`) |
| AppComponent.App.ReceiveCreateResponse | frontend/src/App.tsx:48-52 | an ok response stores and selects the returned record and opens the success page; a failed one changes nothing (see `CreateResponseShowsRecord`, `FailedCreateLeavesBusy`) |
| AppComponent.App.HandleEmailSignup | frontend/src/App.tsx:55-65 | ignores a blank email; otherwise sets `isSigningUp` and returns the subscribe request for the selected newsletter (see `SubmitEmailGate`) |
| AppComponent.App.ReceiveSignupResponse | frontend/src/App.tsx:66-67 | an ok response sets `signupSuccess`; a failed one changes nothing (see `SignupResponseEffect`) |
| AppComponent.App.HandleBackToGenerate | frontend/src/App.tsx:70-74 | the form page shows again, with the sign-up state cleared |
| AppComponent.App.HandleBackToList | frontend/src/App.tsx:76-81 | shows the list, clears the email, the success flag and the selection, and keeps the rest (see `BackToListResets`) |
| AppComponent.App.HandleCreateNew | frontend/src/App.tsx:83-86 | opens the form page with both fields empty and keeps the rest (see `CreateNewClearsForm`) |
| AppComponent.App.HandleSelectNewsletter | frontend/src/App.tsx:88-91 | the newsletter is selected and the success page shows |
| Backend.CountForAppend | backend/app.py:77 | a new subscriber raises only its own newsletter's `subscriber_count`, by one |
| Backend.SubscribeRaisesListedCount | backend/app.py:69-93 | after a new subscriber row the list keeps its rows and order, the subscriber's newsletter shows one more subscriber, and every other count is unchanged |
| Backend.CountForBounds | backend/app.py:77 | the count never exceeds the table, and it is 0 for a newsletter nobody subscribed to |
| Backend.FindNewsletter | backend/app.py:123 | `issue.newsletter` is a row of the table with the issue's id, and it is absent only when no row has that id |
| Backend.InsertPermutes | backend/app.py:71 | inserting into the ordered list adds exactly the one row |
| Backend.InsertKeepsNewestFirst | backend/app.py:71 | inserting keeps the list ordered by `created_at`, newest first |
| Backend.SortByNewest | backend/app.py:71 | `ORDER BY created_at DESC` is a permutation of the table, ordered newest first |
| Backend.ListNewsletters | backend/app.py:69-78 | the list has every newsletter exactly once, newest first, each with the number of its subscribers |
| Backend.ScheduleIsNextMorning | backend/app.py:107-108 | a new issue is scheduled on the next calendar day at 09:00:00, keeping the current microseconds, so strictly later than now |
| Backend.MarkSentChangesExactlyPending | backend/app.py:117-120 | exactly the unsent, due issues get `sent_at = now`; every other issue is unchanged |
| Backend.MarkSentIdempotent | backend/app.py:133 | after a run nothing is pending at that time, a second run changes nothing, and an issue it sent is never pending again |
| Backend.MailsForMatchesSubscribers | backend/app.py:123-128 | one message per subscriber of the newsletter, as many as the listed count, each to a subscriber's email with the subject and body format, and every subscriber of the newsletter gets one |
| Backend.PendingMailHoldsIssueMail | backend/app.py:122-133 | every message attempted for one issue is among the messages the sending job attempts |
| Backend.PendingMailReachesEverySubscriber | backend/app.py:122-133 | every subscriber of a pending issue's newsletter is mailed that issue, with the newsletter's subject |
| Backend.PendingMailStep | backend/app.py:122-133 | the messages for the first i+1 issues are those for the first i followed by the messages for issue i |
| Backend.DailyMailReachesEverySubscriber | backend/app.py:141-171 | the daily job mails every subscriber of every newsletter that newsletter's content, with its subject |
| Backend.DailyIssuesKeepValid | backend/app.py:164-173 | recording the daily issues under the next ids keeps every constraint of the schema |
| Backend.GenerateAndSend | backend/app.py:141-171 | the loop returns one issue per newsletter, in table order, under consecutive fresh ids, and every message it attempts |
| Backend.DailyIssuesAlreadySent | backend/app.py:164-171 | the daily job records one issue per newsletter, for that newsletter, that the sending job never selects |
| Backend.MarkSentStep | backend/app.py:133 | marking one more issue extends the marked prefix by one |
| Backend.SendAndMark | backend/app.py:122-133 | the loop returns the table with every pending issue marked sent, and every message it attempts, issue by issue |
| Backend.MarkSentKeepsIssuesValid | backend/app.py:133-134 | marking issues sent keeps their ids and their newsletters |
| Backend.Store.constructor | backend/app.py:34-56 | empty tables satisfy the schema's constraints, primary keys included |
| Backend.Store.CreateNewsletter | backend/app.py:59-67 | 400 and no change without a non-empty name and prompt; otherwise 201 and a new row with a fresh id, the given fields and the current time |
| Backend.Store.List | backend/app.py:69-78 | returns `ListNewsletters` of the current tables and changes nothing |
| Backend.Store.Subscribe | backend/app.py:80-93 | a null body fails with 500; a missing or empty email gets 400; a taken email or unknown newsletter rolls back with 400; otherwise 201 and one new row under a fresh id; the constraints, primary keys included, hold |
| Backend.Store.CreateIssue | backend/app.py:95-112 | 404 for an unknown newsletter; otherwise 201 and one new unsent issue scheduled for the next morning |
| Backend.Store.SendPendingIssues | backend/app.py:115-134 | the issue table becomes `MarkSent` of the old one, the messages are `PendingMail`, nothing else changes, and the constraints, primary keys included, hold |
| Backend.Store.DailyGenerateAndSend | backend/app.py:137-173 | one issue per newsletter is appended, scheduled and sent now, and the messages are `DailyMail`, which reaches every subscriber of every newsletter (see `DailyMailReachesEverySubscriber`); the constraints, primary keys included, hold |
| ClientServer.CreateRequestAccepted | frontend/src/App.tsx:34-47 | every create request the controller posts passes the check at backend/app.py:62 and stores the typed name and prompt |
| ClientServer.BlankFormOnlyBackendAccepts | backend/app.py:62 | a whitespace-only name and prompt are refused by the controller but accepted by the backend |
| ClientServer.SubscribeRequestHasEmail | frontend/src/App.tsx:57-65 | every subscribe request the controller posts carries its email, so the backend's missing-email error at backend/app.py:84-85 never answers it |

## Left out

- Rendering: JSX, styling, icons, the spinner, and `NewsletterCard`'s date formatting (`toLocaleDateString`) are not modelled.
- Network I/O is not modelled. `fetch`, its JSON parsing and the order in which responses arrive are the `ok`/record parameters of the response methods. A response event may arrive at any time, not only after its request, so the session lemmas hold for every interleaving.
- Text.Lower: covers only the ASCII letters. JavaScript's `toLowerCase` also maps other Unicode letters; the model leaves those characters unchanged.
- AppComponent.App.HandleInputChange: covers only the two field names the form uses. The source writes any `name` attribute into `formData`.
- Backend ids are a counter rather than `os.urandom(16).hex()` strings, so a primary-key collision cannot happen. The frontend's ids stay strings, and `ClientServer` does not relate the two.
- Python's `datetime` is counted in microseconds. Not modelled:
  - time zones;
  - the Seoul-time clock of the daily job and its 09:00 cron trigger, where the job is an explicit call;
  - the overflow of `timedelta(days=1)` on 9999-12-31.
- The language-model call is not modelled; its output is the `content`/`contents` parameter. A failure of that call raises before `commit`; this is not modelled either.
- Mail delivery is not modelled. The `outbox` is every message the job attempts, since `mail.send` failures are logged and skipped.
- The order of `nl.subscribers`, of `Newsletter.query.all()` and of the pending-issue query is taken to be table order; SQLAlchemy does not fix it.
- Frontend events are not tied to the page that renders their control: a submit, select or back event may happen on any page, and a submit even while its button is disabled. The session lemmas hold for every such sequence, which covers the ones the real page allows.
- Request parsing:
  - Non-string JSON values are not modelled.
  - What `get_json` does with a non-JSON body differs between Flask versions and is not modelled.
  - A body is either `null` or an object with string fields.
- Backend.Store.Subscribe: rejects an unknown newsletter id with 400 by treating the foreign key as enforced at commit. SQLite without `PRAGMA foreign_keys` would store the orphan row; the other constraints are as declared.
- Backend.IssueMail: with an issue whose newsletter row is missing, the source raises on `None.subscribers`, while the model yields no messages. `Store.Valid()` rules that state out, so the stores modelled never reach it. In the source the raise would also skip marking the issues sent and the commit.
- `ON DELETE CASCADE` is not modelled, because no route deletes rows.
- Migrations, configuration and the scheduler's threads are not modelled.
