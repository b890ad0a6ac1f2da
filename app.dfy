/**
 * The top-level view controller: which of the three views renders, the creation
 * form, the sign-up form and the two submissions to the backend.
 *
 * The eight pieces of React state are the fields of class `App`; each handler is a
 * method that updates them. Every handler is specified by a pure transition on the
 * value `AppState`, and the lemmas about sessions (sequences of events) are stated
 * on those transitions.
 */
module AppComponent {
  import opened Options
  import opened Text
  import opened NewsletterCard

  datatype Page = List | Generate | Success

  /** The name/prompt pair: the type of both `formData` and `newsletterData`. */
  datatype NewsletterData = NewsletterData(newsletterName: string, newsletterPrompt: string)

  const EmptyForm := NewsletterData("", "")

  datatype AppState = AppState(
    currentPage: Page,
    newsletterData: Option<NewsletterData>,
    selectedNewsletter: Option<Newsletter>,
    formData: NewsletterData,
    emailSignup: string,
    isGenerating: bool,
    isSigningUp: bool,
    signupSuccess: bool)

  /** The state on first render: the list, empty forms, no flags set. */
  const Initial := AppState(List, None, None, EmptyForm, "", false, false, false)

  /** The body posted to the create endpoint. */
  datatype CreateRequest = CreateRequest(name: string, prompt: string)

  /** The subscribe call: the id in its path (absent when no newsletter is selected) and the body. */
  datatype SubscribeRequest = SubscribeRequest(newsletterId: Option<string>, email: string)

  /** The `name` attribute of the input that changed. */
  datatype FormField = NewsletterNameField | NewsletterPromptField

  // ---------------------------------------------------------------------------
  // Derived values of one render

  /** `isFormValid`: both trimmed fields are non-empty. */
  predicate IsFormValid(form: NewsletterData) {
    Trim(form.newsletterName) != [] && Trim(form.newsletterPrompt) != []
  }

  /** The form is valid exactly when each field holds a character other than whitespace. */
  lemma FormValidIff(form: NewsletterData)
    ensures IsFormValid(form) <==> !Blank(form.newsletterName) && !Blank(form.newsletterPrompt)
  {
    TrimEmptyIff(form.newsletterName);
    TrimEmptyIff(form.newsletterPrompt);
  }

  /** The generate button is enabled when the form is valid and no creation has been started. */
  predicate GenerateEnabled(s: AppState) {
    IsFormValid(s.formData) && !s.isGenerating
  }

  /** The sign-up button is enabled when the trimmed email is non-empty and no sign-up has been started. */
  predicate SignupEnabled(s: AppState) {
    Trim(s.emailSignup) != [] && !s.isSigningUp
  }

  /** The button enabling rules, stated on the raw fields. */
  lemma ButtonsEnabledIff(s: AppState)
    ensures GenerateEnabled(s) <==> !Blank(s.formData.newsletterName) && !Blank(s.formData.newsletterPrompt) && !s.isGenerating
    ensures SignupEnabled(s) <==> !Blank(s.emailSignup) && !s.isSigningUp
  {
    FormValidIff(s.formData);
    TrimEmptyIff(s.emailSignup);
  }

  /** Where the back button of the success view leads. */
  datatype BackTarget = BackToNewsletters | BackToGenerator

  /** What renders: the list, the success view with what it shows, or the generate form. */
  datatype View =
    | ListView
    | SuccessView(display: NewsletterData, back: BackTarget, signedUp: bool)
    | GenerateView

  /** `displayData`: the created newsletter's data when there is any, else the selected newsletter's. */
  function DisplayData(s: AppState): (r: Option<NewsletterData>)
    ensures r.None? <==> s.newsletterData.None? && s.selectedNewsletter.None?
    ensures s.newsletterData.Some? ==> r == s.newsletterData
    ensures s.newsletterData.None? && s.selectedNewsletter.Some? ==>
      r == Some(NewsletterData(s.selectedNewsletter.value.name, s.selectedNewsletter.value.prompt))
  {
    match s.newsletterData
    case Some(d) => Some(d)
    case None =>
      match s.selectedNewsletter
      case Some(n) => Some(NewsletterData(n.name, n.prompt))
      case None => None
  }

  /** The back button goes to the list whenever a newsletter is selected. */
  function BackAction(s: AppState): (r: BackTarget) {
    if s.selectedNewsletter.Some? then BackToNewsletters else BackToGenerator
  }

  /** The view App returns: the list, the success view when there is something to show, else the form. */
  function RenderedView(s: AppState): (v: View)
    ensures v.ListView? <==> s.currentPage == List
    ensures v.SuccessView? <==> s.currentPage == Success && DisplayData(s).Some?
    ensures v.SuccessView? ==> v.display == DisplayData(s).value && v.back == BackAction(s) && v.signedUp == s.signupSuccess
  {
    if s.currentPage == List then ListView
    else if s.currentPage == Success && (s.newsletterData.Some? || s.selectedNewsletter.Some?) then
      SuccessView(DisplayData(s).value, BackAction(s), s.signupSuccess)
    else GenerateView
  }

  // ---------------------------------------------------------------------------
  // Transitions

  /** `handleInputChange`: the named field takes the new value. */
  function InputChange(s: AppState, field: FormField, value: string): (r: AppState) {
    match field
    case NewsletterNameField => s.(formData := s.formData.(newsletterName := value))
    case NewsletterPromptField => s.(formData := s.formData.(newsletterPrompt := value))
  }

  /** The email input's `onChange`. */
  function EmailChange(s: AppState, value: string): (r: AppState) {
    s.(emailSignup := value)
  }

  /** The synchronous part of `handleGenerate`: an invalid form is ignored, otherwise the busy flag is set. */
  function SubmitGenerate(s: AppState): (r: AppState) {
    if IsFormValid(s.formData) then s.(isGenerating := true) else s
  }

  /** The create request `handleGenerate` issues: the untrimmed form values, or none. */
  function CreateRequestOf(s: AppState): (r: Option<CreateRequest>) {
    if IsFormValid(s.formData) then Some(CreateRequest(s.formData.newsletterName, s.formData.newsletterPrompt)) else None
  }

  /** The rest of `handleGenerate`: a non-ok status throws; an ok one stores the record and shows it. */
  function GenerateResponse(s: AppState, ok: bool, record: Newsletter): (r: AppState) {
    if ok then
      s.(newsletterData := Some(NewsletterData(record.name, record.prompt)),
         selectedNewsletter := Some(record),
         currentPage := Success)
    else s
  }

  /** The synchronous part of `handleEmailSignup`: a blank email is ignored, otherwise the busy flag is set. */
  function SubmitEmail(s: AppState): (r: AppState) {
    if Trim(s.emailSignup) != [] then s.(isSigningUp := true) else s
  }

  /** The subscribe request `handleEmailSignup` issues, addressed by the selected newsletter's id. */
  function SubscribeRequestOf(s: AppState): (r: Option<SubscribeRequest>) {
    if Trim(s.emailSignup) == [] then None
    else
      var id := match s.selectedNewsletter case Some(n) => Some(n.id) case None => None;
      Some(SubscribeRequest(id, s.emailSignup))
  }

  /** The rest of `handleEmailSignup`: a non-ok status throws; an ok one sets the success flag. */
  function SignupResponse(s: AppState, ok: bool): (r: AppState) {
    if ok then s.(signupSuccess := true) else s
  }

  /** `handleBackToGenerate`. */
  function BackToGenerate(s: AppState): (r: AppState) {
    s.(currentPage := Generate, signupSuccess := false, emailSignup := "")
  }

  /** `handleBackToList`. */
  function BackToList(s: AppState): (r: AppState) {
    s.(currentPage := List, signupSuccess := false, emailSignup := "", selectedNewsletter := None)
  }

  /** `handleCreateNew`. */
  function CreateNew(s: AppState): (r: AppState) {
    s.(currentPage := Generate, formData := EmptyForm)
  }

  /** `handleSelectNewsletter`. */
  function SelectNewsletter(s: AppState, n: Newsletter): (r: AppState) {
    s.(selectedNewsletter := Some(n), currentPage := Success)
  }

  /** Everything that can happen to the controller: user actions and arriving responses. */
  datatype Event =
    | InputChanged(field: FormField, value: string)
    | EmailChanged(value: string)
    | GenerateSubmitted
    | CreateResponded(ok: bool, record: Newsletter)
    | EmailSubmitted
    | SignupResponded(ok: bool)
    | BackToGeneratorClicked
    | BackToListClicked
    | CreateNewClicked
    | NewsletterSelected(newsletter: Newsletter)

  function Step(s: AppState, e: Event): (r: AppState) {
    match e
    case InputChanged(f, v) => InputChange(s, f, v)
    case EmailChanged(v) => EmailChange(s, v)
    case GenerateSubmitted => SubmitGenerate(s)
    case CreateResponded(ok, r) => GenerateResponse(s, ok, r)
    case EmailSubmitted => SubmitEmail(s)
    case SignupResponded(ok) => SignupResponse(s, ok)
    case BackToGeneratorClicked => BackToGenerate(s)
    case BackToListClicked => BackToList(s)
    case CreateNewClicked => CreateNew(s)
    case NewsletterSelected(n) => SelectNewsletter(s, n)
  }

  /** The state after the events, in order. */
  function Run(s: AppState, events: seq<Event>): (r: AppState)
    decreases |events|
  {
    if events == [] then s else Run(Step(s, events[0]), events[1..])
  }

  lemma {:induction false} RunAppend(s: AppState, events: seq<Event>, e: Event)
    ensures Run(s, events + [e]) == Step(Run(s, events), e)
    decreases |events|
  {
    if events != [] {
      assert (events + [e])[1..] == events[1..] + [e];
      RunAppend(Step(s, events[0]), events[1..], e);
    }
  }

  // ---------------------------------------------------------------------------
  // Properties of single handlers

  /** Generate submit with a blank name or prompt changes nothing and sends nothing;
      otherwise it only sets the busy flag and sends the form values as typed. */
  lemma SubmitGenerateGate(s: AppState)
    ensures Blank(s.formData.newsletterName) || Blank(s.formData.newsletterPrompt) ==>
      SubmitGenerate(s) == s && CreateRequestOf(s) == None
    ensures !Blank(s.formData.newsletterName) && !Blank(s.formData.newsletterPrompt) ==>
      && SubmitGenerate(s) == s.(isGenerating := true)
      && CreateRequestOf(s) == Some(CreateRequest(s.formData.newsletterName, s.formData.newsletterPrompt))
  {
    FormValidIff(s.formData);
  }

  /** After an ok create response the success view shows the returned record's name and prompt. */
  lemma CreateResponseShowsRecord(s: AppState, record: Newsletter)
    ensures var t := GenerateResponse(s, true, record);
      && t.currentPage == Success
      && t.newsletterData == Some(NewsletterData(record.name, record.prompt))
      && t.selectedNewsletter == Some(record)
      && RenderedView(t) == SuccessView(NewsletterData(record.name, record.prompt), BackToNewsletters, s.signupSuccess)
  {
  }

  /** A non-ok create response throws before any state update: the busy flag stays set. */
  lemma FailedCreateLeavesBusy(s: AppState, record: Newsletter)
    requires s.isGenerating
    ensures GenerateResponse(s, false, record) == s
    ensures !GenerateEnabled(GenerateResponse(s, false, record))
  {
  }

  /** Back to the list resets the sign-up state and the selection and keeps the form and the created data. */
  lemma BackToListResets(s: AppState)
    ensures var t := BackToList(s);
      && t.currentPage == List && !t.signupSuccess && t.emailSignup == "" && t.selectedNewsletter == None
      && t.formData == s.formData && t.newsletterData == s.newsletterData
      && t.isGenerating == s.isGenerating && t.isSigningUp == s.isSigningUp
      && RenderedView(t) == ListView
  {
  }

  /** Create-new leaves the generate button disabled: the empty form is not valid. */
  lemma CreateNewDisablesGenerate(s: AppState)
    ensures !IsFormValid(EmptyForm)
    ensures !GenerateEnabled(CreateNew(s))
  {
    var e: string := [];
    assert TrimStart(e) == e;
  }

  /** Create-new opens the generate view with an empty form and keeps everything else. */
  lemma CreateNewClearsForm(s: AppState)
    ensures var t := CreateNew(s);
      && t.currentPage == Generate && t.formData == EmptyForm
      && t.newsletterData == s.newsletterData && t.selectedNewsletter == s.selectedNewsletter
      && t.emailSignup == s.emailSignup && t.signupSuccess == s.signupSuccess
      && t.isGenerating == s.isGenerating && t.isSigningUp == s.isSigningUp
      && RenderedView(t) == GenerateView
  {
  }

  /** Once a newsletter has been created, selecting any newsletter shows the created one's name and prompt. */
  lemma SelectAfterCreateShowsCreated(s: AppState, n: Newsletter)
    requires s.newsletterData.Some?
    ensures RenderedView(SelectNewsletter(s, n)) == SuccessView(s.newsletterData.value, BackToNewsletters, s.signupSuccess)
  {
  }

  /** Before any creation, selecting a newsletter shows exactly that newsletter. */
  lemma SelectBeforeCreateShowsSelected(s: AppState, n: Newsletter)
    requires s.newsletterData.None?
    ensures RenderedView(SelectNewsletter(s, n)) == SuccessView(NewsletterData(n.name, n.prompt), BackToNewsletters, s.signupSuccess)
  {
  }

  /** Email submit with a blank email changes nothing and sends nothing; otherwise it sets the busy flag
      and posts the email as typed to the selected newsletter. */
  lemma SubmitEmailGate(s: AppState)
    ensures Blank(s.emailSignup) ==> SubmitEmail(s) == s && SubscribeRequestOf(s) == None
    ensures !Blank(s.emailSignup) ==>
      && SubmitEmail(s) == s.(isSigningUp := true)
      && SubscribeRequestOf(s).Some? && SubscribeRequestOf(s).value.email == s.emailSignup
      && (s.selectedNewsletter.Some? ==> SubscribeRequestOf(s).value.newsletterId == Some(s.selectedNewsletter.value.id))
  {
    TrimEmptyIff(s.emailSignup);
  }

  /** An ok sign-up response sets the success flag; a non-ok one changes nothing, so the busy flag stays set. */
  lemma SignupResponseEffect(s: AppState)
    ensures SignupResponse(s, true) == s.(signupSuccess := true)
    ensures SignupResponse(s, false) == s
    ensures s.isSigningUp ==> !SignupEnabled(SignupResponse(s, false))
  {
  }

  // ---------------------------------------------------------------------------
  // Properties of whole sessions

  /** No event clears a busy flag. */
  lemma StepKeepsBusyFlags(s: AppState, e: Event)
    ensures s.isGenerating ==> Step(s, e).isGenerating
    ensures s.isSigningUp ==> Step(s, e).isSigningUp
    ensures s.newsletterData.Some? ==> Step(s, e).newsletterData.Some?
  {
  }

  /** Once set, `isGenerating` and `isSigningUp` stay set, and created data stays stored, for the rest of the session. */
  lemma {:induction false} RunKeepsBusyFlags(s: AppState, events: seq<Event>)
    ensures s.isGenerating ==> Run(s, events).isGenerating
    ensures s.isSigningUp ==> Run(s, events).isSigningUp
    ensures s.newsletterData.Some? ==> Run(s, events).newsletterData.Some?
    decreases |events|
  {
    if events != [] {
      StepKeepsBusyFlags(s, events[0]);
      RunKeepsBusyFlags(Step(s, events[0]), events[1..]);
    }
  }

  /** After the first creation or sign-up has been submitted, its button stays disabled whatever happens next. */
  lemma ButtonsStayDisabled(s: AppState, events: seq<Event>)
    ensures s.isGenerating ==> !GenerateEnabled(Run(s, events))
    ensures s.isSigningUp ==> !SignupEnabled(Run(s, events))
  {
    RunKeepsBusyFlags(s, events);
  }

  /** The controller's invariant: the success page always has a selected newsletter. */
  ghost predicate Consistent(s: AppState) {
    s.currentPage == Success ==> s.selectedNewsletter.Some?
  }

  lemma {:induction false} RunConsistent(s: AppState, events: seq<Event>)
    requires Consistent(s)
    ensures Consistent(Run(s, events))
    decreases |events|
  {
    if events != [] {
      var t := Step(s, events[0]);
      assert Consistent(t) by {
        match events[0]
        case CreateResponded(ok, r) =>
        case NewsletterSelected(n) =>
        case _ =>
      }
      RunConsistent(t, events[1..]);
    }
  }

  /** In every session from the initial state the view matches the page (the success page is never left
      without data to show), and the success view's back button always leads to the list: the
      back-to-generator handler is never offered. */
  lemma ReachableViewMatchesPage(events: seq<Event>)
    ensures var s := Run(Initial, events);
      && (RenderedView(s).ListView? <==> s.currentPage == List)
      && (RenderedView(s).GenerateView? <==> s.currentPage == Generate)
      && (RenderedView(s).SuccessView? <==> s.currentPage == Success)
      && (RenderedView(s).SuccessView? ==> RenderedView(s).back == BackToNewsletters)
  {
    RunConsistent(Initial, events);
  }

  /** Running a non-empty sequence of events is one step followed by the rest. */
  lemma RunCons(s: AppState, e: Event, rest: seq<Event>)
    ensures Run(s, [e] + rest) == Run(Step(s, e), rest)
  {
    assert ([e] + rest)[1..] == rest;
  }

  /** A session that shows the stale display: create a newsletter, go back to the list, select another
      one; the success view still shows the created newsletter although the other one is selected. */
  lemma StaleDisplayScenario(name: string, prompt: string, created: Newsletter, other: Newsletter)
    requires !Blank(name) && !Blank(prompt)
    requires created.name == name && created.prompt == prompt
    ensures var s := Run(Initial, [
        CreateNewClicked,
        InputChanged(NewsletterNameField, name),
        InputChanged(NewsletterPromptField, prompt),
        GenerateSubmitted,
        CreateResponded(true, created),
        BackToListClicked,
        NewsletterSelected(other)]);
      && s.selectedNewsletter == Some(other)
      && RenderedView(s) == SuccessView(NewsletterData(name, prompt), BackToNewsletters, false)
  {
    var s1 := CreateNew(Initial);
    var s2 := InputChange(s1, NewsletterNameField, name);
    var s3 := InputChange(s2, NewsletterPromptField, prompt);
    assert s3.formData == NewsletterData(name, prompt);
    FormValidIff(s3.formData);
    var s4 := SubmitGenerate(s3);
    var s5 := GenerateResponse(s4, true, created);
    var s6 := BackToList(s5);
    var s7 := SelectNewsletter(s6, other);
    assert s7.newsletterData == Some(NewsletterData(name, prompt));
    assert RenderedView(s7) == SuccessView(NewsletterData(name, prompt), BackToNewsletters, false);
    RunSeven(Initial, CreateNewClicked, InputChanged(NewsletterNameField, name), InputChanged(NewsletterPromptField, prompt),
      GenerateSubmitted, CreateResponded(true, created), BackToListClicked, NewsletterSelected(other));
  }

  lemma RunSeven(s: AppState, e1: Event, e2: Event, e3: Event, e4: Event, e5: Event, e6: Event, e7: Event)
    ensures Run(s, [e1, e2, e3, e4, e5, e6, e7])
         == Step(Step(Step(Step(Step(Step(Step(s, e1), e2), e3), e4), e5), e6), e7)
  {
    var s1 := Step(s, e1);
    var s2 := Step(s1, e2);
    var s3 := Step(s2, e3);
    var s4 := Step(s3, e4);
    var s5 := Step(s4, e5);
    var s6 := Step(s5, e6);
    RunCons(s6, e7, []);
    RunCons(s5, e6, [e7]);
    RunCons(s4, e5, [e6, e7]);
    RunCons(s3, e4, [e5, e6, e7]);
    RunCons(s2, e3, [e4, e5, e6, e7]);
    RunCons(s1, e2, [e3, e4, e5, e6, e7]);
    RunCons(s, e1, [e2, e3, e4, e5, e6, e7]);
    assert [e1, e2, e3, e4, e5, e6, e7] == [e1] + [e2, e3, e4, e5, e6, e7];
    assert [e2, e3, e4, e5, e6, e7] == [e2] + [e3, e4, e5, e6, e7];
    assert [e3, e4, e5, e6, e7] == [e3] + [e4, e5, e6, e7];
    assert [e4, e5, e6, e7] == [e4] + [e5, e6, e7];
    assert [e5, e6, e7] == [e5] + [e6, e7];
    assert [e6, e7] == [e6] + [e7];
    assert [e7] == [e7] + [];
  }

  // ---------------------------------------------------------------------------
  // The component's state, updated in place by its handlers

  class App {
    var currentPage: Page
    var newsletterData: Option<NewsletterData>
    var selectedNewsletter: Option<Newsletter>
    var formData: NewsletterData
    var emailSignup: string
    var isGenerating: bool
    var isSigningUp: bool
    var signupSuccess: bool

    /** The fields as one value. */
    function State(): (r: AppState)
      reads this
    {
      AppState(currentPage, newsletterData, selectedNewsletter, formData, emailSignup,
               isGenerating, isSigningUp, signupSuccess)
    }

    /** What this render returns: while the success page has a selected newsletter, as every session
        from the initial state keeps it, the view matches the page and the back button leads to the list. */
    function View(): (v: View)
      reads this
      ensures currentPage == List ==> v == ListView
      ensures Consistent(State()) ==>
        && (v.SuccessView? <==> currentPage == Success)
        && (v.GenerateView? <==> currentPage == Generate)
        && (v.SuccessView? ==> v.back == BackToNewsletters)
    {
      RenderedView(State())
    }

    constructor ()
      ensures State() == Initial
    {
      currentPage := List;
      newsletterData := None;
      selectedNewsletter := None;
      formData := EmptyForm;
      emailSignup := "";
      isGenerating := false;
      isSigningUp := false;
      signupSuccess := false;
    }

    method HandleInputChange(field: FormField, value: string)
      modifies this
      ensures State() == InputChange(old(State()), field, value)
    {
      match field {
        case NewsletterNameField => formData := formData.(newsletterName := value);
        case NewsletterPromptField => formData := formData.(newsletterPrompt := value);
      }
    }

    method HandleEmailChange(value: string)
      modifies this
      ensures State() == EmailChange(old(State()), value)
    {
      emailSignup := value;
    }

    /** Up to the `await`: returns the request sent, if any. */
    method HandleGenerate() returns (request: Option<CreateRequest>)
      modifies this
      ensures State() == SubmitGenerate(old(State()))
      ensures request == CreateRequestOf(old(State()))
    {
      if Trim(formData.newsletterName) == [] || Trim(formData.newsletterPrompt) == [] {
        return None;
      }
      isGenerating := true;
      request := Some(CreateRequest(formData.newsletterName, formData.newsletterPrompt));
    }

    /** After the `await`: the create response's status and record. */
    method ReceiveCreateResponse(ok: bool, record: Newsletter)
      modifies this
      ensures State() == GenerateResponse(old(State()), ok, record)
    {
      if !ok {
        return;
      }
      newsletterData := Some(NewsletterData(record.name, record.prompt));
      selectedNewsletter := Some(record);
      currentPage := Success;
    }

    /** Up to the `await`: returns the request sent, if any. */
    method HandleEmailSignup() returns (request: Option<SubscribeRequest>)
      modifies this
      ensures State() == SubmitEmail(old(State()))
      ensures request == SubscribeRequestOf(old(State()))
    {
      if Trim(emailSignup) == [] {
        return None;
      }
      isSigningUp := true;
      var id := match selectedNewsletter case Some(n) => Some(n.id) case None => None;
      request := Some(SubscribeRequest(id, emailSignup));
    }

    /** After the `await`: the subscribe response's status. */
    method ReceiveSignupResponse(ok: bool)
      modifies this
      ensures State() == SignupResponse(old(State()), ok)
    {
      if !ok {
        return;
      }
      signupSuccess := true;
    }

    method HandleBackToGenerate()
      modifies this
      ensures State() == BackToGenerate(old(State()))
    {
      currentPage := Generate;
      signupSuccess := false;
      emailSignup := "";
    }

    method HandleBackToList()
      modifies this
      ensures State() == BackToList(old(State()))
    {
      currentPage := List;
      signupSuccess := false;
      emailSignup := "";
      selectedNewsletter := None;
    }

    method HandleCreateNew()
      modifies this
      ensures State() == CreateNew(old(State()))
    {
      currentPage := Generate;
      formData := EmptyForm;
    }

    method HandleSelectNewsletter(newsletter: Newsletter)
      modifies this
      ensures State() == SelectNewsletter(old(State()), newsletter)
    {
      selectedNewsletter := Some(newsletter);
      currentPage := Success;
    }
  }
}
