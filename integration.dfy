/**
 * The two requests the controller sends, as the backend reads them: `JSON.stringify` of the
 * request's fields is parsed back into the same string fields.
 */
module ClientServer {
  import opened Options
  import opened Text
  import AppComponent
  import Backend

  /** The body the create route receives for a create request. */
  function CreateBody(req: AppComponent.CreateRequest): (r: Backend.Body) {
    Some(map["name" := req.name, "prompt" := req.prompt])
  }

  /** The body the subscribe route receives for a subscribe request. */
  function SubscribeBody(req: AppComponent.SubscribeRequest): (r: Backend.Body) {
    Some(map["email" := req.email])
  }

  /** Every create request the controller sends passes the backend's validation, with the typed
      name and prompt stored unchanged. */
  lemma CreateRequestAccepted(s: AppComponent.AppState)
    ensures AppComponent.CreateRequestOf(s).Some? ==>
      var body := CreateBody(AppComponent.CreateRequestOf(s).value);
      && Backend.CreateBodyValid(body)
      && body.value["name"] == s.formData.newsletterName
      && body.value["prompt"] == s.formData.newsletterPrompt
  {
    TrimEmptyIff(s.formData.newsletterName);
    TrimEmptyIff(s.formData.newsletterPrompt);
  }

  /** The backend's check is weaker than the controller's: it accepts a name and prompt of
      whitespace only, which the controller never sends. */
  lemma BlankFormOnlyBackendAccepts(s: AppComponent.AppState)
    requires Blank(s.formData.newsletterName) && s.formData.newsletterName != []
    requires Blank(s.formData.newsletterPrompt) && s.formData.newsletterPrompt != []
    ensures AppComponent.CreateRequestOf(s) == None
    ensures Backend.CreateBodyValid(CreateBody(AppComponent.CreateRequest(s.formData.newsletterName, s.formData.newsletterPrompt)))
  {
    AppComponent.FormValidIff(s.formData);
  }

  /** Every subscribe request the controller sends carries an email, so the backend never answers
      it with the missing-email error. */
  lemma SubscribeRequestHasEmail(s: AppComponent.AppState)
    ensures AppComponent.SubscribeRequestOf(s).Some? ==>
      var body := SubscribeBody(AppComponent.SubscribeRequestOf(s).value);
      && body.Some? && Backend.HasText(body.value, "email")
      && body.value["email"] == s.emailSignup
  {
    TrimEmptyIff(s.emailSignup);
  }
}
