/**
 * `submitContactForm`, the browser side of the contact form: it stores a row in
 * `contact_submissions` and then asks the `send-contact-email` function to send the e-mails.
 */
module ContactSubmission {
  import opened Js
  import opened Edge
  import ContactEmail

  /** The form as the page hands it over: the optional fields may be absent. */
  datatype ContactFormData = ContactFormData(
    firstName: string,
    lastName: string,
    email: string,
    company: Option<string>,
    website: Option<string>,
    projectType: string,
    message: string,
    aiQuestion: Option<string>,
    aiQuestion1: Option<string>,
    aiQuestion2: Option<string>,
    aiQuestion3: Option<string>,
    aiQuestion4: Option<string>)

  /** The `contact_submissions` row; `None` is SQL `null`. */
  datatype ContactRow = ContactRow(
    firstName: string,
    lastName: string,
    email: string,
    company: Option<string>,
    website: Option<string>,
    projectType: string,
    message: string,
    aiQuestion: Option<string>,
    aiQuestion1: Option<string>,
    aiQuestion2: Option<string>,
    aiQuestion3: Option<string>,
    aiQuestion4: Option<string>)

  /** The database's answer to the insert: `Some(error)` when it refused the row. */
  type Insert = ContactRow -> Option<string>

  /** The `fetch` to the edge function: the function's response, or the exception `fetch` threw. */
  datatype RelayReply = Answered(response: ContactEmail.Response) | FetchThrew(message: string)

  type Relay = ContactEmail.HttpRequest -> RelayReply

  /** How the call ends: with the parsed response body, or with an exception. */
  datatype SubmitOutcome = Returned(body: ContactEmail.Body) | Raised(message: string)

  /** The row offered to the database, the requests posted to the edge function, and the outcome. */
  datatype Submitted = Submitted(row: ContactRow, posted: seq<ContactEmail.HttpRequest>, outcome: SubmitOutcome)

  /** `email.toLowerCase().trim()`. */
  function NormaliseEmail(e: string): (r: string)
    ensures exists i :: PaddedAt(Lower(e), i, r)
    ensures forall k :: 0 <= k < |r| ==> !IsUpper(r[k])
    ensures r == [] || (!IsWhitespace(r[0]) && !IsWhitespace(r[|r| - 1]))
    ensures r == [] <==> AllWhitespace(e)
  {
    LowerWhitespace(e);
    LowerTrimCommute(e);
    Trim(Lower(e))
  }

  /** The row `submitContactForm` inserts: optional fields that are empty or absent become `null`. */
  function ToRow(f: ContactFormData): (row: ContactRow)
    ensures row.email == NormaliseEmail(f.email)
    ensures row.firstName == f.firstName && row.lastName == f.lastName
    ensures row.projectType == f.projectType && row.message == f.message
    ensures row.company.None? <==> !Truthy(f.company)
    ensures row.company.Some? ==> row.company == f.company
    ensures row.website.None? <==> !Truthy(f.website)
    ensures row.website.Some? ==> row.website == f.website
    ensures row.aiQuestion.None? <==> !Truthy(f.aiQuestion)
    ensures row.aiQuestion.Some? ==> row.aiQuestion == f.aiQuestion
    ensures row.aiQuestion1.None? <==> !Truthy(f.aiQuestion1)
    ensures row.aiQuestion1.Some? ==> row.aiQuestion1 == f.aiQuestion1
    ensures row.aiQuestion2.None? <==> !Truthy(f.aiQuestion2)
    ensures row.aiQuestion2.Some? ==> row.aiQuestion2 == f.aiQuestion2
    ensures row.aiQuestion3.None? <==> !Truthy(f.aiQuestion3)
    ensures row.aiQuestion3.Some? ==> row.aiQuestion3 == f.aiQuestion3
    ensures row.aiQuestion4.None? <==> !Truthy(f.aiQuestion4)
    ensures row.aiQuestion4.Some? ==> row.aiQuestion4 == f.aiQuestion4
  {
    ContactRow(f.firstName, f.lastName, NormaliseEmail(f.email), OrNull(f.company), OrNull(f.website),
      f.projectType, f.message, OrNull(f.aiQuestion), OrNull(f.aiQuestion1), OrNull(f.aiQuestion2),
      OrNull(f.aiQuestion3), OrNull(f.aiQuestion4))
  }

  /**
   * `JSON.stringify(formData)` as the edge function parses it back: every field keeps the
   * value the page gave, the e-mail address included, and absent fields stay absent.
   */
  function ToRequest(f: ContactFormData): ContactEmail.HttpRequest {
    ContactEmail.HttpRequest("POST", ContactEmail.Json(ContactEmail.ContactRequest(
      Some(f.firstName), Some(f.lastName), Some(f.email), f.company, f.website, Some(f.projectType),
      Some(f.message), f.aiQuestion, f.aiQuestion1, f.aiQuestion2, f.aiQuestion3, f.aiQuestion4)))
  }

  /** `response.ok`. */
  predicate IsOk(status: nat) {
    200 <= status <= 299
  }

  /**
   * The rest of `submitContactForm` once the row and the request body are built: `saved` is
   * the insert's error, and `answer` is read only when there was none.
   */
  function Finish(row: ContactRow, req: ContactEmail.HttpRequest, saved: Option<string>, answer: RelayReply): Submitted {
    if saved.Some? then Submitted(row, [], Raised("Failed to save contact form"))
    else match answer
      case FetchThrew(m) => Submitted(row, [req], Raised(m))
      case Answered(resp) =>
        if IsOk(resp.status) then Submitted(row, [req], Returned(resp.body))
        else Submitted(row, [req], Raised("Failed to send contact emails"))
  }

  /** `submitContactForm`, with the database and the network as parameters. */
  function SubmitContactForm(f: ContactFormData, insert: Insert, relay: Relay): Submitted {
    var row := ToRow(f);
    var req := ToRequest(f);
    Finish(row, req, insert(row), relay(req))
  }

  // ---------------------------------------------------------------------------
  // Properties

  /** Normalising twice changes nothing. */
  lemma NormaliseEmailIdempotent(e: string)
    ensures NormaliseEmail(NormaliseEmail(e)) == NormaliseEmail(e)
  {
    var t := Trim(Lower(e));
    LowerTrimCommute(t);
    assert Lower(t) == t by {
      LowerTrimCommute(e);
      LowerIdempotent(e);
      assert t == Lower(Trim(e));
      LowerIdempotent(Trim(e));
    }
    TrimIdempotent(Lower(e));
  }

  /** Addresses that differ only in ASCII case or surrounding whitespace are stored alike. */
  lemma NormaliseEmailForgives(pre: string, e: string, post: string)
    requires AllWhitespace(pre) && AllWhitespace(post)
    ensures NormaliseEmail(pre + e + post) == NormaliseEmail(e)
    ensures NormaliseEmail(Lower(e)) == NormaliseEmail(e)
  {
    LowerAppend(pre, e);
    LowerAppend(pre + e, post);
    LowerWhitespace(pre);
    LowerWhitespace(post);
    TrimPadding(Lower(pre), Lower(e), Lower(post));
    LowerIdempotent(e);
  }

  lemma LowerAppend(a: string, b: string)
    ensures Lower(a + b) == Lower(a) + Lower(b)
  {
  }

  /** The edge function's `firstName && lastName && email && message` holds exactly for non-empty fields. */
  lemma RequestValidity(f: ContactFormData)
    ensures ContactEmail.HasRequiredFields(ToRequest(f).body.form)
            <==> f.firstName != "" && f.lastName != "" && f.email != "" && f.message != ""
  {
  }

  /** A refused insert ends the call before anything is sent. */
  lemma SaveFailureStops(f: ContactFormData, insert: Insert, relay: Relay)
    requires insert(ToRow(f)).Some?
    ensures SubmitContactForm(f, insert, relay).posted == []
    ensures SubmitContactForm(f, insert, relay).outcome == Raised("Failed to save contact form")
  {
  }

  /** The call returns normally exactly when the row was stored and the function answered 2xx. */
  lemma ReturnsIffStoredAndOk(f: ContactFormData, insert: Insert, relay: Relay)
    ensures var s := SubmitContactForm(f, insert, relay);
      s.outcome.Returned? <==>
        (insert(ToRow(f)).None? && relay(ToRequest(f)).Answered? && IsOk(relay(ToRequest(f)).response.status))
    ensures var s := SubmitContactForm(f, insert, relay);
      s.outcome.Returned? ==> s.posted == [ToRequest(f)] && s.outcome.body == relay(ToRequest(f)).response.body
    ensures var s := SubmitContactForm(f, insert, relay);
      insert(ToRow(f)).None? && relay(ToRequest(f)).Answered? && !IsOk(relay(ToRequest(f)).response.status) ==>
        s.outcome == Raised("Failed to send contact emails")
  {
    var row, req := ToRow(f), ToRequest(f);
    FinishOutcomes(row, req, insert(row), relay(req));
  }

  lemma FinishOutcomes(row: ContactRow, req: ContactEmail.HttpRequest, saved: Option<string>, answer: RelayReply)
    ensures var s := Finish(row, req, saved, answer);
      && (s.outcome.Returned? <==> saved.None? && answer.Answered? && IsOk(answer.response.status))
      && (s.outcome.Returned? ==> s.posted == [req] && s.outcome.body == answer.response.body)
      && (saved.None? && answer.Answered? && !IsOk(answer.response.status) ==>
            s.outcome == Raised("Failed to send contact emails"))
  {
  }

  /** The visitor's copy goes to the address as typed, not to the normalised one that is stored. */
  lemma VisitorCopyAddress(f: ContactFormData, env: Env, provider: Provider)
    requires f.firstName != "" && f.lastName != "" && f.email != "" && f.message != ""
    requires Truthy(EnvGet(env, "RESEND_API_KEY"))
    ensures var h := ContactEmail.HandleContact(ToRequest(f), env, provider);
      |h.emails| == 2 && h.emails[0].to == f.email && ToRow(f).email == NormaliseEmail(f.email)
  {
    RequestValidity(f);
  }

  /**
   * End to end with the edge function: a complete form, once stored, returns `sent: 2`
   * exactly when the provider accepts both e-mails.
   */
  lemma {:induction false} EndToEnd(f: ContactFormData, insert: Insert, env: Env, provider: Provider)
    requires f.firstName != "" && f.lastName != "" && f.email != "" && f.message != ""
    requires Truthy(EnvGet(env, "RESEND_API_KEY")) && insert(ToRow(f)).None?
    ensures var h := ContactEmail.HandleContact(ToRequest(f), env, provider);
      var relay := (req: ContactEmail.HttpRequest) => Answered(ContactEmail.HandleContact(req, env, provider).response);
      |h.emails| == 2
      && ((SubmitContactForm(f, insert, relay).outcome == Returned(ContactEmail.Sent("Contact form emails sent successfully", 2)))
          <==> (provider(h.emails[0]).Reply? && provider(h.emails[0]).ok
                && provider(h.emails[1]).Reply? && provider(h.emails[1]).ok))
  {
    var req := ToRequest(f);
    RequestValidity(f);
    ContactEmail.SuccessIffBothOk(req, env, provider);
    var h := ContactEmail.HandleContact(req, env, provider);
    var relay := (req: ContactEmail.HttpRequest) => Answered(ContactEmail.HandleContact(req, env, provider).response);
    assert relay(req) == Answered(h.response);
    assert h.response.status == 200 || h.response.status == 500;
    ReturnsIffStoredAndOk(f, insert, relay);
  }
}
