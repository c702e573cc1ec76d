/**
 * The `send-contact-email` edge function: it checks a contact form posted as JSON, builds a
 * confirmation for the visitor and a notification for the site's owner, posts both to
 * the e-mail provider and reports whether both were accepted.
 */
module ContactEmail {
  import opened Js
  import opened Edge

  const AdminAddress := "solutions@ndscalesmart.com"
  const DefaultSiteUrl := "https://ndscalesmart.com"
  const DefaultFromAddress := "solutions@ndscalesmart.com"
  const ClientSubject := "Thank You for Contacting ND Scale Smart"
  const AiHeading := "AI Strategy Questions"

  /** The five AI questions, in the order the notification lists them. */
  const AiPrompts: seq<string> := [
    "What aspect of your business could we help simplify right now?",
    "Where would AI save you or your team the most time?",
    "What aspect of your business needs the most improvement?",
    "What frustrating task would you want AI to solve?",
    "If you are looking for consultation, describe the problem you need help resolving?"
  ]

  /** The JSON body as the function receives it: any field may be missing. */
  datatype ContactRequest = ContactRequest(
    firstName: Option<string>,
    lastName: Option<string>,
    email: Option<string>,
    company: Option<string>,
    website: Option<string>,
    projectType: Option<string>,
    message: Option<string>,
    aiQuestion: Option<string>,
    aiQuestion1: Option<string>,
    aiQuestion2: Option<string>,
    aiQuestion3: Option<string>,
    aiQuestion4: Option<string>)

  /** `await req.json()`: either an object, or the error that parsing threw. */
  datatype RequestBody = Json(form: ContactRequest) | Unparsable(message: string)

  datatype HttpRequest = HttpRequest(verb: string, body: RequestBody)

  datatype Recipient = Client | Admin

  datatype FailureDetail = FailureDetail(recipient: Recipient, error: string)

  /** The JSON (or, for a preflight, text) bodies the function answers with. */
  datatype Body =
    | Preflight
    | Error(error: string)
    | SomeFailed(error: string, details: seq<FailureDetail>)
    | Sent(message: string, sent: nat)

  datatype Response = Response(status: nat, body: Body)

  /** The response, and the e-mails that were posted to the provider on the way, in order. */
  datatype Handled = Handled(response: Response, emails: seq<Email>)

  /** `firstName`, `lastName`, `email` and `message` must all be truthy. */
  predicate HasRequiredFields(f: ContactRequest) {
    Truthy(f.firstName) && Truthy(f.lastName) && Truthy(f.email) && Truthy(f.message)
  }

  /** The five AI answers, parallel to `AiPrompts`. */
  function AiAnswers(f: ContactRequest): seq<Option<string>> {
    [f.aiQuestion, f.aiQuestion1, f.aiQuestion2, f.aiQuestion3, f.aiQuestion4]
  }

  predicate AnyAiAnswer(f: ContactRequest) {
    Truthy(f.aiQuestion) || Truthy(f.aiQuestion1) || Truthy(f.aiQuestion2)
    || Truthy(f.aiQuestion3) || Truthy(f.aiQuestion4)
  }

  /** `${value ? `...${value}...` : ''}` for a labelled line. */
  function OptionalField(name: string, value: Option<string>): seq<Block> {
    if Truthy(value) then [Field(name, value.value)] else []
  }

  /** One question block, shown only when its answer is truthy. */
  function OptionalQuestion(prompt: string, answer: Option<string>): seq<Block> {
    if Truthy(answer) then [Question(prompt, answer.value)] else []
  }

  /** The AI section of the notification: present only when some answer is truthy. */
  function AiSection(f: ContactRequest): seq<Block> {
    if AnyAiAnswer(f) then
      [Heading(AiHeading)]
      + OptionalQuestion(AiPrompts[0], f.aiQuestion)
      + OptionalQuestion(AiPrompts[1], f.aiQuestion1)
      + OptionalQuestion(AiPrompts[2], f.aiQuestion2)
      + OptionalQuestion(AiPrompts[3], f.aiQuestion3)
      + OptionalQuestion(AiPrompts[4], f.aiQuestion4)
    else []
  }

  function FullName(f: ContactRequest): string {
    Interpolate(f.firstName) + " " + Interpolate(f.lastName)
  }

  /** The visitor's copy: a greeting and the submitted fields, the message with `<br>` line breaks. */
  function ClientHtml(f: ContactRequest, siteUrl: string): seq<Block> {
    [Greeting("Hi " + Interpolate(f.firstName) + ","),
     Field("Name", FullName(f)),
     Field("Email", Interpolate(f.email))]
    + OptionalField("Company", f.company)
    + OptionalField("Website", f.website)
    + [Field("Project Type", Interpolate(f.projectType)),
       Field("Message", ReplaceNewlines(Interpolate(f.message))),
       Link("our website", siteUrl)]
  }

  /** The owner's notification: every field, the raw message, and the answered AI questions. */
  function AdminHtml(f: ContactRequest): seq<Block> {
    [Heading("Contact Information"),
     Field("Name", FullName(f)),
     Field("Email", Interpolate(f.email))]
    + OptionalField("Company", f.company)
    + OptionalField("Website", f.website)
    + [Field("Project Type", Interpolate(f.projectType)),
       Heading("Project Details"),
       Paragraph(Interpolate(f.message))]
    + AiSection(f)
    + [Paragraph("Response Expected Within 24 Hours")]
  }

  function ClientEmail(f: ContactRequest, siteUrl: string, from: string): Email {
    Email(from, Interpolate(f.email), None, ClientSubject, ClientHtml(f, siteUrl))
  }

  function AdminSubject(f: ContactRequest): string {
    "New Contact: " + FullName(f) + " - " + Interpolate(f.projectType)
  }

  function AdminEmail(f: ContactRequest, from: string): Email {
    Email(from, AdminAddress, Some(Interpolate(f.email)), AdminSubject(f), AdminHtml(f))
  }

  /** `responses.every(r => r.ok)`. */
  predicate AllOk(replies: seq<ProviderReply>) {
    forall i :: 0 <= i < |replies| ==> replies[i].Reply? && replies[i].ok
  }

  /** Index 0 is the visitor's copy, any other index the owner's. */
  function RecipientAt(i: nat): Recipient {
    if i == 0 then Client else Admin
  }

  /** `responses.map((r, i) => r.ok ? null : {recipient, error}).filter(e => e !== null)`, from index `start`. */
  function FailureDetails(replies: seq<ProviderReply>, start: nat): (d: seq<FailureDetail>)
    ensures |d| <= |replies|
    ensures (forall i :: 0 <= i < |replies| && replies[i].Reply? ==> replies[i].ok) <==> d == []
  {
    if replies == [] then []
    else
      (if replies[0].Reply? && !replies[0].ok then [FailureDetail(RecipientAt(start), replies[0].text)] else [])
      + FailureDetails(replies[1..], start + 1)
  }

  /** `detail` stands for a reply among `replies` that was not ok, labelled by its position. */
  ghost predicate Labelled(replies: seq<ProviderReply>, start: nat, detail: FailureDetail) {
    exists i :: 0 <= i < |replies| && replies[i] == Reply(false, detail.error)
             && detail.recipient == RecipientAt(start + i)
  }

  lemma LabelledShift(replies: seq<ProviderReply>, start: nat, detail: FailureDetail)
    requires replies != [] && Labelled(replies[1..], start + 1, detail)
    ensures Labelled(replies, start, detail)
  {
    var i :| 0 <= i < |replies[1..]| && replies[1..][i] == Reply(false, detail.error)
             && detail.recipient == RecipientAt(start + 1 + i);
    assert replies[i + 1] == replies[1..][i];
  }

  /** Every detail is a reply that was not ok, with its text, labelled by its position. */
  lemma {:induction false} FailureDetailsSound(replies: seq<ProviderReply>, start: nat, k: nat)
    requires k < |FailureDetails(replies, start)|
    ensures Labelled(replies, start, FailureDetails(replies, start)[k])
  {
    var head := if replies[0].Reply? && !replies[0].ok then [FailureDetail(RecipientAt(start), replies[0].text)] else [];
    var tail := FailureDetails(replies[1..], start + 1);
    var d := FailureDetails(replies, start);
    assert d == head + tail;
    if k < |head| {
      assert replies[0] == Reply(false, d[k].error);
    } else {
      FailureDetailsSound(replies[1..], start + 1, k - |head|);
      assert d[k] == tail[k - |head|];
      LabelledShift(replies, start, d[k]);
    }
  }

  /** What the function answers once both e-mails have been posted. */
  function Respond(replies: seq<ProviderReply>): Response {
    match FirstThrown(replies)
    case Some(m) => Response(500, Error(m))
    case None =>
      if AllOk(replies) then Response(200, Sent("Contact form emails sent successfully", 2))
      else Response(500, SomeFailed("Failed to send some emails", FailureDetails(replies, 0)))
  }

  /** The request handler; the environment and the provider are parameters. */
  function HandleContact(req: HttpRequest, env: Env, provider: Provider): Handled {
    if req.verb == "OPTIONS" then Handled(Response(200, Preflight), [])
    else if !Truthy(EnvGet(env, "RESEND_API_KEY")) then
      Handled(Response(500, Error("RESEND_API_KEY is not set")), [])
    else if req.verb != "POST" then Handled(Response(405, Error("Method not allowed")), [])
    else match req.body
      case Unparsable(m) => Handled(Response(500, Error(m)), [])
      case Json(f) =>
        if !HasRequiredFields(f) then Handled(Response(400, Error("Missing required fields")), [])
        else
          var siteUrl := OrElse(EnvGet(env, "SITE_URL"), DefaultSiteUrl);
          var from := OrElse(EnvGet(env, "FROM_EMAIL"), DefaultFromAddress);
          var emails := [ClientEmail(f, siteUrl, from), AdminEmail(f, from)];
          Handled(Respond([provider(emails[0]), provider(emails[1])]), emails)
  }

  // ---------------------------------------------------------------------------
  // Properties

  /** A request is answered before anything is sent unless it is a POST with a valid form. */
  lemma Routing(req: HttpRequest, env: Env, provider: Provider)
    ensures req.verb == "OPTIONS" ==> HandleContact(req, env, provider) == Handled(Response(200, Preflight), [])
    ensures req.verb != "OPTIONS" && Truthy(EnvGet(env, "RESEND_API_KEY")) && req.verb != "POST" ==>
              HandleContact(req, env, provider) == Handled(Response(405, Error("Method not allowed")), [])
    ensures req.verb != "OPTIONS" && !Truthy(EnvGet(env, "RESEND_API_KEY")) ==>
              HandleContact(req, env, provider).response.status == 500
              && HandleContact(req, env, provider).emails == []
  {
  }

  /** 400 comes exactly from a POST whose form misses a required field, and sends nothing. */
  lemma Validation(req: HttpRequest, env: Env, provider: Provider)
    ensures var h := HandleContact(req, env, provider);
      h.response.status == 400 <==>
        (req.verb == "POST" && Truthy(EnvGet(env, "RESEND_API_KEY"))
         && req.body.Json? && !HasRequiredFields(req.body.form))
    ensures HandleContact(req, env, provider).response.status == 400 ==> HandleContact(req, env, provider).emails == []
  {
  }

  /** Two replies from the provider: the verdict over a pair, both cases of it. */
  lemma {:induction false} RespondToPair(client: ProviderReply, admin: ProviderReply)
    requires client.Reply? && admin.Reply?
    ensures var r := Respond([client, admin]);
      (r.status == 200 && r.body == Sent("Contact form emails sent successfully", 2))
      <==> client.ok && admin.ok
    ensures var r := Respond([client, admin]);
      !(client.ok && admin.ok) ==> r.status == 500 && r.body.SomeFailed?
    ensures var r := Respond([client, admin]);
      r.body.SomeFailed? ==>
        && (forall t :: FailureDetail(Client, t) in r.body.details <==> client == Reply(false, t))
        && (forall t :: FailureDetail(Admin, t) in r.body.details <==> admin == Reply(false, t))
        && |r.body.details| == (if client.ok then 0 else 1) + (if admin.ok then 0 else 1)
        && (!client.ok ==> r.body.details[0] == FailureDetail(Client, client.text))
  {
    var rs := [client, admin];
    assert FirstThrown(rs[1..]) == FirstThrown([admin]);
    assert FirstThrown([admin][1..]) == None;
    assert FirstThrown(rs) == None;
    var d := FailureDetails(rs, 0);
    var dAdmin := FailureDetails([admin], 1);
    assert rs[1..] == [admin];
    assert [admin][1..] == [];
    assert dAdmin == (if admin.ok then [] else [FailureDetail(Admin, admin.text)]);
    assert d == (if client.ok then [] else [FailureDetail(Client, client.text)]) + dAdmin;
  }

  /** The whole answer to a valid POST: 200 with `sent: 2` exactly when both replies are ok. */
  lemma {:induction false} SuccessIffBothOk(req: HttpRequest, env: Env, provider: Provider)
    requires req.verb == "POST" && Truthy(EnvGet(env, "RESEND_API_KEY"))
    requires req.body.Json? && HasRequiredFields(req.body.form)
    ensures var h := HandleContact(req, env, provider);
      |h.emails| == 2
      && ((h.response.status == 200 && h.response.body == Sent("Contact form emails sent successfully", 2))
          <==> (provider(h.emails[0]).Reply? && provider(h.emails[0]).ok
                && provider(h.emails[1]).Reply? && provider(h.emails[1]).ok))
  {
    var h := HandleContact(req, env, provider);
    var c, a := provider(h.emails[0]), provider(h.emails[1]);
    if c.Reply? && a.Reply? {
      RespondToPair(c, a);
    } else {
      assert FirstThrown([c, a]).Some? by {
        if c.Reply? { assert [c, a][1] == a; }
      }
    }
  }

  /**
   * The failing answers to a valid POST: anything but two ok replies gives 500, and a `fetch`
   * that throws gives 500 with its message, the confirmation's exception taken first.
   */
  lemma {:induction false} FailureIs500(req: HttpRequest, env: Env, provider: Provider)
    requires req.verb == "POST" && Truthy(EnvGet(env, "RESEND_API_KEY"))
    requires req.body.Json? && HasRequiredFields(req.body.form)
    ensures var h := HandleContact(req, env, provider);
      |h.emails| == 2
    ensures var h := HandleContact(req, env, provider);
      var c, a := provider(h.emails[0]), provider(h.emails[1]);
      && (!(c.Reply? && c.ok && a.Reply? && a.ok) ==> h.response.status == 500)
      && (c.Threw? ==> h.response == Response(500, Error(c.message)))
      && (c.Reply? && a.Threw? ==> h.response == Response(500, Error(a.message)))
  {
    var h := HandleContact(req, env, provider);
    var c, a := provider(h.emails[0]), provider(h.emails[1]);
    if c.Reply? && a.Reply? {
      RespondToPair(c, a);
    } else if c.Reply? {
      assert [c, a][1..] == [a];
      assert FirstThrown([c, a]) == Some(a.message);
    }
  }

  /** The notification's addressing: the owner's fixed address, the visitor as reply-to. */
  lemma AdminAddressing(f: ContactRequest, from: string)
    requires HasRequiredFields(f)
    ensures AdminEmail(f, from).to == AdminAddress
    ensures AdminEmail(f, from).replyTo == Some(f.email.value)
    ensures AdminEmail(f, from).subject ==
              "New Contact: " + f.firstName.value + " " + f.lastName.value + " - " + Interpolate(f.projectType)
  {
  }

  /** The AI section's heading is shown exactly when at least one of the five answers is truthy. */
  lemma AiHeadingShown(f: ContactRequest)
    ensures Heading(AiHeading) in AdminHtml(f) <==> AnyAiAnswer(f)
  {
    var before := [Heading("Contact Information"), Field("Name", FullName(f)), Field("Email", Interpolate(f.email))]
      + OptionalField("Company", f.company) + OptionalField("Website", f.website)
      + [Field("Project Type", Interpolate(f.projectType)), Heading("Project Details"), Paragraph(Interpolate(f.message))];
    assert AdminHtml(f) == before + AiSection(f) + [Paragraph("Response Expected Within 24 Hours")];
    assert Heading(AiHeading) !in before;
    if AnyAiAnswer(f) { assert AiSection(f)[0] == Heading(AiHeading); }
  }

  /** Each question block is shown exactly when its own answer is truthy, and shows that answer. */
  lemma QuestionShown(f: ContactRequest, i: nat, a: string)
    requires i < 5
    ensures Question(AiPrompts[i], a) in AdminHtml(f) <==> AiAnswers(f)[i] == Some(a) && a != ""
  {
    var before := [Heading("Contact Information"), Field("Name", FullName(f)), Field("Email", Interpolate(f.email))]
      + OptionalField("Company", f.company) + OptionalField("Website", f.website)
      + [Field("Project Type", Interpolate(f.projectType)), Heading("Project Details"), Paragraph(Interpolate(f.message))];
    assert AdminHtml(f) == before + AiSection(f) + [Paragraph("Response Expected Within 24 Hours")];
    assert Question(AiPrompts[i], a) !in before;
    var q := Question(AiPrompts[i], a);
    var answers := AiAnswers(f);
    if AnyAiAnswer(f) {
      assert AiSection(f) == [Heading(AiHeading)]
        + OptionalQuestion(AiPrompts[0], answers[0]) + OptionalQuestion(AiPrompts[1], answers[1])
        + OptionalQuestion(AiPrompts[2], answers[2]) + OptionalQuestion(AiPrompts[3], answers[3])
        + OptionalQuestion(AiPrompts[4], answers[4]);
      forall j | 0 <= j < 5 && j != i ensures q !in OptionalQuestion(AiPrompts[j], answers[j]) {
        assert AiPrompts[j] != AiPrompts[i];
      }
    } else {
      assert !Truthy(answers[i]);
    }
  }

  /** The company and website lines of both e-mails appear exactly when those fields are truthy. */
  lemma OptionalLines(f: ContactRequest, siteUrl: string, v: string)
    ensures Field("Company", v) in ClientHtml(f, siteUrl) <==> f.company == Some(v) && v != ""
    ensures Field("Website", v) in ClientHtml(f, siteUrl) <==> f.website == Some(v) && v != ""
    ensures Field("Company", v) in AdminHtml(f) <==> f.company == Some(v) && v != ""
    ensures Field("Website", v) in AdminHtml(f) <==> f.website == Some(v) && v != ""
  {
    var ai := AiSection(f);
    assert forall b :: b in ai ==> b.Heading? || b.Question?;
  }

  /** The visitor's copy of the message has every line feed turned into `<br>`. */
  lemma MessageLineBreaks(f: ContactRequest, siteUrl: string, m: string)
    requires f.message == Some(m)
    ensures exists shown :: Field("Message", shown) in ClientHtml(f, siteUrl)
                          && '\n' !in shown && shown == Join(Split(m, '\n'), "<br>")
  {
    var shown := ReplaceNewlines(m);
    ReplaceNewlinesIsSplitJoin(m);
    assert Field("Message", shown) in ClientHtml(f, siteUrl);
  }
}
