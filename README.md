# ND Scale Smart: newsletter and contact back end, modelled in Dafny

The site has two Supabase edge functions and one browser helper. This project models them,
along with the static blog-post table they refer to:

- **`send-blog-newsletter`** sends a blog post to every active subscriber.
  - POST `/send` validates the post and reads the active subscribers.
  - It cuts the subscribers into batches of 50 and posts one personalised message per subscriber to the e-mail provider, with a pause between batches.
  - It answers with `total`, `sent` and `failed` counts (except as noted below).
  - It then writes one result row per recipient to `newsletter_send_results`, in chunks of 100.
  - POST `/unsubscribe` finds the subscriber holding a token and clears that row's `is_active`.
- **`send-contact-email`** handles a contact form.
  - It checks the form's required fields.
  - It builds a confirmation for the visitor and a notification for the owner; the notification's AI-questions section is conditional.
  - It posts both messages. It answers 200 only when both were accepted. Otherwise it answers 500: with the thrown error's message if a `fetch` threw, or else with the failed recipients listed as `client` or `admin`.
- **`submitContactForm`** stores the form in `contact_submissions`, with the e-mail lower-cased and trimmed and empty optional fields as `null`. It then calls the contact function with the form as typed.
- **`getBlogPostBySlug`** looks up the six-post table by slug.

How the parts are modelled:

- **Pure code** is datatypes and functions. This covers the contact function, the browser helper, the message builder, the unsubscribe route and the slug lookup.
- **Loops** are methods, each proved equal to a specification function. The three loops of the newsletter function are the batch-building loop (`Batching.MakeChunks`), the send loop (`NewsletterDispatch.Dispatch`) and the insert loop (`NewsletterPersist.Persist`). Lemmas prove the promised properties about those functions.
- **Outside services** are parameters:
  - the e-mail provider is a function from message to reply;
  - the subscriber query is a function from the subscriber table to rows;
  - the database inserts are functions from rows to a verdict;
  - the lookup and update errors of the unsubscribe route are flags;
  - the environment is a map.
- **Effects** of the newsletter handler are collected in a `World` value: the subscriber table (a map from id to row), the send-results table, the messages posted and the pauses taken.

Two behaviours of the code are worth stating outright:

- **A `fetch` that throws.** An exception from one `fetch`, as opposed to a non-ok response, rejects the batch's `Promise.all` (supabase/functions/send-blog-newsletter/index.ts:145). The handler's `catch` then answers 500 with that error's message (lines 351-354). Every batch before the throwing one and the whole throwing batch have been posted, later batches are not, and no result is persisted. `NewsletterDispatch.RunAbortShape` states where the run stops and what it posted. `NewsletterHandler.ThrownSendAborts` states the 500 with the message of the first exception in that batch, and the new state.
- **Zero active subscribers.** The answer is `{message: 'No active subscribers found', sent: 0}`, with no `total` or `failed` field (lines 59-64). `NewsletterHandler.ZeroSubscribers` states it.

## Model

| member | source | states |
|---|---|---|
| Js.Trim | src/utils/contact.ts:25 | the result is a run of the input's own characters with only whitespace before and after it, has no whitespace at either end, and is empty exactly when the input was all whitespace |
| Js.TrimPadding | src/utils/contact.ts:25 | whitespace added before or after a string does not change its trimmed form |
| Js.TrimIdempotent | src/utils/contact.ts:25 | trimming twice equals trimming once |
| Js.Lower | src/utils/contact.ts:25 | same length, no upper-case letter left, each character lower-cased in place |
| Js.LowerTrimCommute | src/utils/contact.ts:25 | lower-casing and trimming can be done in either order |
| Js.ReplaceNewlines | supabase/functions/send-contact-email/index.ts:71 | no line feed is left; a string without one is unchanged |
| Js.ReplaceNewlinesIsSplitJoin | supabase/functions/send-contact-email/index.ts:71 | the global replace equals splitting on line feeds and joining with `<br>` |
| Js.ReplaceNewlinesLength | supabase/functions/send-contact-email/index.ts:71 | each line feed grows the text by exactly three characters |
| Js.StripTrailingSlashes | supabase/functions/send-blog-newsletter/index.ts:37 | the result is a prefix that does not end in `/`, and everything removed was `/` |
| Js.StripTrailingSlashesIdempotent | supabase/functions/send-blog-newsletter/index.ts:37 | stripping twice equals stripping once |
| Edge.FirstThrown | supabase/functions/send-contact-email/index.ts:188 | `Promise.all` rejects exactly when some reply is an exception, and with one of those exceptions |
| Batching.ChunksFlatten | supabase/functions/send-blog-newsletter/index.ts:66-70 | the batches, concatenated, are the subscriber list in order |
| Batching.ChunksSizes | supabase/functions/send-blog-newsletter/index.ts:66-70 | every batch is non-empty with at most n elements, and all but the last have exactly n |
| Batching.ChunksCount | supabase/functions/send-blog-newsletter/index.ts:66-70 | there are ceil(N/n) batches |
| Batching.MakeChunks | supabase/functions/send-blog-newsletter/index.ts:67-70 | the slicing loop produces exactly the batches `Chunks` describes |
| Batching.ChunksStep | supabase/functions/send-blog-newsletter/index.ts:173-174 | the chunks from position i are the slice at i followed by the chunks from i + n |
| BlogPosts.FirstIndexWithSlug | src/data/blogPosts.ts:909 | finds the first index whose slug matches, or reports that none does |
| BlogPosts.FindBySlug | src/data/blogPosts.ts:909 | a found post has the slug, nothing is found exactly when no post has it, and an earlier match always wins |
| BlogPosts.GetBlogPostBySlug | src/data/blogPosts.ts:908-910 | a returned post is in the table with that slug; `undefined` exactly when no table post has it |
| BlogPosts.TableIds | src/data/blogPosts.ts:12-906 | the table holds six posts with ids 1 to 6 in order |
| BlogPosts.TableSlugsDistinct | src/data/blogPosts.ts:12-906 | no two posts share a slug |
| BlogPosts.FindEachPost | src/data/blogPosts.ts:909 | with distinct slugs every post is found by its own slug |
| BlogPosts.LookupEachTablePost | src/data/blogPosts.ts:908-910 | each table post is returned for its own slug |
| ContactEmail.FailureDetails | supabase/functions/send-contact-email/index.ts:194-206 | there are no details exactly when every response is ok, and never more details than responses |
| ContactEmail.FailureDetailsSound | supabase/functions/send-contact-email/index.ts:194-206 | each detail is a non-ok response with its text, labelled `client` at index 0 and `admin` otherwise |
| ContactEmail.Routing | supabase/functions/send-contact-email/index.ts:24-36 | OPTIONS answers `ok`; a missing API key answers 500; any other method than POST answers 405; none of these sends a message |
| ContactEmail.Validation | supabase/functions/send-contact-email/index.ts:39-44 | 400 exactly for a POST whose form lacks a first name, last name, e-mail or message, and then nothing is sent |
| ContactEmail.RespondToPair | supabase/functions/send-contact-email/index.ts:191-219 | 200 with `sent: 2` exactly when both replies are ok, else 500 whose details are exactly the failed recipients with their texts |
| ContactEmail.FailureIs500 | supabase/functions/send-contact-email/index.ts:186-233 | a valid POST that does not get two ok replies is answered 500; a `fetch` that throws gives 500 with its message, the confirmation's exception taken first |
| ContactEmail.SuccessIffBothOk | supabase/functions/send-contact-email/index.ts:156-219 | a valid POST posts two messages and succeeds exactly when the provider accepts both |
| ContactEmail.AdminAddressing | supabase/functions/send-contact-email/index.ts:172-185 | the notification goes to the fixed owner address, replies to the visitor, and has the subject `New Contact: first last - projectType` |
| ContactEmail.AiHeadingShown | supabase/functions/send-contact-email/index.ts:113-114 | the AI Strategy heading appears exactly when some AI answer is non-empty |
| ContactEmail.QuestionShown | supabase/functions/send-contact-email/index.ts:116-146 | each AI question appears exactly when its own answer is non-empty, and shows that answer |
| ContactEmail.OptionalLines | supabase/functions/send-contact-email/index.ts:66-105 | company and website lines appear in both messages exactly when those fields are non-empty |
| ContactEmail.MessageLineBreaks | supabase/functions/send-contact-email/index.ts:71 | the visitor's copy shows the message with every line feed as `<br>` |
| ContactSubmission.NormaliseEmail | src/utils/contact.ts:25 | the stored address is the lower-cased input with exactly its surrounding whitespace removed: a run of `Lower(e)` with only whitespace around it and none at its ends; it has no upper-case letter, and is empty only for an all-whitespace input |
| ContactSubmission.ToRow | src/utils/contact.ts:20-35 | the e-mail is normalised; required fields are copied; each of the seven optional fields (`x or null`) is null exactly when empty or absent, and otherwise holds the submitted value |
| ContactSubmission.NormaliseEmailIdempotent | src/utils/contact.ts:25 | normalising a stored address again changes nothing |
| ContactSubmission.NormaliseEmailForgives | src/utils/contact.ts:25 | addresses differing only in ASCII case or surrounding whitespace are stored alike |
| ContactSubmission.RequestValidity | src/utils/contact.ts:46-53 | the form sent to the contact function passes its validation exactly when the four required fields are non-empty |
| ContactSubmission.SaveFailureStops | src/utils/contact.ts:37-40 | an insert error raises `Failed to save contact form` and nothing is posted |
| ContactSubmission.FinishOutcomes | src/utils/contact.ts:37-61 | once the row is built: a returned body needs a stored row and a 2xx answer, posts one request and hands back the function's body |
| ContactSubmission.ReturnsIffStoredAndOk | src/utils/contact.ts:46-61 | the call returns the function's body exactly when the row was stored and the response was 2xx; a non-ok response raises `Failed to send contact emails` |
| ContactSubmission.VisitorCopyAddress | src/utils/contact.ts:20-53 | for a complete form, two messages are built and the visitor's copy goes to the address as typed, while the row stores the normalised one |
| ContactSubmission.EndToEnd | src/utils/contact.ts:46-61 | a complete stored form yields `sent: 2` exactly when the provider accepts both messages |
| NewsletterMessage.EnvironmentDefaults | supabase/functions/send-blog-newsletter/index.ts:28-29 | an unset or empty `FROM_EMAIL` sends from `newsletter@ndscalesmart.com` and an unset or empty `SITE_URL` builds both links on `https://ndscalesmart.com`; set values are used as given |
| NewsletterMessage.CampaignOf | supabase/functions/send-blog-newsletter/index.ts:42-49 | a validated post has a non-empty title and slug, carried over with its excerpt |
| NewsletterMessage.MessageContent | supabase/functions/send-blog-newsletter/index.ts:79-134 | the message goes to the subscriber with subject `New Article: title`; its greeting, excerpt and two links are exactly these |
| NewsletterMessage.TokenInLink | supabase/functions/send-blog-newsletter/index.ts:79 | the token can be read back from the unsubscribe link after the site and the fixed path |
| NewsletterMessage.ArticleLinkResolves | supabase/functions/send-blog-newsletter/index.ts:80 | a table post's article link leads back to that post through `getBlogPostBySlug` |
| NewsletterDispatch.Dispatch | supabase/functions/send-blog-newsletter/index.ts:75-152 | the send loop computes exactly the run that `RunBatches` describes over the batches of 50 |
| NewsletterDispatch.LoopStepThrown | supabase/functions/send-blog-newsletter/index.ts:145-147 | a batch with a thrown `fetch` ends the run with that batch's messages posted and its exception raised |
| NewsletterDispatch.LoopStepContinue | supabase/functions/send-blog-newsletter/index.ts:145-151 | a batch without exceptions appends its results and messages and pauses unless it was the last batch |
| NewsletterDispatch.CountsAddUp | supabase/functions/send-blog-newsletter/index.ts:154-155 | `sent + failed` is the number of results |
| NewsletterDispatch.SentIsOkCount | supabase/functions/send-blog-newsletter/index.ts:136-155 | `sent` is the number of subscribers whose provider response was ok |
| NewsletterDispatch.Isolation | supabase/functions/send-blog-newsletter/index.ts:136-142 | a recipient's result depends on its own reply only, with `success:false` and the error text for a non-ok reply |
| NewsletterDispatch.RunWithoutThrow | supabase/functions/send-blog-newsletter/index.ts:75-152 | without exceptions every subscriber is posted to once, in order, and pauses are one fewer than batches |
| NewsletterDispatch.RunAbortsIff | supabase/functions/send-blog-newsletter/index.ts:145 | the loop stops early exactly when some subscriber's `fetch` throws |
| NewsletterDispatch.RunOutboxPrefix | supabase/functions/send-blog-newsletter/index.ts:75-152 | the messages posted are always a prefix of the full list, in order |
| NewsletterDispatch.RunAbortShape | supabase/functions/send-blog-newsletter/index.ts:75-152 | a run that aborts stops at some batch b: no `fetch` in batches before b threw, the batches up to and including b were posted in full and no later one, and the error is the first exception of batch b in array order |
| NewsletterDispatch.RunAbortWitness | supabase/functions/send-blog-newsletter/index.ts:145 | the rejection that stops the loop is the answer to a message it posted |
| NewsletterDispatch.DispatchSummary | supabase/functions/send-blog-newsletter/index.ts:66-155 | one result per subscriber in order, every message posted, ceil(N/50) - 1 pauses, counts adding up to N |
| NewsletterPersist.ToPersist | supabase/functions/send-blog-newsletter/index.ts:158-166 | one row per result, in order, with the slug, the recipient's e-mail, first name, last name and token, `success`, and the error text as `response_text` |
| NewsletterPersist.StepThrown | supabase/functions/send-blog-newsletter/index.ts:172-180 | an exception on a chunk ends the write with that chunk the last one offered |
| NewsletterPersist.StepContinue | supabase/functions/send-blog-newsletter/index.ts:172-177 | a stored chunk is added to the table and a refused one is not, and the write goes on with the next 100 rows |
| NewsletterPersist.Persist | supabase/functions/send-blog-newsletter/index.ts:169-181 | the insert loop computes exactly what `PersistChunks` describes over chunks of 100 |
| NewsletterPersist.PersistOnlyAppends | supabase/functions/send-blog-newsletter/index.ts:173-177 | existing rows stay in place, at most the offered rows are added, and the chunks offered cover a prefix of the rows |
| NewsletterPersist.TableGainsStored | supabase/functions/send-blog-newsletter/index.ts:172-180 | whatever is refused or raised, the table ends as before followed by exactly the rows of the stored chunks, in order |
| NewsletterPersist.OffersUntilThrow | supabase/functions/send-blog-newsletter/index.ts:172-180 | the chunks offered are a prefix of the chunks, no earlier one raised, and the write stops early only right after a chunk that raised |
| NewsletterPersist.FailuresDoNotStop | supabase/functions/send-blog-newsletter/index.ts:175-176 | a refused chunk does not stop later chunks: without exceptions every chunk is offered |
| NewsletterPersist.AllStored | supabase/functions/send-blog-newsletter/index.ts:173-177 | when every chunk is stored the table gains exactly the rows, in order |
| NewsletterPersist.PersistResults | supabase/functions/send-blog-newsletter/index.ts:158-177 | the chunks of result rows hold at most 100 rows each, are all offered without exceptions, and all land when all are stored |
| NewsletterUnsubscribe.FindByToken | supabase/functions/send-blog-newsletter/index.ts:324-329 | a found id holds the token, and no id is found exactly when no row holds it |
| NewsletterUnsubscribe.RejectedLeavesStore | supabase/functions/send-blog-newsletter/index.ts:319-334 | a missing token gives 400 and an unknown token 404, and every outcome except success leaves the table unchanged |
| NewsletterUnsubscribe.DeactivatesOnlyMatch | supabase/functions/send-blog-newsletter/index.ts:337-346 | a matching token clears `is_active` on that row only and returns its e-mail |
| NewsletterUnsubscribe.UnsubscribeIdempotent | supabase/functions/send-blog-newsletter/index.ts:324-346 | repeating the call leaves the row inactive and succeeds again with the same e-mail |
| NewsletterUnsubscribe.NoLongerListed | supabase/functions/send-blog-newsletter/index.ts:52-55 | with unique tokens, after unsubscribing no listing of active subscribers holds that token |
| NewsletterHandler.RouteOf | supabase/functions/send-blog-newsletter/index.ts:37-40 | only POST is routed, and `/send` is chosen exactly when the path without trailing slashes ends in `/send` |
| NewsletterHandler.ConfigError | supabase/functions/send-blog-newsletter/index.ts:31-32 | no configuration error exactly when the API key, the Supabase URL and the service key are all set |
| NewsletterHandler.Handle | supabase/functions/send-blog-newsletter/index.ts:19-355 | the handler computes exactly the reply and the new world that `HandleSpec` describes |
| NewsletterHandler.UpFrontRejection | supabase/functions/send-blog-newsletter/index.ts:20-49 | preflight, missing configuration and an incomplete post are answered before any query or message, with the world unchanged |
| NewsletterHandler.NotFoundRoute | supabase/functions/send-blog-newsletter/index.ts:349 | a path that is none of the three routes answers 404 and changes nothing |
| NewsletterHandler.SendViaHandler | supabase/functions/send-blog-newsletter/index.ts:39-50 | a valid post on the send route, with the configuration present, is answered and its effects taken exactly as the send route's own specification says; the lemmas below about that route are therefore promises of the handler |
| NewsletterHandler.ZeroSubscribers | supabase/functions/send-blog-newsletter/index.ts:59-64 | no active subscriber gives 200 with `sent: 0`, and nothing is posted |
| NewsletterHandler.SendSummary | supabase/functions/send-blog-newsletter/index.ts:154-203 | the summary reports `total` = N with `sent + failed` = N, `sent` = number of ok responses, every subscriber posted to, ceil(N/50) - 1 pauses |
| NewsletterHandler.ThrownSendAborts | supabase/functions/send-blog-newsletter/index.ts:75-354 | a `fetch` that throws ends the route with 500 and the message of the first exception in the batch where the run stopped; the outbox gains the batches up to and including that one, and nothing is written to the results table |
| NewsletterHandler.ResponseIgnoresInsert | supabase/functions/send-blog-newsletter/index.ts:168-203 | the response, and everything but the results table, do not depend on how the inserts go |
| NewsletterHandler.UnsubscribeViaHandler | supabase/functions/send-blog-newsletter/index.ts:315-347 | the route answers 400 exactly for a missing token and 200 exactly on success, changing only the subscriber table |
| NewsletterHandler.TokenPostUnsubscribes | supabase/functions/send-blog-newsletter/index.ts:315-346 | posting a subscriber's token deactivates exactly that row, returns its e-mail, and later listings leave it out |

## Left out

Routes, pages and runtime:

- **The `/welcome` route** (supabase/functions/send-blog-newsletter/index.ts:207-312). The handler answers it with `Welcome` and leaves the world unchanged; the message it sends is not modelled.
- **React pages and components**, `src/utils/newsletter.ts` and `src/utils/test-newsletter.ts`: they are not part of this model. The same goes for the signup path, which the shown code only simulates.
- **The static table** carries each blog post's metadata but not its Markdown body.
- **Concurrency.** Messages within a batch are treated as posted one after another. Every message of a batch is posted even when one of them throws. The rejection `Promise.all` reports is the first exception in array order, not the first one in time.
- **Timing.** The pause between batches is a counter, not a timer.
- **`EdgeRuntime.waitUntil`.** The background write is taken to run to completion after the response is decided, so it cannot interleave with later requests.

- **Logging.** The `console.log` and `console.error` calls are left out; nothing in the code depends on them.

Outside services:

- HTTP headers (CORS, content type, authorisation), `createClient` and `supabase.auth.getSession()` are left out; the session call's result is never used.
- The email HTML is modelled only through its varying parts (greeting, title, excerpt, fields and links). The fixed prose, the markup and the styling are left out.
- A request body that is valid JSON but not an object is left out, and so is any field of a type other than string. In the contact function a `null` body makes the first field read (supabase/functions/send-contact-email/index.ts:39) throw, and the `catch` answers 500 with that error; a number, string or boolean body has no such fields and gets the 400. The newsletter function replaces a falsy body by `{}` (supabase/functions/send-blog-newsletter/index.ts:42 and 317), so such a body gets its 400 too. A field of another type can throw where a string method is called on it, as `message.replace` does (supabase/functions/send-contact-email/index.ts:71). A body that is not JSON is modelled: the parse error turns into a 500.
- An error without a message, which the source turns into `String(error)`, is left out; the model always carries the message text.
- `response.json()` on a failed contact-function response, which may itself throw, is not modelled.
- `response.text()` on a non-ok provider response (supabase/functions/send-blog-newsletter/index.ts:137, supabase/functions/send-contact-email/index.ts:196) can itself reject, and the source's `catch` turns that into a 500. The model's `Reply` always carries a text, so this error path is not modelled.
- The subscriber query's row order and the choice `.limit(1).single()` makes among several rows with one token are left to the database. The query is an oracle, and `ListsActive` states what a correct answer is. `FindByToken` takes the least id. `UnsubscribeIdempotent`, `NoLongerListed` and `TokenPostUnsubscribes` require unique tokens, since with a shared token a second call may pick another row. `DeactivatesOnlyMatch` speaks of the row `FindByToken` picks.
- A chunk insert that reports an error is taken to store none of its rows.

Contracts deliberately weaker than the source:

- Js.Lower: lower-cases ASCII letters only, where `toLowerCase` also folds other Unicode letters.
- NewsletterMessage.MessageContent: states the message's blocks, not the HTML text they are rendered into.
- ContactEmail.QuestionShown: states which question blocks appear, not their order inside the section.
