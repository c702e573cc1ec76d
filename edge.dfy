/**
 * What the two edge functions share: their environment, the emails they hand to the
 * e-mail provider, and what the provider answers.
 */
module Edge {
  import opened Js

  /** The function's environment variables. */
  type Env = map<string, string>

  /** `Deno.env.get(name)`: `undefined` when the variable is not set. */
  function EnvGet(env: Env, name: string): (r: Option<string>)
    ensures r.Some? <==> name in env
    ensures r.Some? ==> r.value == env[name]
  {
    if name in env then Some(env[name]) else None
  }

  /**
   * The parts of an e-mail's HTML that depend on the request: the markup and styling
   * around them, and the fixed prose, are not modelled.
   */
  datatype Block =
    | Greeting(text: string)
    | Heading(text: string)
    | Paragraph(text: string)
    | Field(name: string, value: string)
    | Link(caption: string, href: string)
    | Question(prompt: string, answer: string)

  /** The JSON body posted to the provider's `/emails` endpoint. */
  datatype Email = Email(from: string, to: string, replyTo: Option<string>, subject: string, html: seq<Block>)

  /**
   * The outcome of one `fetch` to the provider: a response with its `ok` flag and the
   * text of its body, or an exception thrown by `fetch` itself.
   */
  datatype ProviderReply = Reply(ok: bool, text: string) | Threw(message: string)

  /** The provider, as an oracle from the message posted to what it answers. */
  type Provider = Email -> ProviderReply

  /** `Promise.all` rejects with the first exception, taken here in array order. */
  function FirstThrown(replies: seq<ProviderReply>): (r: Option<string>)
    ensures r.None? <==> forall i :: 0 <= i < |replies| ==> replies[i].Reply?
    ensures r.Some? ==> exists i :: 0 <= i < |replies| && replies[i] == Threw(r.value)
  {
    if replies == [] then None
    else if replies[0].Threw? then Some(replies[0].message)
    else
      var r := FirstThrown(replies[1..]);
      assert r.Some? ==> replies[1..][0] == replies[1];
      r
  }
}
