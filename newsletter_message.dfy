/** The per-subscriber e-mail the newsletter function sends for one blog post. */
module NewsletterMessage {
  import opened Js
  import opened Edge
  import BlogPosts

  const DefaultSiteUrl := "https://ndscalesmart.com"
  const DefaultFromAddress := "newsletter@ndscalesmart.com"
  const UnsubscribePath := "/unsubscribe?token="
  const BlogPath := "/blog/"

  /** A row of the active-subscriber query; `None` is SQL `null`. */
  datatype Subscriber = Subscriber(
    email: string,
    firstName: Option<string>,
    lastName: Option<string>,
    unsubscribeToken: Option<string>)

  /** `payload.blogPost` as the request carries it: any field may be missing. */
  datatype PostInput = PostInput(title: Option<string>, slug: Option<string>, excerpt: Option<string>)

  /** A post that passed validation. */
  datatype Campaign = Campaign(title: string, slug: string, excerpt: Option<string>)

  /** `SITE_URL` and `FROM_EMAIL` after their defaults are applied. */
  datatype Settings = Settings(siteUrl: string, fromAddress: string)

  function SettingsOf(env: Env): (s: Settings)
    ensures Truthy(EnvGet(env, "SITE_URL")) ==> s.siteUrl == env["SITE_URL"]
    ensures !Truthy(EnvGet(env, "SITE_URL")) ==> s.siteUrl == DefaultSiteUrl
    ensures Truthy(EnvGet(env, "FROM_EMAIL")) ==> s.fromAddress == env["FROM_EMAIL"]
    ensures !Truthy(EnvGet(env, "FROM_EMAIL")) ==> s.fromAddress == DefaultFromAddress
  {
    Settings(OrElse(EnvGet(env, "SITE_URL"), DefaultSiteUrl), OrElse(EnvGet(env, "FROM_EMAIL"), DefaultFromAddress))
  }

  /** `!blogPost || !blogPost.title || !blogPost.slug` is false. */
  predicate IsValidPost(p: Option<PostInput>) {
    p.Some? && Truthy(p.value.title) && Truthy(p.value.slug)
  }

  function CampaignOf(p: Option<PostInput>): (c: Campaign)
    requires IsValidPost(p)
    ensures c.title != "" && c.slug != ""
    ensures Some(c.title) == p.value.title && Some(c.slug) == p.value.slug && c.excerpt == p.value.excerpt
  {
    Campaign(p.value.title.value, p.value.slug.value, p.value.excerpt)
  }

  /** A nullable column inside a template string: `null` prints as "null". */
  function NullableText(o: Option<string>): string {
    if o.Some? then o.value else "null"
  }

  function GreetingFor(s: Subscriber): string {
    if Truthy(s.firstName) then "Hi " + s.firstName.value + "," else "Hi there,"
  }

  function UnsubscribeUrl(settings: Settings, s: Subscriber): string {
    settings.siteUrl + UnsubscribePath + NullableText(s.unsubscribeToken)
  }

  function ArticleUrl(settings: Settings, c: Campaign): string {
    settings.siteUrl + BlogPath + c.slug
  }

  function Subject(c: Campaign): string {
    "New Article: " + c.title
  }

  /** The request-dependent parts of the HTML: greeting, title, optional excerpt, the two links. */
  function CampaignHtml(settings: Settings, c: Campaign, s: Subscriber): seq<Block> {
    [Greeting(GreetingFor(s)), Heading(c.title)]
    + (if Truthy(c.excerpt) then [Paragraph(c.excerpt.value)] else [])
    + [Link("Read Full Article", ArticleUrl(settings, c)), Link("Unsubscribe", UnsubscribeUrl(settings, s))]
  }

  /** The message posted to the provider for one subscriber. */
  function CampaignEmail(settings: Settings, c: Campaign, s: Subscriber): Email {
    Email(settings.fromAddress, s.email, None, Subject(c), CampaignHtml(settings, c, s))
  }

  // ---------------------------------------------------------------------------
  // Properties

  /** What each subscriber receives: addressed to them, and with exactly these variable parts. */
  lemma MessageContent(settings: Settings, c: Campaign, s: Subscriber)
    ensures var m := CampaignEmail(settings, c, s);
      m.to == s.email && m.from == settings.fromAddress && m.subject == "New Article: " + c.title
    ensures var html := CampaignEmail(settings, c, s).html;
      forall g :: Greeting(g) in html <==>
        g == (if Truthy(s.firstName) then "Hi " + s.firstName.value + "," else "Hi there,")
    ensures var html := CampaignEmail(settings, c, s).html;
      forall x :: Paragraph(x) in html <==> c.excerpt == Some(x) && x != ""
    ensures var html := CampaignEmail(settings, c, s).html;
      forall u :: Link("Unsubscribe", u) in html <==> u == settings.siteUrl + "/unsubscribe?token=" + NullableText(s.unsubscribeToken)
    ensures var html := CampaignEmail(settings, c, s).html;
      forall u :: Link("Read Full Article", u) in html <==> u == settings.siteUrl + "/blog/" + c.slug
  {
  }

  /**
   * An unset or empty `SITE_URL` or `FROM_EMAIL` falls back to the site's own address and
   * newsletter sender; a set one is used as given, in the sender and in both links.
   */
  lemma EnvironmentDefaults(env: Env, c: Campaign, s: Subscriber)
    ensures CampaignEmail(SettingsOf(env), c, s).from
            == if "FROM_EMAIL" in env && env["FROM_EMAIL"] != "" then env["FROM_EMAIL"] else "newsletter@ndscalesmart.com"
    ensures var site := if "SITE_URL" in env && env["SITE_URL"] != "" then env["SITE_URL"] else "https://ndscalesmart.com";
      var html := CampaignEmail(SettingsOf(env), c, s).html;
      && Link("Read Full Article", site + "/blog/" + c.slug) in html
      && Link("Unsubscribe", site + "/unsubscribe?token=" + NullableText(s.unsubscribeToken)) in html
  {
  }

  /** The token can be read back from the unsubscribe link, after the site and the fixed path. */
  lemma TokenInLink(settings: Settings, s: Subscriber, t: string)
    requires s.unsubscribeToken == Some(t)
    ensures var u := UnsubscribeUrl(settings, s);
      u[..|settings.siteUrl| + |UnsubscribePath|] == settings.siteUrl + UnsubscribePath
      && u[|settings.siteUrl| + |UnsubscribePath|..] == t
  {
  }

  /** The article link of a table post leads, through `getBlogPostBySlug`, back to that post. */
  lemma {:induction false} ArticleLinkResolves(settings: Settings, i: nat)
    requires i < |BlogPosts.Table|
    ensures var p := BlogPosts.Table[i];
      var u := ArticleUrl(settings, Campaign(p.title, p.slug, Some(p.excerpt)));
      u[..|settings.siteUrl| + |BlogPath|] == settings.siteUrl + BlogPath
      && BlogPosts.GetBlogPostBySlug(u[|settings.siteUrl| + |BlogPath|..]) == Some(p)
  {
    var p := BlogPosts.Table[i];
    var u := ArticleUrl(settings, Campaign(p.title, p.slug, Some(p.excerpt)));
    assert u[|settings.siteUrl| + |BlogPath|..] == p.slug;
    BlogPosts.LookupEachTablePost(i);
  }
}
