/** The site's static table of blog posts and the lookup of a post by its slug. */
module BlogPosts {
  import opened Js

  /** One article's metadata; its Markdown body is not carried by the model. */
  datatype BlogPost = BlogPost(
    id: nat,
    title: string,
    excerpt: string,
    category: string,
    date: string,
    readTime: string,
    slug: string)

  /** The `blogPosts` table, in the order it is declared. */
  const Table: seq<BlogPost> := [
    BlogPost(1, "5 Ways AI Can Transform Your Small Business Today",
      "Discover practical AI applications that can streamline operations and boost productivity without breaking the bank.",
      "AI for Business", "2025-06-15", "5 min read", "ai-transform-small-business"),
    BlogPost(2, "Building Scalable Web Apps: A Founder's Guide",
      "Learn the key architectural decisions that will help your application grow with your business.",
      "Web Development Tips", "2025-05-10", "8 min read", "building-scalable-web-apps"),
    BlogPost(3, "Prompt Engineering 101: Getting Better Results from ChatGPT",
      "Master the art of writing effective prompts to maximize the value you get from AI tools.",
      "Prompt Engineering", "2025-04-05", "6 min read", "prompt-engineering-101"),
    BlogPost(4, "When to Build vs. Buy: A Technical Decision Framework",
      "Navigate the build-or-buy decision with confidence using this practical framework.",
      "Tech Consultant Angle", "2025-03-28", "7 min read", "build-vs-buy-framework"),
    BlogPost(5, "Why I Started ND Scale Smart: From Corporate to Consulting",
      "The personal journey from enterprise software to helping small businesses scale smart.",
      "Authority / Pivot Story", "2025-02-20", "10 min read", "why-i-started-nd-scalesmart"),
    BlogPost(6, "3 Quick Wins to Improve Your Website's Performance Today",
      "Simple, actionable steps you can take right now to speed up your website.",
      "Quick Practical Value", "2025-01-15", "4 min read", "quick-wins-website-performance")
  ]

  /** The index that `posts.find(post => post.slug === slug)` stops at, if any. */
  function FirstIndexWithSlug(posts: seq<BlogPost>, slug: string): (r: Option<nat>)
    ensures r.Some? ==> r.value < |posts| && posts[r.value].slug == slug
    ensures r.Some? ==> forall j :: 0 <= j < r.value ==> posts[j].slug != slug
    ensures r.None? <==> forall j :: 0 <= j < |posts| ==> posts[j].slug != slug
  {
    if posts == [] then None
    else if posts[0].slug == slug then Some(0)
    else match FirstIndexWithSlug(posts[1..], slug)
      case None => None
      case Some(i) => Some(i + 1)
  }

  /** `Array.prototype.find` on the slug: the first post in array order whose slug matches. */
  function FindBySlug(posts: seq<BlogPost>, slug: string): (r: Option<BlogPost>)
    ensures r.Some? ==> r.value in posts && r.value.slug == slug
    ensures r.None? <==> forall p :: p in posts ==> p.slug != slug
    ensures forall i :: 0 <= i < |posts| && posts[i].slug == slug && r != Some(posts[i]) ==>
              exists j :: 0 <= j < i && posts[j].slug == slug
  {
    match FirstIndexWithSlug(posts, slug)
    case None => None
    case Some(i) => Some(posts[i])
  }

  /** `getBlogPostBySlug`. */
  function GetBlogPostBySlug(slug: string): (r: Option<BlogPost>)
    ensures r.Some? ==> r.value in Table && r.value.slug == slug
    ensures r.None? <==> forall p :: p in Table ==> p.slug != slug
  {
    FindBySlug(Table, slug)
  }

  /** The table's ids run 1, 2, ... in declaration order. */
  lemma TableIds()
    ensures |Table| == 6
    ensures forall i :: 0 <= i < |Table| ==> Table[i].id == i + 1
  {
  }

  /** No two posts of the table share a slug. */
  lemma TableSlugsDistinct()
    ensures forall i, j :: 0 <= i < j < |Table| ==> Table[i].slug != Table[j].slug
  {
  }

  /** With distinct slugs every post is found by its own slug, and only by it. */
  lemma {:induction false} FindEachPost(posts: seq<BlogPost>, i: nat)
    requires i < |posts|
    requires forall a, b :: 0 <= a < b < |posts| ==> posts[a].slug != posts[b].slug
    ensures FindBySlug(posts, posts[i].slug) == Some(posts[i])
  {
    var r := FirstIndexWithSlug(posts, posts[i].slug);
    assert r.Some?;
  }

  /** Every post of the table resolves back to itself through `getBlogPostBySlug`. */
  lemma LookupEachTablePost(i: nat)
    requires i < |Table|
    ensures GetBlogPostBySlug(Table[i].slug) == Some(Table[i])
  {
    TableSlugsDistinct();
    FindEachPost(Table, i);
  }
}
