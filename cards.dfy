/**
  What a project card shows: the tag row cut to a limit with a "+N more"
  badge, the capped achievements list, and the badges and links that appear
  only when the project's optional fields are truthy. The same rules, with
  other limits, render the cards of the projects page.
*/
module Cards {
  import opened Options
  import opened Content

  /** JavaScript truthiness of an optional string: present and not empty. */
  predicate Truthy(s: Option<string>) {
    s.Some? && s.value != ""
  }

  /** Array.prototype.slice(0, n). */
  function Take<T>(s: seq<T>, n: nat): (r: seq<T>)
    ensures |r| == if |s| < n then |s| else n
    ensures r == s[..|r|]
  {
    if |s| <= n then s else s[..n]
  }

  /** The tag row: the tags shown and, when some are hidden, the "+N more" count. */
  datatype TagRow = TagRow(shown: seq<string>, more: Option<nat>)

  /** Number of tags a card shows: fewer on the compact card. */
  function TagLimit(compact: bool): nat {
    if compact then 3 else 5
  }

  function Tags(technologies: seq<string>, limit: nat): (r: TagRow)
    ensures |r.shown| == if |technologies| < limit then |technologies| else limit
    ensures r.shown == technologies[..|r.shown|]
    ensures r.more.Some? <==> |technologies| > limit
    ensures r.more.Some? ==> |r.shown| + r.more.value == |technologies|
    ensures r.more.None? ==> r.shown == technologies
  {
    TagRow(Take(technologies, limit), if |technologies| > limit then Some(|technologies| - limit) else None)
  }

  /** Everything on a card that depends on the project's data. */
  datatype CardView = CardView(
    image: Option<string>,
    title: string,
    featuredBadge: bool,
    tags: TagRow,
    achievements: Option<seq<string>>,
    github: Option<string>,
    liveDemo: Option<string>)

  /** The link shown for an optional URL: only when it is truthy. */
  function Link(url: Option<string>): (r: Option<string>)
    ensures r.Some? <==> Truthy(url)
    ensures r.Some? ==> r == url
  {
    if Truthy(url) then url else None
  }

  /** The card of the projects list; `compact` cuts the tags to three and hides the achievements. */
  function ProjectCard(p: Project, compact: bool): (v: CardView)
    ensures v.title == p.title
    ensures v.image.Some? <==> Truthy(p.image)
    ensures v.image.Some? ==> v.image == p.image
    ensures v.featuredBadge <==> p.featured == Some(true)
    ensures |v.tags.shown| == if |p.technologies| < TagLimit(compact) then |p.technologies| else TagLimit(compact)
    ensures v.tags.shown == p.technologies[..|v.tags.shown|]
    ensures v.tags.more.Some? <==> |p.technologies| > (if compact then 3 else 5)
    ensures v.tags.more.Some? ==> |v.tags.shown| + v.tags.more.value == |p.technologies|
    ensures v.achievements.Some? <==> !compact && |p.achievements| > 0
    ensures v.achievements.Some? ==>
      && |v.achievements.value| == (if |p.achievements| < 3 then |p.achievements| else 3)
      && v.achievements.value == p.achievements[..|v.achievements.value|]
    ensures v.github.Some? <==> Truthy(p.githubUrl)
    ensures v.liveDemo.Some? <==> Truthy(p.liveUrl)
    ensures v.github.Some? ==> v.github == p.githubUrl
    ensures v.liveDemo.Some? ==> v.liveDemo == p.liveUrl
  {
    CardView(
      Link(p.image),
      p.title,
      p.featured == Some(true),
      Tags(p.technologies, TagLimit(compact)),
      if !compact && |p.achievements| > 0 then Some(Take(p.achievements, 3)) else None,
      Link(p.githubUrl),
      Link(p.liveUrl))
  }

  /** A card of the projects page: no image, five tags, every achievement under a heading that is always there. */
  function PageCard(p: Project): (v: CardView)
    ensures v.image == None && v.title == p.title
    ensures v.featuredBadge <==> p.featured == Some(true)
    ensures |v.tags.shown| == if |p.technologies| < 5 then |p.technologies| else 5
    ensures v.tags.shown == p.technologies[..|v.tags.shown|]
    ensures v.tags.more.Some? <==> |p.technologies| > 5
    ensures v.tags.more.Some? ==> v.tags.more.value == |p.technologies| - 5
    ensures v.achievements == Some(p.achievements)
    ensures v.github.Some? <==> Truthy(p.githubUrl)
    ensures v.liveDemo.Some? <==> Truthy(p.liveUrl)
    ensures v.github.Some? ==> v.github == p.githubUrl
    ensures v.liveDemo.Some? ==> v.liveDemo == p.liveUrl
  {
    CardView(None, p.title, p.featured == Some(true), Tags(p.technologies, 5), Some(p.achievements),
             Link(p.githubUrl), Link(p.liveUrl))
  }

  /** The projects page cuts tags exactly like the full-size card; the compact card shows a prefix of them. */
  lemma PageTagsMatchFullCard(p: Project)
    ensures PageCard(p).tags == ProjectCard(p, false).tags
    ensures ProjectCard(p, true).tags.shown == PageCard(p).tags.shown[..|ProjectCard(p, true).tags.shown|]
  {
  }

  /** Shown tags plus the hidden count always account for every technology, at either limit. */
  lemma TagsAccountForAll(technologies: seq<string>, limit: nat)
    ensures var r := Tags(technologies, limit);
      |r.shown| + (if r.more.Some? then r.more.value else 0) == |technologies|
  {
  }
}
