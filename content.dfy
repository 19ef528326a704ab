/**
  The portfolio's data types and the content service: read-only queries over
  a fixed portfolio record. The simulated network delay is not modelled; the
  record the service reads is a parameter.
*/
module Content {
  import opened Options

  datatype Category = Blockchain | Fullstack | Automation | Freelance

  datatype Project = Project(
    id: string,
    title: string,
    description: string,
    role: string,
    period: string,
    technologies: seq<string>,
    achievements: seq<string>,
    image: Option<string>,
    githubUrl: Option<string>,
    liveUrl: Option<string>,
    featured: Option<bool>,
    category: Category)

  datatype About = About(
    name: string,
    title: string,
    tagline: string,
    bio: string,
    image: Option<string>,
    resumeUrl: Option<string>,
    softwareYears: int,
    civilYears: int)

  datatype SkillCategory = Languages | Frontend | Backend | BlockchainSkills | Ai | Devops | Database | Game

  datatype Skill = Skill(id: string, name: string, category: SkillCategory, proficiency: Option<int>, items: Option<seq<string>>)

  datatype Experience = Experience(
    id: string,
    company: string,
    position: string,
    period: string,
    location: Option<string>,
    description: string,
    projects: seq<Project>)

  datatype Education = Education(id: string, degree: string, institution: string, period: string, achievements: Option<seq<string>>)

  datatype Contact = Contact(email: string, phone: string, location: string, linkedin: string, github: string)

  datatype PortfolioData = PortfolioData(
    about: About,
    skills: seq<Skill>,
    experience: seq<Experience>,
    projects: seq<Project>,
    education: seq<Education>,
    contact: Contact)

  // ------------------------------------------------------------ sequences

  /** `r` is `s` with some elements dropped and the rest kept in their order. */
  predicate Subsequence<T(==)>(r: seq<T>, s: seq<T>)
    decreases |s|
  {
    if r == [] then true
    else if s == [] then false
    else if r[0] == s[0] then Subsequence(r[1..], s[1..])
    else Subsequence(r, s[1..])
  }

  /** Array.prototype.filter: the elements of `s` that `keep` accepts, in order. */
  function Filter<T(==,!new)>(s: seq<T>, keep: T -> bool): (r: seq<T>)
    ensures |r| <= |s|
    ensures forall x :: x in r <==> x in s && keep(x)
    ensures Subsequence(r, s)
    ensures forall x :: multiset(r)[x] == if keep(x) then multiset(s)[x] else 0
  {
    if s == [] then []
    else
      var rest := Filter(s[1..], keep);
      assert s == [s[0]] + s[1..];
      assert multiset(s) == multiset{s[0]} + multiset(s[1..]);
      if keep(s[0]) then
        assert multiset([s[0]] + rest) == multiset{s[0]} + multiset(rest);
        [s[0]] + rest
      else rest
  }

  /** Array.prototype.find: the first element of `s` that `hit` accepts, if any. */
  function Find<T>(s: seq<T>, hit: T -> bool): (r: Option<T>)
    ensures r.None? <==> forall i :: 0 <= i < |s| ==> !hit(s[i])
    ensures r.Some? ==> exists i :: 0 <= i < |s| && s[i] == r.value && hit(s[i]) && forall j :: 0 <= j < i ==> !hit(s[j])
  {
    if s == [] then None
    else if hit(s[0]) then Some(s[0])
    else
      var r := Find(s[1..], hit);
      FirstHitShifts(s, hit, r);
      r
  }

  lemma FirstHitShifts<T>(s: seq<T>, hit: T -> bool, r: Option<T>)
    requires s != [] && !hit(s[0])
    requires r.Some? ==> exists i :: (0 <= i < |s[1..]| && s[1..][i] == r.value && hit(s[1..][i])
      && forall j :: 0 <= j < i ==> !hit(s[1..][j]))
    ensures r.Some? ==> exists i :: 0 <= i < |s| && s[i] == r.value && hit(s[i]) && forall j :: 0 <= j < i ==> !hit(s[j])
  {
    if r.Some? {
      var i :| 0 <= i < |s[1..]| && s[1..][i] == r.value && hit(s[1..][i]) && forall j :: 0 <= j < i ==> !hit(s[1..][j]);
      forall j | 0 <= j < i + 1
        ensures !hit(s[j])
      {
        if j > 0 { assert s[j] == s[1..][j - 1]; }
      }
      assert s[i + 1] == r.value;
    }
  }

  lemma {:induction false} SubsequenceReflexive<T>(s: seq<T>)
    ensures Subsequence(s, s)
    decreases |s|
  {
    if s != [] {
      SubsequenceReflexive(s[1..]);
    }
  }

  // ------------------------------------------------------------- queries

  function GetAll(data: PortfolioData): PortfolioData { data }

  function GetProjects(data: PortfolioData): seq<Project> { data.projects }

  function HasId(id: string): Project -> bool { (p: Project) => p.id == id }

  function IsFeatured(p: Project): bool { p.featured == Some(true) }

  function InCategory(c: Category): Project -> bool { (p: Project) => p.category == c }

  /** The first project with the given id, or nothing. */
  function GetProjectById(data: PortfolioData, id: string): (r: Option<Project>)
    ensures r.None? <==> forall p :: p in data.projects ==> p.id != id
    ensures r.Some? ==> r.value.id == id && r.value in data.projects
    ensures r.Some? ==> exists i :: (0 <= i < |data.projects| && data.projects[i] == r.value
      && forall j :: 0 <= j < i ==> data.projects[j].id != id)
  {
    Find(data.projects, HasId(id))
  }

  /** The projects whose optional `featured` flag is present and true, in order. */
  function GetFeaturedProjects(data: PortfolioData): (r: seq<Project>)
    ensures Subsequence(r, data.projects)
    ensures forall p :: p in r <==> p in data.projects && p.featured == Some(true)
    ensures forall p :: multiset(r)[p] == if p.featured == Some(true) then multiset(data.projects)[p] else 0
    ensures |r| <= |data.projects|
  {
    Filter(data.projects, IsFeatured)
  }

  /** The projects of one category, in order. */
  function GetProjectsByCategory(data: PortfolioData, c: Category): (r: seq<Project>)
    ensures Subsequence(r, data.projects)
    ensures forall p :: p in r <==> p in data.projects && p.category == c
    ensures forall p :: multiset(r)[p] == if p.category == c then multiset(data.projects)[p] else 0
    ensures |r| <= |data.projects|
  {
    Filter(data.projects, InCategory(c))
  }

  // -------------------------------------------------------------- lemmas

  /** Every project falls in exactly one of the four categories, so the four filters split the list. */
  lemma {:induction false} CategoryCounts(s: seq<Project>)
    ensures |Filter(s, InCategory(Blockchain))| + |Filter(s, InCategory(Fullstack))|
          + |Filter(s, InCategory(Automation))| + |Filter(s, InCategory(Freelance))| == |s|
  {
    if s != [] {
      CategoryCounts(s[1..]);
    }
  }

  lemma CategoriesPartitionProjects(data: PortfolioData)
    ensures |GetProjectsByCategory(data, Blockchain)| + |GetProjectsByCategory(data, Fullstack)|
          + |GetProjectsByCategory(data, Automation)| + |GetProjectsByCategory(data, Freelance)|
         == |GetProjects(data)|
  {
    CategoryCounts(data.projects);
  }
}
