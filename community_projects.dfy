/** The community projects page: a list of repositories fetched once at
    mount, cleaned of a two-name denylist, shown with a loading and an error
    view, next to a fixed list of featured projects and three totals. */
module CommunityProjects {
  import opened Wrappers
  import opened Seqs

  datatype Repository = Repository(
    id: int,
    name: string,
    description: Option<string>,
    htmlUrl: string,
    homepage: Option<string>,
    language: Option<string>,
    stargazersCount: int,
    forksCount: int,
    topics: seq<string>,
    createdAt: string,
    updatedAt: string,
    pushedAt: string,
    openIssuesCount: int,
    size: int)

  /** A hand-written project card. Only the fields some computation or
      condition reads are kept; the descriptions, feature bullets and
      technology icons are display text. */
  datatype FeaturedProject = FeaturedProject(
    name: string,
    tagline: string,
    githubUrl: string,
    liveUrl: Option<string>,
    stars: int,
    category: string)

  const FeaturedProjects: seq<FeaturedProject> := [
    FeaturedProject("Voice Guard Rail", "Real-Time Speech Emotion Detection",
      "https://github.com/manishmitra017/voice_guard_rail", None, 0, "AI/ML & Real-Time"),
    FeaturedProject("PentestAI", "AI-Powered Security Testing Framework",
      "https://github.com/manishmitra017/Pentest-google-adk-agent", None, 0, "AI/ML & Security"),
    FeaturedProject("BSM Melbourne Website", "Community Platform for Bengali Diaspora",
      "https://github.com/manishmitra017/bsm-website", Some("https://bsm.org.au"), 2, "Full-Stack Web"),
    FeaturedProject("Video-to-SOP Automation", "AI-Powered Documentation Generator",
      "https://github.com/manishmitra017/video-sop", None, 0, "AI/ML & Automation"),
    FeaturedProject("Cosmic Renewable Energy", "Green Tech Business Platform",
      "https://github.com/manishmitra017/cosmic-renwable", None, 0, "Full-Stack Development")
  ]

  /** The two repositories the page never lists. */
  predicate Denylisted(r: Repository)
  {
    r.name == "stagehand-demo" || r.name == "my-resume"
  }

  /** `data.filter(repo => repo.name !== "stagehand-demo" && repo.name !== "my-resume")`. */
  function RemoveDenylisted(data: seq<Repository>): (kept: seq<Repository>)
    ensures forall r :: r in kept ==> r in data && !Denylisted(r)
    ensures |kept| <= |data|
  {
    Filter((r: Repository) => r.name != "stagehand-demo" && r.name != "my-resume", data)
  }

  /** Every repository not on the denylist is kept, as often as it occurs. */
  lemma RemoveDenylistedExactly(data: seq<Repository>, r: Repository)
    ensures multiset(RemoveDenylisted(data))[r] == if Denylisted(r) then 0 else multiset(data)[r]
  {
    FilterMultiset((r: Repository) => r.name != "stagehand-demo" && r.name != "my-resume", data, r);
  }

  /** The kept repositories keep their fetched order. */
  lemma RemoveDenylistedOrder(data: seq<Repository>)
    ensures Subsequence(RemoveDenylisted(data), data)
  {
    FilterIsSubsequence((r: Repository) => r.name != "stagehand-demo" && r.name != "my-resume", data);
  }

  lemma RemoveDenylistedAppend(xs: seq<Repository>, ys: seq<Repository>)
    ensures RemoveDenylisted(xs + ys) == RemoveDenylisted(xs) + RemoveDenylisted(ys)
  {
    FilterAppend((r: Repository) => r.name != "stagehand-demo" && r.name != "my-resume", xs, ys);
  }

  /** A list with nothing to remove passes through unchanged. */
  lemma RemoveDenylistedClean(data: seq<Repository>)
    requires forall r :: r in data ==> !Denylisted(r)
    ensures RemoveDenylisted(data) == data
  {
    FilterKeepsAll((r: Repository) => r.name != "stagehand-demo" && r.name != "my-resume", data);
  }

  /** "Total Projects": `repos.length + featuredProjects.length`. */
  function TotalProjects(repos: seq<Repository>): (n: int)
    ensures n == |repos| + 5
  {
    |repos| + |FeaturedProjects|
  }

  function RepoStars(repos: seq<Repository>): (n: int)
    ensures (forall r :: r in repos ==> r.stargazersCount >= 0) ==> n >= 0
  {
    var f := (r: Repository) => r.stargazersCount;
    if forall r :: r in repos ==> f(r) >= 0 then
      SumByNonNegative(f, repos);
      SumBy(f, repos)
    else
      SumBy(f, repos)
  }

  function FeaturedStars(projects: seq<FeaturedProject>): (n: int)
    ensures (forall p :: p in projects ==> p.stars >= 0) ==> n >= 0
  {
    var f := (p: FeaturedProject) => p.stars;
    if forall p :: p in projects ==> f(p) >= 0 then
      SumByNonNegative(f, projects);
      SumBy(f, projects)
    else
      SumBy(f, projects)
  }

  lemma FeaturedStarsTotal()
    ensures FeaturedStars(FeaturedProjects) == 2
  {
    var f := (p: FeaturedProject) => p.stars;
    var s := FeaturedProjects;
    assert s[..1][..0] == [] && s[..2][..1] == s[..1] && s[..3][..2] == s[..2];
    assert s[..4][..3] == s[..3] && s[..4] == s[..|s| - 1];
    assert SumBy(f, s[..1]) == 0;
    assert SumBy(f, s[..2]) == 0;
    assert SumBy(f, s[..3]) == 2;
    assert SumBy(f, s[..4]) == 2;
  }

  /** "Total Stars": the repositories' stargazers plus the featured projects' stars. */
  function TotalStars(repos: seq<Repository>): (n: int)
    ensures n == RepoStars(repos) + 2
  {
    FeaturedStarsTotal();
    RepoStars(repos) + FeaturedStars(FeaturedProjects)
  }

  /** Star counts from the listing are never negative, so the total is at
      least the featured projects' two stars. */
  lemma TotalStarsAtLeastFeatured(repos: seq<Repository>)
    requires forall r :: r in repos ==> r.stargazersCount >= 0
    ensures TotalStars(repos) >= 2
  {
    SumByNonNegative((r: Repository) => r.stargazersCount, repos);
  }

  lemma RepoStarsAppend(xs: seq<Repository>, ys: seq<Repository>)
    ensures RepoStars(xs + ys) == RepoStars(xs) + RepoStars(ys)
  {
    SumByAppend((r: Repository) => r.stargazersCount, xs, ys);
  }

  /** `repos.map(r => r.language).filter(Boolean)`: null and "" are falsy. */
  function KnownLanguages(repos: seq<Repository>): (ls: seq<string>)
    ensures forall l :: l in ls <==> l != "" && exists r :: r in repos && r.language == Some(l)
  {
    if repos == [] then []
    else
      var rest := KnownLanguages(repos[1..]);
      assert forall r :: r in repos <==> r == repos[0] || r in repos[1..];
      match repos[0].language
      case Some(l) => if l != "" then [l] + rest else rest
      case None => rest
  }

  /** "Languages": `new Set(KnownLanguages(repos)).size`. */
  function LanguageCount(repos: seq<Repository>): (n: int)
    ensures n == |set r | r in repos && r.language.Some? && r.language.value != "" :: r.language.value|
    ensures n <= |repos|
  {
    var ls := KnownLanguages(repos);
    DistinctCount(ls);
    assert Elements(ls) == set r | r in repos && r.language.Some? && r.language.value != "" :: r.language.value;
    LanguagesBound(repos);
    |Distinct(ls)|
  }

  lemma {:induction false} LanguagesBound(repos: seq<Repository>)
    ensures |set r | r in repos && r.language.Some? && r.language.value != "" :: r.language.value| <= |repos|
  {
    if repos != [] {
      LanguagesBound(repos[1..]);
      var rest := set r | r in repos[1..] && r.language.Some? && r.language.value != "" :: r.language.value;
      var all := set r | r in repos && r.language.Some? && r.language.value != "" :: r.language.value;
      assert forall r :: r in repos <==> r == repos[0] || r in repos[1..];
      if repos[0].language.Some? && repos[0].language.value != "" {
        assert all == rest + {repos[0].language.value};
      } else {
        assert all == rest;
      }
    }
  }

  /** The colour table of `getLanguageColor`. */
  const LanguageColors: map<string, string> := map[
    "TypeScript" := "#3178c6",
    "JavaScript" := "#f1e05a",
    "Python" := "#3572A5",
    "Java" := "#b07219",
    "Go" := "#00ADD8",
    "CSS" := "#563d7c",
    "HTML" := "#e34c26"
  ]

  const DefaultLanguageColor: string := "#8b949e"

  predicate IsHexDigit(c: char)
  {
    '0' <= c <= '9' || 'a' <= c <= 'f' || 'A' <= c <= 'F'
  }

  /** A CSS colour of the form `#rrggbb`. */
  predicate IsHexColor(s: string)
  {
    |s| == 7 && s[0] == '#' && forall k :: 1 <= k < 7 ==> IsHexDigit(s[k])
  }

  /** `colors[language || ""] || "#8b949e"`. */
  function LanguageColor(language: Option<string>): (c: string)
    ensures language.Some? && language.value in LanguageColors ==> c == LanguageColors[language.value]
    ensures (language.None? || language.value !in LanguageColors) ==> c == DefaultLanguageColor
    ensures IsHexColor(c)
  {
    var key := if language.Some? && language.value != "" then language.value else "";
    assert "" !in LanguageColors;
    assert forall l :: l in LanguageColors ==> IsHexColor(LanguageColors[l]);
    if key in LanguageColors && LanguageColors[key] != "" then LanguageColors[key]
    else DefaultLanguageColor
  }

  /** The outcome of the one request the page makes. */
  datatype Thrown = ErrorObject(message: string) | NonError
  datatype FetchOutcome =
    | Fetched(data: seq<Repository>)   // a 2xx response whose body decoded into a list
    | NotOk                            // `!response.ok`
    | Threw(thrown: Thrown)            // `fetch`, `json()` or `filter` threw

  /** What the page renders: `if (loading)` comes first, then `if (error)`. */
  datatype View = LoadingView | ErrorView(message: string) | ContentView(repos: seq<Repository>)

  function ViewOf(loading: bool, error: Option<string>, repos: seq<Repository>): (v: View)
    ensures loading ==> v == LoadingView
    ensures !loading && error.Some? && error.value != "" ==> v == ErrorView(error.value)
    ensures v.ContentView? <==> !loading && (error.None? || error.value == "")
    ensures !loading && (error.None? || error.value == "") ==> v == ContentView(repos)
  {
    if loading then LoadingView
    else if error.Some? && error.value != "" then ErrorView(error.value)
    else ContentView(repos)
  }

  class ProjectsPage {
    var repos: seq<Repository>
    var loading: bool
    var error: Option<string>

    /** `useState([])`, `useState(true)`, `useState(null)`. */
    constructor ()
      ensures repos == [] && loading && error == None
      ensures View() == LoadingView
    {
      repos := [];
      loading := true;
      error := None;
    }

    function View(): View
      reads this
    {
      ViewOf(loading, error, repos)
    }

    /** `fetchRepos`, once the request has settled with `outcome`. */
    method FetchRepos(outcome: FetchOutcome)
      modifies this
      ensures !loading
      ensures outcome.Fetched? ==> repos == RemoveDenylisted(outcome.data) && error == old(error)
      ensures outcome.NotOk? ==> error == Some("Failed to fetch repositories") && repos == old(repos)
      ensures outcome.Threw? && outcome.thrown.ErrorObject? ==>
                error == Some(outcome.thrown.message) && repos == old(repos)
      ensures outcome.Threw? && outcome.thrown.NonError? ==>
                error == Some("An error occurred") && repos == old(repos)
    {
      match outcome
      case Fetched(data) =>
        var filtered := RemoveDenylisted(data);
        repos := filtered;
        loading := false;
      case NotOk =>
        error := Some(ErrorMessage(ErrorObject("Failed to fetch repositories")));
        loading := false;
      case Threw(thrown) =>
        error := Some(ErrorMessage(thrown));
        loading := false;
    }

    /** From the initial state, one settled request leads to the content view
        with the cleaned list, or to the error view with the fixed message. */
    method Mount(outcome: FetchOutcome)
      requires repos == [] && loading && error == None
      modifies this
      ensures outcome.Fetched? ==> View() == ContentView(RemoveDenylisted(outcome.data))
      ensures outcome.NotOk? ==> View() == ErrorView("Failed to fetch repositories")
      ensures outcome.Fetched? ==> forall r :: r in repos ==> !Denylisted(r)
    {
      FetchRepos(outcome);
    }
  }

  /** `err instanceof Error ? err.message : "An error occurred"`. */
  function ErrorMessage(thrown: Thrown): (m: string)
    ensures thrown.ErrorObject? ==> m == thrown.message
    ensures thrown.NonError? ==> m == "An error occurred"
  {
    match thrown
    case ErrorObject(message) => message
    case NonError => "An error occurred"
  }
}
