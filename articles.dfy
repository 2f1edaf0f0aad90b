/** The articles page: a fixed list of articles, a tag filter chosen by the
    tag buttons, and the statistics shown above the grid. */
module Articles {
  import opened Wrappers
  import opened Seqs

  datatype Article = Article(
    id: string,
    title: string,
    excerpt: string,
    publishedDate: string,
    readTime: int,
    source: string,
    sourceUrl: string,
    thumbnailUrl: Option<string>,
    tags: seq<string>,
    featured: Option<bool>)

  /** The five articles the page lists. Excerpts are kept short here; no
      computation reads them. */
  const ArticlesData: seq<Article> := [
    Article("1", "The Importance of Shift Left Paradigm",
      "Exploring how shifting testing and quality practices earlier in the development lifecycle leads to better outcomes.",
      "2023-06-15", 6, "LinkedIn",
      "https://www.linkedin.com/pulse/importance-shift-left-paradigm-manish-mitra/",
      None, ["Testing", "DevOps", "Quality Engineering"], Some(true)),
    Article("2", "Why Mentors are Important",
      "Reflecting on the value of mentorship in professional growth.",
      "2023-04-20", 5, "LinkedIn",
      "https://www.linkedin.com/pulse/why-mentors-important-manish-mitra/",
      None, ["Career", "Mentorship", "Professional Growth"], None),
    Article("3", "Service Virtualization Testing for Microservices",
      "A comprehensive guide to service virtualization techniques for testing microservices architectures.",
      "2023-02-10", 8, "LinkedIn",
      "https://www.linkedin.com/pulse/service-virtualization-testing-microservices-manish-mitra/",
      None, ["Microservices", "Testing", "Service Virtualization"], None),
    Article("4", "My Learnings with AI: Nondeterministic Testing",
      "Exploring the challenges and strategies for testing AI-powered applications.",
      "2024-01-15", 7, "Medium",
      "https://medium.com/@manishmitraba/my-learnings-with-ai-nondeterministic-testing-a86e577a0395",
      None, ["AI", "Testing", "Machine Learning"], Some(true)),
    Article("5", "Experiments with Playwright & Axe on Accessibility Testing",
      "Hands-on experience combining Playwright's browser automation with Axe for accessibility testing.",
      "2024-03-10", 10, "Medium (Wesfarmers OneDigital)",
      "https://medium.com/wesfarmers-onedigital/experiments-with-playwright-axe-on-accessibility-testing-cc70062525cd",
      None, ["Accessibility", "Playwright", "Testing", "a11y"], None)
  ]

  /** `articles.flatMap(a => a.tags)`: one entry per tag of each article,
      so as many entries as the articles have tags together. */
  function FlatTags(articles: seq<Article>): (r: seq<string>)
    ensures |r| == SumBy((a: Article) => |a.tags|, articles)
  {
    if articles == [] then []
    else
      var f := (a: Article) => |a.tags|;
      assert [articles[0]] + articles[1..] == articles;
      assert [articles[0]][..0] == [];
      SumByAppend(f, [articles[0]], articles[1..]);
      articles[0].tags + FlatTags(articles[1..])
  }

  lemma {:induction false} FlatTagsMember(articles: seq<Article>, t: string)
    ensures t in FlatTags(articles) <==> exists a :: a in articles && t in a.tags
  {
    if articles != [] {
      FlatTagsMember(articles[1..], t);
      assert forall a :: a in articles <==> a == articles[0] || a in articles[1..];
    }
  }

  /** `Array.from(new Set(flatMap(tags)))`: every tag that some article
      carries, once each. */
  function AllTags(articles: seq<Article>): (r: seq<string>)
    ensures NoDuplicates(r)
    ensures forall t :: t in r <==> exists a :: a in articles && t in a.tags
  {
    var flat := FlatTags(articles);
    assert forall t :: t in Distinct(flat) <==> t in Elements(flat);
    assert forall t :: t in flat <==> exists a :: a in articles && t in a.tags by {
      forall t ensures t in flat <==> exists a :: a in articles && t in a.tags {
        FlatTagsMember(articles, t);
      }
    }
    Distinct(flat)
  }

  /** The tag buttons appear in order of first occurrence, scanning the
      articles in order and each article's tags in order. */
  lemma AllTagsFirstSeenOrder(articles: seq<Article>, i: nat, j: nat)
    requires i < j < |AllTags(articles)|
    ensures AllTags(articles)[i] in FlatTags(articles) && AllTags(articles)[j] in FlatTags(articles)
    ensures FirstIndex(FlatTags(articles), AllTags(articles)[i])
          < FirstIndex(FlatTags(articles), AllTags(articles)[j])
  {
    DistinctFirstSeenOrder(FlatTags(articles), i, j);
  }

  /** JavaScript truthiness of `selectedTag`: `null` and `""` are both falsy. */
  predicate TagSelected(selected: Option<string>)
  {
    selected.Some? && selected.value != ""
  }

  /** `selectedTag ? articles.filter(a => a.tags.includes(selectedTag)) : articles`. */
  function FilteredArticles(articles: seq<Article>, selected: Option<string>): (r: seq<Article>)
    ensures !TagSelected(selected) ==> r == articles
    ensures TagSelected(selected) ==> forall a :: a in r ==> selected.value in a.tags
    ensures |r| <= |articles|
  {
    if TagSelected(selected) then Filter((a: Article) => selected.value in a.tags, articles)
    else articles
  }

  /** The filtered list is always an order-preserving selection of the articles. */
  lemma FilteredIsSubsequence(articles: seq<Article>, selected: Option<string>)
    ensures Subsequence(FilteredArticles(articles, selected), articles)
  {
    if TagSelected(selected) {
      FilterIsSubsequence((a: Article) => selected.value in a.tags, articles);
    } else {
      SubsequenceReflexive(articles);
    }
  }

  /** With a tag selected, each article carrying the tag keeps all its
      occurrences and every other article is dropped. */
  lemma FilteredExactly(articles: seq<Article>, t: string, a: Article)
    requires t != ""
    ensures multiset(FilteredArticles(articles, Some(t)))[a]
         == if t in a.tags then multiset(articles)[a] else 0
  {
    FilterMultiset((a: Article) => t in a.tags, articles, a);
  }

  /** The filter distributes over concatenation, so the relative order of
      the kept articles is their original order. */
  lemma FilteredAppend(xs: seq<Article>, ys: seq<Article>, selected: Option<string>)
    ensures FilteredArticles(xs + ys, selected)
         == FilteredArticles(xs, selected) + FilteredArticles(ys, selected)
  {
    if TagSelected(selected) {
      FilterAppend((a: Article) => selected.value in a.tags, xs, ys);
    }
  }

  /** "No articles found" is shown exactly when the list is empty, or a
      (non-empty) tag is selected that no article carries. */
  lemma NoResultsIff(articles: seq<Article>, selected: Option<string>)
    ensures FilteredArticles(articles, selected) == []
        <==> articles == [] || (TagSelected(selected) && forall a :: a in articles ==> selected.value !in a.tags)
  {
    if TagSelected(selected) {
      FilterEmptyIff((a: Article) => selected.value in a.tags, articles);
      if articles == [] {
        assert Filter((a: Article) => selected.value in a.tags, articles) == [];
      }
    }
  }

  /** Every tag button leads to at least one article. */
  lemma KnownTagNonEmpty(articles: seq<Article>, t: string)
    requires t in AllTags(articles)
    ensures FilteredArticles(articles, Some(t)) != []
  {
    var a :| a in articles && t in a.tags;
    NoResultsIff(articles, Some(t));
  }

  /** `articles.reduce((acc, a) => acc + a.readTime, 0)`: never negative
      while no article has a negative reading time. */
  function TotalReadTime(articles: seq<Article>): (t: int)
    ensures (forall a :: a in articles ==> a.readTime >= 0) ==> t >= 0
  {
    var f := (a: Article) => a.readTime;
    if forall a :: a in articles ==> f(a) >= 0 then
      SumByNonNegative(f, articles);
      SumBy(f, articles)
    else
      SumBy(f, articles)
  }

  lemma TotalReadTimeAppend(xs: seq<Article>, ys: seq<Article>)
    ensures TotalReadTime(xs + ys) == TotalReadTime(xs) + TotalReadTime(ys)
  {
    SumByAppend((a: Article) => a.readTime, xs, ys);
  }

  /** The three figures above the grid: article count, minutes of reading
      and number of topics. None reads the selected tag. */
  datatype Stats = Stats(articles: int, minutes: int, topics: int)

  function PageStats(articles: seq<Article>): (s: Stats)
    ensures s.articles == |articles|
    ensures s.minutes == TotalReadTime(articles)
    ensures s.topics == |Elements(FlatTags(articles))|
  {
    DistinctCount(FlatTags(articles));
    Stats(|articles|, TotalReadTime(articles), |AllTags(articles)|)
  }

  lemma ArticlesDataStats()
    ensures PageStats(ArticlesData).minutes == 36
    ensures PageStats(ArticlesData).articles == 5
  {
    var f := (a: Article) => a.readTime;
    var s := ArticlesData;
    assert s[..1][..0] == [] && s[..2][..1] == s[..1] && s[..3][..2] == s[..2];
    assert s[..4][..3] == s[..3] && s[..4] == s[..|s| - 1];
    assert SumBy(f, s[..1]) == 6;
    assert SumBy(f, s[..2]) == 11;
    assert SumBy(f, s[..3]) == 19;
    assert SumBy(f, s[..4]) == 26;
  }

  /** The page's one piece of state: the selected tag, `null` for "All". */
  class ArticlesPage {
    var selectedTag: Option<string>

    constructor ()
      ensures selectedTag == None
      ensures Shown() == ArticlesData
    {
      selectedTag := None;
    }

    /** The articles currently in the grid. */
    function Shown(): (r: seq<Article>)
      reads this
      ensures Subsequence(r, ArticlesData)
    {
      FilteredIsSubsequence(ArticlesData, selectedTag);
      FilteredArticles(ArticlesData, selectedTag)
    }

    /** The "No articles found" message is rendered. */
    function NoResults(): (b: bool)
      reads this
      ensures b <==> Shown() == []
    {
      |FilteredArticles(ArticlesData, selectedTag)| == 0
    }

    /** The "All" button. */
    method SelectAll()
      modifies this
      ensures selectedTag == None
      ensures Shown() == ArticlesData
    {
      selectedTag := None;
    }

    /** A tag button; the buttons are rendered from `AllTags`, so only those
        tags reach this handler. */
    method SelectTag(tag: string)
      requires tag in AllTags(ArticlesData)
      modifies this
      ensures selectedTag == Some(tag)
      ensures Shown() != [] && !NoResults()
    {
      selectedTag := Some(tag);
      KnownTagNonEmpty(ArticlesData, tag);
    }
  }
}
