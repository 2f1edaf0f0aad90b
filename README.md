# Portfolio site client logic, modelled in Dafny

This project models the small amount of logic in a personal portfolio web site
(a Next.js/React application). Everything else in the site is literal content.
The modelled parts are:

- **Articles page.** The distinct tags in first-seen order and the tag filter.
  An empty tag counts as no filter, because the page tests `selectedTag` for
  JavaScript truthiness. The page also shows three statistics and holds the
  selected-tag state that the "All" and tag buttons set.
- **Hobbies page lightbox.** It has two state fields, `selectedPhoto` and
  `currentIndex`, changed by open, close and previous/next with wrap-around.
  JavaScript's `%` is modelled as the truncating remainder (`JsRem`).
- **Community projects page.** The fetched repositories lose a two-name
  denylist. The page shows three totals (projects, stars, distinct languages)
  and picks a colour per language, with a default. Its loading/error/content
  states are modelled, and `loading` takes precedence over `error`. An error
  string that is empty is falsy, so it shows the content view. The request
  itself is an abstract `FetchOutcome`.
- **Company logo.** An image when the company has one on file. Otherwise a
  configured badge ("Wells Fargo"), or else the first three characters
  upper-cased on a grey badge.
- **Geometric shapes.** The box size for each shape type, using `real` because
  JavaScript numbers divide exactly here. Also the colour and corner-rounding
  lookups, and the class list the element ends up with. The `class` attribute
  is read as a whitespace-separated token list (`Tokens`), as a browser
  reads it.
- **Navigation bar.** The `scrolled` flag follows the scroll threshold of 50.
  The `isOpen` flag has a toggle and closes when a mobile item or the mobile
  download button is used; the desktop download button leaves it alone.

Files: `wrappers.dfy` (Option), `seqs.dfy` (JavaScript's `filter`,
`Array.from(new Set(..))` and `reduce` sums, with their lemmas),
`articles.dfy`, `lightbox.dfy`, `community_projects.dfy`, `company_logo.dfy`,
`geometric_shapes.dfy`, `navigation.dfy`.

Timers, the network, the DOM and the PDF library are not modelled. The one
HTTP response is a parameter (`FetchOutcome`). The scroll offset is a
parameter of `HandleScroll`. The outcome of the résumé download is a parameter
(`DownloadOutcome`).

## Model

| member | source | states |
|---|---|---|
| Seqs.Filter | app/articles/page.tsx:94 | `filter` keeps only elements of the input that satisfy the predicate, and is never longer |
| Seqs.FilterMultiset | app/community-projects/page.tsx:167-170 | `filter` keeps every occurrence of a satisfying element and no occurrence of any other |
| Seqs.Distinct | app/articles/page.tsx:89-91 | `Array.from(new Set(s))` has exactly the elements of `s` and no duplicates |
| Seqs.DistinctFirstSeenOrder | app/articles/page.tsx:89-91 | the distinct elements are ordered by their first occurrence in `s` |
| Seqs.DistinctCount | app/community-projects/page.tsx:284 | `new Set(s).size` is the cardinality of the set of `s`'s elements |
| Articles.FlatTagsMember | app/articles/page.tsx:90 | a tag is in the `flatMap` of tags iff some article carries it |
| Articles.FlatTags | app/articles/page.tsx:90 | the flattened tag list has one entry per tag of each article: its length is the articles' tag counts summed |
| Articles.AllTags | app/articles/page.tsx:89-91 | `allTags` has no duplicates, and a tag is in it iff some article carries it |
| Articles.AllTagsFirstSeenOrder | app/articles/page.tsx:89-91 | `allTags` is in first-occurrence order, scanning articles and then each article's tags |
| Articles.FilteredArticles | app/articles/page.tsx:93-95 | with no tag (null or "") the list is the articles unchanged; with a tag, every kept article carries it and the list is no longer |
| Articles.FilteredIsSubsequence | app/articles/page.tsx:93-95 | the filtered list is always a subsequence of the articles |
| Articles.FilteredExactly | app/articles/page.tsx:94 | with tag t, an article's occurrences are all kept if it carries t and all dropped otherwise |
| Articles.FilteredAppend | app/articles/page.tsx:94 | filtering distributes over concatenation, so the original order is kept |
| Articles.NoResultsIff | app/articles/page.tsx:279 | the list is empty iff there are no articles, or a non-empty tag is selected that no article carries |
| Articles.KnownTagNonEmpty | app/articles/page.tsx:169-172 | any tag offered as a button selects at least one article |
| Articles.TotalReadTimeAppend | app/articles/page.tsx:140 | the read-time total is additive over concatenation |
| Articles.TotalReadTime | app/articles/page.tsx:140 | the minutes-of-reading total is never negative while no article has a negative read time |
| Articles.PageStats | app/articles/page.tsx:134-146 | the figures are the list length, the read-time total and the number of distinct tags; the statistics take no selected tag, so filtering never changes them |
| Articles.ArticlesDataStats | app/articles/page.tsx:21-84 | the page's five articles total 36 minutes of reading |
| Articles.ArticlesPage.constructor | app/articles/page.tsx:87 | the page starts with no tag selected, showing every article |
| Articles.ArticlesPage.Shown | app/articles/page.tsx:186 | the grid is always a subsequence of the article list |
| Articles.ArticlesPage.NoResults | app/articles/page.tsx:279 | "No articles found" shows exactly when the grid is empty |
| Articles.ArticlesPage.SelectAll | app/articles/page.tsx:160 | "All" sets the selection to null and shows every article |
| Articles.ArticlesPage.SelectTag | app/articles/page.tsx:169-172 | a tag button selects its tag, and the grid is then non-empty |
| Lightbox.JsRem | app/hobbies/page.tsx:165-167 | JavaScript `%` satisfies a == q * b + r for an integer q, has the sign of the dividend, lies strictly within the divisor's magnitude, and is the identity below it |
| Lightbox.Step | app/hobbies/page.tsx:162-167 | next gives i+1, wrapping n-1 to 0; prev gives i-1, wrapping 0 to n-1; both stay in [0, n) |
| Lightbox.StepInverse | app/hobbies/page.tsx:162-170 | next then prev, and prev then next, return to the original index |
| Lightbox.NextTimes | app/hobbies/page.tsx:165 | any number of next presses stays in [0, n) |
| Lightbox.NextTimesShift | app/hobbies/page.tsx:165 | k <= n presses of next move k places forward, wrapping at most once |
| Lightbox.NextFullCycle | app/hobbies/page.tsx:165 | n presses of next return to the starting index |
| Lightbox.CricketPhotosWrap | app/hobbies/page.tsx:74-99 | on the page's three photos, prev from the first shows the third, next from the third shows the first, and three presses of next return to the start |
| Lightbox.LightboxState.constructor | app/hobbies/page.tsx:150-151 | the lightbox starts closed at index 0 |
| Lightbox.LightboxState.OpenLightbox | app/hobbies/page.tsx:153-156 | opening stores the given photo and index |
| Lightbox.LightboxState.ClickTile | app/hobbies/page.tsx:337-344 | opening from tile i shows photos[i] at index i, a consistent state |
| Lightbox.LightboxState.CloseLightbox | app/hobbies/page.tsx:158-160 | closing clears the photo and keeps the index |
| Lightbox.LightboxState.NavigatePhoto | app/hobbies/page.tsx:162-170 | the new index is the wrapped step, and the selected photo is photos[currentIndex] |
| Lightbox.LightboxState.Counter | app/hobbies/page.tsx:572 | the displayed counter lies within 1..n |
| CommunityProjects.RemoveDenylisted | app/community-projects/page.tsx:167-170 | no kept repository is named "stagehand-demo" or "my-resume", and each came from the fetched list |
| CommunityProjects.RemoveDenylistedExactly | app/community-projects/page.tsx:167-170 | every other repository is kept as often as it was fetched; denylisted ones never are |
| CommunityProjects.RemoveDenylistedOrder | app/community-projects/page.tsx:167-170 | the kept repositories keep their fetched order |
| CommunityProjects.RemoveDenylistedAppend | app/community-projects/page.tsx:167-170 | the filter distributes over concatenation |
| CommunityProjects.RemoveDenylistedClean | app/community-projects/page.tsx:167-170 | a list without denylisted names passes unchanged |
| CommunityProjects.TotalProjects | app/community-projects/page.tsx:271 | the total is the repository count plus the five featured projects |
| CommunityProjects.FeaturedStarsTotal | app/community-projects/page.tsx:43-150 | the featured projects' stars sum to 2 |
| CommunityProjects.TotalStars | app/community-projects/page.tsx:277-278 | total stars are the repositories' stargazers plus the featured projects' stars |
| CommunityProjects.TotalStarsAtLeastFeatured | app/community-projects/page.tsx:277-278 | with non-negative stargazer counts, the total is at least the featured stars |
| CommunityProjects.RepoStarsAppend | app/community-projects/page.tsx:277 | the stargazer sum is additive over concatenation |
| CommunityProjects.RepoStars | app/community-projects/page.tsx:277 | the stargazer sum over the fetched repositories is never negative while no count is negative |
| CommunityProjects.FeaturedStars | app/community-projects/page.tsx:278 | the star sum over the featured projects is never negative while no count is negative |
| CommunityProjects.KnownLanguages | app/community-projects/page.tsx:284 | `map(language).filter(Boolean)` holds exactly the non-null, non-empty languages of the repositories |
| CommunityProjects.LanguageCount | app/community-projects/page.tsx:284 | the language count is the number of distinct non-null, non-empty languages, at most the repository count |
| CommunityProjects.LanguagesBound | app/community-projects/page.tsx:284 | there are never more distinct languages than repositories |
| CommunityProjects.LanguageColor | app/community-projects/page.tsx:186-197 | the seven mapped languages get their listed colour; null or any other language gets "#8b949e"; the result is always a `#rrggbb` colour |
| CommunityProjects.ViewOf | app/community-projects/page.tsx:199-233 | the loading view takes precedence over the error view, which takes precedence over the content; the content view shows exactly the repositories it was given |
| CommunityProjects.ErrorMessage | app/community-projects/page.tsx:174 | an Error's message is shown; any other thrown value gives "An error occurred" |
| CommunityProjects.ProjectsPage.constructor | app/community-projects/page.tsx:153-155 | the page starts loading, with an empty list and no error |
| CommunityProjects.ProjectsPage.FetchRepos | app/community-projects/page.tsx:158-177 | success stores the denylist-filtered list; a non-OK response sets "Failed to fetch repositories"; a throw sets its message; every path clears loading |
| CommunityProjects.ProjectsPage.Mount | app/community-projects/page.tsx:157-179 | from the initial state, success renders the filtered list and a non-OK response renders the fixed error |
| CompanyLogo.ToUpperCase | components/CompanyLogo.tsx:58 | upper-casing keeps the length and maps each character |
| CompanyLogo.FirstThree | components/CompanyLogo.tsx:58 | `substring(0, 3)` is the first three characters, or the whole of a shorter name |
| CompanyLogo.BadgeFor | components/CompanyLogo.tsx:55-59 | a company with configured colours gets that badge; any other gets bg-gray-700, text-white and a name of at most three characters, each the upper-cased character of the company name at the same position |
| CompanyLogo.Render | components/CompanyLogo.tsx:8-68 | a company with an image file renders an image at "/images/companies/" + file, and the image is chosen before any badge; the title is the company in both branches; the size class follows the (default) size |
| CompanyLogo.WellsFargoBadge | components/CompanyLogo.tsx:28-34 | "Wells Fargo" renders the badge "WF" with bg-yellow-500 and text-red-700 |
| CompanyLogo.DefaultBadge | components/CompanyLogo.tsx:55-59 | any other company without an image gets bg-gray-700, text-white and its first three characters upper-cased |
| CompanyLogo.DefaultSize | components/CompanyLogo.tsx:8-13 | without a size the logo is "w-14 h-14" |
| Shapes.ColorClassDistinct | components/GeometricShapes.tsx:18-23 | each colour maps to its own `bg-` class |
| Shapes.RadiusClassFollowsName | components/GeometricShapes.tsx:25-34 | each type rounds the side or corner its name gives, and no two types share a class |
| Shapes.StartsWithSemiIff | components/GeometricShapes.tsx:39 | `type.startsWith("semi")` holds exactly for the four half circles |
| Shapes.ComputeStyle | components/GeometricShapes.tsx:37-50 | quarters are size by size; semi-t and semi-b are size by size/2; semi-l and semi-r are size/2 by size after the override; the position props pass through |
| Shapes.PropDefaults | components/GeometricShapes.tsx:36 | omitted props default to delay 0, animate false and hideOnMobile false, so the element carries only the fixed, colour and radius classes |
| Shapes.MobileTokens | components/GeometricShapes.tsx:52 | the mobile class is "hidden md:block" when hideOnMobile is set, and empty otherwise, including by default |
| Shapes.ClassTokens | components/GeometricShapes.tsx:59 | the element's class list is the fixed classes, the colour and radius classes, then "animate-float-slow" iff animate, then "hidden md:block" iff hideOnMobile |
| Shapes.ClassFlags | components/GeometricShapes.tsx:36-59 | the element hides on mobile exactly when hideOnMobile is set, and floats exactly when animate is set |
| Navigation.NavigationState.constructor | components/Navigation.tsx:8-9 | the bar starts closed and unscrolled |
| Navigation.NavigationState.HandleScroll | components/Navigation.tsx:11-17 | `scrolled` becomes true exactly when scrollY > 50 |
| Navigation.NavigationState.ToggleMenu | components/Navigation.tsx:86 | the menu button flips `isOpen` |
| Navigation.NavigationState.SelectMobileItem | components/Navigation.tsx:103-107 | a mobile link closes the menu |
| Navigation.NavigationState.MobileDownload | components/Navigation.tsx:113-123 | the mobile download closes the menu whether the download completes or throws |
| Navigation.NavigationState.DesktopDownload | components/Navigation.tsx:64-72 | the desktop download changes no state |
| Navigation.NavigationState.MobileMenuShown | components/Navigation.tsx:95-96 | the mobile menu is rendered exactly while the menu is open, whatever the scroll flag |

## Left out

- The HTTP request to the repository-listing endpoint and the JSON decoding are network I/O. The model takes the settled outcome as a parameter (`FetchOutcome`).
- `formatDate` and `toLocaleDateString` depend on JavaScript dates and locale formatting.
- The résumé PDF export (`utils/downloadResume.ts`) is not part of this model. It only calls a third-party PDF library through the DOM. The download buttons model only its outcome (`DownloadOutcome`).
- JSX markup, fixed Tailwind classes, motion animations and their delays are presentational. So are the featured projects' descriptions, feature bullets and technology icons, and the articles' full excerpts, which no computation reads.
- CDK stacks, the Tailwind and Next.js configuration, the layout, the theme toggle and the static content components are configuration or literal content.
- The cricket statistics of the hobbies page are display figures.
- JavaScript object lookups also find inherited prototype keys such as "constructor". This is not modelled: `companyImages[company]`, `companyColors[company]` and `colors[language]` are plain map lookups here.
- TypeScript `number` fields that hold counts are modelled as unbounded `int`. These are `readTime`, `stargazersCount` and `currentIndex`. So the read-time sum (Articles.TotalReadTime) and the star sums (CommunityProjects.RepoStars, CommunityProjects.TotalStars) are exact integer sums. JavaScript adds in double precision, which agrees only for whole numbers below 2^53. Fractional values and rounding are not modelled.
- Navigation.NavigationState.MobileDownload: the handler awaits the dynamic import and `downloadResumeAsPDF()` before closing the menu. The model runs the whole handler as one step with the settled outcome as a parameter. So a menu toggle or a scroll event that lands between the click and the settling is not modelled. Navigation.NavigationState.DesktopDownload is modelled the same way.
- CompanyLogo.ToUpperCase: maps only the Latin letters a–z. Full Unicode case mapping is not modelled (for example "ß" becoming "SS"). Characters are not UTF-16 code units either, so `substring` on surrogate pairs is not modelled.
- Lightbox.LightboxState.NavigatePhoto: requires an open lightbox within its invariant, because the prev/next buttons only render while a photo is selected. An empty photo list (which would give `NaN` in JavaScript) is therefore not modelled.
- Articles.ArticlesPage.SelectTag: requires a tag from `allTags`, because the buttons are rendered only from that list.
- Shapes.ClassTokens: splits on the space character only, the one whitespace the class template uses.
- Navigation.NavigationState.HandleScroll: the scroll listener's registration and removal on unmount are lifecycle plumbing and are not modelled.
