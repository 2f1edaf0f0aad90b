/** The company logo of the experience timeline: an image when one is on
    file, otherwise a coloured badge with a short name. */
module CompanyLogo {
  import opened Wrappers

  datatype Size = Sm | Md | Lg

  /** `sizeClasses[size]`. */
  function SizeClass(size: Size): string
  {
    match size
    case Sm => "w-10 h-10"
    case Md => "w-14 h-14"
    case Lg => "w-20 h-20"
  }

  /** `size = "md"`: the default of the optional property. */
  function EffectiveSize(size: Option<Size>): Size
  {
    size.GetOr(Md)
  }

  const CompanyImages: map<string, string> := map[
    "Commonwealth Bank" := "cba.jpeg",
    "Wesfarmers OneDigital" := "onedigital.jpeg",
    "ANZ" := "anz.jpeg",
    "NAB" := "NAB.jpeg",
    "AIA Australia" := "aia.png",
    "UnitedHealth Group" := "uhg.jpeg",
    "Deloitte" := "Deloittte.png",
    "Oracle Corporation" := "Oracle.png"
  ]

  datatype BadgeConfig = BadgeConfig(bg: string, text: string, name: string)

  const CompanyColors: map<string, BadgeConfig> := map[
    "Wells Fargo" := BadgeConfig("bg-yellow-500", "text-red-700", "WF")
  ]

  const ImageDirectory: string := "/images/companies/"

  /** What the component renders. The fixed Tailwind classes around the size
      and colour classes are left out. */
  datatype Logo =
    | ImageLogo(sizeClass: string, title: string, src: string, alt: string)
    | BadgeLogo(sizeClass: string, title: string, bg: string, textColor: string, badgeText: string)

  /** `String.prototype.toUpperCase` on one character, for the Latin letters. */
  function UpperChar(c: char): char
  {
    if 'a' <= c <= 'z' then (c as int - 'a' as int + 'A' as int) as char else c
  }

  function ToUpperCase(s: string): (u: string)
    ensures |u| == |s|
    ensures forall k :: 0 <= k < |s| ==> u[k] == UpperChar(s[k])
  {
    if s == [] then [] else [UpperChar(s[0])] + ToUpperCase(s[1..])
  }

  /** `s.substring(0, 3)`: a shorter string is taken whole. */
  function FirstThree(s: string): (p: string)
    ensures |p| == if |s| < 3 then |s| else 3
    ensures p == s[..|p|]
  {
    if |s| < 3 then s else s[..3]
  }

  /** The badge used when no image is on file: the company's own colours
      when it has some, otherwise grey with the first three characters of
      its name in capitals. */
  function BadgeFor(company: string): (r: BadgeConfig)
    ensures company in CompanyColors ==> r == CompanyColors[company]
    ensures company !in CompanyColors ==> r.bg == "bg-gray-700" && r.text == "text-white"
    ensures company !in CompanyColors ==> |r.name| == if |company| < 3 then |company| else 3
    ensures company !in CompanyColors ==>
      forall k :: 0 <= k < |r.name| ==> r.name[k] == UpperChar(company[k])
  {
    if company in CompanyColors then CompanyColors[company]
    else BadgeConfig("bg-gray-700", "text-white", ToUpperCase(FirstThree(company)))
  }

  /** `CompanyLogo({ company, size })`. */
  function Render(company: string, size: Option<Size>): (logo: Logo)
    ensures logo.title == company
    ensures logo.sizeClass == SizeClass(EffectiveSize(size))
    ensures company in CompanyImages ==>
              logo == ImageLogo(SizeClass(EffectiveSize(size)), company,
                                ImageDirectory + CompanyImages[company], company)
    ensures company !in CompanyImages ==> logo.BadgeLogo?
  {
    var sizeClass := SizeClass(EffectiveSize(size));
    assert forall c :: c in CompanyImages ==> CompanyImages[c] != "";
    if company in CompanyImages && CompanyImages[company] != "" then
      ImageLogo(sizeClass, company, ImageDirectory + CompanyImages[company], company)
    else
      var config := BadgeFor(company);
      BadgeLogo(sizeClass, company, config.bg, config.text, config.name)
  }

  /** "Wells Fargo" has no image and gets its own badge colours and label. */
  lemma WellsFargoBadge(size: Option<Size>)
    ensures Render("Wells Fargo", size)
         == BadgeLogo(SizeClass(EffectiveSize(size)), "Wells Fargo", "bg-yellow-500", "text-red-700", "WF")
  {
    assert "Wells Fargo" !in CompanyImages;
  }

  /** Any other company without an image: grey badge, the first three
      characters upper-cased. */
  lemma DefaultBadge(company: string, size: Option<Size>)
    requires company !in CompanyImages && company != "Wells Fargo"
    ensures Render(company, size)
         == BadgeLogo(SizeClass(EffectiveSize(size)), company, "bg-gray-700", "text-white",
                      ToUpperCase(FirstThree(company)))
    ensures |Render(company, size).badgeText| <= 3
    ensures forall k :: 0 <= k < |Render(company, size).badgeText| ==>
              Render(company, size).badgeText[k] == UpperChar(company[k])
  {
  }

  /** Without a `size` the logo is medium, "w-14 h-14". */
  lemma DefaultSize(company: string)
    ensures Render(company, None).sizeClass == "w-14 h-14"
  {
  }
}
