/** The placeholder image route (app/api/placeholder-image/route.ts): the values
    an SVG placeholder is built from, chosen by category, and the response headers. */
module PlaceholderImage {
  import opened Wrappers
  import opened Http

  /** A colour scheme: the two gradient stops and the icon. */
  datatype Scheme = Scheme(color1: string, color2: string, icon: string)

  /** The computed fields of the SVG: gradient stops, emoji, category label and name label. */
  datatype Placeholder = Placeholder(
    color1: string,
    color2: string,
    emoji: string,
    categoryLabel: string,
    nameLabel: string)

  const DefaultCategory := "Attraction"
  const DefaultName := "Destination"
  const MaxNameLength := 40

  const ColorSchemes: map<string, Scheme> := map[
    "Museum" := Scheme("#667eea", "#764ba2", "\U{1F3DB}\U{FE0F}"),
    "Restaurant" := Scheme("#f093fb", "#f5576c", "\U{1F37D}\U{FE0F}"),
    "Park" := Scheme("#4facfe", "#00f2fe", "\U{1F333}"),
    "Attraction" := Scheme("#43e97b", "#38f9d7", "\U{1F3AD}"),
    "Hotel" := Scheme("#fa709a", "#fee140", "\U{1F3E8}"),
    "Beach" := Scheme("#30cfd0", "#330867", "\U{1F3D6}\U{FE0F}"),
    "Mountain" := Scheme("#a8edea", "#fed6e3", "\U{26F0}\U{FE0F}"),
    "Temple" := Scheme("#ff9a9e", "#fecfef", "\U{26E9}\U{FE0F}"),
    "Church" := Scheme("#ffecd2", "#fcb69f", "\U{26EA}")
  ]

  const SvgHeaders: map<string, string> := map[
    "Content-Type" := "image/svg+xml",
    "Cache-Control" := "public, max-age=86400"
  ]

  /** `searchParams.get(name) || fallback` */
  function ParamOr(param: Option<string>, fallback: string): (r: string)
    ensures fallback != "" ==> r != ""
    ensures param.Some? && param.value != "" ==> r == param.value
    ensures param.None? || param.value == "" ==> r == fallback
  {
    if param.Some? && param.value != "" then param.value else fallback
  }

  /** `colorSchemes[category] || colorSchemes.Attraction`, by exact, case-sensitive key. */
  function SchemeFor(category: string): (s: Scheme)
    ensures category in ColorSchemes ==> s == ColorSchemes[category]
    ensures category !in ColorSchemes ==> s == ColorSchemes[DefaultCategory]
  {
    if category in ColorSchemes then ColorSchemes[category] else ColorSchemes[DefaultCategory]
  }

  /** `name.length > 40 ? name.substring(0, 40) + '...' : name` */
  function NameLabel(name: string): (shown: string)
    ensures |name| <= MaxNameLength ==> shown == name
    ensures |name| > MaxNameLength ==>
              |shown| == MaxNameLength + 3
              && shown[..MaxNameLength] == name[..MaxNameLength]
              && shown[MaxNameLength..] == "..."
    ensures |shown| <= MaxNameLength + 3
  {
    if |name| > MaxNameLength then name[..MaxNameLength] + "..." else name
  }

  /** The GET handler for query parameters `category` and `name`. */
  function PlaceholderGet(category: Option<string>, name: Option<string>): (resp: Response<Placeholder>)
    ensures resp.status == 200 && resp.headers == SvgHeaders
    ensures var c := ParamOr(category, DefaultCategory);
            && resp.body.categoryLabel == c
            && resp.body.color1 == SchemeFor(c).color1
            && resp.body.color2 == SchemeFor(c).color2
            && resp.body.emoji == SchemeFor(c).icon
    ensures resp.body.nameLabel == NameLabel(ParamOr(name, DefaultName))
    ensures resp.body.categoryLabel != "" && resp.body.nameLabel != ""
  {
    var c := ParamOr(category, DefaultCategory);
    var n := ParamOr(name, DefaultName);
    var scheme := SchemeFor(c);
    Response(200, SvgHeaders, Placeholder(scheme.color1, scheme.color2, scheme.icon, c, NameLabel(n)))
  }

  /** An unknown category is drawn with the Attraction colours but labelled with its own name. */
  lemma UnknownCategoryKeepsLabel(category: string, name: Option<string>)
    requires category != "" && category !in ColorSchemes
    ensures var p := PlaceholderGet(Some(category), name).body;
            && p.categoryLabel == category
            && p.color1 == "#43e97b" && p.color2 == "#38f9d7" && p.emoji == "\U{1F3AD}"
  {
  }
}
