/**
 * The project detail popup: the technology classifier with its colour table, and what the
 * popup shows for the props it is given.
 */
module ProjectPopup {
  import opened Wrappers
  import opened Text

  /** One row of the classifier's table: a category name and its keywords. */
  datatype CategoryEntry = CategoryEntry(name: string, keywords: seq<string>)

  /** The table in declaration order; `Object.entries` yields the rows in this order. */
  const CATEGORIES: seq<CategoryEntry> := [
    CategoryEntry("cloud", ["AWS", "Azure", "GCP", "Lambda", "S3", "DynamoDB", "API Gateway", "Cognito"]),
    CategoryEntry("infra", ["Docker", "Kubernetes", "Terraform", "CI/CD", "GitHub Actions"]),
    CategoryEntry("auth", ["Cognito", "OAuth", "JWT"]),
    CategoryEntry("ml", ["Python", "Machine Learning", "XGBoost", "SVM", "Regression", "NLP", "LlamaIndex"]),
    CategoryEntry("data", ["SQL", "SQLite", "Pandas", "NumPy", "Data Visualization", "ETL"]),
    CategoryEntry("frontend", ["React", "JavaScript", "TypeScript", "HTML", "CSS"]),
    CategoryEntry("backend", ["Python", "Node.js", "Flask", "Express"]),
    CategoryEntry("tools", ["Git", "Prefect", "Airflow", "Streamlit", "Power BI", "Tableau"])
  ]

  const OTHER: string := "other"

  /** `techs.some(t => tech.toLowerCase().includes(t.toLowerCase()))`, given the lowered tech. */
  predicate SomeKeywordIn(lowered: string, keywords: seq<string>) {
    exists k :: k in keywords && Includes(lowered, Lower(k))
  }

  /** A row matches a technology when one of its keywords occurs in it, ignoring ASCII case. */
  predicate Matches(tech: string, entry: CategoryEntry) {
    SomeKeywordIn(Lower(tech), entry.keywords)
  }

  /** The name of the first matching row of `table`, or "other" when none matches. */
  function FirstMatch(table: seq<CategoryEntry>, lowered: string): string {
    if table == [] then OTHER
    else if SomeKeywordIn(lowered, table[0].keywords) then table[0].name
    else FirstMatch(table[1..], lowered)
  }

  /** `categorizeTech(tech)` as a value. */
  function Classify(tech: string): string {
    FirstMatch(CATEGORIES, Lower(tech))
  }

  /** `techs.some(...)`: tries the keywords in order until one occurs in the lowered tech. */
  method AnyKeywordIn(lowered: string, keywords: seq<string>) returns (found: bool)
    ensures found == SomeKeywordIn(lowered, keywords)
  {
    var k := 0;
    found := false;
    while k < |keywords| && !found
      invariant 0 <= k <= |keywords|
      invariant found <==> exists m :: 0 <= m < k && Includes(lowered, Lower(keywords[m]))
    {
      found := Includes(lowered, Lower(keywords[k]));
      k := k + 1;
    }
  }

  /** Row `i` is the first row of `table` that matches `tech`. */
  predicate IsFirstMatchingRow(table: seq<CategoryEntry>, tech: string, i: int) {
    0 <= i < |table| && Matches(tech, table[i]) &&
    forall j :: 0 <= j < i ==> !Matches(tech, table[j])
  }

  /** No row of `table` matches `tech`. */
  predicate NoRowMatches(table: seq<CategoryEntry>, tech: string) {
    forall i :: 0 <= i < |table| ==> !Matches(tech, table[i])
  }

  predicate NoRowNamedOther(table: seq<CategoryEntry>) {
    forall i :: 0 <= i < |table| ==> table[i].name != OTHER
  }

  /**
   * The loop of `categorizeTech` over any table: the rows are tried in order and the first one
   * with a keyword occurring in the technology, ignoring ASCII case, wins; "other" when none does.
   */
  method FirstMatchingCategory(table: seq<CategoryEntry>, tech: string) returns (category: string)
    requires NoRowNamedOther(table)
    ensures category == FirstMatch(table, Lower(tech))
    ensures category == OTHER <==> NoRowMatches(table, tech)
    ensures category != OTHER ==>
      exists i :: IsFirstMatchingRow(table, tech, i) && table[i].name == category
  {
    var lowered := Lower(tech);
    var i := 0;
    while i < |table|
      invariant 0 <= i <= |table|
      invariant forall j :: 0 <= j < i ==> !Matches(tech, table[j])
      invariant FirstMatch(table[i..], lowered) == FirstMatch(table, lowered)
    {
      var found := AnyKeywordIn(lowered, table[i].keywords);
      if found {
        assert IsFirstMatchingRow(table, tech, i);
        return table[i].name;
      }
      assert table[i..][1..] == table[i + 1..];
      i := i + 1;
    }
    return OTHER;
  }

  /**
   * `categorizeTech`: the first category, in declaration order, with a keyword that occurs in
   * the technology ignoring ASCII case, and "other" exactly when no keyword of any row occurs.
   */
  method CategorizeTech(tech: string) returns (category: string)
    ensures category == Classify(tech)
    ensures category == OTHER <==> NoRowMatches(CATEGORIES, tech)
    ensures category != OTHER ==>
      exists i :: IsFirstMatchingRow(CATEGORIES, tech, i) && CATEGORIES[i].name == category
  {
    NamesAreNotOther();
    category := FirstMatchingCategory(CATEGORIES, tech);
  }

  /** No row of the table is called "other", so "other" only ever means "no row matched". */
  lemma NamesAreNotOther()
    ensures NoRowNamedOther(CATEGORIES)
  {
  }

  /** The colour classes of each category. */
  const COLORS: map<string, string> := map[
    "cloud" := "bg-blue-50 text-blue-700 border-blue-200",
    "infra" := "bg-purple-50 text-purple-700 border-purple-200",
    "auth" := "bg-red-50 text-red-700 border-red-200",
    "ml" := "bg-green-50 text-green-700 border-green-200",
    "data" := "bg-cyan-50 text-cyan-700 border-cyan-200",
    "frontend" := "bg-orange-50 text-orange-700 border-orange-200",
    "backend" := "bg-indigo-50 text-indigo-700 border-indigo-200",
    "tools" := "bg-gray-50 text-gray-700 border-gray-200",
    "other" := "bg-yellow-50 text-yellow-700 border-yellow-200"
  ]

  /** `getCategoryColor`: the mapped classes, falling back to the "other" entry. */
  function GetCategoryColor(category: string): (color: string)
    ensures color in COLORS.Values
    ensures category in COLORS ==> color == COLORS[category]
    ensures category !in COLORS ==> color == COLORS[OTHER]
  {
    if category in COLORS && COLORS[category] != "" then COLORS[category] else COLORS[OTHER]
  }

  /** The first-match rule, stated for any table and proved by walking it. */
  lemma {:induction false} FirstMatchIsFirstMatchingRow(table: seq<CategoryEntry>, tech: string)
    requires NoRowNamedOther(table)
    ensures FirstMatch(table, Lower(tech)) == OTHER <==> NoRowMatches(table, tech)
    ensures FirstMatch(table, Lower(tech)) != OTHER ==>
      exists i :: IsFirstMatchingRow(table, tech, i) && table[i].name == FirstMatch(table, Lower(tech))
  {
    if table != [] && !Matches(tech, table[0]) {
      var rest := table[1..];
      assert NoRowNamedOther(rest);
      FirstMatchIsFirstMatchingRow(rest, tech);
      if FirstMatch(rest, Lower(tech)) != OTHER {
        var i :| IsFirstMatchingRow(rest, tech, i) && rest[i].name == FirstMatch(rest, Lower(tech));
        assert IsFirstMatchingRow(table, tech, i + 1);
      }
    } else if table != [] {
      assert IsFirstMatchingRow(table, tech, 0);
    }
  }

  /** `categorizeTech(t)` is the first row in declaration order that matches, or "other". */
  lemma ClassifyIsFirstMatch(tech: string)
    ensures Classify(tech) == OTHER <==> NoRowMatches(CATEGORIES, tech)
    ensures Classify(tech) != OTHER ==>
      exists i :: IsFirstMatchingRow(CATEGORIES, tech, i) && CATEGORIES[i].name == Classify(tech)
  {
    NamesAreNotOther();
    FirstMatchIsFirstMatchingRow(CATEGORIES, tech);
  }

  /** A keyword cannot occur where the text has no room for it or its first letter never appears. */
  lemma NoStartFits(s: string, p: string)
    requires |p| > 0
    requires forall i :: 0 <= i <= |s| - |p| ==> s[i] != p[0]
    ensures !Includes(s, p)
  {
    IncludesIff(s, p);
  }

  /** "Cognito" is listed under cloud and under auth; cloud comes first and wins. */
  lemma CognitoIsCloud()
    ensures Classify("Cognito") == "cloud"
  {
    assert Lower("Cognito") == "cognito";
    assert Includes("cognito", Lower("Cognito"));
  }

  /** Neither the cloud, the infra nor the auth row has a keyword that fits in "python". */
  lemma PythonMissesEarlyRow(row: nat)
    requires row < 3
    ensures !SomeKeywordIn("python", CATEGORIES[row].keywords)
  {
    var keywords := CATEGORIES[row].keywords;
    forall k | k in keywords ensures !Includes("python", Lower(k)) {
      NoStartFits("python", Lower(k));
    }
  }

  lemma PythonMissesEarlyRows()
    ensures forall r :: 0 <= r < 3 ==> !SomeKeywordIn("python", CATEGORIES[r].keywords)
  {
    PythonMissesEarlyRow(0);
    PythonMissesEarlyRow(1);
    PythonMissesEarlyRow(2);
  }

  lemma PythonMatchesMlRow()
    ensures SomeKeywordIn("python", CATEGORIES[3].keywords)
  {
    assert Includes("python", Lower(CATEGORIES[3].keywords[0]));
  }

  /** "Python" is listed under ml and under backend; ml comes first and wins. */
  lemma PythonIsMl()
    ensures Classify("Python") == "ml"
  {
    assert Lower("Python") == "python";
    PythonMissesEarlyRows();
    PythonMatchesMlRow();
    FirstMatchAt(CATEGORIES, "python", 3);
  }

  /** When rows before `n` miss and row `n` matches, row `n` is the answer. */
  lemma {:induction false} FirstMatchAt(table: seq<CategoryEntry>, lowered: string, n: nat)
    requires n < |table|
    requires forall r :: 0 <= r < n ==> !SomeKeywordIn(lowered, table[r].keywords)
    requires SomeKeywordIn(lowered, table[n].keywords)
    ensures FirstMatch(table, lowered) == table[n].name
  {
    if n > 0 {
      assert !SomeKeywordIn(lowered, table[0].keywords);
      FirstMatchAt(table[1..], lowered, n - 1);
    }
  }

  /** Only the ASCII-lowered text matters: spellings that differ in case get the same category. */
  lemma ClassifyIgnoresCase(a: string, b: string)
    requires SameIgnoringCase(a, b)
    ensures Classify(a) == Classify(b)
  {
    assert Lower(a) == Lower(b);
  }

  /** Every category the classifier returns is a key of the colour table. */
  lemma {:induction false} FirstMatchIsNamedRow(table: seq<CategoryEntry>, lowered: string)
    ensures FirstMatch(table, lowered) == OTHER ||
      exists i :: 0 <= i < |table| && table[i].name == FirstMatch(table, lowered)
  {
    if table != [] && !SomeKeywordIn(lowered, table[0].keywords) {
      FirstMatchIsNamedRow(table[1..], lowered);
      if FirstMatch(table[1..], lowered) != OTHER {
        var i :| 0 <= i < |table[1..]| && table[1..][i].name == FirstMatch(table[1..], lowered);
        assert table[i + 1].name == FirstMatch(table, lowered);
      }
    } else if table != [] {
      assert table[0].name == FirstMatch(table, lowered);
    }
  }

  /**
   * `getCategoryColor(categorizeTech(t))` is always the colour of the technology's own category,
   * one of the nine table values, and the fallback colour only when the category is "other".
   */
  lemma ColorOfClassified(tech: string)
    ensures Classify(tech) in COLORS
    ensures GetCategoryColor(Classify(tech)) == COLORS[Classify(tech)]
    ensures GetCategoryColor(Classify(tech)) == COLORS[OTHER] <==> Classify(tech) == OTHER
  {
    FirstMatchIsNamedRow(CATEGORIES, Lower(tech));
  }

  /** The props `ProjectsSection` hands to the popup. */
  datatype PopupProps = PopupProps(
    open: bool,
    title: string,
    image: string,
    link: Option<string>,
    bigDescription: seq<string>,
    technologies: seq<string>)

  /** What the open popup shows, top to bottom. */
  datatype ProjectView = ProjectView(
    image: string,
    zoomed: bool,
    title: string,
    overview: seq<string>,
    technologies: seq<string>,
    githubLink: Option<string>)

  /**
   * The popup's markup: nothing while it is closed; otherwise the image (zoomed when
   * `imageExpanded`), the title, every overview point and every technology in order, and the
   * GitHub button only when `link` is a non-empty string.
   */
  function Render(props: PopupProps, imageExpanded: bool): (view: Option<ProjectView>)
    ensures view.None? <==> !props.open
    ensures view.Some? ==>
      view.value.overview == props.bigDescription &&
      view.value.technologies == props.technologies &&
      view.value.zoomed == imageExpanded
    ensures view.Some? ==>
      (view.value.githubLink.Some? <==> props.link.Some? && props.link.value != "")
    ensures view.Some? && view.value.githubLink.Some? ==> view.value.githubLink == props.link
  {
    if !props.open then None
    else
      Some(ProjectView(props.image, imageExpanded, props.title, props.bigDescription,
                       props.technologies, ShownIfNonEmpty(props.link)))
  }
}
