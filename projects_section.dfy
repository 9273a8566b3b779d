/**
 * The projects section: the static project list, the category filter tabs, the three-row card
 * grid, and the section's state (selected project, active filter, and the always-mounted
 * popup's image zoom) together with the popup's scroll lock.
 */
module ProjectsSection {
  import opened Wrappers
  import opened Decimal
  import opened ScrollLock
  import opened Overlay
  import opened ProjectPopup

  /** The filter tabs; `All` means no filter. */
  datatype Category = All | AiMl | FullStack | Data | Sql {
    /** The tab's label, which is also the category name in the data. */
    function Label(): string {
      match this
      case All => "All"
      case AiMl => "AI/ML"
      case FullStack => "Full Stack"
      case Data => "Data"
      case Sql => "SQL"
    }
  }

  /** The tabs in display order. */
  const TABS: seq<Category> := [All, AiMl, FullStack, Data, Sql]

  datatype Project = Project(
    title: string,
    description: string,
    image: string,
    link: string,
    bigDescription: seq<string>,
    technologies: seq<string>,
    categories: seq<Category>)

  const BREVITY_CLOUD: Project := Project(
    "BrevityCloud – AI Powered Chrome Extension",
    "AI summarization and intelligent content understanding for any webpage.",
    "/assets/brevitycloud.png",
    "https://github.com/The-Brevity-Cloud/term-project-team4-brevitycloud",
    [
      "Built a Chrome Extension that performs real-time summarization, Q&A, and image analysis on webpages using AWS AI services.",
      "Integrated AWS Bedrock (Claude), Amazon Kendra, and Rekognition for intelligent content extraction.",
      "Implemented user authentication with Cognito; secure backend via API Gateway + Lambda (Python).",
      "Used Terraform for Infrastructure as Code and GitHub Actions for automated CI/CD.",
      "Designed a fully serverless, event-driven architecture with S3, DynamoDB, and modular microservices."
    ],
    ["AWS", "Python", "Lambda", "Terraform", "Kendra", "Rekognition", "Cognito"],
    [AiMl, FullStack])

  const QUERY_EASE: Project := Project(
    "QueryEase – Natural Language to SQL using LlamaIndex",
    "Talk to your database using plain English.",
    "/assets/queryease.png",
    "https://github.com/swetha2507/QueryEase",
    [
      "Developed an NLP-powered interface using LlamaIndex to translate natural language into SQL.",
      "Enabled non-technical users to query structured databases with ease.",
      "Applied prompt engineering to improve SQL generation accuracy and contextual understanding.",
      "Reduced manual effort and improved data accessibility for business users."
    ],
    ["LlamaIndex", "SQL", "NLP", "Python"],
    [AiMl, Sql])

  const EIBP: Project := Project(
    "Expedited Internet Bypass Protocol (EIBP)",
    "High-performance routing protocol for faster Internet traffic.",
    "/assets/eibp.png",
    "https://github.com/swetha2507/EIBP",
    [
      "Designed a custom Layer 2.5 protocol in C for optimized domain-based routing.",
      "Achieved 45% improvement over OSPF in routing speed and efficiency.",
      "Deployed and benchmarked on FABRIC testbed with automated Python evaluation framework.",
      "Engineered a hierarchical index-based routing model for scalable path resolution."
    ],
    ["C", "Python", "Networking", "Fabric Testbed"],
    [FullStack])

  const STREAM_FLIX: Project := Project(
    "StreamFlix – Streaming Trends Dashboard",
    "Visual insights into binge-worthy streaming content.",
    "/assets/streamflix.png",
    "https://github.com/swetha2507/streaming-analytics-project",
    [
      "Pulled and processed metadata from TMDB API using Python + Pandas.",
      "Analyzed genre, runtime, and platform trends across top streaming titles.",
      "Built visualizations using Matplotlib and Seaborn to highlight viewer engagement drivers."
    ],
    ["Python", "Pandas", "Seaborn", "Matplotlib", "TMDB API"],
    [Data])

  const RETAIL_WORKER: Project := Project(
    "Retail Worker Demand Forecaster",
    "ML-powered workforce forecasting for retail.",
    "/assets/retail-worker.png",
    "https://github.com/swetha2507/retail-worker-demand-forecaster",
    [
      "Trained XGBoost regression models to forecast daily staffing needs using sales, promos, and weather data.",
      "Performed feature engineering, including time flags, weather conditions, and holiday effects.",
      "Developed an interactive Streamlit dashboard with metrics like RMSE, MAE, R² for model evaluation.",
      "Delivered a scalable forecasting tool to optimize labor planning in retail."
    ],
    ["Python", "XGBoost", "Streamlit", "Pandas", "Data Visualization"],
    [AiMl, Data])

  const BRAZILIAN_ECOMMERCE: Project := Project(
    "Brazilian E-Commerce SQL Analysis",
    "SQL-based customer and sales insights from e-commerce data.",
    "/assets/brazilian.png",
    "https://github.com/swetha2507/brazilian-ecommerce-sql",
    [
      "Analyzed the Olist e-commerce dataset using SQL (SQLite) and Python.",
      "Answered key business questions around delivery delays, payment methods, and seller performance.",
      "Built clean SQL queries and visual dashboards to support decision-making."
    ],
    ["SQL", "SQLite", "Python", "Pandas"],
    [Data, Sql])

  const STOCK_PRICE: Project := Project(
    "Stock Price Movement Prediction",
    "Predicting market behavior using machine learning.",
    "/assets/stock.png",
    "https://github.com/swetha2507/Prediction-of-Stock-Price-Movement-based-on-trading-DS-II",
    [
      "Built and trained SVM, Linear, and Polynomial Regression models on historical stock data.",
      "Implemented data cleaning, normalization, and feature selection to improve accuracy.",
      "Visualized predictions and comparisons to actual trends for investment forecasting."
    ],
    ["Python", "SVM", "Regression", "Data Visualization"],
    [AiMl, Data])

  /** The projects in display order. */
  const PROJECTS: seq<Project> := [
    BREVITY_CLOUD,
    QUERY_EASE,
    EIBP,
    STREAM_FLIX,
    RETAIL_WORKER,
    BRAZILIAN_ECOMMERCE,
    STOCK_PRICE
  ]

  /** The filter's test: `activeFilter === 'All' || project.categories.includes(activeFilter)`. */
  predicate Shows(p: Project, filter: Category) {
    filter == All || filter in p.categories
  }

  /** `a` is `b` with some elements left out and the rest in their original order. */
  predicate IsSubsequence<T(==)>(a: seq<T>, b: seq<T>) {
    if a == [] then true
    else if b == [] then false
    else (a[0] == b[0] && IsSubsequence(a[1..], b[1..])) || IsSubsequence(a, b[1..])
  }

  /**
   * `PROJECTS.filter(...)`: exactly the projects the filter shows, in their original order;
   * with `All` the whole list.
   */
  function FilterProjects(projects: seq<Project>, filter: Category): (shown: seq<Project>)
    ensures filter == All ==> shown == projects
    ensures forall p :: p in shown ==> p in projects && Shows(p, filter)
    ensures forall p :: p in projects && Shows(p, filter) ==> p in shown
    ensures IsSubsequence(shown, projects)
  {
    if projects == [] then []
    else
      var rest := FilterProjects(projects[1..], filter);
      if Shows(projects[0], filter) then [projects[0]] + rest else rest
  }

  /**
   * Filtering keeps every shown project as often as it occurs in the list and drops every
   * other project entirely, so a repeated project is neither merged nor duplicated.
   */
  lemma {:induction false} FilterCounts(projects: seq<Project>, filter: Category, p: Project)
    ensures multiset(FilterProjects(projects, filter))[p]
            == if Shows(p, filter) then multiset(projects)[p] else 0
  {
    if projects != [] {
      FilterCounts(projects[1..], filter, p);
      assert projects == [projects[0]] + projects[1..];
    }
  }

  /** A subsequence is never longer than the sequence it is taken from. */
  lemma {:induction false} SubsequenceLength<T>(a: seq<T>, b: seq<T>)
    requires IsSubsequence(a, b)
    ensures |a| <= |b|
  {
    if a != [] {
      if a[0] == b[0] && IsSubsequence(a[1..], b[1..]) {
        SubsequenceLength(a[1..], b[1..]);
      } else {
        SubsequenceLength(a, b[1..]);
      }
    }
  }

  /** Filtering a concatenation filters each part. */
  lemma {:induction false} FilterAppend(a: seq<Project>, b: seq<Project>, filter: Category)
    ensures FilterProjects(a + b, filter) == FilterProjects(a, filter) + FilterProjects(b, filter)
  {
    if a == [] {
      assert a + b == b;
    } else {
      assert (a + b)[1..] == a[1..] + b;
      FilterAppend(a[1..], b, filter);
    }
  }

  /** A filter that shows none of the projects yields nothing. */
  lemma {:induction false} FilterNone(ps: seq<Project>, filter: Category)
    requires forall i :: 0 <= i < |ps| ==> !Shows(ps[i], filter)
    ensures FilterProjects(ps, filter) == []
  {
    if ps != [] {
      FilterNone(ps[1..], filter);
    }
  }

  /** A filter that shows every project keeps the list as it is. */
  lemma {:induction false} FilterAll(ps: seq<Project>, filter: Category)
    requires forall i :: 0 <= i < |ps| ==> Shows(ps[i], filter)
    ensures FilterProjects(ps, filter) == ps
  {
    if ps != [] {
      FilterAll(ps[1..], filter);
    }
  }

  /** The static list splits after its third project. */
  lemma ProjectsSplit()
    ensures PROJECTS == [BREVITY_CLOUD, QUERY_EASE, EIBP] +
      [STREAM_FLIX, RETAIL_WORKER, BRAZILIAN_ECOMMERCE, STOCK_PRICE]
  {
  }

  /** None of the first three projects is on the Data tab. */
  lemma DataTabSkipsHead()
    ensures FilterProjects([BREVITY_CLOUD, QUERY_EASE, EIBP], Data) == []
  {
    FilterNone([BREVITY_CLOUD, QUERY_EASE, EIBP], Data);
  }

  /** All of the last four projects are on the Data tab. */
  lemma DataTabKeepsTail()
    ensures FilterProjects([STREAM_FLIX, RETAIL_WORKER, BRAZILIAN_ECOMMERCE, STOCK_PRICE], Data) ==
      [STREAM_FLIX, RETAIL_WORKER, BRAZILIAN_ECOMMERCE, STOCK_PRICE]
  {
    FilterAll([STREAM_FLIX, RETAIL_WORKER, BRAZILIAN_ECOMMERCE, STOCK_PRICE], Data);
  }

  /** Over the static list, the Data tab shows StreamFlix, Retail Worker, Brazilian E-Commerce and Stock Price. */
  lemma DataTabProjects()
    ensures FilterProjects(PROJECTS, Data) ==
      [STREAM_FLIX, RETAIL_WORKER, BRAZILIAN_ECOMMERCE, STOCK_PRICE]
  {
    ProjectsSplit();
    FilterAppend([BREVITY_CLOUD, QUERY_EASE, EIBP],
      [STREAM_FLIX, RETAIL_WORKER, BRAZILIAN_ECOMMERCE, STOCK_PRICE], Data);
    DataTabSkipsHead();
    DataTabKeepsTail();
  }

  /** Over the static list, the Full Stack tab shows BrevityCloud and EIBP. */
  lemma FullStackTabProjects()
    ensures FilterProjects(PROJECTS, FullStack) == [BREVITY_CLOUD, EIBP]
  {
    var ps := PROJECTS;
    assert ps[6..] == [STOCK_PRICE];
    assert FilterProjects(ps[6..], FullStack) == [];
    assert ps[5..][1..] == ps[6..];
    assert FilterProjects(ps[5..], FullStack) == [];
    assert ps[4..][1..] == ps[5..];
    assert FilterProjects(ps[4..], FullStack) == [];
    assert ps[3..][1..] == ps[4..];
    assert FilterProjects(ps[3..], FullStack) == [];
    assert ps[2..][1..] == ps[3..];
    assert FilterProjects(ps[2..], FullStack) == [EIBP];
    assert ps[1..][1..] == ps[2..];
    assert FilterProjects(ps[1..], FullStack) == [EIBP];
  }

  /** `s.slice(start, end)`: JavaScript clamps both ends to the length. */
  function Slice<T>(s: seq<T>, start: nat, end: nat): (r: seq<T>)
    ensures |r| <= end - start || (end < start && r == [])
    ensures start < end && start < |s| ==> |r| == (if end < |s| then end else |s|) - start
    ensures end <= start || |s| <= start ==> r == []
    ensures forall i :: 0 <= i < |r| ==> start + i < |s| && r[i] == s[start + i]
  {
    var hi := if end < |s| then end else |s|;
    if start < hi then s[start..hi] else []
  }

  /** The card grid: `filtered[0..3)`, then `filtered[3..6)`, then a centred 7th card. */
  datatype Grid = Grid(firstRow: seq<Project>, secondRow: seq<Project>, centred: Option<Project>)

  function Layout(filtered: seq<Project>): Grid {
    Grid(Slice(filtered, 0, 3), Slice(filtered, 3, 6),
         if |filtered| == 7 then Some(filtered[6]) else None)
  }

  /** The cards the grid renders, in reading order. */
  function Cards(g: Grid): seq<Project> {
    g.firstRow + g.secondRow + (if g.centred.Some? then [g.centred.value] else [])
  }

  /**
   * Rows hold at most three cards; with at most seven projects every project is rendered exactly
   * once and in order, while a longer list would lose everything after the sixth card.
   */
  lemma LayoutShowsEachOnce(filtered: seq<Project>)
    ensures |Layout(filtered).firstRow| <= 3 && |Layout(filtered).secondRow| <= 3
    ensures |filtered| <= 7 ==> Cards(Layout(filtered)) == filtered
    ensures |filtered| > 7 ==> Cards(Layout(filtered)) == filtered[..6]
  {
    var n := |filtered|;
    if n <= 3 {
      assert Slice(filtered, 0, 3) == filtered;
    } else if n <= 6 {
      assert filtered == filtered[..3] + filtered[3..];
    } else if n == 7 {
      assert filtered == filtered[..3] + filtered[3..6] + [filtered[6]];
    } else {
      assert filtered[..6] == filtered[..3] + filtered[3..6];
    }
  }

  /** Whatever tab is active, the static list fits the grid, so every filtered project gets a card. */
  lemma EveryTabFitsGrid(filter: Category)
    ensures |FilterProjects(PROJECTS, filter)| <= 7
    ensures Cards(Layout(FilterProjects(PROJECTS, filter))) == FilterProjects(PROJECTS, filter)
  {
    SubsequenceLength(FilterProjects(PROJECTS, filter), PROJECTS);
    LayoutShowsEachOnce(FilterProjects(PROJECTS, filter));
  }

  /** The tabs drawn highlighted: those equal to the active filter (`activeFilter === category`). */
  function Highlighted(tabs: seq<Category>, active: Category): seq<Category> {
    if tabs == [] then []
    else (if tabs[0] == active then [tabs[0]] else []) + Highlighted(tabs[1..], active)
  }

  /** Every filter is one of the tabs and the tabs are distinct, so exactly one tab is highlighted. */
  lemma ExactlyOneTabHighlighted(active: Category)
    ensures Highlighted(TABS, active) == [active]
  {
    assert TABS[1..][1..][1..][1..] == [Sql];
  }

  /**
   * The props handed to the popup: `open` when a project is selected; otherwise `''` for the
   * title and image, no link, and `[]` for the description and technologies.
   */
  function PropsFor(selected: Option<Project>): (props: PopupProps)
    ensures props.open <==> selected.Some?
    ensures selected.None? ==>
      props.title == "" && props.image == "" && props.link == None &&
      props.bigDescription == [] && props.technologies == []
    ensures selected.Some? ==>
      props.title == selected.value.title && props.image == selected.value.image &&
      props.link == Some(selected.value.link) &&
      props.bigDescription == selected.value.bigDescription &&
      props.technologies == selected.value.technologies
  {
    match selected
    case None => PopupProps(false, "", "", None, [], [])
    case Some(p) => PopupProps(true, p.title, p.image, Some(p.link), p.bigDescription, p.technologies)
  }

  /**
   * The popup shows nothing without a selection; with one it shows that project's title,
   * overview points and technologies in order, and the GitHub button when its link is non-empty.
   */
  lemma PopupShowsSelection(selected: Option<Project>, imageExpanded: bool)
    ensures selected.None? ==> Render(PropsFor(selected), imageExpanded) == None
    ensures selected.Some? ==>
      Render(PropsFor(selected), imageExpanded) == Some(ProjectView(
        selected.value.image, imageExpanded, selected.value.title,
        selected.value.bigDescription, selected.value.technologies,
        if selected.value.link != "" then Some(selected.value.link) else None))
  {
  }

  /**
   * The section's state. `imageExpanded` belongs to the popup, which stays mounted (it renders
   * nothing while closed), so the zoom survives closing and reopening. The popup's scroll-lock
   * effect depends on `open` only.
   */
  class Section {
    var selected: Option<Project>
    var activeFilter: Category
    var imageExpanded: bool
    const body: Body
    /** The offset captured when the popup last opened. */
    ghost var savedOffset: nat

    /** The body is pinned exactly while the popup is open, and it holds the captured offset. */
    ghost predicate Valid()
      reads this, body
    {
      (selected.Some? <==> body.position == "fixed") &&
      (selected.Some? ==> body.scrollYData == Some(NatToString(savedOffset)))
    }

    constructor (body: Body)
      requires body.position == ""
      ensures Valid() && this.body == body
      ensures selected == None && activeFilter == All && !imageExpanded
    {
      this.body := body;
      selected := None;
      activeFilter := All;
      imageExpanded := false;
    }

    function Filtered(): seq<Project>
      reads this
    {
      FilterProjects(PROJECTS, activeFilter)
    }

    function Open(): bool
      reads this
    {
      selected.Some?
    }

    /** A tab click: `setActiveFilter(category)`. */
    method SelectTab(c: Category)
      modifies this`activeFilter
      ensures activeFilter == c
      ensures selected == old(selected) && imageExpanded == old(imageExpanded)
    {
      activeFilter := c;
    }

    /** A card click: `setSelectedProject(project)`, then the popup's effect if `open` changed. */
    method ClickCard(p: Project)
      requires Valid()
      modifies this, body
      ensures Valid()
      ensures selected == Some(p)
      ensures activeFilter == old(activeFilter) && imageExpanded == old(imageExpanded)
      ensures body.State() == AfterCommit(old(selected).None?, old(selected).Some?, true, old(body.State()))
      ensures old(selected).None? ==> savedOffset == old(body.windowScrollY)
    {
      var wasOpen := selected.Some?;
      selected := Some(p);
      body.Commit(!wasOpen, wasOpen, true);
      if !wasOpen {
        savedOffset := old(body.windowScrollY);
      }
    }

    /** `onClose`: `setSelectedProject(null)`, then the cleanup restores the captured offset. */
    method Close()
      requires Valid()
      modifies this, body
      ensures Valid()
      ensures selected == None
      ensures activeFilter == old(activeFilter) && imageExpanded == old(imageExpanded)
      ensures body.State() == AfterCommit(old(selected).Some?, old(selected).Some?, false, old(body.State()))
      ensures old(selected).Some? ==> body.windowScrollY == old(savedOffset) && body.State().Unstyled()
    {
      var wasOpen := selected.Some?;
      selected := None;
      body.Commit(wasOpen, wasOpen, false);
      if wasOpen {
        RestoreCaptured(savedOffset);
      }
    }

    /** A click on the popup image: `setImageExpanded(!imageExpanded)`. */
    method ToggleImage()
      modifies this`imageExpanded
      ensures imageExpanded == !old(imageExpanded)
      ensures selected == old(selected) && activeFilter == old(activeFilter)
    {
      imageExpanded := !imageExpanded;
    }

    /** A click inside the open popup, routed as the browser bubbles it. */
    method ClickPopup(t: ClickTarget)
      requires Valid() && selected.Some?
      modifies this, body
      ensures Valid()
      ensures ClosesPopup(t) ==> selected == None && body.windowScrollY == old(savedOffset)
      ensures ClosesPopup(t) ==> body.State().Unstyled()
      ensures !ClosesPopup(t) ==> selected == old(selected) && body.State() == old(body.State())
      ensures activeFilter == old(activeFilter)
      ensures imageExpanded == (if t.ZoomImage? then !old(imageExpanded) else old(imageExpanded))
    {
      ClickRouting(t);
      if ToggleZoom in Dispatch(Path(t)) {
        ToggleImage();
      }
      if ClosesPopup(t) {
        Close();
      }
    }
  }

  /** Zooming the image twice gives back the original zoom; a fresh section starts unzoomed. */
  method ToggleTwice(s: Section)
    modifies s`imageExpanded
    ensures s.imageExpanded == old(s.imageExpanded)
  {
    s.ToggleImage();
    s.ToggleImage();
  }
}
