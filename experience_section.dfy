/**
 * The experience section: the list of positions, the logo box on each card
 * (the entry's logo, or the company's initials when there is none) and what
 * the detail popup shows. The section's selection and the popup's scroll lock
 * are a `Selection.RecordPopup<Experience>`.
 */
module ExperienceSection {
  import opened Wrappers
  import opened Text
  import opened Selection

  /** One position held. `kind` is the employment type (internship, part-time, ...). */
  datatype Experience = Experience(
    company: string,
    role: string,
    period: string,
    location: string,
    kind: string,
    mode: string,
    logo: string,
    description: seq<string>,
    skills: seq<string>)

  const FOUNDRY_DIGITAL: Experience := Experience(
    "Foundry Digital",
    "Software Engineer (Data)",
    "May 2024 – Dec 2024",
    "Rochester, New York",
    "Internship",
    "Hybrid",
    "/assets/foundrydigital.png",
    [
      "Built a ETL pipeline to extract blockchain transaction data from public S3, transformed key metrics (gas & tokens burnt), and staged outputs as parquet files in a private S3 before integrating for Snowflake Analytics.",
      "Deployed the pipeline via Docker & Kubernetes, built & tested on dev environment using Prefect, whilst ensuring secure data movement between S3 buckets using multi-authenticated IAM based AWS sessions.",
      "Simulated data ingestion workflows using Google BigQuery to prototype data extraction and transformation (ETL) and developed interactive dashboards to visualize transactional metrics for stakeholder insight and validation."
    ],
    [
      "ETL",
      "AWS",
      "Docker",
      "Kubernetes",
      "Snowflake",
      "BigQuery"
    ])

  const BOSCH: Experience := Experience(
    "Bosch Global Software Technologies",
    "Data Analyst Intern",
    "Jan 2023 – May 2023",
    "Coimbatore, Tamil Nadu, India",
    "Internship",
    "On-site",
    "/assets/bosch.png",
    [
      "Extracted and transformed key sales KPIs from four Data Warehouse layers with a database schema supported by SAP BW on HANA, contributing to performance optimization of the order-to-cash (O2C) pipeline across logistics and sales.",
      "Automated reporting workflows and scheduled cron jobs for historical trend analysis using SQL, Python (Pandas), and Amazon EventBridge, enabling real-time visibility through Airflow-triggered refreshes.",
      "Designed interactive, real-time Power BI dashboards for S&P and Logistics teams to guide operational strategy decisions"
    ],
    [
      "SQL",
      "Python",
      "Pandas",
      "SAP BW",
      "Power BI",
      "AWS EventBridge"
    ])

  const SAMSUNG: Experience := Experience(
    "Samsung R&D Institute India",
    "Data Analyst Intern",
    "Nov 2021 – Jan 2023",
    "Bengaluru, Karnataka, India",
    "Part-time",
    "Remote",
    "/assets/samsung.png",
    [
      "Developed a video data pipeline for license plate recognition using Python, OpenCV, and Tesseract, enabling automated extraction of text from real-world video streams.",
      "Improved text localization and tracking by integrating EAST and CRAFT models, achieving accuracy of 62.3% and precision of 57.2% across varied video conditions."
    ],
    [
      "Python",
      "OpenCV",
      "Computer Vision",
      "Machine Learning",
      "Tesseract"
    ])

  const TECHNOCOLABS: Experience := Experience(
    "Technocolabs Softwares",
    "Data Science Intern",
    "Jun 2021 – Jul 2021",
    "Remote",
    "Internship",
    "Remote",
    "/assets/technocolabs.png",
    [
      "Collaborated with a team to develop and deploy an end-to-end ML pipeline for predicting stock price movements using historical trading data.",
      "Handled data collection, preprocessing, feature engineering, and model training using Python and Scikit-learn, improving prediction accuracy through iterative tuning.",
      "Gained hands-on experience with version control, model deployment strategies, and real-world teamwork across the full data science lifecycle."
    ],
    [
      "Python",
      "Machine Learning",
      "Scikit-learn",
      "Data Science",
      "Git"
    ])

  const IQUBE: Experience := Experience(
    "iQube - Innovation Center",
    "Level III Member Trainee",
    "Aug 2020 – Dec 2022",
    "Coimbatore, Tamil Nadu, India",
    "Apprenticeship",
    "On-site",
    "/assets/iqube.png",
    [
      "Built and deployed machine learning models (avg. 94% accuracy) for applications including early-stage crop disease detection using computer vision with camera feeds.",
      "Led a team in multiple ML and robotics-based R&D initiatives; mentored junior members, represented iQube at national hackathons, and participated in stakeholder review meetings.",
      "Engineered a robotic arm system for pick-and-place tasks using ROS and a vacuum-based 4-DOF mechanism, reducing system complexity and cost.",
      "Integrated real-time vision data with ROS pipelines using Lidar and OpenCV to power autonomous movement for 3D object handling.",
      "Researched and benchmarked open-source systems like OpenPnP and LitePlacer to design a low-cost, modular prototype assembly system."
    ],
    [
      "Machine Learning",
      "Computer Vision",
      "ROS",
      "OpenCV",
      "Team Leadership",
      "Project Management"
    ])

  const EXPERIENCES: seq<Experience> := [FOUNDRY_DIGITAL, BOSCH, SAMSUNG, TECHNOCOLABS, IQUBE]

  // ---------------------------------------------------------------------------
  // Logo lookup
  // ---------------------------------------------------------------------------

  /** Entry `i` is the first one for `company`. */
  predicate FirstForCompany(exps: seq<Experience>, company: string, i: int) {
    0 <= i < |exps| && exps[i].company == company &&
    forall j :: 0 <= j < i ==> exps[j].company != company
  }

  /** `EXPERIENCES.find(exp => exp.company === company)` */
  function FindByCompany(exps: seq<Experience>, company: string): (found: Option<Experience>)
    ensures found.None? <==> forall i :: 0 <= i < |exps| ==> exps[i].company != company
    ensures found.Some? ==> found.value in exps && found.value.company == company
  {
    if exps == [] then None
    else if exps[0].company == company then Some(exps[0])
    else FindByCompany(exps[1..], company)
  }

  /** The entry found is the first one for the company. */
  lemma {:induction false} FindIsFirst(exps: seq<Experience>, company: string)
    ensures forall i :: FirstForCompany(exps, company, i) ==> FindByCompany(exps, company) == Some(exps[i])
  {
    if exps != [] && exps[0].company != company {
      FindIsFirst(exps[1..], company);
      forall i | FirstForCompany(exps, company, i)
        ensures FindByCompany(exps, company) == Some(exps[i])
      {
        assert FirstForCompany(exps[1..], company, i - 1);
      }
    }
  }

  /** What the logo box holds. */
  datatype Placeholder = Logo(src: string) | Initials(text: string)

  /** `LogoPlaceholder` over a list of entries: the logo when the entry exists and has one. */
  function PlaceholderIn(exps: seq<Experience>, company: string): (box: Placeholder)
    ensures box.Logo? <==> exists i :: FirstForCompany(exps, company, i) && exps[i].logo != ""
    ensures box.Logo? ==> exists i :: FirstForCompany(exps, company, i) && box.src == exps[i].logo
    ensures box.Initials? ==> box.text == InitialsOf(company)
  {
    FindIsFirst(exps, company);
    FindExistsFirst(exps, company);
    match FindByCompany(exps, company)
    case Some(e) => if e.logo != "" then Logo(e.logo) else Initials(InitialsOf(company))
    case None => Initials(InitialsOf(company))
  }

  /** Whenever some entry has the company, a first one does. */
  lemma {:induction false} FindExistsFirst(exps: seq<Experience>, company: string)
    ensures FindByCompany(exps, company).Some? ==> exists i :: FirstForCompany(exps, company, i)
  {
    if exps != [] && exps[0].company != company {
      FindExistsFirst(exps[1..], company);
      if FindByCompany(exps, company).Some? {
        var i :| FirstForCompany(exps[1..], company, i);
        assert FirstForCompany(exps, company, i + 1);
      }
    } else if exps != [] {
      assert FirstForCompany(exps, company, 0);
    }
  }

  function LogoPlaceholder(company: string): Placeholder {
    PlaceholderIn(EXPERIENCES, company)
  }

  // ---------------------------------------------------------------------------
  // Initials
  // ---------------------------------------------------------------------------

  /**
   * `.map(word => word[0]).join('')`: an empty word has no first character and
   * contributes nothing to the join.
   */
  function FirstChars(words: seq<string>): (r: string)
    ensures |r| <= |words|
  {
    if words == [] then ""
    else (if words[0] == "" then "" else [words[0][0]]) + FirstChars(words[1..])
  }

  /** `company.split(' ').map(word => word[0]).join('').toUpperCase().slice(0, 2)` */
  function InitialsOf(company: string): string {
    Take(Upper(FirstChars(SplitOnSpace(company))), 2)
  }

  /**
   * The characters of `s` that start a word: non-space characters at the
   * start of `s` (when `afterSpace` holds) or right after a space.
   */
  function StartsFrom(s: string, afterSpace: bool): string {
    if s == [] then ""
    else if s[0] == ' ' then StartsFrom(s[1..], true)
    else (if afterSpace then [s[0]] else "") + StartsFrom(s[1..], false)
  }

  function WordStarts(s: string): string {
    StartsFrom(s, true)
  }

  /**
   * The first characters of the split's pieces are the word starts; the
   * pieces after the first give the word starts of the text after the first
   * word.
   */
  lemma {:induction false} FirstCharsOfSplit(s: string)
    ensures FirstChars(SplitOnSpace(s)) == StartsFrom(s, true)
    ensures FirstChars(SplitOnSpace(s)[1..]) == StartsFrom(s, false)
  {
    if s == [] {
      assert SplitOnSpace(s)[1..] == [];
    } else if s[0] == ' ' {
      FirstCharsOfSplit(s[1..]);
      assert ([""] + SplitOnSpace(s[1..]))[1..] == SplitOnSpace(s[1..]);
    } else {
      FirstCharsOfSplit(s[1..]);
      var rest := SplitOnSpace(s[1..]);
      var pieces := [[s[0]] + rest[0]] + rest[1..];
      assert pieces[1..] == rest[1..];
    }
  }

  /**
   * The initials are the upper-cased word starts, at most two of them; runs
   * of spaces give empty words, which add nothing.
   */
  lemma InitialsAreWordStarts(company: string)
    ensures InitialsOf(company) == Take(Upper(WordStarts(company)), 2)
    ensures |InitialsOf(company)| <= 2
    ensures |InitialsOf(company)| == if |WordStarts(company)| < 2 then |WordStarts(company)| else 2
  {
    FirstCharsOfSplit(company);
  }

  /** A second space changes no word start. */
  lemma {:induction false} DoubleSpaceIgnored(a: string, b: string, afterSpace: bool)
    ensures StartsFrom(a + "  " + b, afterSpace) == StartsFrom(a + " " + b, afterSpace)
  {
    if a == [] {
      assert (a + "  " + b)[1..] == " " + b;
      assert (" " + b)[1..] == b;
      assert a + " " + b == " " + b;
    } else {
      assert (a + "  " + b)[1..] == a[1..] + "  " + b;
      assert (a + " " + b)[1..] == a[1..] + " " + b;
      DoubleSpaceIgnored(a[1..], b, a[0] == ' ');
    }
  }

  /** The empty word between two adjacent spaces adds nothing to the initials. */
  lemma DoubleSpaceInitials(a: string, b: string)
    ensures InitialsOf(a + "  " + b) == InitialsOf(a + " " + b)
  {
    DoubleSpaceIgnored(a, b, true);
    InitialsAreWordStarts(a + "  " + b);
    InitialsAreWordStarts(a + " " + b);
  }

  /** A word without spaces contributes its first character exactly when it starts after a space. */
  lemma {:induction false} StartsFromWord(w: string, rest: string, afterSpace: bool)
    requires w != [] && ' ' !in w
    ensures StartsFrom(w + rest, afterSpace) == (if afterSpace then [w[0]] else "") + StartsFrom(rest, false)
  {
    assert (w + rest)[1..] == w[1..] + rest;
    if |w| > 1 {
      StartsFromWord(w[1..], rest, false);
    } else {
      assert w[1..] + rest == rest;
    }
  }

  /**
   * A name whose first two words are `first` and `second` (any characters
   * but a space, a hyphen included) has their first characters, upper-cased,
   * as initials, whatever follows.
   */
  lemma TwoWordInitials(first: string, second: string, rest: string)
    requires first != [] && ' ' !in first
    requires second != [] && ' ' !in second
    ensures InitialsOf(first + " " + second + rest) == [UpperChar(first[0]), UpperChar(second[0])]
  {
    var name := first + " " + second + rest;
    assert name == first + (" " + (second + rest));
    StartsFromWord(first, " " + (second + rest), true);
    assert (" " + (second + rest))[1..] == second + rest;
    StartsFromWord(second, rest, true);
    InitialsAreWordStarts(name);
  }

  // ---------------------------------------------------------------------------
  // The cards always find their own logo
  // ---------------------------------------------------------------------------

  predicate CompaniesDistinct(exps: seq<Experience>) {
    forall i, j :: 0 <= i < j < |exps| ==> exps[i].company != exps[j].company
  }

  /** With distinct companies, each entry is the first one for its own company. */
  lemma OwnEntryIsFirst(exps: seq<Experience>, i: int)
    requires CompaniesDistinct(exps) && 0 <= i < |exps|
    ensures FirstForCompany(exps, exps[i].company, i)
  {
  }

  lemma ExperienceCompaniesDistinct()
    ensures CompaniesDistinct(EXPERIENCES)
  {
  }

  lemma ExperienceLogosPresent()
    ensures forall i :: 0 <= i < |EXPERIENCES| ==> EXPERIENCES[i].logo != ""
  {
  }

  /** Every card passes its own company, so every card shows its entry's logo and never initials. */
  lemma {:induction false} EveryCardShowsItsLogo(i: int)
    requires 0 <= i < |EXPERIENCES|
    ensures LogoPlaceholder(EXPERIENCES[i].company) == Logo(EXPERIENCES[i].logo)
  {
    ExperienceCompaniesDistinct();
    ExperienceLogosPresent();
    OwnEntryIsFirst(EXPERIENCES, i);
    FindIsFirst(EXPERIENCES, EXPERIENCES[i].company);
  }

  // ---------------------------------------------------------------------------
  // The popup
  // ---------------------------------------------------------------------------

  /** What the open popup shows, top to bottom. */
  datatype ExperienceView = ExperienceView(
    logo: string,
    company: string,
    role: string,
    period: string,
    location: string,
    mode: string,
    achievements: seq<string>,
    skills: seq<string>)

  /** `ExperiencePopup`: nothing without a record; otherwise its fields, the lists in order. */
  function Render(experience: Option<Experience>): (view: Option<ExperienceView>)
    ensures view.None? <==> experience.None?
    ensures view.Some? ==> view.value.achievements == experience.value.description
    ensures view.Some? ==> view.value.skills == experience.value.skills
    ensures view.Some? ==> view.value.company == experience.value.company && view.value.logo == experience.value.logo
  {
    match experience
    case None => None
    case Some(e) => Some(ExperienceView(e.logo, e.company, e.role, e.period, e.location, e.mode, e.description, e.skills))
  }

  // ---------------------------------------------------------------------------
  // The section's selection
  // ---------------------------------------------------------------------------

  /** A card click: the experience becomes the selection, and the popup shows that experience. */
  method ClickCard(section: RecordPopup<Experience>, experience: Experience)
    requires section.Valid()
    modifies section, section.body
    ensures section.Valid() && section.selected == Some(experience)
    ensures Render(section.selected).Some?
    ensures Render(section.selected).value.achievements == experience.description
    ensures Render(section.selected).value.skills == experience.skills
    ensures old(section.selected).None? ==>
      section.body.position == "fixed" && section.savedOffset == old(section.body.windowScrollY)
  {
    section.Select(experience);
  }

  /** `onClose`: the popup renders nothing, and the page is back at the offset captured on opening. */
  method ClosePopup(section: RecordPopup<Experience>)
    requires section.Valid()
    modifies section, section.body
    ensures section.Valid() && Render(section.selected) == None
    ensures old(section.selected).Some? ==>
      section.body.windowScrollY == old(section.savedOffset) && section.body.State().Unstyled()
  {
    section.Close();
  }
}
