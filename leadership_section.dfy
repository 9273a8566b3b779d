/**
 * The leadership section: the awards grid, the leadership role cards, and
 * what the role popup shows. The section's selection and the popup's scroll
 * lock are a `Selection.RecordPopup<LeadershipRole>`.
 */
module LeadershipSection {
  import opened Wrappers
  import opened Text
  import opened Selection

  /** One leadership role. */
  datatype LeadershipRole = LeadershipRole(
    organization: string,
    role: string,
    period: string,
    location: string,
    logo: string,
    image: string,
    description: seq<string>,
    skills: seq<string>)

  /** One award; its description is optional. */
  datatype Award = Award(title: string, issuedBy: string, date: string, description: Option<string>)

  const ISS_RIT: LeadershipRole := LeadershipRole(
    "International Student Services - RIT",
    "Orientation Assistant & Head of Peer Advisor Leaders (PALs)",
    "May 2025 - Present",
    "Rochester, NY",
    "/assets/orientation.png",
    "/assets/orientation.png",
    [
      "Led cross-functional communication between PALs and ISS Advisors to coordinate onboarding for hundreds of international students.",
      "Supervised a team of Peer Advisor Leaders, creating structured communication flows and support systems that scaled across diverse student cohorts.",
      "Streamlined orientation operations, acting as the bridge between student expectations and administrative logistics — similar to managing a product onboarding pipeline.",
      "Designed and iterated on the international student journey map, identifying touchpoints and feedback loops to improve user experience from pre-arrival through orientation."
    ],
    [
      "Leadership",
      "Cross-functional Communication",
      "Process Optimization",
      "Team Management",
      "User Experience"
    ])

  const SAUNDERS: LeadershipRole := LeadershipRole(
    "Saunders College of Business, RIT",
    "Graduate Assistant – Competitive Sustainability Center",
    "Jan 2025 - May 2025",
    "Rochester, NY",
    "/assets/saunders.png",
    "/assets/saunders.png",
    [
      "Led cross-functional sustainability initiatives, aligning student engagement, research, and outreach to support the growth of circular economy solutions on campus.",
      "Developed and refined training workflows to help scale sustainability education, using student feedback and impact metrics to iterate on content and delivery.",
      "Collaborated with faculty and peer teams to launch a student-led sustainability club, focusing on systems thinking and entrepreneurship through data-informed projects.",
      "Championed ecosystem mapping and stakeholder alignment, bridging gaps between academia, industry, and students to pilot sustainability-focused programs with measurable outcomes."
    ],
    [
      "Program Management",
      "Stakeholder Management",
      "Data Analysis",
      "Training & Development",
      "Sustainability"
    ])

  const SHEFI: LeadershipRole := LeadershipRole(
    "SheFi",
    "SheFi Scholar – Season 12",
    "Jan 2024 - Present",
    "Remote",
    "/assets/shefi.png",
    "/assets/shefi.png",
    [
      "Selected for an 8-week intensive Web3 training program focused on financial empowerment and inclusive technology design.",
      "Gained hands-on exposure to DeFi protocols, tokenomics, and smart contract systems through a product-led lens.",
      "Participated in collaborative sessions and expert-led discussions to explore how blockchain solutions can center real user needs.",
      "Developed a product mindset rooted in equity, user-centricity, and future-facing tech innovation."
    ],
    [
      "Web3",
      "DeFi",
      "Product Thinking",
      "Blockchain",
      "Financial Innovation"
    ])

  const KUMARAGURU_PRESIDENT: LeadershipRole := LeadershipRole(
    "Kumaraguru College of Technology",
    "President – Department Association of Computer Science",
    "2022 - 2023",
    "Coimbatore, India",
    "/assets/president.png",
    "/assets/president.png",
    [
      "Led a 60-member student organization, aligning student goals with institutional initiatives through strategic communication with faculty and administration.",
      "Orchestrated department-wide programs, mentorship initiatives, and industry-aligned events to support student growth and readiness.",
      "Acted as a student voice in the Leadership Council, advocating for experience design improvements in academic and placement processes.",
      "Managed logistics, content, and stakeholder engagement for the department's flagship festival, applying leadership like a cross-functional product team lead."
    ],
    [
      "Team Leadership",
      "Event Management",
      "Strategic Planning",
      "Student Advocacy",
      "Program Coordination"
    ])

  const YOUNG_INDIANS: LeadershipRole := LeadershipRole(
    "Young Indians",
    "Co-Lead (Innovation) – Yuva",
    "2021 - 2023",
    "Coimbatore, India",
    "/assets/yuva.png",
    "/assets/yuva.png",
    [
      "Directed innovation-focused youth programming, designing events and speaker series with real-world application and engagement.",
      "Led the flagship IIYC event by curating content, coordinating guest participation, and shaping the overall attendee experience.",
      "Collaborated across teams to identify member needs and build programs that delivered value — like product ideation backed by user research.",
      "Inspired student entrepreneurs and changemakers by embedding creativity, feedback loops, and community storytelling into every initiative."
    ],
    [
      "Innovation Leadership",
      "Event Planning",
      "Content Curation",
      "Community Building",
      "Program Design"
    ])

  const LEADERSHIP_ROLES: seq<LeadershipRole> := [ISS_RIT, SAUNDERS, SHEFI, KUMARAGURU_PRESIDENT, YOUNG_INDIANS]

  const AWARDS: seq<Award> := [
    Award(
      "Debbie Cahn Memorial Scholarship",
      "iSchool – Rochester Institute of Technology",
      "April 2025",
      Some("Received for academic excellence and outstanding service to the student community through mentorship, peer support, and leadership as part of the MS ITA program at RIT.")),
    Award(
      "ALL ROUNDER PERFORMER - UG",
      "KUMARAGURU COLLEGE OF TECHNOLOGY",
      "Apr 2023",
      Some("Recognized as the top performer of my 2019–2023 batch for consistent excellence across academics, leadership, and innovation.")),
    Award(
      "BEST VOLUNTEER",
      "KUMARAGURU COLLEGE OF TECHNOLOGY",
      "Apr 2023",
      Some("Honored for 3 years of active contribution to the Department Association — leading workshops, hosting Yugam, and coordinating national events.")),
    Award(
      "Paper Presentation - ICAIC'22",
      "Kumaraguru College Of Technology",
      "May 2022",
      Some("Presented my research on 'Virtual Writing through Air' at an international AI & Cybersecurity conference.")),
    Award(
      "Finalists - Accenture AI Hackathon",
      "Accenture",
      "Aug 2021",
      Some("Selected by Accenture leadership to showcase our face mask detection model during the COVID era — placed 3rd nationwide.")),
    Award(
      "The top 5 finalists in SLAC (Stay Late and Code) 2020 Hackathon",
      "Amrita Vishwa Vidyapeetham, Bangalore",
      "Nov 2020",
      Some("Secured 2nd place with team Bug Hackers in a 48-hour hackathon building real-world tech under pressure."))
  ]

  // ---------------------------------------------------------------------------
  // Awards
  // ---------------------------------------------------------------------------

  /** One award card: title, issuer, date, and the italic description line when there is one. */
  datatype AwardCard = AwardCard(title: string, issuedBy: string, date: string, descriptionLine: Option<string>)

  function RenderAward(award: Award): (card: AwardCard)
    ensures card.title == award.title && card.issuedBy == award.issuedBy && card.date == award.date
    ensures card.descriptionLine.Some? <==> award.description.Some? && award.description.value != ""
    ensures card.descriptionLine.Some? ==> card.descriptionLine.value == award.description.value
  {
    AwardCard(award.title, award.issuedBy, award.date, ShownIfNonEmpty(award.description))
  }

  /** The awards grid: one card per award, in order. */
  function AwardCards(awards: seq<Award>): (cards: seq<AwardCard>)
    ensures |cards| == |awards|
    ensures forall i :: 0 <= i < |awards| ==> cards[i] == RenderAward(awards[i])
  {
    if awards == [] then [] else [RenderAward(awards[0])] + AwardCards(awards[1..])
  }

  /** Every award on the page has a description, so every card shows its description line. */
  lemma EveryAwardShowsDescription()
    ensures forall i :: 0 <= i < |AWARDS| ==>
      AwardCards(AWARDS)[i].descriptionLine == AWARDS[i].description && AWARDS[i].description.Some?
  {
    forall i | 0 <= i < |AWARDS|
      ensures AWARDS[i].description.Some? && AWARDS[i].description.value != ""
    {
    }
  }

  // ---------------------------------------------------------------------------
  // The role popup
  // ---------------------------------------------------------------------------

  /** What the open popup shows, top to bottom. */
  datatype RoleView = RoleView(
    image: string,
    organization: string,
    role: string,
    period: string,
    location: string,
    responsibilities: seq<string>,
    skills: seq<string>)

  /** `LeadershipPopup`: nothing without a role; otherwise its fields, the lists in order. */
  function Render(role: Option<LeadershipRole>): (view: Option<RoleView>)
    ensures view.None? <==> role.None?
    ensures view.Some? ==> view.value.responsibilities == role.value.description
    ensures view.Some? ==> view.value.skills == role.value.skills
    ensures view.Some? ==> view.value.organization == role.value.organization && view.value.image == role.value.image
  {
    match role
    case None => None
    case Some(r) => Some(RoleView(r.image, r.organization, r.role, r.period, r.location, r.description, r.skills))
  }

  // ---------------------------------------------------------------------------
  // The section's selection
  // ---------------------------------------------------------------------------

  /** A card click: the role becomes the selection, and the popup shows that role. */
  method ClickCard(section: RecordPopup<LeadershipRole>, role: LeadershipRole)
    requires section.Valid()
    modifies section, section.body
    ensures section.Valid() && section.selected == Some(role)
    ensures Render(section.selected).Some?
    ensures Render(section.selected).value.responsibilities == role.description
    ensures Render(section.selected).value.skills == role.skills
    ensures old(section.selected).None? ==>
      section.body.position == "fixed" && section.savedOffset == old(section.body.windowScrollY)
  {
    section.Select(role);
  }

  /** `onClose`: the popup renders nothing, and the page is back at the offset captured on opening. */
  method ClosePopup(section: RecordPopup<LeadershipRole>)
    requires section.Valid()
    modifies section, section.body
    ensures section.Valid() && Render(section.selected) == None
    ensures old(section.selected).Some? ==>
      section.body.windowScrollY == old(section.savedOffset) && section.body.State().Unstyled()
  {
    section.Close();
  }
}
