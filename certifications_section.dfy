/**
 * The certifications section: the certificate cards and what the certificate
 * popup shows. The section's selection and the popup's scroll lock are a
 * `Selection.RecordPopup<Certificate>`.
 */
module CertificationsSection {
  import opened Wrappers
  import opened Text
  import opened Selection

  /** One certificate; the credential id and the skills list are optional. */
  datatype Certificate = Certificate(
    title: string,
    organization: string,
    issueDate: string,
    credentialId: Option<string>,
    credentialUrl: string,
    image: string,
    skills: Option<seq<string>>)

  const AZURE_FUNDAMENTALS: Certificate := Certificate(
    "Microsoft Certified: Azure Fundamentals",
    "Microsoft",
    "May 2025",
    Some("6C2F4B10117A6C37"),
    "https://learn.microsoft.com/en-us/users/swethasrinivasan-6908/credentials/6c2f4b10117a6c37",
    "/assets/azure.png",
    Some([
      "Azure",
      "Cloud Computing",
      "Cloud Infrastructure"
    ]))

  const CHAINALYSIS_REACTOR: Certificate := Certificate(
    "Chainalysis Reactor Certification",
    "Chainalysis",
    "Apr 2025",
    None,
    "https://academy.chainalysis.com/c/ixKV_BzCSxuSkGHw4_r7Yg",
    "/assets/chainalysis_reactor.jpeg",
    Some([
      "Blockchain",
      "Cryptocurrency",
      "Transaction Analysis"
    ]))

  const CHAINALYSIS_FUNDAMENTALS: Certificate := Certificate(
    "Chainalysis Cryptocurrency Fundamentals Certification",
    "Chainalysis",
    "Mar 2025",
    None,
    "https://academy.chainalysis.com/c/gTYNss1FRv-UbrICnt5-Ug",
    "/assets/chainalysis_fundamentals.jpeg",
    Some([
      "Blockchain",
      "Cryptocurrency",
      "Digital Assets"
    ]))

  const CERTIFICATES: seq<Certificate> := [AZURE_FUNDAMENTALS, CHAINALYSIS_REACTOR, CHAINALYSIS_FUNDAMENTALS]

  /** What the open popup shows, top to bottom. */
  datatype CertificateView = CertificateView(
    image: string,
    title: string,
    organization: string,
    issued: string,
    credentialLine: Option<string>,
    skillsBlock: Option<seq<string>>,
    link: string)

  /**
   * `CertificatePopup`: nothing without a certificate; otherwise its fields,
   * the credential line only for a present, non-empty id, and the skills block
   * whenever the list is present (an empty array is truthy), in order.
   */
  function Render(certificate: Option<Certificate>): (view: Option<CertificateView>)
    ensures view.None? <==> certificate.None?
    ensures view.Some? ==> (view.value.credentialLine.Some? <==>
      certificate.value.credentialId.Some? && certificate.value.credentialId.value != "")
    ensures view.Some? && view.value.credentialLine.Some? ==> view.value.credentialLine == certificate.value.credentialId
    ensures view.Some? ==> (view.value.skillsBlock.Some? <==> certificate.value.skills.Some?)
    ensures view.Some? && view.value.skillsBlock.Some? ==> view.value.skillsBlock == certificate.value.skills
    ensures view.Some? ==> view.value.link == certificate.value.credentialUrl
  {
    match certificate
    case None => None
    case Some(c) => Some(CertificateView(
      c.image, c.title, c.organization, c.issueDate,
      ShownIfNonEmpty(c.credentialId), c.skills, c.credentialUrl))
  }

  /**
   * On the page only the Azure certificate has a credential line, and every
   * certificate shows its skills.
   */
  lemma PageCredentialLines()
    ensures Render(Some(AZURE_FUNDAMENTALS)).value.credentialLine == AZURE_FUNDAMENTALS.credentialId
    ensures Render(Some(CHAINALYSIS_REACTOR)).value.credentialLine == None
    ensures Render(Some(CHAINALYSIS_FUNDAMENTALS)).value.credentialLine == None
    ensures forall i :: 0 <= i < |CERTIFICATES| ==> Render(Some(CERTIFICATES[i])).value.skillsBlock.Some?
  {
  }

  // ---------------------------------------------------------------------------
  // The section's selection
  // ---------------------------------------------------------------------------

  /** A card click: the certificate becomes the selection, and the popup shows that certificate. */
  method ClickCard(section: RecordPopup<Certificate>, certificate: Certificate)
    requires section.Valid()
    modifies section, section.body
    ensures section.Valid() && section.selected == Some(certificate)
    ensures Render(section.selected).Some?
    ensures Render(section.selected).value.title == certificate.title
    ensures Render(section.selected).value.link == certificate.credentialUrl
    ensures old(section.selected).None? ==>
      section.body.position == "fixed" && section.savedOffset == old(section.body.windowScrollY)
  {
    section.Select(certificate);
  }

  /** `onClose`: the popup renders nothing, and the page is back at the offset captured on opening. */
  method ClosePopup(section: RecordPopup<Certificate>)
    requires section.Valid()
    modifies section, section.body
    ensures section.Valid() && Render(section.selected) == None
    ensures old(section.selected).Some? ==>
      section.body.windowScrollY == old(section.savedOffset) && section.body.State().Unstyled()
  {
    section.Close();
  }
}
