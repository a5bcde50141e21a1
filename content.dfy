/**
 * The site's content model and its one data table: the case-study sections
 * that the content pages, the search dialog and the timeline read.
 */
module Content {
  import opened Wrappers

  /** A highlight card; `link` is set on three timeline entries only. */
  datatype Highlight = Highlight(title: string, description: string, link: Option<string>)

  /** A section body is either one paragraph or a list of paragraphs. */
  datatype Body = Text(text: string) | Paragraphs(paragraphs: seq<string>)

  datatype SectionKind = Hero | TextKind | Grid | List

  datatype Section = Section(
    id: string,
    title: string,
    subtitle: Option<string>,
    kind: SectionKind,
    content: Body,
    highlights: Option<seq<Highlight>>,
    imageUrl: Option<string>)

  function Card(title: string, description: string): Highlight
  {
    Highlight(title, description, None)
  }

  function LinkedCard(title: string, description: string, link: string): Highlight
  {
    Highlight(title, description, Some(link))
  }

  const Abstract := Section(
    "abstract",
    "The Digital Landscape",
    Some("Innovation vs. Risk in US Banking"),
    TextKind,
    Paragraphs([
      "Digital innovation is reshaping the U.S. banking sector, forcing institutions to reimagine service delivery while managing cybersecurity, privacy, and regulatory risks.",
      "This case study explores how banks like Capital One leverage technologies such as digital identity, embedded finance, and AI-driven personalization to enhance customer experience and financial inclusion."
    ]),
    Some([
      Card("Cybersecurity & Data Privacy",
        "As banks digitize, the attack surface grows. Capital One employs cloud-native security and zero-trust frameworks to protect sensitive customer data against increasingly sophisticated cyber threats."),
      Card("AI-Driven Personalization",
        "Using real-time behavioral analytics and machine learning, banks can offer tailored financial advice, fraud alerts, and product recommendations, moving away from generic banking services."),
      Card("Financial Inclusion",
        "Digital transformation reduces the cost of serving customers, allowing banks to reach underserved populations through mobile-first banking and accessible credit building tools."),
      Card("Regulatory Compliance",
        "Navigating the complex web of financial regulations (like Dodd-Frank) while innovating requires a delicate balance, especially with shifting political landscapes impacting enforcement.")
    ]),
    Some("https://images.unsplash.com/photo-1563986768609-322da13575f3?ixlib=rb-1.2.1&auto=format&fit=crop&w=1000&q=80"))

  const Intro := Section(
    "intro",
    "Introduction",
    None,
    TextKind,
    Paragraphs([
      "The digitalization of banking services in the United States has significantly reshaped the sector. Adoption of mobile platforms, cloud computing, and AI has improved operational efficiency.",
      "These transformations play a vital role in expanding financial inclusion to underserved populations. Using Capital One as our primary subject, we examine how major US banks balance innovation with resilience."
    ]),
    None,
    Some("https://images.unsplash.com/photo-1551288049-bebda4e38f71?ixlib=rb-1.2.1&auto=format&fit=crop&w=1000&q=80"))

  const Explanation := Section(
    "explanation",
    "The Capital One Evolution",
    Some("From Information-Based Strategy to Cloud Native"),
    Grid,
    Text("Founded in 1994 by Richard Fairbanks and Nigel Morris, Capital One was envisioned not as a bank, but as an information-driven technology firm."),
    Some(EvolutionEvents),
    Some("https://images.unsplash.com/photo-1451187580459-43490279c0fa?ixlib=rb-1.2.1&auto=format&fit=crop&w=1000&q=80"))

  /** The highlights of the 'explanation' section: the timeline's events. */
  const EvolutionEvents := [
    Card("1994: The Beginning",
      "Capital One pioneered the Information-Based Strategy (IBS), utilizing data analytics and statistical modeling to tailor credit card offerings rather than relying on traditional demographic categories."),
    LinkedCard("2015: Cloud Migration",
      "Capital One became the first major US bank to announce a full migration to the public cloud (AWS). This bold move enabled faster product innovation, on-demand scalability, and enhanced security capabilities.",
      "https://aws.amazon.com/solutions/case-studies/capital-one-all-in-on-aws/"),
    LinkedCard("2017: Project Eno",
      "Launch of Eno, an AI-powered virtual assistant that monitors accounts 24/7, creates virtual card numbers for safe online shopping, and proactively alerts customers about unusual charges.",
      "https://www.capitalone.com/digital/tools/eno/"),
    LinkedCard("DevExchange Ecosystem",
      "Capital One opened its APIs to third-party developers via DevExchange, fostering an open banking environment where external apps can securely integrate with bank data to create new value.",
      "https://developer.capitalone.com/home")
  ]

  const Sdg := Section(
    "sdg",
    "Sustainable Impact",
    None,
    List,
    Text("Beyond fintech, Capital One supports United Nations Sustainable Development Goals (SDGs)."),
    Some([
      Card("SDG 1 & 10: Poverty & Inequality",
        "Through tools like CreditWise and various credit access programs, the bank helps low-end consumers build credit history, directly addressing poverty and reducing financial inequality."),
      Card("SDG 8: Economic Growth",
        "By investing in Community Development Financial Institutions (CDFIs) and small businesses, Capital One stimulates local economies and supports decent work, especially in low-income areas."),
      Card("Community Investment",
        "The bank has committed billions to affordable housing programs, workforce development initiatives, and financial literacy training across the United States.")
    ]),
    Some("https://images.unsplash.com/photo-1497366216548-37526070297c?ixlib=rb-1.2.1&auto=format&fit=crop&w=1000&q=80"))

  const Analysis := Section(
    "analysis",
    "Critical Analysis",
    Some("Navigating the Trump-Era Policy Shift"),
    TextKind,
    Paragraphs([
      "Capital One's innovation relies on robust internal controls. However, the political landscape introduces complexity.",
      "Trump-era regulatory proposals emphasize deregulation and weakening the CFPB. While this accelerates Fintech experimentation, it shifts safety responsibilities onto the banks.",
      "Capital One has responded by reinforcing self-regulation, adopting zero-trust frameworks, and ensuring ethical AI governance regardless of federal guardrail relaxation."
    ]),
    None,
    Some("https://images.unsplash.com/photo-1550751827-4bd374c3f58b?ixlib=rb-1.2.1&auto=format&fit=crop&w=1000&q=80"))

  const Recommendations := Section(
    "recommendations",
    "The Future Path",
    None,
    List,
    Text("To maintain leadership and trust, Capital One must balance rapid growth with ironclad security."),
    Some([
      Card("Quantum-Resistant Cybersecurity",
        "As computing power grows, current encryption methods risk becoming obsolete. Investing in post-quantum cryptography is essential to secure future financial data."),
      Card("Open-Banking Security",
        "With more third-party integrations, the risk of data leaks increases. Strengthening the security protocols around API endpoints is crucial for maintaining customer trust."),
      Card("ESG-Aligned Products",
        "Future growth lies in aligning digital products with Environmental, Social, and Governance goals, such as green financing options and tools that track carbon footprints.")
    ]),
    Some("https://images.unsplash.com/photo-1486406146926-c627a92ad1ab?ixlib=rb-1.2.1&auto=format&fit=crop&w=1000&q=80"))

  /** The section table, in page order. */
  const ContentSections: seq<Section> := [Abstract, Intro, Explanation, Sdg, Analysis, Recommendations]

  /** No section appears twice in a list. */
  predicate NoDuplicates(sections: seq<Section>)
  {
    forall i, j :: 0 <= i < j < |sections| ==> sections[i] != sections[j]
  }

  /** The section ids of the table are pairwise distinct. */
  lemma ContentSectionIdsDistinct()
    ensures forall i, j :: 0 <= i < j < |ContentSections| ==> ContentSections[i].id != ContentSections[j].id
    ensures NoDuplicates(ContentSections)
  {
    var lengths := [8, 5, 11, 3, 8, 15];
    forall i | 0 <= i < 6
      ensures |ContentSections[i].id| == lengths[i]
    {
    }
    assert ContentSections[0].id[1] == 'b' && ContentSections[4].id[1] == 'n';
  }
}
