/**
 * The entities of the research dashboard and the seed collections compiled
 * into it: eight documents, eight companies, four market insights and five
 * notifications. Seed ids are the one-digit strings "1", "2", ...
 */
module Data {

  datatype Trend = Up | Down | Neutral

  /** Where a document stands in the (simulated) ingestion pipeline. */
  datatype DocumentStatus = Indexed | Processing | Queued | Failed {
    /** The status as the views spell it. */
    function Name(): string {
      match this
      case Indexed => "indexed"
      case Processing => "processing"
      case Queued => "queued"
      case Failed => "failed"
    }
  }

  datatype NotificationKind = Success | Info | Warning | Error

  /** An insight's market impact; `Balanced` is the source's "neutral" (the name `Neutral` is a `Trend`). */
  datatype Impact = Positive | Negative | Balanced

  datatype Company = Company(
    id: string,
    name: string,
    sector: string,
    docs: int,
    lastUpdated: string,
    trend: Trend,
    revenue: string)

  datatype Document = Document(
    id: string,
    title: string,
    company: string,
    docType: string,
    date: string,
    pages: int,
    status: DocumentStatus)

  datatype Notification = Notification(
    id: string,
    title: string,
    message: string,
    time: string,
    kind: NotificationKind,
    read: bool)

  datatype Insight = Insight(
    id: string,
    title: string,
    description: string,
    sector: string,
    impact: Impact)

  function CompanyId(c: Company): string { c.id }

  function DocumentId(d: Document): string { d.id }

  const SeedDocuments: seq<Document> := [
    Document("1", "Q3 2025 Annual Report - Reliance Industries", "Reliance", "Annual Report", "2025-12-15", 142, Indexed),
    Document("2", "Industry Analysis - Indian Fintech Landscape", "Sector Report", "Research Paper", "2025-11-28", 67, Indexed),
    Document("3", "SEBI Circular - New Margin Requirements", "Regulatory", "Filing", "2025-12-01", 23, Indexed),
    Document("4", "Tata Motors - EV Strategy Deep Dive", "Tata Motors", "Research Paper", "2025-11-10", 89, Processing),
    Document("5", "HDFC Bank Q2 Earnings Call Transcript", "HDFC Bank", "Transcript", "2025-10-25", 34, Indexed),
    Document("6", "Infosys Annual ESG Report 2025", "Infosys", "ESG Report", "2025-09-30", 210, Indexed),
    Document("7", "RBI Monetary Policy Statement - Dec 2025", "Regulatory", "Policy", "2025-12-06", 18, Indexed),
    Document("8", "Wipro Digital Transformation Whitepaper", "Wipro", "Whitepaper", "2025-10-15", 45, Queued)
  ]

  const SeedCompanies: seq<Company> := [
    Company("1", "Reliance Industries", "Conglomerate", 342, "2025-12-15", Up, "₹9.74L Cr"),
    Company("2", "HDFC Bank", "Banking", 218, "2025-10-25", Up, "₹2.85L Cr"),
    Company("3", "Tata Motors", "Automotive", 156, "2025-11-10", Up, "₹3.46L Cr"),
    Company("4", "Infosys", "IT Services", 289, "2025-09-30", Down, "₹1.62L Cr"),
    Company("5", "Wipro", "IT Services", 134, "2025-10-15", Neutral, "₹0.90L Cr"),
    Company("6", "Bajaj Finance", "NBFC", 98, "2025-08-20", Up, "₹0.52L Cr"),
    Company("7", "SBI", "Banking", 267, "2025-11-05", Up, "₹6.10L Cr"),
    Company("8", "ITC Limited", "FMCG", 178, "2025-09-12", Neutral, "₹0.70L Cr")
  ]

  const Insights: seq<Insight> := [
    Insight("1", "Banking Sector NPA ratios declining",
      "Gross NPA ratio across top 10 banks dropped to 3.2% from 4.1% YoY", "Banking", Positive),
    Insight("2", "IT sector headcount flat YoY",
      "Combined headcount of TCS, Infosys, Wipro, HCL remained flat at 15.2L", "IT Services", Balanced),
    Insight("3", "EV adoption accelerating in India",
      "EV penetration crossed 6.2% in Q3 2025, up from 3.8% in Q3 2024", "Automotive", Positive),
    Insight("4", "Pharma margin pressure from API costs",
      "API import costs up 18% due to China supply chain disruptions", "Pharma", Negative)
  ]

  const SeedNotifications: seq<Notification> := [
    Notification("1", "Document Processing Complete",
      "HDFC Bank Annual Report 2025 has been indexed successfully", "5 min ago", Success, false),
    Notification("2", "New Company Added",
      "Tata Motors has been added to your tracking list", "1 hour ago", Info, false),
    Notification("3", "Processing Failed",
      "SBI Credit Report Oct 2025 failed to process. Retrying...", "2 hours ago", Error, true),
    Notification("4", "Query Volume Alert",
      "Daily query limit reached 80%. Consider upgrading.", "3 hours ago", Warning, true),
    Notification("5", "System Update",
      "Platform maintenance scheduled for tonight at 2 AM IST", "5 hours ago", Info, true)
  ]

  /** A seed id: a single decimal digit. */
  predicate IsDigitId(id: string) {
    |id| == 1 && '0' <= id[0] <= '9'
  }

  /** Every seed company and every seed document carries a one-digit id, and no two share one. */
  lemma SeedIdsAreDistinctDigits()
    ensures forall i :: 0 <= i < |SeedCompanies| ==> IsDigitId(SeedCompanies[i].id)
    ensures forall i, j :: 0 <= i < j < |SeedCompanies| ==> SeedCompanies[i].id != SeedCompanies[j].id
    ensures forall i :: 0 <= i < |SeedDocuments| ==> IsDigitId(SeedDocuments[i].id)
    ensures forall i, j :: 0 <= i < j < |SeedDocuments| ==> SeedDocuments[i].id != SeedDocuments[j].id
  {
  }
}
