/** The analysis results page (src/pages/DocumentAnalysis.tsx): constant
    tables (the summary figures, the eleven mock clauses, the risk-level
    labels of both languages), the badge colour of a risk level, and the two
    pieces of view state, the active tab and the microphone toggle. */
module Analysis {
  import opened Common

  /** A mock clause: id, category (`type` in the table), risk level, the
      quoted text and its plain-language explanation. */
  datatype Clause = Clause(id: int, category: string, risk: string, text: string, explanation: string)

  datatype Summary = Summary(
    riskLevel: int, confidenceScore: int,
    totalClauses: int, safeClauses: int, moderateClauses: int, highRiskClauses: int)

  /** `analysisData`. */
  const AnalysisData: Summary := Summary(75, 92, 11, 6, 2, 3)

  /** `mockClauses`, in display order. */
  const MockClauses: seq<Clause> := [
    Clause(1, "Period Clause", "safe",
      "The Licensor hereby grants to the Licensees a revocable leave and license to occupy the premises for a period of 11 months commencing from 01/06/2024 and ending on 30/04/2025.",
      "Standard duration clause; clearly defines the license period without creating tenancy rights."),
    Clause(2, "License Fee & Deposit Clause", "safe",
      "The Licensees shall pay to the Licensor License fee at the rate of Rs.11,000 per month, payable within first five days of the concerned month.",
      "Clear payment terms with reasonable timeline; protects both parties."),
    Clause(3, "Maintenance Charges Clause", "safe",
      "All outgoings including rates, taxes, levies, assessment, maintenance charges, non-occupancy charges, etc. in respect of the said premises shall be paid by the Licensor.",
      "Favorable to Licensees, as landlord bears standard property costs."),
    Clause(4, "Electricity Charges Clause", "safe",
      "The Licensees shall pay the electricity bills directly for energy consumed on the licensed premises and submit receipts to the Licensor.",
      "Fair and standard practice ensuring transparency."),
    Clause(5, "Use of Premises Clause", "moderate",
      "The Licensed premises shall only be used by the Licensees for Residential purpose. The Licensees shall not do anything unlawful or likely to cause nuisance.",
      "Reasonable restrictions, but vague terms like 'nuisance' could be interpreted broadly against Licensees."),
    Clause(6, "Alteration Clause", "safe",
      "The Licensees shall not make or permit any alteration or addition to the premises without prior written consent of the Licensor.",
      "Typical landlord protection clause; safe as long as intent is clear."),
    Clause(7, "No Tenancy Clause", "high",
      "The Licensees shall not claim any tenancy right, nor transfer, assign, sublet, or mortgage the premises.",
      "Protects Licensor strongly; limits Licensee rights significantly, common in such agreements but can be restrictive."),
    Clause(8, "Inspection Clause", "moderate",
      "The Licensor shall, on reasonable notice, have a right to enter, view and inspect the premises at reasonable intervals.",
      "Reasonable in principle, but 'reasonable intervals' is vague and could be abused if not clarified."),
    Clause(9, "Cancellation Clause", "high",
      "If Licensees default on payment or breach conditions, the Licensor may revoke by one month’s written notice. The Licensees also may vacate with one month’s written notice.",
      "Termination rights are balanced, but risk is higher for Licensees since minor breaches could trigger termination."),
    Clause(10, "Possession & Damages Clause", "high",
      "On termination, if the Licensees fail to vacate, the Licensor may recover damages at double the daily compensation rate and remove Licensees without recourse to Court.",
      "Heavily favors Licensor; exposes Licensees to financial and legal risk."),
    Clause(11, "Registration & Stamp Duty Clause", "safe",
      "The Agreement is to be registered and the expenditure of Stamp duty and registration fees shall be borne equally by the Licensee and Licensor.",
      "Balanced and fair allocation of costs.")
  ]

  /** `t.clauses.riskLevels` of one language. */
  function RiskLevelLabels(l: Lang): (m: map<string, string>)
    ensures m.Keys == {"safe", "moderate", "high"}
  {
    match l
    case En => map["safe" := "Safe", "moderate" := "Moderate Risk", "high" := "High Risk"]
    case Hi => map["safe" := "सुरक्षित", "moderate" := "मध्यम जोखिम", "high" := "उच्च जोखिम"]
  }

  /** The number of clauses with the given risk level. */
  function CountRisk(s: seq<Clause>, risk: string): (n: nat)
    ensures n <= |s|
    ensures n == 0 <==> forall i :: 0 <= i < |s| ==> s[i].risk != risk
  {
    if s == [] then 0
    else (if s[0].risk == risk then 1 else 0) + CountRisk(s[1..], risk)
  }

  /** When every clause has one of three levels, the three counts add up to
      the number of clauses. */
  lemma {:induction false} CountsPartition(s: seq<Clause>)
    requires forall i :: 0 <= i < |s| ==> s[i].risk in {"safe", "moderate", "high"}
    ensures CountRisk(s, "safe") + CountRisk(s, "moderate") + CountRisk(s, "high") == |s|
  {
    if s != [] {
      assert s[0].risk in {"safe", "moderate", "high"};
      CountsPartition(s[1..]);
    }
  }

  /** Every clause's level is a key of the label table of both languages, so
      the badge label lookup always hits. */
  lemma EveryClauseRiskHasLabel(l: Lang)
    ensures forall i :: 0 <= i < |MockClauses| ==> MockClauses[i].risk in RiskLevelLabels(l)
  {
  }

  /** The risk column of the clause list, in order. */
  function Risks(s: seq<Clause>): (r: seq<string>)
    ensures |r| == |s| && forall i :: 0 <= i < |s| ==> r[i] == s[i].risk
  {
    seq(|s|, i requires 0 <= i < |s| => s[i].risk)
  }

  /** Counting clauses by level is the multiplicity of that level in the
      risk column. */
  lemma {:induction false} CountIsMultiplicity(s: seq<Clause>, risk: string)
    ensures CountRisk(s, risk) == multiset(Risks(s))[risk]
  {
    if s != [] {
      assert Risks(s) == [s[0].risk] + Risks(s[1..]);
      CountIsMultiplicity(s[1..], risk);
    }
  }

  /** The risk column of `mockClauses`, as the table lists it. */
  const MockRisks: seq<string> :=
    ["safe", "safe", "safe", "safe", "moderate", "safe", "high", "moderate", "high", "high", "safe"]

  lemma MockRisksColumn()
    ensures Risks(MockClauses) == MockRisks
  {
  }

  lemma MockRiskCounts()
    ensures multiset(MockRisks)["safe"] == 6
    ensures multiset(MockRisks)["moderate"] == 2
    ensures multiset(MockRisks)["high"] == 3
  {
  }

  /** The hard-coded summary agrees with the clause list: 6 safe, 2 moderate,
      3 high, 11 in all, and the three counts add up to the total. */
  lemma SummaryMatchesClauses()
    ensures CountRisk(MockClauses, "safe") == AnalysisData.safeClauses
    ensures CountRisk(MockClauses, "moderate") == AnalysisData.moderateClauses
    ensures CountRisk(MockClauses, "high") == AnalysisData.highRiskClauses
    ensures |MockClauses| == AnalysisData.totalClauses
    ensures AnalysisData.safeClauses + AnalysisData.moderateClauses + AnalysisData.highRiskClauses
            == AnalysisData.totalClauses
  {
    MockRisksColumn();
    MockRiskCounts();
    CountIsMultiplicity(MockClauses, "safe");
    CountIsMultiplicity(MockClauses, "moderate");
    CountIsMultiplicity(MockClauses, "high");
  }

  /** The clause ids are 1 to 11 in order, hence distinct and ascending. */
  lemma ClauseIdsAreOneToEleven()
    ensures forall i :: 0 <= i < |MockClauses| ==> MockClauses[i].id == i + 1
    ensures forall i, j :: 0 <= i < j < |MockClauses| ==> MockClauses[i].id < MockClauses[j].id
  {
    assert forall i :: 0 <= i < |MockClauses| ==> MockClauses[i].id == i + 1;
  }

  /** The two percentages feed progress bars, whose range is 0..100. */
  lemma ScoresWithinBars()
    ensures 0 <= AnalysisData.riskLevel <= 100
    ensures 0 <= AnalysisData.confidenceScore <= 100
  {
  }

  const MutedColor: string := "bg-muted text-muted-foreground"

  /** `getRiskColor`: a class per known level, the muted default otherwise. */
  function RiskColor(risk: string): (c: string)
    ensures c == MutedColor <==> risk !in {"safe", "moderate", "high"}
  {
    if risk == "safe" then "bg-success text-success-foreground"
    else if risk == "moderate" then "bg-warning text-warning-foreground"
    else if risk == "high" then "bg-destructive text-destructive-foreground"
    else MutedColor
  }

  /** The three known levels get three different classes. */
  lemma RiskColorsDistinct()
    ensures RiskColor("safe") != RiskColor("moderate")
    ensures RiskColor("safe") != RiskColor("high")
    ensures RiskColor("moderate") != RiskColor("high")
  {
    assert RiskColor("safe")[3] == 's';
    assert RiskColor("moderate")[3] == 'w';
    assert RiskColor("high")[3] == 'd';
  }

  datatype Icon = CheckCircle | AlertTriangle | Shield | FileText

  /** `getRiskIcon`: an icon per known level, the document icon otherwise. */
  function RiskIcon(risk: string): (i: Icon)
    ensures i == FileText <==> risk !in {"safe", "moderate", "high"}
  {
    if risk == "safe" then CheckCircle
    else if risk == "moderate" then AlertTriangle
    else if risk == "high" then Shield
    else FileText
  }

  datatype Tab = Clauses | SummaryTab | Comparison | Voice

  /** The page's view state: the active tab and the microphone flag. */
  datatype View = View(activeTab: Tab, isVoiceActive: bool)

  const InitialView: View := View(Clauses, false)

  /** The page opens on the clause tab with the microphone off, so the
      button offers to start recording. */
  lemma InitialViewOffersRecording(l: Lang)
    ensures InitialView.activeTab == Clauses
    ensures MicLabel(l, InitialView.isVoiceActive) == StartRecording(l)
  {
  }

  /** `setActiveTab`: only the tab changes. */
  function SelectTab(v: View, t: Tab): (r: View)
    ensures r.activeTab == t && r.isVoiceActive == v.isVoiceActive
  {
    v.(activeTab := t)
  }

  /** The microphone button flips the flag and leaves the tab; unlike the
      chat widget's, this flag is never reverted by a timer. */
  function PressMic(v: View): (r: View)
    ensures r.isVoiceActive != v.isVoiceActive && r.activeTab == v.activeTab
  {
    v.(isVoiceActive := !v.isVoiceActive)
  }

  /** The microphone button's label. */
  function MicLabel(l: Lang, active: bool): (s: string)
    ensures s == StopRecording(l) <==> active
  {
    if active then StopRecording(l) else StartRecording(l)
  }

  function StopRecording(l: Lang): (s: string)
    ensures s != StartRecording(l)
  {
    match l
    case En => "Stop Recording"
    case Hi => "रिकॉर्डिंग बंद करें"
  }

  function StartRecording(l: Lang): string
  {
    match l
    case En => "Start Recording"
    case Hi => "रिकॉर्डिंग शुरू करें"
  }

  /** Two presses give back the view, so the label returns with it. */
  lemma PressMicTwice(v: View)
    ensures PressMic(PressMic(v)) == v
  {
  }
}
