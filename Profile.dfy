/** The profile page (src/pages/Profile.tsx): the badge variant and label of
    a risk level, and the constant document history. The page is not routed. */
module Profile {
  import opened Common

  datatype BadgeVariant = Default | Secondary | Destructive

  /** `getRiskBadgeVariant`. */
  function RiskBadgeVariant(level: string): (v: BadgeVariant)
    ensures v == Secondary <==> level == "medium"
    ensures v == Destructive <==> level == "high"
    ensures v == Default <==> level != "medium" && level != "high"
  {
    if level == "low" then Default
    else if level == "medium" then Secondary
    else if level == "high" then Destructive
    else Default
  }

  /** The mapping is not injective: "low" and any unknown level share a badge. */
  lemma BadgeNotInjective()
    ensures RiskBadgeVariant("low") == RiskBadgeVariant("critical") == Default
  {
  }

  /** `getRiskLabel`: the label of a level in one language; `undefined` (here
      `None`) for a level outside low/medium/high. */
  function RiskLabel(l: Lang, level: string): (r: Option<string>)
    ensures r.Some? <==> level in {"low", "medium", "high"}
  {
    var labels := match l
      case En => map["low" := "Low Risk", "medium" := "Medium Risk", "high" := "High Risk"]
      case Hi => map["low" := "कम जोखिम", "medium" := "मध्यम जोखिम", "high" := "उच्च जोखिम"];
    if level in labels then Some(labels[level]) else None
  }

  datatype HistoryEntry = HistoryEntry(
    id: string, name: string, kind: string, uploadDate: string, status: string, riskLevel: string)

  /** `documentHistory`. */
  const DocumentHistory: seq<HistoryEntry> := [
    HistoryEntry("1", "LEAVE AND LICENCSE AGREEMENT.pdf", "Rental Agreement", "2025-09-16", "processed", "low"),
    HistoryEntry("2", "Rental_Agreement.pdf", "Rental Agreement", "2024-09-15", "processed", "medium"),
    HistoryEntry("3", "Business_Partnership_Agreement.pdf", "Business Agreement", "2024-09-15", "processed", "high")
  ]

  /** Every history entry is processed and has a level the label table
      knows, in both languages. */
  lemma HistoryLevelsHaveLabels(l: Lang)
    ensures forall i :: 0 <= i < |DocumentHistory| ==>
              DocumentHistory[i].status == "processed" && RiskLabel(l, DocumentHistory[i].riskLevel).Some?
  {
  }

  /** History ids are distinct, so each entry's analysis link is its own. */
  lemma HistoryIdsDistinct()
    ensures forall i, j :: 0 <= i < j < |DocumentHistory| ==> DocumentHistory[i].id != DocumentHistory[j].id
  {
  }

  /** The page's language: the prop when given, "en" otherwise. */
  function ProfileLanguage(given: Option<Lang>): (l: Lang)
    ensures given.Some? ==> l == given.value
    ensures given.None? ==> l == En
  {
    if given.Some? then given.value else En
  }

  /** The history card shows its empty state when the history has no entry;
      with the constant history it never does. */
  lemma HistoryNeverEmpty()
    ensures |DocumentHistory| != 0
  {
  }
}
