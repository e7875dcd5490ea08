/** The fraud-score display of `SecurityCard` (src/components/SecurityCard.tsx): a colour and a
    label per score, which must agree with each other and with the Scamalytics tiers. */
module SecurityCard {
  import opened Js
  import opened Scamalytics
  import opened IpAnalysis

  /** `getFraudScoreColor(score)` */
  function FraudScoreColor(score: int): string {
    if score < 25 then "text-emerald-200"
    else if score < 50 then "text-amber-200"
    else if score < 75 then "text-orange-200"
    else "text-red-200"
  }

  /** `getFraudScoreText(score)` */
  function FraudScoreText(score: int): string {
    if score < 25 then "Risc scăzut"
    else if score < 50 then "Risc moderat"
    else if score < 75 then "Risc ridicat"
    else "Risc foarte ridicat"
  }

  const Colors: seq<string> := ["text-emerald-200", "text-amber-200", "text-orange-200", "text-red-200"]
  const Texts: seq<string> := ["Risc scăzut", "Risc moderat", "Risc ridicat", "Risc foarte ridicat"]

  /** The position of a string in a list of four labels (4 when absent). */
  function Position(labels: seq<string>, s: string): (k: nat)
    requires |labels| == 4
    ensures k <= 4 && (k < 4 ==> labels[k] == s)
  {
    if labels[0] == s then 0 else if labels[1] == s then 1
    else if labels[2] == s then 2 else if labels[3] == s then 3 else 4
  }

  lemma {:induction false} ColorsDistinct()
    ensures forall i, j :: 0 <= i < j < 4 ==> Colors[i] != Colors[j]
  {
    assert Colors[0][5] != Colors[1][5] && Colors[0][5] != Colors[2][5] && Colors[0][5] != Colors[3][5];
    assert Colors[1][5] != Colors[2][5] && Colors[1][5] != Colors[3][5] && Colors[2][5] != Colors[3][5];
  }

  lemma {:induction false} TextsDistinct()
    ensures forall i, j :: 0 <= i < j < 4 ==> Texts[i] != Texts[j]
  {
    assert |Texts[0]| != |Texts[1]| && Texts[0][5] != Texts[2][5] && |Texts[0]| != |Texts[3]|;
    assert Texts[1][5] != Texts[2][5] && |Texts[1]| != |Texts[3]| && |Texts[2]| != |Texts[3]|;
  }

  /** The colour and the label fall in the same tier for every score: each is the tier's
      entry in its list, so two scores share a colour exactly when they share a label. */
  lemma {:induction false} ColorMatchesText(score: int)
    ensures Position(Colors, FraudScoreColor(score)) == Position(Texts, FraudScoreText(score)) < 4
  {
    ColorsDistinct();
    TextsDistinct();
  }

  /** Both displays are monotone: a higher score never shows a lower tier. */
  lemma {:induction false} DisplayMonotone(a: int, b: int)
    requires a <= b
    ensures Position(Texts, FraudScoreText(a)) <= Position(Texts, FraudScoreText(b))
    ensures Position(Colors, FraudScoreColor(a)) <= Position(Colors, FraudScoreColor(b))
  {
    ColorsDistinct();
    TextsDistinct();
  }

  /** Where the tiers change: 24 is low, 25 moderate, 49 moderate, 50 high, 74 high and 75
      very high. */
  lemma Boundaries()
    ensures FraudScoreText(24) == "Risc scăzut" && FraudScoreText(25) == "Risc moderat"
    ensures FraudScoreText(49) == "Risc moderat" && FraudScoreText(50) == "Risc ridicat"
    ensures FraudScoreText(74) == "Risc ridicat" && FraudScoreText(75) == "Risc foarte ridicat"
    ensures FraudScoreColor(25) == "text-amber-200" && FraudScoreColor(75) == "text-red-200"
  {
  }

  /** The card's label for a score is the Scamalytics label for that score whenever the risk
      string is none of the Scamalytics keywords. */
  lemma {:induction false} TextAgreesWithScamalytics(risk: Value, score: int)
    requires !IsKeyword(risk)
    ensures FraudScoreText(score) == GetRiskLevel(risk, Num(score))
  {
    RiskTierByScore(risk, score);
  }

  /** The placeholder analysis always shows a low or moderate risk. */
  lemma {:induction false} PlaceholderNeverHigh(m: MockAnalysis)
    requires 5 <= m.fraudScore <= 34
    ensures FraudScoreText(m.fraudScore) in {"Risc scăzut", "Risc moderat"}
    ensures FraudScoreColor(m.fraudScore) in {"text-emerald-200", "text-amber-200"}
  {
  }
}
