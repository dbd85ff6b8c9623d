/** The stat icons of the popup's stats panel (src/components/StatsDisplay.tsx):
    each stat is classified into one of three faces by fixed thresholds. */
module StatsDisplay {

  // Hunger faces: angry, neutral, smiling.
  const HungerAngry: string := "\U{1F620}"
  const HungerNeutral: string := "\U{1F610}"
  const HungerCalm: string := "\U{1F60A}"

  // Tiredness faces: sleepy, expressionless, grinning.
  const TiredSleepy: string := "\U{1F634}"
  const TiredWeary: string := "\U{1F611}"
  const TiredLively: string := "\U{1F604}"

  // Cleanliness faces: nauseated, confused, sparkles.
  const CleanFilthy: string := "\U{1F922}"
  const CleanGrubby: string := "\U{1F615}"
  const CleanSparkling: string := "\U{2728}"

  /** getHungerIcon: angry from 70 up, neutral from 40 up, calm below. */
  function HungerIcon(hunger: int): (icon: string)
    ensures icon == HungerAngry <==> hunger >= 70
    ensures icon == HungerNeutral <==> 40 <= hunger < 70
    ensures icon == HungerCalm <==> hunger < 40
  {
    if hunger >= 70 then HungerAngry
    else if hunger >= 40 then HungerNeutral
    else HungerCalm
  }

  /** getTirednessIcon: sleepy from 80 up, weary from 50 up, lively below. */
  function TirednessIcon(tiredness: int): (icon: string)
    ensures icon == TiredSleepy <==> tiredness >= 80
    ensures icon == TiredWeary <==> 50 <= tiredness < 80
    ensures icon == TiredLively <==> tiredness < 50
  {
    if tiredness >= 80 then TiredSleepy
    else if tiredness >= 50 then TiredWeary
    else TiredLively
  }

  /** getCleanlinessIcon: filthy up to and including 30 (the mood's dirty
      alert starts strictly below 30), grubby up to 60, sparkling above. */
  function CleanlinessIcon(cleanliness: int): (icon: string)
    ensures icon == CleanFilthy <==> cleanliness <= 30
    ensures icon == CleanGrubby <==> 30 < cleanliness <= 60
    ensures icon == CleanSparkling <==> cleanliness > 60
  {
    if cleanliness <= 30 then CleanFilthy
    else if cleanliness <= 60 then CleanGrubby
    else CleanSparkling
  }

  /** How alarming a face is: 0 calm, 1 middle, 2 alarming. */
  function Severity(icon: string): nat
  {
    if icon in {HungerAngry, TiredSleepy, CleanFilthy} then 2
    else if icon in {HungerNeutral, TiredWeary, CleanGrubby} then 1
    else 0
  }

  /** More hunger or more tiredness never moves the icon back toward the
      calm face; less cleanliness never does either. */
  lemma IconsMonotone(lo: int, hi: int)
    requires lo <= hi
    ensures Severity(HungerIcon(lo)) <= Severity(HungerIcon(hi))
    ensures Severity(TirednessIcon(lo)) <= Severity(TirednessIcon(hi))
    ensures Severity(CleanlinessIcon(hi)) <= Severity(CleanlinessIcon(lo))
  {
  }
}
