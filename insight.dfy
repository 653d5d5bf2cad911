/** The decisions the page takes from a summary: the colour of a metric card's
    subtext, the sign prefix and flag of the Actual-CPA card, and the
    direction, verdict and lead message of the performance insight panel. */
module Insight {

  /** A verdict: good, bad, or neither (the source's True / False / None). */
  datatype Tone = Good | Bad | Neutral

  /** The three subtext colours of a metric card. */
  datatype Colour = AccentGood | AccentBad | TextMuted

  /** Where the actual CPA lies relative to the target. */
  datatype Direction = Above | Below | At | NotApplicable

  /** The lead sentence of the insight panel. */
  datatype Lead = RunningHot | BeatingTarget | ExactlyOnTarget

  /** The value handed to a metric card as its good flag: one of the literals
      True, False and None (as a tone), or a numpy boolean scalar, which is
      what comparing a numpy number yields. */
  datatype GoodFlag = Literal(tone: Tone) | ArrayScalar(value: bool)

  /** The truth value of a flag, as `if good:` would read it. */
  predicate Truthy(flag: GoodFlag) {
    match flag
    case Literal(tone) => tone == Good
    case ArrayScalar(value) => value
  }

  /** The choice of subtext colour of a metric card. The tests are identity
      tests against the literals True and False, so a numpy boolean scalar
      matches neither, whatever its value, and gets the muted colour. */
  function CardColour(good: GoodFlag): (c: Colour)
    ensures c == AccentGood <==> good == Literal(Good)
    ensures c == AccentBad <==> good == Literal(Bad)
    ensures c == TextMuted <==> good == Literal(Neutral) || good.ArrayScalar?
  {
    match good
    case Literal(Good) => AccentGood
    case Literal(Bad) => AccentBad
    case _ => TextMuted
  }

  /** What the Actual-CPA card shows beside the delta: a `+` prefix, and its
      good flag. */
  datatype CpaCard = CpaCard(plusSign: bool, good: GoodFlag)

  /** The Actual-CPA card for a summary's conversions total and delta. With
      conversions the CPA is a quotient of numpy sums, so the delta and the
      comparison made from it are numpy values; without conversions the CPA is
      the literal 0.0 and the comparison yields a literal. */
  function ActualCpaCard(totalConversions: int, cpaDelta: real): (card: CpaCard)
    ensures card.plusSign <==> cpaDelta > 0.0
    ensures Truthy(card.good) <==> cpaDelta <= 0.0
    ensures card.good.ArrayScalar? <==> totalConversions > 0
    ensures card.good != Literal(Neutral)
  {
    var good := cpaDelta <= 0.0;
    CpaCard(cpaDelta > 0.0, if totalConversions > 0 then ArrayScalar(good) else Literal(if good then Good else Bad))
  }

  /** The colour the Actual-CPA card is meant to take: the good accent when the
      CPA is at or under target and the bad accent when it is over, as the flag
      handed to the card says. It is never muted. */
  function IntendedCardColour(cpaDelta: real): (c: Colour)
    ensures c == AccentGood <==> cpaDelta <= 0.0
    ensures c == AccentBad <==> cpaDelta > 0.0
    ensures c != TextMuted
  {
    CardColour(Literal(if cpaDelta <= 0.0 then Good else Bad))
  }

  /** The Actual-CPA card's colour as the code computes it: muted whenever
      there are conversions, and the intended colour only when there are none. */
  lemma ActualCpaCardColour(totalConversions: int, cpaDelta: real)
    ensures totalConversions > 0 ==> CardColour(ActualCpaCard(totalConversions, cpaDelta).good) == TextMuted
    ensures totalConversions <= 0 ==>
      CardColour(ActualCpaCard(totalConversions, cpaDelta).good) == IntendedCardColour(cpaDelta)
  {
  }

  /** The direction and verdict of the insight panel. */
  datatype Verdict = Verdict(direction: Direction, tone: Tone)

  /** Direction and verdict from the target and the delta. */
  function Classify(targetCpa: real, cpaDelta: real): (v: Verdict)
    ensures targetCpa > 0.0 && cpaDelta > 0.0 ==> v == Verdict(Above, Bad)
    ensures targetCpa > 0.0 && cpaDelta < 0.0 ==> v == Verdict(Below, Good)
    ensures targetCpa > 0.0 && cpaDelta == 0.0 ==> v == Verdict(At, Neutral)
    ensures targetCpa <= 0.0 ==> v == Verdict(NotApplicable, Neutral)
  {
    if targetCpa > 0.0 then
      if cpaDelta > 0.0 then Verdict(Above, Bad)
      else if cpaDelta < 0.0 then Verdict(Below, Good)
      else Verdict(At, Neutral)
    else Verdict(NotApplicable, Neutral)
  }

  /** The lead message chosen by the verdict. */
  function LeadFor(tone: Tone): (lead: Lead)
    ensures lead == RunningHot <==> tone == Bad
    ensures lead == BeatingTarget <==> tone == Good
    ensures lead == ExactlyOnTarget <==> tone == Neutral
  {
    match tone
    case Bad => RunningHot
    case Good => BeatingTarget
    case Neutral => ExactlyOnTarget
  }

  /** The colour of the lead message, chosen by the same verdict. */
  function ToneColour(tone: Tone): (c: Colour)
    ensures c == AccentBad <==> tone == Bad
    ensures c == AccentGood <==> tone == Good
    ensures c == TextMuted <==> tone == Neutral
  {
    match tone
    case Bad => AccentBad
    case Good => AccentGood
    case Neutral => TextMuted
  }

  /** The lead's colour is the colour a metric card gives the same verdict. */
  lemma ToneColourIsCardColour(tone: Tone)
    ensures ToneColour(tone) == CardColour(Literal(tone))
  {
  }

  /** Exactly one of the card's two marks is set: the `+` prefix when the
      delta is positive, a true good flag otherwise. */
  lemma CardMarksExclusive(totalConversions: int, cpaDelta: real)
    ensures var card := ActualCpaCard(totalConversions, cpaDelta); card.plusSign != Truthy(card.good)
  {
  }

  /** Against a positive target, the card's flag is true exactly when the
      panel does not call the CPA bad, and its intended colour is the good
      accent exactly then; on target the card is meant to be green while the
      panel is neutral. */
  lemma CardAgreesWithVerdict(targetCpa: real, totalConversions: int, cpaDelta: real)
    requires targetCpa > 0.0
    ensures Truthy(ActualCpaCard(totalConversions, cpaDelta).good) <==> Classify(targetCpa, cpaDelta).tone != Bad
    ensures IntendedCardColour(cpaDelta) == AccentGood <==> Classify(targetCpa, cpaDelta).tone != Bad
    ensures ActualCpaCard(totalConversions, cpaDelta).plusSign <==> Classify(targetCpa, cpaDelta).direction == Above
    ensures cpaDelta == 0.0 ==>
      IntendedCardColour(cpaDelta) == AccentGood && ToneColour(Classify(targetCpa, cpaDelta).tone) == TextMuted
  {
  }

  /** Without a positive target the panel's lead claims the CPA is exactly on
      target, whatever the delta. */
  lemma NoTargetReadsAsOnTarget(targetCpa: real, cpaDelta: real)
    requires targetCpa <= 0.0
    ensures LeadFor(Classify(targetCpa, cpaDelta).tone) == ExactlyOnTarget
  {
  }

  /** The direction determines the verdict, and the direction is "above"
      exactly when the panel leads with "running hot". */
  lemma DirectionDeterminesLead(targetCpa: real, cpaDelta: real)
    ensures var v := Classify(targetCpa, cpaDelta);
      (v.direction == Above <==> LeadFor(v.tone) == RunningHot)
      && (v.direction == Below <==> LeadFor(v.tone) == BeatingTarget)
      && (v.direction in {At, NotApplicable} <==> LeadFor(v.tone) == ExactlyOnTarget)
  {
  }
}
