/**
 * The sentiment advisor of app.py: `analyze_sentiment` sorts a polarity score
 * into one of five ordered bands, and `provide_coping_strategy` maps the band's
 * label to a fixed coping sentence, with a generic fallback for any other text.
 *
 * The polarity itself comes from a foreign scoring library and is taken as a
 * given `real`; the code only compares it with constants.
 */
module SentimentAdvisor {

  /** The five sentiment bands, most positive first. */
  datatype Sentiment = VeryPositive | Positive | Neutral | Negative | VeryNegative

  /** The label shown to the user for each band, emoji included. */
  function Label(s: Sentiment): string
  {
    match s
    case VeryPositive => "Very Positive \U{1F60A}"
    case Positive => "Positive \U{1F642}"
    case Neutral => "Neutral \U{1F610}"
    case Negative => "Negative \U{1F61F}"
    case VeryNegative => "Very Negative \U{1F622}"
  }

  /** The place of a band in the order of polarities, most negative first. */
  function Rank(s: Sentiment): nat
  {
    match s
    case VeryNegative => 0
    case Negative => 1
    case Neutral => 2
    case Positive => 3
    case VeryPositive => 4
  }

  /** The polarities each band covers, as closed or open intervals. */
  predicate InBand(s: Sentiment, p: real)
  {
    match s
    case VeryPositive => 0.5 < p
    case Positive => 0.1 < p <= 0.5
    case Neutral => -0.1 <= p <= 0.1
    case Negative => -0.5 < p < -0.1
    case VeryNegative => p <= -0.5
  }

  /** The if/elif chain of `analyze_sentiment`, giving the band. */
  function Classify(polarity: real): (s: Sentiment)
    ensures InBand(s, polarity)
  {
    if polarity > 0.5 then VeryPositive
    else if 0.1 < polarity <= 0.5 then Positive
    else if -0.1 <= polarity <= 0.1 then Neutral
    else if -0.5 < polarity < -0.1 then Negative
    else VeryNegative
  }

  /**
   * `analyze_sentiment` on a given polarity: the label of exactly the band the
   * polarity falls in, and the polarity unchanged.
   */
  function AnalyzeSentiment(polarity: real): (r: (string, real))
    ensures r.1 == polarity
    ensures forall s :: r.0 == Label(s) <==> InBand(s, polarity)
  {
    var s := Classify(polarity);
    LabelInjective(s);
    BandsDisjoint(polarity);
    (Label(s), polarity)
  }

  /** Different bands have different labels. */
  lemma LabelInjective(s: Sentiment)
    ensures forall t :: Label(t) == Label(s) ==> t == s
  {
  }

  /** No polarity lies in two bands. */
  lemma BandsDisjoint(p: real)
    ensures forall s, t :: InBand(s, p) && InBand(t, p) ==> s == t
  {
  }

  /** The bands are exhaustive and non-overlapping: `Classify` picks the one band of `p`. */
  lemma ClassifyIsTheBand(p: real, s: Sentiment)
    ensures Classify(p) == s <==> InBand(s, p)
  {
  }

  /** A higher polarity never gives a lower band. */
  lemma ClassifyMonotone(p: real, q: real)
    requires p <= q
    ensures Rank(Classify(p)) <= Rank(Classify(q))
  {
  }

  /** The boundary polarities fall in the bands the comparisons imply. */
  lemma Boundaries()
    ensures Classify(0.5) == Positive
    ensures Classify(0.1) == Neutral
    ensures Classify(-0.1) == Neutral
    ensures Classify(-0.5) == VeryNegative
  {
  }

  /** The generic encouragement returned for an unknown label. */
  const Fallback := "You're doing great, keep going!"

  /** The coping sentence for each band. */
  function Tip(s: Sentiment): string
  {
    match s
    case VeryPositive => "Keep up the positive vibes! Consider sharing your good mood with others."
    case Positive => "It's great to see you're feeling positive. Keep doing what you're doing!"
    case Neutral => "Feeling neutral is okay. Consider engaging in activities you enjoy."
    case Negative => "It seems you're feeling down. Try to take a break and do something relaxing."
    case VeryNegative => "I'm sorry to hear that you're feeling very negative. Consider talking to a friend or seeking professional help."
  }

  /** The dictionary of `provide_coping_strategy`, keyed by label text. */
  const Strategies: map<string, string> := map[
    "Very Positive \U{1F60A}" := "Keep up the positive vibes! Consider sharing your good mood with others.",
    "Positive \U{1F642}" := "It's great to see you're feeling positive. Keep doing what you're doing!",
    "Neutral \U{1F610}" := "Feeling neutral is okay. Consider engaging in activities you enjoy.",
    "Negative \U{1F61F}" := "It seems you're feeling down. Try to take a break and do something relaxing.",
    "Very Negative \U{1F622}" := "I'm sorry to hear that you're feeling very negative. Consider talking to a friend or seeking professional help."
  ]

  /**
   * `provide_coping_strategy`: the label of a band gets that band's sentence;
   * any other text gets the fallback.
   */
  function ProvideCopingStrategy(sentiment: string): (tip: string)
    ensures forall s :: sentiment == Label(s) ==> tip == Tip(s)
    ensures (forall s :: sentiment != Label(s)) ==> tip == Fallback
  {
    StrategiesKeyedByLabel();
    if sentiment in Strategies then Strategies[sentiment] else Fallback
  }

  /** The dictionary holds exactly the five labels, each with its band's sentence. */
  lemma StrategiesKeyedByLabel()
    ensures forall s :: Label(s) in Strategies && Strategies[Label(s)] == Tip(s)
    ensures forall key :: key in Strategies ==> exists s :: key == Label(s)
  {
    assert Label(VeryPositive) in Strategies;
    assert Label(Positive) in Strategies;
    assert Label(Neutral) in Strategies;
    assert Label(Negative) in Strategies;
    assert Label(VeryNegative) in Strategies;
  }

  /** The fallback is returned exactly for text that is no band's label. */
  lemma FallbackOnlyForUnknown(sentiment: string)
    ensures ProvideCopingStrategy(sentiment) == Fallback <==> forall s :: sentiment != Label(s)
  {
  }

  /** After `analyze_sentiment` the fallback is never reached. */
  lemma AnalyzedLabelHasTip(polarity: real)
    ensures ProvideCopingStrategy(AnalyzeSentiment(polarity).0) == Tip(Classify(polarity))
    ensures ProvideCopingStrategy(AnalyzeSentiment(polarity).0) != Fallback
  {
  }
}
