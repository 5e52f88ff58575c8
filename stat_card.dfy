/**
 * The figure card (src/components/StatCard.jsx): the unit shown around a
 * figure is chosen from the card's title.
 */
module StatCard {
  import opened Text

  /** The text shown before and after the figure. */
  datatype Affixes = Affixes(prefix: string, suffix: string)

  const CurrencyAffixes := Affixes("KSh ", "")
  const PercentAffixes := Affixes("", "%")
  const PlainAffixes := Affixes("", "")

  /** The lower-cased title contains `word` somewhere. */
  ghost predicate Mentions(title: string, word: string) {
    exists i :: OccursAt(Lower(title), word, i)
  }

  /**
   * `getPrefixSuffix`: a title mentioning "payment" in any case is an
   * amount in shillings; otherwise one mentioning "rate" is a percentage;
   * otherwise the figure is bare. "payment" is tested first, so it wins.
   */
  function GetPrefixSuffix(title: string): (r: Affixes)
    ensures Mentions(title, "payment") ==> r == CurrencyAffixes
    ensures !Mentions(title, "payment") && Mentions(title, "rate") ==> r == PercentAffixes
    ensures !Mentions(title, "payment") && !Mentions(title, "rate") ==> r == PlainAffixes
  {
    assert Lower("payment") == "payment";
    assert Lower("rate") == "rate";
    if IncludesIgnoreCase(title, "payment") then CurrencyAffixes
    else if IncludesIgnoreCase(title, "rate") then PercentAffixes
    else PlainAffixes
  }

  /** A title with both words is a currency amount. */
  lemma PaymentRateIsCurrency()
    ensures GetPrefixSuffix("Payment Rate") == CurrencyAffixes
  {
    var t := Lower("Payment Rate");
    assert t[..7] == "payment";
    assert OccursAt(t, "payment", 0);
  }

  /** "rate" is matched anywhere inside a word, so "Moderate" counts as a percentage. */
  lemma RateInsideWord()
    ensures GetPrefixSuffix("Moderate") == PercentAffixes
  {
    var t := Lower("Moderate");
    assert t == "moderate";
    assert OccursAt(t, "rate", 4);
    forall i | 0 <= i && i + 7 <= |t|
      ensures !OccursAt(t, "payment", i)
    {
      assert t[i..i + 7][0] == t[i] != 'p';
    }
  }

  /** A title with neither word gets no prefix or suffix. */
  lemma PlainTitle()
    ensures GetPrefixSuffix("Loans") == PlainAffixes
  {
    var t := Lower("Loans");
    assert t == "loans";
    assert forall i :: !OccursAt(t, "payment", i);
    forall i | 0 <= i && i + 4 <= |t|
      ensures !OccursAt(t, "rate", i)
    {
      assert t[i..i + 4][0] == t[i] != 'r';
    }
  }
}
