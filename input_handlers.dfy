/** The three held inputs of the page and the change handlers of the text
    boxes and the slider that write them. */
module InputHandlers {
  import opened Wrappers
  import opened TipCalculator

  /** What a number box hands to its change handler: the empty string, or
      some text together with what `parseInt`/`parseFloat` made of it
      (`None` for NaN). */
  datatype TextEntry<+T> = Blank | Typed(parsed: Option<T>)

  /** The value the tip number box stores: empty or unparsable text gives 0,
      otherwise the parsed integer raised to at least 0, with no upper cap. */
  function CoerceTipEntry(entry: TextEntry<int>): (tip: int)
    ensures tip >= 0
    ensures entry.Blank? || entry.parsed.None? ==> tip == 0
    ensures entry.Typed? && entry.parsed.Some? ==>
              tip >= entry.parsed.value && (tip == entry.parsed.value || tip == 0)
  {
    var val := match entry
      case Blank => Some(0)
      case Typed(parsed) => parsed;
    var v := match val
      case None => 0
      case Some(x) => x;
    if v < 0 then 0 else v
  }

  /** A typed tip that is already a valid percentage, including one over
      100, is stored unchanged. */
  lemma TipEntryKeepsNonNegative(v: int)
    requires v >= 0
    ensures CoerceTipEntry(Typed(Some(v))) == v
  {
  }

  /** The page's held inputs. */
  class CalculatorInputs {
    var billAmount: NumberOrNull<real>
    var tipPercentage: int
    var numberOfPeople: NumberOrNull<int>

    /** The stored tip is never negative and the stored party size is never NaN. */
    ghost predicate Valid()
      reads this
    {
      tipPercentage >= 0 && !numberOfPeople.NaN?
    }

    /** The initial state: no bill, 0% tip, one person. */
    constructor ()
      ensures Valid()
      ensures billAmount == Null && tipPercentage == 0 && numberOfPeople == Num(1)
    {
      billAmount := Null;
      tipPercentage := 0;
      numberOfPeople := Num(1);
    }

    /** The bill box: empty text clears the bill; any other text is stored as
        parsed, NaN included. */
    method SetBillAmount(entry: TextEntry<real>)
      requires Valid()
      modifies this
      ensures Valid()
      ensures entry.Blank? ==> billAmount == Null
      ensures entry.Typed? && entry.parsed.None? ==> billAmount == NaN
      ensures entry.Typed? && entry.parsed.Some? ==> billAmount == Num(entry.parsed.value)
      ensures tipPercentage == old(tipPercentage) && numberOfPeople == old(numberOfPeople)
    {
      billAmount := match entry
        case Blank => Null
        case Typed(None) => NaN
        case Typed(Some(x)) => Num(x);
    }

    /** The range slider: its value is an integer between its `min` and `max`
        attributes, stored as is. */
    method SetTipFromSlider(value: int)
      requires Valid()
      requires 0 <= value <= 100
      modifies this
      ensures Valid()
      ensures tipPercentage == value
      ensures billAmount == old(billAmount) && numberOfPeople == old(numberOfPeople)
    {
      tipPercentage := value;
    }

    /** The tip number box. */
    method SetTipFromBox(entry: TextEntry<int>)
      requires Valid()
      modifies this
      ensures Valid()
      ensures tipPercentage == CoerceTipEntry(entry)
      ensures billAmount == old(billAmount) && numberOfPeople == old(numberOfPeople)
    {
      tipPercentage := CoerceTipEntry(entry);
    }

    /** The party-size box: empty text clears the party size, unparsable text
        leaves it as it was, and any parsed integer (0 and negatives included)
        is stored as is. */
    method SetNumberOfPeople(entry: TextEntry<int>)
      requires Valid()
      modifies this
      ensures Valid()
      ensures entry.Blank? ==> numberOfPeople == Null
      ensures entry.Typed? && entry.parsed.None? ==> numberOfPeople == old(numberOfPeople)
      ensures entry.Typed? && entry.parsed.Some? ==> numberOfPeople == Num(entry.parsed.value)
      ensures billAmount == old(billAmount) && tipPercentage == old(tipPercentage)
    {
      match entry {
        case Blank =>
          numberOfPeople := Null;
        case Typed(parsed) =>
          if parsed.Some? {
            numberOfPeople := Num(parsed.value);
          }
      }
    }

    /** The result shown on every render. In any reachable state the tip is
        non-negative, the total covers bill and tip, and the share is
        'Invalid' exactly when the stored party size is not positive. */
    function Result(): (r: Calculation)
      reads this
      requires Valid()
      ensures r.tipAmount >= 0.0 && r.totalBill >= r.tipAmount
      ensures r.totalBill >= NormalizeBill(billAmount)
      ensures r.amountPerPerson.Invalid? <==> !(numberOfPeople.Num? && numberOfPeople.value > 0)
    {
      TipAndTotalBounds(billAmount, tipPercentage, numberOfPeople);
      InvalidExactlyWithoutParty(billAmount, tipPercentage, numberOfPeople);
      CalculateTip(billAmount, tipPercentage, numberOfPeople)
    }
  }
}
