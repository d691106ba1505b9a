/** The pure calculation behind the page: `calculateTip` together with the
    fallbacks it applies to the held bill amount and party size. */
module TipCalculator {
  import opened Wrappers

  /** The per-person share: either the marker 'Invalid' or an amount. The
      amount is kept exact; its two-decimal formatting is not modelled. */
  datatype PerPerson = Invalid | Share(amount: real)

  /** The record `calculateTip` returns. */
  datatype Calculation = Calculation(tipAmount: real, totalBill: real, amountPerPerson: PerPerson)

  /** `currentBillAmount`: a missing, NaN or negative bill counts as 0. */
  function NormalizeBill(billAmount: NumberOrNull<real>): (bill: real)
    ensures bill >= 0.0
    ensures billAmount.Num? && billAmount.value >= 0.0 ==> bill == billAmount.value
    ensures !(billAmount.Num? && billAmount.value >= 0.0) ==> bill == 0.0
  {
    match billAmount
    case Null => 0.0
    case NaN => 0.0
    case Num(x) => if x < 0.0 then 0.0 else x
  }

  /** `currentNumPeople`: a missing, NaN or non-positive party size counts as 0. */
  function NormalizePeople(numberOfPeople: NumberOrNull<int>): (people: int)
    ensures people >= 0
    ensures people > 0 <==> numberOfPeople.Num? && numberOfPeople.value > 0
    ensures people > 0 ==> people == numberOfPeople.value
  {
    match numberOfPeople
    case Null => 0
    case NaN => 0
    case Num(n) => if n <= 0 then 0 else n
  }

  /** `calculateTip`, including the early return guarded by
      `currentBillAmount < 0`, which no input reaches (see EarlyReturnUnreachable). */
  function CalculateTip(billAmount: NumberOrNull<real>, tipPercentage: int,
                        numberOfPeople: NumberOrNull<int>): (r: Calculation)
  {
    var currentBillAmount := NormalizeBill(billAmount);
    var currentNumPeople := NormalizePeople(numberOfPeople);
    if currentBillAmount < 0.0 then
      Calculation(0.0, 0.0, if currentNumPeople <= 0 then Invalid else Share(0.0))
    else
      var tipAmount := currentBillAmount * (tipPercentage as real / 100.0);
      var totalBill := currentBillAmount + tipAmount;
      var amountPerPerson :=
        if currentNumPeople <= 0 then Invalid else Share(totalBill / currentNumPeople as real);
      Calculation(tipAmount, totalBill, amountPerPerson)
  }

  /** The guard of the early return is false for every input, so the
      normal path always produces the result. */
  lemma EarlyReturnUnreachable(billAmount: NumberOrNull<real>)
    ensures !(NormalizeBill(billAmount) < 0.0)
  {
  }

  /** Tip and total follow their equations for every input, whether or not
      the party size is valid. */
  lemma TipAndTotalEquations(billAmount: NumberOrNull<real>, tipPercentage: int,
                             numberOfPeople: NumberOrNull<int>)
    ensures var r := CalculateTip(billAmount, tipPercentage, numberOfPeople);
            var bill := NormalizeBill(billAmount);
            && r.tipAmount * 100.0 == bill * tipPercentage as real
            && r.totalBill == bill + r.tipAmount
  {
  }

  /** With a non-negative tip percentage the tip is non-negative and the
      total is at least the bill. */
  lemma TipAndTotalBounds(billAmount: NumberOrNull<real>, tipPercentage: int,
                          numberOfPeople: NumberOrNull<int>)
    requires tipPercentage >= 0
    ensures var r := CalculateTip(billAmount, tipPercentage, numberOfPeople);
            && r.tipAmount >= 0.0
            && r.totalBill >= NormalizeBill(billAmount)
            && r.totalBill >= r.tipAmount
  {
    var bill := NormalizeBill(billAmount);
    var p := tipPercentage as real / 100.0;
    assert p >= 0.0;
    assert bill * p >= 0.0;
  }

  /** The share is 'Invalid' exactly when the party size is not a positive
      number; bill and tip play no part in that decision. */
  lemma InvalidExactlyWithoutParty(billAmount: NumberOrNull<real>, tipPercentage: int,
                                   numberOfPeople: NumberOrNull<int>)
    ensures CalculateTip(billAmount, tipPercentage, numberOfPeople).amountPerPerson.Invalid?
            <==> NormalizePeople(numberOfPeople) <= 0
    ensures CalculateTip(billAmount, tipPercentage, numberOfPeople).amountPerPerson.Invalid?
            <==> !(numberOfPeople.Num? && numberOfPeople.value > 0)
  {
  }

  /** Whether the share is 'Invalid' does not depend on bill or tip. */
  lemma InvalidIndependentOfBillAndTip(bill1: NumberOrNull<real>, tip1: int,
                                       bill2: NumberOrNull<real>, tip2: int,
                                       numberOfPeople: NumberOrNull<int>)
    ensures CalculateTip(bill1, tip1, numberOfPeople).amountPerPerson.Invalid?
            == CalculateTip(bill2, tip2, numberOfPeople).amountPerPerson.Invalid?
  {
    InvalidExactlyWithoutParty(bill1, tip1, numberOfPeople);
    InvalidExactlyWithoutParty(bill2, tip2, numberOfPeople);
  }

  /** For a valid party size the share is the total split evenly. */
  lemma ShareSplitsTotal(billAmount: NumberOrNull<real>, tipPercentage: int, n: int)
    requires n > 0
    ensures var r := CalculateTip(billAmount, tipPercentage, Num(n));
            r.amountPerPerson.Share? && r.amountPerPerson.amount * n as real == r.totalBill
  {
  }

  /** For a fixed bill and non-negative tip the share does not grow as the
      party grows. */
  lemma ShareNonIncreasing(billAmount: NumberOrNull<real>, tipPercentage: int, n1: int, n2: int)
    requires 0 < n1 <= n2
    requires tipPercentage >= 0
    ensures var r1 := CalculateTip(billAmount, tipPercentage, Num(n1));
            var r2 := CalculateTip(billAmount, tipPercentage, Num(n2));
            r1.amountPerPerson.Share? && r2.amountPerPerson.Share?
            && r2.amountPerPerson.amount <= r1.amountPerPerson.amount
  {
    TipAndTotalBounds(billAmount, tipPercentage, Num(n1));
    DivisionNonIncreasing(CalculateTip(billAmount, tipPercentage, Num(n1)).totalBill, n1 as real, n2 as real);
  }

  /** Dividing a non-negative amount by a larger divisor gives a smaller quotient. */
  lemma DivisionNonIncreasing(total: real, a: real, b: real)
    requires total >= 0.0 && 0.0 < a <= b
    ensures total / b <= total / a
  {
    var qa, qb := total / a, total / b;
    assert qa * a == total && qb * b == total;
    assert qb >= 0.0;
    assert qb * a <= qb * b;
  }

  /** Already-normal values pass through the fallbacks unchanged. */
  lemma NormalizationIdempotent(billAmount: NumberOrNull<real>, numberOfPeople: NumberOrNull<int>)
    ensures NormalizeBill(Num(NormalizeBill(billAmount))) == NormalizeBill(billAmount)
    ensures NormalizePeople(Num(NormalizePeople(numberOfPeople))) == NormalizePeople(numberOfPeople)
  {
  }

  /** Worked examples: a plain split, an unset bill, an empty party and a tip over 100%. */
  lemma Examples()
    ensures CalculateTip(Num(100.0), 20, Num(4)) == Calculation(20.0, 120.0, Share(30.0))
    ensures CalculateTip(Null, 15, Num(2)) == Calculation(0.0, 0.0, Share(0.0))
    ensures CalculateTip(Num(50.0), 10, Null) == Calculation(5.0, 55.0, Invalid)
    ensures CalculateTip(Num(50.0), 10, Num(0)) == Calculation(5.0, 55.0, Invalid)
    ensures CalculateTip(Num(30.0), 150, Num(3)) == Calculation(45.0, 75.0, Share(25.0))
  {
  }
}
