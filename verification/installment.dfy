/** The installment simulator of the product page: a fixed table of monthly
    card-gateway rates and the computation of installment, total paid and
    interest for a price, a number of installments and a down payment.
    Amounts are exact reals; floating-point rounding is not modelled. */
module Installment {

  /** `TAXAS_GATEWAY[parcelas] || 0`: the monthly rate in percent for 1 to
      12 installments, and 0 for any other count. */
  function GatewayRate(parcelas: int): (rate: real)
    ensures 1 <= parcelas <= 12 ==> 5.99 <= rate <= 18.79
    ensures !(1 <= parcelas <= 12) ==> rate == 0.0
  {
    match parcelas
    case 1 => 5.99
    case 2 => 11.39
    case 3 => 12.49
    case 4 => 13.09
    case 5 => 13.79
    case 6 => 14.49
    case 7 => 15.49
    case 8 => 16.09
    case 9 => 16.69
    case 10 => 17.39
    case 11 => 18.39
    case 12 => 18.79
    case _ => 0.0
  }

  /** The rates grow with the number of installments. */
  lemma GatewayRateIncreasing(m: int, n: int)
    requires 1 <= m < n <= 12
    ensures GatewayRate(m) < GatewayRate(n)
  {
  }

  /** `i`: the table rate as a fraction. */
  function MonthlyRate(parcelas: int): (i: real)
    ensures 1 <= parcelas <= 12 ==> i > 0.0
    ensures !(1 <= parcelas <= 12) ==> i == 0.0
  {
    GatewayRate(parcelas) / 100.0
  }

  /** `Math.pow(x, n)` for a natural exponent. */
  function Pow(x: real, n: nat): real
  {
    if n == 0 then 1.0 else x * Pow(x, n - 1)
  }

  /** `1 + x + ... + x^(n-1)`. */
  function GeomSum(x: real, n: nat): real
  {
    if n == 0 then 0.0 else GeomSum(x, n - 1) + Pow(x, n - 1)
  }

  /** Multiplying by a positive factor keeps a strict order. */
  lemma MulMonotone(a: real, b: real, c: real)
    requires a > 0.0 && b < c
    ensures a * b < a * c
  {
  }

  /** Multiplying by a non-negative factor keeps a weak order. */
  lemma MulMonotoneWeak(a: real, b: real, c: real)
    requires a >= 0.0 && b <= c
    ensures a * b <= a * c
  {
  }

  /** A positive common factor can be cancelled from a strict order. */
  lemma MulCancel(a: real, b: real, d: real)
    requires d > 0.0 && a * d > b * d
    ensures a > b
  {
  }

  /** A base above one raised to a positive power stays above one. */
  lemma {:induction false} PowAboveOne(x: real, n: nat)
    requires x > 1.0 && n >= 1
    ensures Pow(x, n) > 1.0
  {
    if n > 1 {
      PowAboveOne(x, n - 1);
      MulMonotone(Pow(x, n - 1), 1.0, x);
    }
  }

  /** `(1 + i)^n - 1 == i * (1 + (1 + i) + ... + (1 + i)^(n-1))`. */
  lemma {:induction false} PowMinusOne(i: real, n: nat)
    ensures Pow(1.0 + i, n) - 1.0 == i * GeomSum(1.0 + i, n)
  {
    if n > 0 {
      PowMinusOne(i, n - 1);
    }
  }

  /** Each of the `n` terms of the geometric sum is below `x^n`. */
  lemma {:induction false} GeomSumBelow(x: real, n: nat)
    requires x > 1.0 && n >= 1
    ensures 0.0 < GeomSum(x, n) < (n as real) * Pow(x, n)
  {
    if n == 1 {
      assert GeomSum(x, 1) == 1.0;
      assert Pow(x, 1) == x;
    } else {
      var s, p, q := GeomSum(x, n - 1), Pow(x, n - 1), Pow(x, n);
      var m: real := (n - 1) as real;
      GeomSumBelow(x, n - 1);
      if n - 1 >= 1 { PowAboveOne(x, n - 1); }
      MulMonotone(p, 1.0, x);
      assert p < q;
      MulMonotoneWeak(m, p, q);
      assert (n as real) == m + 1.0;
    }
  }

  /** The arithmetic core of the annuity: with `f - 1 == i * s` and
      `s < n * f`, an installment `v` with `v * (f - 1) == p * f * i`
      repaid `n` times exceeds the principal `p`. */
  lemma AnnuityExceedsPrincipal(p: real, i: real, f: real, s: real, n: real, v: real)
    requires p > 0.0 && i > 0.0 && f > 1.0 && s > 0.0
    requires s < n * f && f - 1.0 == i * s
    requires v * (f - 1.0) == p * (f * i)
    ensures v * n > p
  {
    assert v * (i * s) == p * (f * i);
    assert v * s == p * f;
    assert v > 0.0;
    MulMonotone(v, s, n * f);
    MulCancel(v * n, p, f);
  }

  /** The fixed installment that repays `financed` in `n` payments at the
      monthly rate `i`: `financed * (f * i) / (f - 1)` with `f = (1 + i)^n`,
      whose divisor is positive. */
  function AnnuityInstallment(financed: real, i: real, n: nat): (v: real)
    requires i > 0.0 && n >= 1
    ensures Pow(1.0 + i, n) > 1.0
    ensures v * (Pow(1.0 + i, n) - 1.0) == financed * (Pow(1.0 + i, n) * i)
  {
    var f := Pow(1.0 + i, n);
    PowAboveOne(1.0 + i, n);
    financed * (f * i) / (f - 1.0)
  }

  /** The growth factor `f = (1 + i)^n` and the geometric sum `s` at a
      positive rate: `f - 1 == i * s` and `0 < s < n * f`. */
  lemma AnnuityFactors(i: real, n: nat)
    requires i > 0.0 && n >= 1
    ensures Pow(1.0 + i, n) - 1.0 == i * GeomSum(1.0 + i, n)
    ensures 0.0 < GeomSum(1.0 + i, n) < (n as real) * Pow(1.0 + i, n)
  {
    PowMinusOne(i, n);
    GeomSumBelow(1.0 + i, n);
  }

  /** At a positive rate the `n` installments together repay more than
      the amount financed. */
  lemma AnnuityRepaysMore(financed: real, i: real, n: nat)
    requires financed > 0.0 && i > 0.0 && n >= 1
    ensures AnnuityInstallment(financed, i, n) * (n as real) > financed
  {
    AnnuityFactors(i, n);
    AnnuityExceedsPrincipal(financed, i, Pow(1.0 + i, n), GeomSum(1.0 + i, n), n as real,
                            AnnuityInstallment(financed, i, n));
  }

  /** The three branches of the computation. */
  datatype Branch = NothingFinanced | SimpleDivision | Annuity

  /** What the simulator shows. */
  datatype Calculation = Calculation(
    valorParcela: real,    // one installment
    totalPago: real,       // down payment plus all installments
    totalJuros: real,      // interest paid
    valorFinanciado: real, // amount financed after the down payment
    taxaGateway: real)     // the table rate shown next to the count

  /** `Math.max(0, preco - valorEntrada)`. */
  function Financed(preco: real, valorEntrada: real): (f: real)
    ensures f >= 0.0
    ensures f >= preco - valorEntrada
    ensures f == 0.0 || f == preco - valorEntrada
  {
    if preco - valorEntrada > 0.0 then preco - valorEntrada else 0.0
  }

  /** Which branch `calculo` takes: nothing financed first, then a zero
      rate or a single installment, otherwise the annuity formula. */
  function BranchOf(preco: real, parcelas: int, valorEntrada: real): (b: Branch)
    ensures b == NothingFinanced <==> valorEntrada >= preco
    ensures b == Annuity <==> valorEntrada < preco && 2 <= parcelas <= 12
  {
    if Financed(preco, valorEntrada) == 0.0 then NothingFinanced
    else if MonthlyRate(parcelas) == 0.0 || parcelas == 1 then SimpleDivision
    else Annuity
  }

  /** `calculo`. The count comes from a slider that starts at 1, so it is
      at least 1 (a count of 0 would divide by zero). */
  function Calculate(preco: real, parcelas: int, valorEntrada: real): (c: Calculation)
    requires parcelas >= 1
    ensures c.valorFinanciado == Financed(preco, valorEntrada)
    ensures c.taxaGateway == GatewayRate(parcelas)
  {
    var valorFinanciado := Financed(preco, valorEntrada);
    var taxaGateway := GatewayRate(parcelas);
    var i := MonthlyRate(parcelas);
    match BranchOf(preco, parcelas, valorEntrada)
    case NothingFinanced =>
      Calculation(0.0, valorEntrada, 0.0, valorFinanciado, taxaGateway)
    case SimpleDivision =>
      Calculation(valorFinanciado / (parcelas as real), valorEntrada + valorFinanciado, 0.0,
                  valorFinanciado, taxaGateway)
    case Annuity =>
      var valorParcela := AnnuityInstallment(valorFinanciado, i, parcelas);
      var totalPago := valorEntrada + valorParcela * (parcelas as real);
      Calculation(valorParcela, totalPago, totalPago - preco, valorFinanciado, taxaGateway)
  }

  /** Nothing financed: no installment, the down payment is all that is
      paid, and there is no interest. */
  lemma NothingFinancedResult(preco: real, parcelas: int, valorEntrada: real)
    requires parcelas >= 1 && valorEntrada >= preco
    ensures Calculate(preco, parcelas, valorEntrada).valorParcela == 0.0
    ensures Calculate(preco, parcelas, valorEntrada).totalPago == valorEntrada
    ensures Calculate(preco, parcelas, valorEntrada).totalJuros == 0.0
  {
  }

  /** A zero rate (a count above 12) or a single installment: the financed
      amount is divided evenly, the total is down payment plus financed
      amount, and no interest is charged. */
  lemma SimpleDivisionResult(preco: real, parcelas: int, valorEntrada: real)
    requires valorEntrada < preco
    requires parcelas == 1 || parcelas > 12
    ensures Calculate(preco, parcelas, valorEntrada).valorParcela * (parcelas as real) == preco - valorEntrada
    ensures Calculate(preco, parcelas, valorEntrada).totalPago == preco
    ensures Calculate(preco, parcelas, valorEntrada).totalJuros == 0.0
  {
  }

  /** The single installment carries the table's 5.99% as its reported
      rate, yet the fast path charges no interest on it. */
  lemma SingleInstallmentIgnoresRate(preco: real, valorEntrada: real)
    requires valorEntrada < preco
    ensures Calculate(preco, 1, valorEntrada).taxaGateway == 5.99
    ensures Calculate(preco, 1, valorEntrada).totalJuros == 0.0
    ensures Calculate(preco, 1, valorEntrada).valorParcela == preco - valorEntrada
  {
  }

  /** The annuity branch: the installment is the annuity of the amount
      financed at the table's monthly rate, and the totals follow from it. */
  lemma AnnuityResult(preco: real, parcelas: int, valorEntrada: real)
    requires valorEntrada < preco && 2 <= parcelas <= 12
    ensures var c := Calculate(preco, parcelas, valorEntrada);
            && MonthlyRate(parcelas) > 0.0
            && c.valorParcela == AnnuityInstallment(preco - valorEntrada, MonthlyRate(parcelas), parcelas)
            && c.totalPago == valorEntrada + c.valorParcela * (parcelas as real)
            && c.totalJuros == c.totalPago - preco
  {
  }

  /** In the annuity branch interest is strictly positive: the installments
      together repay more than the amount financed. */
  lemma AnnuityChargesInterest(preco: real, parcelas: int, valorEntrada: real)
    requires valorEntrada < preco && 2 <= parcelas <= 12
    ensures Calculate(preco, parcelas, valorEntrada).valorParcela * (parcelas as real) > preco - valorEntrada
    ensures Calculate(preco, parcelas, valorEntrada).totalJuros > 0.0
  {
    AnnuityResult(preco, parcelas, valorEntrada);
    AnnuityRepaysMore(preco - valorEntrada, MonthlyRate(parcelas), parcelas);
  }

  /** The identities the result always satisfies: the total is the down
      payment plus every installment, and, once the down payment is
      clamped to the price as the input does, interest is the total minus
      the price. */
  lemma TotalsIdentity(preco: real, parcelas: int, valorEntrada: real)
    requires parcelas >= 1
    ensures var c := Calculate(preco, parcelas, valorEntrada);
            c.totalPago == valorEntrada + c.valorParcela * (parcelas as real)
    ensures valorEntrada <= preco ==>
              var c := Calculate(preco, parcelas, valorEntrada);
              c.totalJuros == c.totalPago - preco
  {
  }

  /** `Math.min(Number(value), preco)`: the down-payment input never exceeds
      the price; a value within the price is taken as typed. */
  function ClampEntry(typed: real, preco: real): (v: real)
    ensures v <= preco
    ensures v == typed || v == preco
    ensures typed <= preco ==> v == typed
  {
    if typed < preco then typed else preco
  }

  /** With the clamped down payment, the total paid minus the interest is
      the price in every branch. */
  lemma ClampedTotals(preco: real, parcelas: int, typed: real)
    requires parcelas >= 1
    ensures var c := Calculate(preco, parcelas, ClampEntry(typed, preco));
            c.totalPago - c.totalJuros == preco
  {
    TotalsIdentity(preco, parcelas, ClampEntry(typed, preco));
  }
}
