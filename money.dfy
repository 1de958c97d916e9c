/** Exact decimal arithmetic of the services, on integers.
    Every amount is a BigDecimal of scale 2 in the source and an `int` number of
    cents here; a rate such as 0.05 is an `int` number of basis points (500). */
module Money {

  /** One unit (1.00) expressed in basis points. */
  const BASIS: int := 10000

  /** COMISION_DEPENDIENTE = 0.05, the collaborator commission rate. */
  const COMISION_DEPENDIENTE_BP: int := 500

  /** TREINTA_PORCIENTO = 0.30, the share of the salary an installment may take. */
  const TREINTA_PORCIENTO_BP: int := 3000

  /** n / d rounded to an integer with BigDecimal's HALF_UP: to the nearest
      integer, halves away from zero. */
  function RoundHalfUpDiv(n: int, d: int): (r: int)
    requires d > 0
    ensures n >= 0 ==> r >= 0 && 2 * d * r - d <= 2 * n < 2 * d * r + d
    ensures n < 0 ==> r <= 0 && 2 * d * r - d < 2 * n <= 2 * d * r + d
  {
    if n >= 0 then
      var q := (2 * n + d) / (2 * d);
      assert 2 * d * q <= 2 * n + d < 2 * d * q + 2 * d by {
        DivBounds(2 * n + d, 2 * d);
      }
      q
    else
      var q := (2 * -n + d) / (2 * d);
      assert 2 * d * q <= 2 * -n + d < 2 * d * q + 2 * d by {
        DivBounds(2 * -n + d, 2 * d);
      }
      -q
  }

  /** n / d rounded toward positive infinity (RoundingMode.CEILING at scale 0). */
  function CeilDiv(n: int, d: int): (r: int)
    requires d > 0
    ensures d * r - d < n <= d * r
  {
    var q := (-n) / d;
    DivBounds(-n, d);
    -q
  }

  /** Euclidean division bounds, stated once for the two rounding functions. */
  lemma DivBounds(a: int, b: int)
    requires b > 0
    ensures b * (a / b) <= a < b * (a / b) + b
  {
  }

  /** comision = monto × 0.05 at scale 2, HALF_UP: the cent nearest to 5% of
      the amount, halves rounded up. */
  function Comision(monto: int): (r: int)
    ensures monto >= 0 ==> 0 <= r && 20 * r - 10 <= monto < 20 * r + 10
  {
    RoundHalfUpDiv(monto * COMISION_DEPENDIENTE_BP, BASIS)
  }

  /** maxCuota = salario × 0.30 at scale 2, HALF_UP: the cent nearest to 30%
      of the salary, halves rounded up. */
  function MaxCuota(salario: int): (r: int)
    ensures salario >= 0 ==> 0 <= r && 20 * r - 10 <= 6 * salario < 20 * r + 10
  {
    RoundHalfUpDiv(salario * TREINTA_PORCIENTO_BP, BASIS)
  }

  /** The commission of a collaborator operation never exceeds the amount moved. */
  lemma ComisionAtMostMonto(monto: int)
    requires monto >= 0
    ensures 0 <= Comision(monto) <= monto
  {
  }

  /** Worked example: a 200.00 deposit earns a 10.00 commission. */
  lemma ComisionExample()
    ensures Comision(20000) == 1000
  {
  }

  /** Worked example: a salary of 500.00 allows an installment of 150.00. */
  lemma MaxCuotaExample()
    ensures MaxCuota(50000) == 15000
  {
  }
}
