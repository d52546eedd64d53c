/**
 * The counter card (`NumeroUnicoApartado`): a number that starts at 0 and
 * changes with three buttons, "+1", "/2" and "Generar".
 */
module Counter {

  /** A button press; a "Generar" press carries the random draw it makes. */
  datatype Press = PlusOne | Halve | Generate(draw: int)

  /** `Random.nextInt(0, 100)` draws from [0, 99]. */
  predicate ValidPress(p: Press) {
    p.Generate? ==> 0 <= p.draw < 100
  }

  /** The counter's bounds, from its start value 0 and the "+1" cap. */
  predicate InRange(n: int) {
    0 <= n <= 100
  }

  /** Kotlin's `Int / 2`: the quotient truncated toward zero. */
  function TruncHalf(n: int): (h: int)
    ensures n >= 0 ==> 0 <= n - 2 * h <= 1
    ensures n < 0 ==> -1 <= n - 2 * h <= 0
  {
    if n >= 0 then n / 2 else -((-n) / 2)
  }

  /** The counter after one press. */
  function Next(n: int, p: Press): (m: int)
    ensures p.PlusOne? ==> (m == n + 1 <==> n < 100) && (m != n + 1 ==> m == n)
    ensures p.Halve? && n >= 0 ==> 0 <= m <= n
    ensures InRange(n) && ValidPress(p) ==> InRange(m)
  {
    match p
    case PlusOne => if n < 100 then n + 1 else n
    case Halve => TruncHalf(n)
    case Generate(d) => d
  }

  /** The counter after a run of presses. */
  function Run(n: int, presses: seq<Press>): int
    decreases |presses|
  {
    if presses == [] then n else Run(Next(n, presses[0]), presses[1..])
  }

  /** From 0 (or any value in range), no run of presses leaves [0, 100]. */
  lemma {:induction false} RunStaysInRange(n: int, presses: seq<Press>)
    requires InRange(n)
    requires forall i :: 0 <= i < |presses| ==> ValidPress(presses[i])
    ensures InRange(Run(n, presses))
    decreases |presses|
  {
    if presses != [] {
      RunStaysInRange(Next(n, presses[0]), presses[1..]);
    }
  }

  class NumeroUnico {
    /** The number on the card. */
    var numero: int

    constructor ()
      ensures numero == 0 && InRange(numero)
    {
      numero := 0;
    }

    /** "+1": counts up, but never past 100. */
    method PlusOne()
      modifies this
      ensures numero == Next(old(numero), Press.PlusOne)
      ensures old(InRange(numero)) ==> InRange(numero)
    {
      if numero < 100 {
        numero := numero + 1;
      }
    }

    /** "/2": halves the number (`numero /= 2`). */
    method Halve()
      modifies this
      ensures numero == Next(old(numero), Press.Halve)
      ensures old(InRange(numero)) ==> InRange(numero)
    {
      numero := TruncHalf(numero);
    }

    /** "Generar": the number becomes the draw. */
    method Generate(draw: int)
      requires 0 <= draw < 100
      modifies this
      ensures numero == Next(old(numero), Press.Generate(draw))
      ensures InRange(numero)
    {
      numero := draw;
    }
  }
}
