/**
 * The comparison card (`ComparacionNumerosApartado`): two random numbers A
 * and B and a sentence naming the larger one.
 */
module Comparison {
  import opened KotlinText

  const A_IS_LARGER: string := "El número mayor es: A ("
  const B_IS_LARGER: string := "El número mayor es: B ("
  const BOTH_EQUAL: string := "Ambos son iguales ("

  function Max(a: int, b: int): int {
    if a >= b then a else b
  }

  /** A text that starts with one opening cannot start with an opening that differs from it. */
  lemma OpeningsExclude(p: string, q: string, rest: string, i: nat)
    requires i < |p| && i < |q| && p[i] != q[i]
    ensures !(q <= p + rest)
  {
    assert (p + rest)[i] == p[i];
  }

  /**
   * The verdict sentence: exactly one of the three openings, chosen by the
   * comparison, followed by the larger number (either, when equal) in brackets.
   */
  function Verdict(a: int, b: int): (sentence: string)
    ensures A_IS_LARGER <= sentence <==> a > b
    ensures B_IS_LARGER <= sentence <==> b > a
    ensures BOTH_EQUAL <= sentence <==> a == b
    ensures var shown := IntToString(Max(a, b)) + ")";
            |shown| <= |sentence| && sentence[|sentence| - |shown|..] == shown
  {
    if a > b then
      var rest := IntToString(a) + ")";
      OpeningsExclude(A_IS_LARGER, B_IS_LARGER, rest, 20);
      OpeningsExclude(A_IS_LARGER, BOTH_EQUAL, rest, 0);
      A_IS_LARGER + rest
    else if b > a then
      var rest := IntToString(b) + ")";
      OpeningsExclude(B_IS_LARGER, A_IS_LARGER, rest, 20);
      OpeningsExclude(B_IS_LARGER, BOTH_EQUAL, rest, 0);
      B_IS_LARGER + rest
    else
      var rest := IntToString(a) + ")";
      OpeningsExclude(BOTH_EQUAL, A_IS_LARGER, rest, 0);
      OpeningsExclude(BOTH_EQUAL, B_IS_LARGER, rest, 0);
      BOTH_EQUAL + rest
  }

  class ComparacionNumeros {
    var numeroA: int
    var numeroB: int
    /** The verdict shown under the numbers; empty until the first press. */
    var mayor: string

    constructor ()
      ensures numeroA == 0 && numeroB == 0 && mayor == ""
    {
      numeroA, numeroB, mayor := 0, 0, "";
    }

    /** "Generar A y B": two draws from [0, 99], then the verdict on them. */
    method Generate(drawA: int, drawB: int)
      requires 0 <= drawA < 100 && 0 <= drawB < 100
      modifies this
      ensures numeroA == drawA && numeroB == drawB
      ensures mayor == Verdict(numeroA, numeroB)
    {
      numeroA := drawA;
      numeroB := drawB;
      mayor := Verdict(numeroA, numeroB);
    }
  }
}
