/** The number handling both screens share: `parseFloat(item.valor || '0')` and
    JavaScript's `+` on numbers. Floating-point rounding is not modelled: a number
    is either a finite value, kept as an exact real, or NaN. */
module Numeros {
  import opened Modelos

  /** A JavaScript number: finite (as an exact real) or NaN. */
  datatype Numero = Finito(v: real) | NaN

  /** `parseFloat`, which the model takes as a parameter: every lemma holds for
      every parser. */
  type Parser = string -> Numero

  /** JavaScript `a + b` on numbers: NaN absorbs, finite values add. */
  function Mais(a: Numero, b: Numero): (r: Numero)
    ensures r.NaN? <==> a.NaN? || b.NaN?
    ensures r.Finito? ==> r.v == a.v + b.v
  {
    if a.Finito? && b.Finito? then Finito(a.v + b.v) else NaN
  }

  /** The falsy numbers: NaN and zero. */
  predicate Falso(n: Numero)
  {
    n.NaN? || n == Finito(0.0)
  }

  /** `x || 0` where `x` is a number or `undefined`. */
  function OuZero(x: Option<Numero>): (r: Numero)
    ensures r.Finito?
    ensures x.Some? && x.value.Finito? ==> r == x.value
    ensures x.None? || x.value.NaN? ==> r == Finito(0.0)
  {
    if x.None? || Falso(x.value) then Finito(0.0) else x.value
  }

  /** `parseFloat(item.valor || '0')`: an empty amount is read as "0". */
  function ValorDe(parse: Parser, d: Dado): Numero
  {
    parse(OuTexto(d.valor, "0"))
  }

  /** Every amount of `s` parses to a finite number. */
  predicate TodosFinitos(parse: Parser, s: seq<Dado>)
  {
    forall i :: 0 <= i < |s| ==> ValorDe(parse, s[i]).Finito?
  }

  /** The finite part of a number (NaN reads as zero; used only where every
      amount is finite). */
  function Real(n: Numero): real
  {
    if n.Finito? then n.v else 0.0
  }

  /** The exact sum of the parsed amounts of `s`. */
  function SomaReal(parse: Parser, s: seq<Dado>): real
  {
    if s == [] then 0.0 else SomaReal(parse, s[..|s| - 1]) + Real(ValorDe(parse, s[|s| - 1]))
  }

  /** `s.reduce((total, item) => total + parseFloat(item.valor || '0'), 0)`,
      folded from the left. */
  function Reduzir(parse: Parser, s: seq<Dado>): Numero
  {
    if s == [] then Finito(0.0) else Mais(Reduzir(parse, s[..|s| - 1]), ValorDe(parse, s[|s| - 1]))
  }

  /** The reduction is the exact sum of the amounts when they all parse, and NaN
      as soon as one of them does not. */
  lemma {:induction false} ReduzirSoma(parse: Parser, s: seq<Dado>)
    ensures Reduzir(parse, s) == if TodosFinitos(parse, s) then Finito(SomaReal(parse, s)) else NaN
  {
    if s != [] {
      var p := s[..|s| - 1];
      ReduzirSoma(parse, p);
      assert forall i :: 0 <= i < |p| ==> p[i] == s[i];
      if TodosFinitos(parse, s) {
        assert TodosFinitos(parse, p);
      } else if TodosFinitos(parse, p) {
        var i :| 0 <= i < |s| && !ValorDe(parse, s[i]).Finito?;
        assert i == |s| - 1;
      }
    }
  }

  /** Appending one entry adds its amount to the exact sum. */
  lemma SomaRealAnexar(parse: Parser, s: seq<Dado>, d: Dado)
    ensures SomaReal(parse, s + [d]) == SomaReal(parse, s) + Real(ValorDe(parse, d))
  {
    assert (s + [d])[..|s|] == s;
  }
}
