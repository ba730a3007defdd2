/** The records the two screens share: categories (app/models/Categoria.ts)
    and expense entries (app/models/Dado.ts, as the screens actually read them). */
module Modelos {

  /** An optional value; `None` stands for JavaScript's `undefined`/`null`. */
  datatype Option<+T> = None | Some(value: T)

  /** A user category: an opaque id, a display description and a display colour. */
  datatype Categoria = Categoria(id: string, descricao: string, cor: string)

  /** One expense entry: the reason text, the amount as typed (a string) and an
      optional category reference. The screens read the reference through the
      property `categoriaId`, so that is the field modelled here. */
  datatype Dado = Dado(motivo: string, valor: string, categoriaId: Option<string>)

  /** JavaScript's `s || d` on a string: the empty string is the only falsy string. */
  function OuTexto(s: string, d: string): (r: string)
    ensures s != "" ==> r == s
    ensures s == "" ==> r == d
  {
    if s == "" then d else s
  }

  /** Looking up a key of a JavaScript record: `undefined` when the key is absent. */
  function Ler<K, V>(m: map<K, V>, k: K): (r: Option<V>)
    ensures r.Some? <==> k in m
    ensures r.Some? ==> r.value == m[k]
  {
    if k in m then Some(m[k]) else None
  }
}
