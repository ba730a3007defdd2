# Expense tracker: ledger with single-snapshot undo, and the per-category dashboard

A Dafny model of the two pieces of logic in a small on-device expense tracker
(React Native):

- **The main screen** (`app/index.tsx`). It holds an ordered list of entries
  `{motivo, valor}` (`dados`), the last saved snapshot of that list
  (`dadosSalvos`, possibly null) and an "unsaved changes" flag (`mostraAcoes`)
  that shows the Save and Redo buttons. Its handlers form a clean/dirty state
  machine: load (`carregarDadosSalvos`), guarded add that saves at once
  (`adicionarItem`), delete by position that only marks the list dirty
  (`excluirItem`), explicit save (`salvarNoDispositivo`) and revert to the
  snapshot (`refazerAlteracoes`). There is also the footer total.
  - `Index.Estado` is that state as a value, together with what the device
    stores under the storage key. Its member functions are the handlers.
  - Class `Index.Tela` keeps the same state in fields. Each handler method
    updates the fields and is proved to follow the matching function.
  - `Index.Passo`/`Index.Executar` run user events in order, so the lemmas can
    speak about any sequence of events.
- **The dashboard** (`app/planilha.tsx`, `agruparPorCategoria`). A loop folds
  the entries into a record keyed by category id, with the default key
  `'outros'`. From that record come one pie slice per bucket, with name and
  colour fallbacks, and a bar series that ends with a sentinel.
  `Planilha.AgruparPorCategoria` has the loop. The derivations are functions.

Shared pieces: `Modelos` has the records (`Categoria`, `Dado`). `Numeros` has
the number handling: `parseFloat(item.valor || '0')` and JavaScript `+`.

## Modelling decisions

- **Amounts.** `parseFloat` is a parameter `parse: string -> Numero`, so every
  lemma holds for every parser. A `Numero` is a finite value (an exact real) or
  NaN. NaN matters for behaviour:
  - The footer reduction turns NaN as soon as one amount does not parse.
  - In the dashboard fold, `(agrupado[id] || 0) + valor` treats a NaN bucket as
    falsy. So the next entry of that bucket restarts it from 0, and the entries
    before the NaN stop counting (`Planilha.AcumuladoDescartaNaN`).
  - The sum properties are therefore stated for entries whose amounts all parse.
- **Storage.** AsyncStorage is modelled synchronously. Every read and write
  takes a flag saying whether it succeeds. A failed call is caught and only
  logged, so it changes nothing.
- **JSON.** The snapshot is held as the list its JSON text encodes, and JSON is
  taken to round-trip.
- **Bucket order.** `Object.entries` lists keys in an order this model does not
  fix: array-index keys (canonical integers below 2^32 − 1) come first in
  numeric order, then the other keys in insertion order. The pie and total
  functions take that order as `ordem`, which must be a duplicate-free listing
  of the bucket keys. Every property holds for every such order.
- **Entry category.** An entry's category reference is `categoriaId`, which is
  what `app/planilha.tsx:38` and `app/components/GastosGrid.tsx:49` read.
  `app/models/Dado.ts:8` declares a field named `categoria`. The main screen's
  add creates entries without one (`None`).
- **Behaviour of the code that is easy to miss:**
  - Redo clears the flag only when a snapshot exists (app/index.tsx:73-77).
    With no snapshot it does nothing, and the flag keeps its value.
  - An amount that does not parse is not read as zero in the aggregation
    (app/planilha.tsx:40). It makes its bucket NaN until the next entry of that
    bucket resets it, as described above.
  - Add clears both input fields even when the save fails (app/index.tsx:61-63),
    and a failed save leaves the flag untouched (app/index.tsx:45-53). If the
    screen was clean before the add, the new entry is then unsaved, yet no
    Save/Redo buttons show (`Index.AdicionarComFalhaNaoConsistente`). With
    deletions already pending, the buttons stay visible and the invariant holds
    (`Index.AdicionarComFalhaComPendentes`).
  - app/index.tsx has no delete-all, sorting, timestamps or category registry.

## Model

| member | source | states |
|---|---|---|
| `Numeros.ReduzirSoma` | app/index.tsx:117 | The left-to-right reduction of the parsed amounts, starting at 0, is the exact sum when every amount parses, and NaN otherwise. |
| `Index.EmBrancoSeSoEspacos` | app/index.tsx:57 | A field is blank after `trim()` exactly when every character of it is ECMAScript white space or a line terminator. |
| `Index.TrimInicio` | app/index.tsx:57 | Trimming the start leaves a suffix that is empty or starts with a non-space, and everything cut off is white space. |
| `Index.TrimFim` | app/index.tsx:57 | Trimming the end leaves a prefix that is empty or ends with a non-space, and everything cut off is white space. |
| `Index.FiltrarIndice` | app/index.tsx:67 | Filtering by `i !== index` removes exactly the entry at `index` when it is in range, and returns the list unchanged otherwise. |
| `Index.AdicionarEmBranco` | app/index.tsx:57 | Add changes nothing at all when the reason or the amount is blank after trimming. |
| `Index.AdicionarAnexa` | app/index.tsx:45-64 | A successful add grows the list by one and keeps the earlier entries in order. The typed entry goes at the end and both fields become "". If the write succeeds, the new list is stored and becomes the snapshot, and the flag is cleared. If it fails, snapshot, flag and storage stay as they were. |
| `Index.ExcluirRemove` | app/index.tsx:66-70 | An in-range delete removes exactly the i-th entry and shifts the later ones down by one. An out-of-range delete leaves the list as it is. Either way the flag becomes true, and snapshot, storage and fields are untouched. |
| `Index.SalvarConfirma` | app/index.tsx:45-54 | A successful save stores the current list, makes it the snapshot and clears the flag; the list, both input fields and everything else stay as they were. A failed write changes nothing. |
| `Index.RefazerRestaura` | app/index.tsx:72-78 | With a snapshot, Redo replaces the list by it and clears the flag, and changes nothing else (fields, snapshot and storage stay). With none, it changes nothing, not even the flag. |
| `Index.CarregarPreenche` | app/index.tsx:32-43 | A stored value becomes both the list and the snapshot, and nothing else changes (flag, fields and storage stay). With nothing stored, or a failed read, the state is unchanged. |
| `Index.SalvarRecarregar` | app/index.tsx:32-50 | A successfully saved list is what a freshly mounted screen shows and holds as snapshot after loading. |
| `Index.SemConfirmacaoPreservaSalvos` | app/index.tsx:66-78 | Any run of deletes, typing and redos leaves the snapshot and the stored value unchanged. |
| `Index.RefazerDesfazExclusoes` | app/index.tsx:66-78 | After any run of deletes (mixed with typing or redos) since the last snapshot, Redo restores exactly the snapshot's list and leaves the screen clean. |
| `Index.PassoConsistente` | app/index.tsx:32-78 | Every handler keeps the invariant, provided an add's write succeeds. The invariant: no snapshot means an empty list, a clean screen shows the snapshot, and the snapshot is what is stored. |
| `Index.ExecutarConsistente` | app/index.tsx:32-78 | Any event sequence whose adds are saved keeps that invariant. |
| `Index.LimpoIgualAoSalvo` | app/index.tsx:22-78 | From mount on, as long as adds are saved, a clean screen shows exactly the snapshot (or an empty list while there is none), and the store holds the snapshot. |
| `Index.AdicionarComFalhaNaoConsistente` | app/index.tsx:45-63 | On a freshly mounted screen with nothing stored, an add whose write fails breaks that invariant: the new entry is unsaved but the flag stays false. |
| `Index.AdicionarComFalhaComPendentes` | app/index.tsx:45-63 | With deletions pending and a snapshot present, an add whose write fails keeps the invariant and the Save/Redo buttons stay visible. |
| `Index.RodapeSoma` | app/index.tsx:112-117 | The footer total appears exactly when there are at least 2 entries. It holds the exact sum of the parsed amounts (an empty amount reading "0"), or NaN if one does not parse. |
| `Index.Tela.constructor` | app/index.tsx:22-26 | The fields start with the `useState` initial values. |
| `Index.Tela.SetMotivo` | app/index.tsx:140 | Typing in the reason field replaces `motivo` only. |
| `Index.Tela.SetValor` | app/index.tsx:146 | Typing in the amount field replaces `valor` only. |
| `Index.Tela.CarregarDadosSalvos` | app/index.tsx:32-43 | Updates the fields exactly as `Estado.CarregarDadosSalvos` says. |
| `Index.Tela.SalvarNoDispositivo` | app/index.tsx:45-54 | Writes the storage and updates the fields exactly as `Estado.SalvarNoDispositivo` says. |
| `Index.Tela.AdicionarItem` | app/index.tsx:56-64 | Updates the fields and the storage exactly as `Estado.AdicionarItem` says. |
| `Index.Tela.ExcluirItem` | app/index.tsx:66-70 | Updates the fields exactly as `Estado.ExcluirItem` says. |
| `Index.Tela.RefazerAlteracoes` | app/index.tsx:72-78 | Updates the fields exactly as `Estado.RefazerAlteracoes` says. |
| `Index.Armazenamento.GetItem` | app/index.tsx:34 | Reading returns the stored value. |
| `Index.Armazenamento.SetItem` | app/index.tsx:48 | A successful write replaces the stored value. A failed one keeps it. |
| `Planilha.ChaveCategoriaOutros` | app/planilha.tsx:38 | An entry goes to the 'outros' bucket exactly when its category id is missing, empty or literally "outros". Otherwise it goes under its own id. |
| `Planilha.FiltroMembros` | app/planilha.tsx:37-41 | The entries of a set of buckets are exactly the entries whose key is in that set. |
| `Planilha.BaldeIndependente` | app/planilha.tsx:37-41 | Each bucket depends only on the entries mapped to its key, in their order. A key has a bucket iff such an entry exists, and its value is the fold over those entries alone. |
| `Planilha.ChavesDoAgrupado` | app/planilha.tsx:35-41 | The bucket keys are exactly the distinct keys of the entries. |
| `Planilha.AcumuladoFinito` | app/planilha.tsx:39-40 | A bucket whose amounts all parse holds their exact sum. |
| `Planilha.AcumuladoDescartaNaN` | app/planilha.tsx:40 | After a NaN, the next entry of the bucket restarts it: the bucket then holds just that entry's amount. |
| `Planilha.BaldeSoma` | app/planilha.tsx:37-41 | When the amounts of a bucket's own entries parse, its value is the sum of the parsed amounts of exactly the entries mapped to its key. |
| `Planilha.TotalIgualSomaDasEntradas` | app/planilha.tsx:43 | When the amounts parse, the total of the bucket values, in any enumeration order, equals the sum over all entries. This is the same value as the main screen's reduction. |
| `Planilha.ExemploAgrupamento` | app/planilha.tsx:35-43 | Entries (100, catA), (50, catA) and (25, none) give buckets {catA: 150, outros: 25} and a total of 175. |
| `Planilha.Buscar` | app/planilha.tsx:48 | `find` returns nothing iff no category has the id. Otherwise it returns the first category with that id. |
| `Planilha.FatiaOutros` | app/planilha.tsx:46-56 | The 'outros' bucket is always named 'Outros' and coloured '#cccccc'. |
| `Planilha.FatiaEncontrada` | app/planilha.tsx:48-56 | A bucket whose id is found takes the first matching category's description and colour. An empty field falls back to 'Desconhecida' or '#ccc'. |
| `Planilha.FatiaDesconhecida` | app/planilha.tsx:48-56 | A bucket whose id matches no category is named 'Desconhecida' and coloured '#ccc'. |
| `Planilha.PizzaPorPosicao` | app/planilha.tsx:45-57 | The slice list has one slice per listed key, and the i-th slice is built from the i-th key and its bucket value. |
| `Planilha.PizzaUmaFatiaPorBalde` | app/planilha.tsx:45-57 | There are exactly as many slices as buckets. Every bucket appears at exactly one position, with its value as the slice's population. |
| `Planilha.Nomes` | app/planilha.tsx:60 | The mapped names have the slices' length and, position by position, the slices' names. |
| `Planilha.Populacoes` | app/planilha.tsx:63 | The mapped values have the slices' length and, position by position, the slices' values. |
| `Planilha.BarrasDe` | app/planilha.tsx:59-66 | The labels are the slice names followed by ''. The single dataset is the slice values followed by 0. Both have length slices + 1. |
| `Planilha.AgruparPorCategoria` | app/planilha.tsx:34-79 | The loop computes the bucket record, and the pie and bars come from it. There is one slice per distinct category key among the entries. The charts show iff there is at least one entry; otherwise the empty-state text shows. |

## Left out

- AsyncStorage's asynchrony and the ordering of React state updates: each handler runs to completion as one synchronous step, and storage calls either succeed or fail.
- `JSON.stringify`/`JSON.parse`: the snapshot is the list itself. Malformed stored JSON, which the source does not handle, is not modelled.
- Floating point: NaN is modelled, but rounding, infinities and `toFixed(2)` formatting are not. `parseFloat` is a parameter of the model.
- The `Object.entries`/`Object.values` key order: it is an input (`ordem`) of the derivations, not computed.
- `Planilha.TotalIgualSomaDasEntradas`: holds only when every amount parses, and `Planilha.BaldeSoma`/`Planilha.AcumuladoFinito` only when every amount of the bucket parses. With a NaN amount, the bucket-reset behaviour above applies (`Planilha.AcumuladoDescartaNaN`).
- Category ids that name `Object.prototype` properties: the bucket record is a plain `{}` in the source, so an id such as "constructor" or "toString" reads an inherited function and turns its bucket (and the total) into a string, and `__proto__` is not stored at all. The model's record is a map with no inherited keys, so for such ids `Planilha.ChavesDoAgrupado`, `Planilha.PizzaUmaFatiaPorBalde` and the sum lemmas describe a map, not the JavaScript object.
- `Index.LimpoIgualAoSalvo`, `Index.ExecutarConsistente`, `Index.PassoConsistente`: these assume every add's storage write succeeds. `Index.AdicionarComFalhaNaoConsistente` shows the invariant can fail otherwise (from a clean screen).
- The dashboard's own loading (`carregarDados`, app/planilha.tsx:26-32): it is a storage read with no logic beyond it.
- Rendering, layout, styles, navigation and charts: `app/styles.ts`, `app/components/GastosForm.tsx`, `app/components/GastosGrid.tsx` (including its copy of the footer sum and its date formatting), and the static list in `app/components/CategoriaModal.tsx`.
