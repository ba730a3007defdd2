/** The main screen of app/index.tsx: an ordered list of expense entries, the
    last saved snapshot of it, and an "unsaved changes" flag that shows the
    Save/Redo buttons. Its event handlers form a small clean/dirty state machine.

    `Estado` is the screen's state as a value and its member functions are the
    handlers; class `Tela` holds the same state in fields that the handler
    methods update, each proved to follow the corresponding function. */
module Index {
  import opened Modelos
  import opened Numeros

  // ---------------------------------------------------------------------------
  // `String.prototype.trim`, used by the guard of `adicionarItem`
  // ---------------------------------------------------------------------------

  /** The characters `trim` removes: ECMAScript WhiteSpace and LineTerminator. */
  predicate EspacoBranco(c: char)
  {
    c == '\t' || c == '\n' || c == '\U{000B}' || c == '\U{000C}' || c == '\r' ||
    c == ' ' || c == '\U{00A0}' || c == '\U{1680}' || ('\U{2000}' <= c <= '\U{200A}') ||
    c == '\U{2028}' || c == '\U{2029}' || c == '\U{202F}' || c == '\U{205F}' ||
    c == '\U{3000}' || c == '\U{FEFF}'
  }

  /** `s` without its leading white space: a suffix of `s` that starts with a
      non-space, everything cut off being white space. */
  function TrimInicio(s: string): (r: string)
    ensures |r| <= |s| && r == s[|s| - |r|..]
    ensures forall i :: 0 <= i < |s| - |r| ==> EspacoBranco(s[i])
    ensures r != [] ==> !EspacoBranco(r[0])
  {
    if s != [] && EspacoBranco(s[0]) then TrimInicio(s[1..]) else s
  }

  /** `s` without its trailing white space: a prefix of `s` that ends with a
      non-space, everything cut off being white space. */
  function TrimFim(s: string): (r: string)
    ensures |r| <= |s| && r == s[..|r|]
    ensures forall i :: |r| <= i < |s| ==> EspacoBranco(s[i])
    ensures r != [] ==> !EspacoBranco(r[|r| - 1])
  {
    if s != [] && EspacoBranco(s[|s| - 1]) then TrimFim(s[..|s| - 1]) else s
  }

  /** `s.trim()`. */
  function Trim(s: string): string
  {
    TrimFim(TrimInicio(s))
  }

  /** `!s.trim()`: the text is empty after trimming. */
  predicate EmBranco(s: string)
  {
    Trim(s) == ""
  }

  /** A text is blank exactly when every character of it is white space. */
  lemma EmBrancoSeSoEspacos(s: string)
    ensures EmBranco(s) <==> forall i :: 0 <= i < |s| ==> EspacoBranco(s[i])
  {
    var t := TrimInicio(s);
    assert t != [] ==> t[0] == s[|s| - |t|];
  }

  // ---------------------------------------------------------------------------
  // `dados.filter((_, i) => i !== index)`, used by `excluirItem`
  // ---------------------------------------------------------------------------

  /** The entries of `dados` whose position is not `index`, in order: removes
      exactly the entry at `index` when there is one, and nothing otherwise. */
  function FiltrarIndice(dados: seq<Dado>, index: int): (r: seq<Dado>)
    ensures r == if 0 <= index < |dados| then dados[..index] + dados[index + 1..] else dados
  {
    if dados == [] then []
    else
      var p := dados[..|dados| - 1];
      FiltrarIndice(p, index) + (if index == |dados| - 1 then [] else [dados[|dados| - 1]])
  }

  // ---------------------------------------------------------------------------
  // The screen as a value
  // ---------------------------------------------------------------------------

  /** The screen's state (app/index.tsx:22-26) together with the value the device
      keeps under STORAGE_KEY (`armazenado`). The saved snapshot is held as the
      list its JSON text encodes: JSON is taken to round-trip. */
  datatype Estado = Estado(
    motivo: string,                   // the reason input field
    valor: string,                    // the amount input field
    dados: seq<Dado>,                 // the entries on screen
    dadosSalvos: Option<seq<Dado>>,   // the last saved snapshot, possibly null
    mostraAcoes: bool,                // "unsaved changes": shows Save and Redo
    armazenado: Option<seq<Dado>>)    // the device storage under STORAGE_KEY
  {
    /** `carregarDadosSalvos`: a stored value, if the read succeeds and finds one,
        becomes both the list and the snapshot. */
    function CarregarDadosSalvos(leituraOk: bool): Estado
    {
      if leituraOk && armazenado.Some? then this.(dados := armazenado.value, dadosSalvos := armazenado)
      else this
    }

    /** `salvarNoDispositivo(dadosParaSalvar)`: when the storage write succeeds,
        the list written becomes the snapshot and the flag is cleared; a failed
        write is only logged. */
    function SalvarNoDispositivo(dadosParaSalvar: seq<Dado>, gravacaoOk: bool): Estado
    {
      if gravacaoOk then
        this.(armazenado := Some(dadosParaSalvar), dadosSalvos := Some(dadosParaSalvar), mostraAcoes := false)
      else this
    }

    /** `adicionarItem`: unless a field is blank, append the typed entry, save the
        new list at once and clear both fields. */
    function AdicionarItem(gravacaoOk: bool): Estado
    {
      if EmBranco(motivo) || EmBranco(valor) then this
      else
        var novos := dados + [Dado(motivo, valor, None)];
        this.(dados := novos).SalvarNoDispositivo(novos, gravacaoOk).(motivo := "", valor := "")
    }

    /** `excluirItem(index)`: drop the entry at `index` and mark the list dirty;
        nothing is saved. */
    function ExcluirItem(index: int): Estado
    {
      this.(dados := FiltrarIndice(dados, index), mostraAcoes := true)
    }

    /** `refazerAlteracoes`: go back to the snapshot, if there is one. */
    function RefazerAlteracoes(): Estado
    {
      if dadosSalvos.Some? then this.(dados := dadosSalvos.value, mostraAcoes := false) else this
    }
  }

  /** The state when the screen mounts, before the stored list is loaded. */
  function EstadoInicial(armazenado: Option<seq<Dado>>): Estado
  {
    Estado("", "", [], None, false, armazenado)
  }

  /** The user's events and which handler each runs: the mount effect (line 29),
      typing in the two fields (lines 140, 146), the Add button (line 149), a
      row's delete button (line 103), Save (line 126) and Redo (line 129).
      `leituraOk`/`gravacaoOk` say whether the storage call succeeds. */
  datatype Evento =
    | Montar(leituraOk: bool)
    | DigitarMotivo(texto: string)
    | DigitarValor(texto: string)
    | Adicionar(gravacaoOk: bool)
    | Excluir(index: int)
    | Salvar(gravacaoOk: bool)
    | Refazer

  function Passo(e: Estado, ev: Evento): Estado
  {
    match ev
    case Montar(ok) => e.CarregarDadosSalvos(ok)
    case DigitarMotivo(t) => e.(motivo := t)
    case DigitarValor(t) => e.(valor := t)
    case Adicionar(ok) => e.AdicionarItem(ok)
    case Excluir(i) => e.ExcluirItem(i)
    case Salvar(ok) => e.SalvarNoDispositivo(e.dados, ok)
    case Refazer => e.RefazerAlteracoes()
  }

  /** The state after handling `evs` in order. */
  function Executar(e: Estado, evs: seq<Evento>): Estado
    decreases |evs|
  {
    if evs == [] then e else Executar(Passo(e, evs[0]), evs[1..])
  }

  // ---------------------------------------------------------------------------
  // What each handler does
  // ---------------------------------------------------------------------------

  /** Add does nothing at all when either field is blank after trimming. */
  lemma AdicionarEmBranco(e: Estado, gravacaoOk: bool)
    requires EmBranco(e.motivo) || EmBranco(e.valor)
    ensures e.AdicionarItem(gravacaoOk) == e
  {
  }

  /** A successful add appends exactly the typed entry at the end and clears
      both fields; when the write succeeds the new list is stored, becomes the
      snapshot and the flag is cleared (so pending deletions are committed too);
      when it fails, snapshot, flag and storage keep their values. */
  lemma AdicionarAnexa(e: Estado, gravacaoOk: bool)
    requires !EmBranco(e.motivo) && !EmBranco(e.valor)
    ensures var r := e.AdicionarItem(gravacaoOk);
      && |r.dados| == |e.dados| + 1
      && r.dados[..|e.dados|] == e.dados
      && r.dados[|e.dados|] == Dado(e.motivo, e.valor, None)
      && r.motivo == "" && r.valor == ""
      && (gravacaoOk ==> r.dadosSalvos == Some(r.dados) && !r.mostraAcoes && r.armazenado == Some(r.dados))
      && (!gravacaoOk ==> r.dadosSalvos == e.dadosSalvos && r.mostraAcoes == e.mostraAcoes && r.armazenado == e.armazenado)
  {
    var r := e.AdicionarItem(gravacaoOk);
    assert r.dados == e.dados + [Dado(e.motivo, e.valor, None)];
  }

  /** Delete removes exactly the entry at `index` and keeps the others in order;
      an index out of range leaves the list as it is. Either way the flag is set
      and the snapshot, storage and fields are untouched. */
  lemma ExcluirRemove(e: Estado, index: int)
    ensures var r := e.ExcluirItem(index);
      && (0 <= index < |e.dados| ==>
            |r.dados| == |e.dados| - 1
            && (forall j :: 0 <= j < index ==> r.dados[j] == e.dados[j])
            && (forall j :: index <= j < |r.dados| ==> r.dados[j] == e.dados[j + 1]))
      && (!(0 <= index < |e.dados|) ==> r.dados == e.dados)
      && r.mostraAcoes
      && r.dadosSalvos == e.dadosSalvos && r.armazenado == e.armazenado
      && r.motivo == e.motivo && r.valor == e.valor
  {
  }

  /** Save stores the current list, makes it the snapshot and clears the flag,
      and changes nothing else; a failed write changes nothing. */
  lemma SalvarConfirma(e: Estado, gravacaoOk: bool)
    ensures var r := Passo(e, Salvar(gravacaoOk));
      && r.dados == e.dados
      && (gravacaoOk ==> r == e.(dadosSalvos := Some(e.dados), mostraAcoes := false, armazenado := Some(e.dados)))
      && (!gravacaoOk ==> r == e)
  {
  }

  /** Redo with a snapshot replaces the list by it and clears the flag, and
      changes nothing else; with no snapshot it changes nothing, not even the flag. */
  lemma RefazerRestaura(e: Estado)
    ensures var r := e.RefazerAlteracoes();
      && (e.dadosSalvos.Some? ==> r == e.(dados := e.dadosSalvos.value, mostraAcoes := false))
      && (e.dadosSalvos.None? ==> r == e)
  {
  }

  /** Load: a stored list becomes both the list and the snapshot, and nothing
      else changes; with nothing stored, or a failed read, the state is
      unchanged (on mount: an empty list and no snapshot). */
  lemma CarregarPreenche(e: Estado, leituraOk: bool)
    ensures var r := e.CarregarDadosSalvos(leituraOk);
      && (leituraOk && e.armazenado.Some? ==> r == e.(dados := e.armazenado.value, dadosSalvos := e.armazenado))
      && (!leituraOk || e.armazenado.None? ==> r == e)
  {
  }

  /** A list saved successfully is what the screen shows after it is mounted
      again and loads: the stored value round-trips. */
  lemma SalvarRecarregar(e: Estado, dadosParaSalvar: seq<Dado>)
    ensures var salvo := e.SalvarNoDispositivo(dadosParaSalvar, true);
      var recarregado := EstadoInicial(salvo.armazenado).CarregarDadosSalvos(true);
      recarregado.dados == dadosParaSalvar && recarregado.dadosSalvos == Some(dadosParaSalvar)
  {
  }

  // ---------------------------------------------------------------------------
  // Redo undoes every deletion since the last save
  // ---------------------------------------------------------------------------

  /** The events that never touch the snapshot: deletes, typing, and Redo. */
  predicate SemConfirmacao(ev: Evento)
  {
    ev.Excluir? || ev.DigitarMotivo? || ev.DigitarValor? || ev.Refazer?
  }

  /** Events that never touch the snapshot leave it, and the storage, as they were. */
  lemma {:induction false} SemConfirmacaoPreservaSalvos(e: Estado, evs: seq<Evento>)
    requires forall i :: 0 <= i < |evs| ==> SemConfirmacao(evs[i])
    ensures Executar(e, evs).dadosSalvos == e.dadosSalvos
    ensures Executar(e, evs).armazenado == e.armazenado
    decreases |evs|
  {
    if evs != [] {
      assert SemConfirmacao(evs[0]);
      SemConfirmacaoPreservaSalvos(Passo(e, evs[0]), evs[1..]);
    }
  }

  /** After any run of deletes (interleaved with typing or earlier redos), Redo
      restores exactly the last saved list and the screen is clean again. */
  lemma RefazerDesfazExclusoes(e: Estado, evs: seq<Evento>)
    requires e.dadosSalvos.Some?
    requires forall i :: 0 <= i < |evs| ==> SemConfirmacao(evs[i])
    ensures var r := Executar(e, evs).RefazerAlteracoes();
      r.dados == e.dadosSalvos.value && !r.mostraAcoes && r.dadosSalvos == e.dadosSalvos
  {
    SemConfirmacaoPreservaSalvos(e, evs);
  }

  // ---------------------------------------------------------------------------
  // Clean means saved, as long as the adds' writes succeed
  // ---------------------------------------------------------------------------

  /** The invariant of the screen: without a snapshot the list is empty; a clean
      screen shows exactly the snapshot; and a snapshot is what the device holds. */
  predicate Consistente(e: Estado)
  {
    && (e.dadosSalvos.None? ==> e.dados == [])
    && (e.dadosSalvos.Some? && !e.mostraAcoes ==> e.dados == e.dadosSalvos.value)
    && (e.dadosSalvos.Some? ==> e.armazenado == e.dadosSalvos)
  }

  /** Every Add in `evs` has its storage write succeed. */
  predicate GravacoesOk(evs: seq<Evento>)
  {
    forall i :: 0 <= i < |evs| ==> evs[i].Adicionar? ==> evs[i].gravacaoOk
  }

  /** Every handler keeps the invariant, provided an add's write succeeds. */
  lemma PassoConsistente(e: Estado, ev: Evento)
    requires Consistente(e)
    requires ev.Adicionar? ==> ev.gravacaoOk
    ensures Consistente(Passo(e, ev))
  {
  }

  /** Every run of events whose adds are saved keeps the invariant. */
  lemma {:induction false} ExecutarConsistente(e: Estado, evs: seq<Evento>)
    requires Consistente(e)
    requires GravacoesOk(evs)
    ensures Consistente(Executar(e, evs))
    decreases |evs|
  {
    if evs != [] {
      PassoConsistente(e, evs[0]);
      assert GravacoesOk(evs[1..]) by {
        forall i | 0 <= i < |evs| - 1 && evs[1..][i].Adicionar?
          ensures evs[1..][i].gravacaoOk
        {
          assert evs[1..][i] == evs[i + 1];
        }
      }
      ExecutarConsistente(Passo(e, evs[0]), evs[1..]);
    }
  }

  /** From mount on, whenever the screen is clean the list equals the snapshot
      (or is empty while there is none), and the snapshot is what is stored. */
  lemma LimpoIgualAoSalvo(armazenado: Option<seq<Dado>>, evs: seq<Evento>)
    requires GravacoesOk(evs)
    ensures var r := Executar(EstadoInicial(armazenado), evs);
      && (!r.mostraAcoes ==> r.dados == (if r.dadosSalvos.Some? then r.dadosSalvos.value else []))
      && (r.dadosSalvos.Some? ==> r.armazenado == r.dadosSalvos)
  {
    ExecutarConsistente(EstadoInicial(armazenado), evs);
  }

  /** Without the proviso the invariant can break: on a freshly mounted screen
      with nothing stored, an add whose write fails leaves an unsaved entry on a
      screen that shows no Save/Redo buttons. */
  lemma AdicionarComFalhaNaoConsistente(motivo: string, valor: string)
    requires !EmBranco(motivo) && !EmBranco(valor)
    ensures var e := EstadoInicial(None).(motivo := motivo, valor := valor);
      var r := e.AdicionarItem(false);
      Consistente(e) && r.dados == [Dado(motivo, valor, None)] && !r.mostraAcoes && !Consistente(r)
  {
    var e := EstadoInicial(None).(motivo := motivo, valor := valor);
    assert e.AdicionarItem(false).dados == [] + [Dado(motivo, valor, None)];
  }

  /** With deletions pending and a snapshot present, an add whose write fails
      keeps the invariant: the screen stays dirty, so Save/Redo remain visible. */
  lemma AdicionarComFalhaComPendentes(e: Estado)
    requires Consistente(e) && e.mostraAcoes && e.dadosSalvos.Some?
    requires !EmBranco(e.motivo) && !EmBranco(e.valor)
    ensures Consistente(e.AdicionarItem(false)) && e.AdicionarItem(false).mostraAcoes
  {
  }

  // ---------------------------------------------------------------------------
  // The footer total (app/index.tsx:112-117)
  // ---------------------------------------------------------------------------

  /** The footer: shown only from two entries on, holding the reduction of the
      parsed amounts (`toFixed(2)` formatting is not modelled). */
  function Rodape(parse: Parser, dados: seq<Dado>): Option<Numero>
  {
    if |dados| >= 2 then Some(Reduzir(parse, dados)) else None
  }

  /** The footer appears exactly from two entries on, and holds the exact sum of
      the amounts (an empty amount counting as "0") or NaN when one does not parse. */
  lemma RodapeSoma(parse: Parser, dados: seq<Dado>)
    ensures Rodape(parse, dados).Some? <==> |dados| >= 2
    ensures Rodape(parse, dados).Some? ==>
      Rodape(parse, dados).value == if TodosFinitos(parse, dados) then Finito(SomaReal(parse, dados)) else NaN
  {
    ReduzirSoma(parse, dados);
  }

  // ---------------------------------------------------------------------------
  // The screen component with its state in fields
  // ---------------------------------------------------------------------------

  /** The device storage (AsyncStorage) under STORAGE_KEY. */
  class Armazenamento {
    var itens: Option<seq<Dado>>

    constructor (inicial: Option<seq<Dado>>)
      ensures itens == inicial
    {
      itens := inicial;
    }

    /** `AsyncStorage.getItem(STORAGE_KEY)`. */
    method GetItem() returns (json: Option<seq<Dado>>)
      ensures json == itens
    {
      json := itens;
    }

    /** `AsyncStorage.setItem(STORAGE_KEY, ...)`; `ok` says whether the write succeeds. */
    method SetItem(valor: seq<Dado>, ok: bool)
      modifies this
      ensures itens == if ok then Some(valor) else old(itens)
    {
      if ok {
        itens := Some(valor);
      }
    }
  }

  /** The `Index` component: its hooks' state and the storage it writes. */
  class Tela {
    var motivo: string
    var valor: string
    var dados: seq<Dado>
    var dadosSalvos: Option<seq<Dado>>
    var mostraAcoes: bool
    const armazenamento: Armazenamento

    function Modelo(): Estado
      reads this, armazenamento
    {
      Estado(motivo, valor, dados, dadosSalvos, mostraAcoes, armazenamento.itens)
    }

    /** The `useState` initial values. */
    constructor (armazenamento: Armazenamento)
      ensures this.armazenamento == armazenamento
      ensures Modelo() == EstadoInicial(armazenamento.itens)
    {
      motivo, valor := "", "";
      dados, dadosSalvos := [], None;
      mostraAcoes := false;
      this.armazenamento := armazenamento;
    }

    /** `setMotivo`, bound to the reason field's `onChangeText`. */
    method SetMotivo(texto: string)
      modifies this
      ensures Modelo() == Passo(old(Modelo()), DigitarMotivo(texto))
    {
      motivo := texto;
    }

    /** `setValor`, bound to the amount field's `onChangeText`. */
    method SetValor(texto: string)
      modifies this
      ensures Modelo() == Passo(old(Modelo()), DigitarValor(texto))
    {
      valor := texto;
    }

    method CarregarDadosSalvos(leituraOk: bool)
      modifies this
      ensures Modelo() == old(Modelo()).CarregarDadosSalvos(leituraOk)
    {
      if leituraOk {
        var json := armazenamento.GetItem();
        if json.Some? {
          dados := json.value;
          dadosSalvos := json;
        }
      }
    }

    method SalvarNoDispositivo(dadosParaSalvar: seq<Dado>, gravacaoOk: bool)
      modifies this, armazenamento
      ensures Modelo() == old(Modelo()).SalvarNoDispositivo(dadosParaSalvar, gravacaoOk)
    {
      armazenamento.SetItem(dadosParaSalvar, gravacaoOk);
      if gravacaoOk {
        dadosSalvos := Some(dadosParaSalvar);
        mostraAcoes := false;
      }
    }

    method AdicionarItem(gravacaoOk: bool)
      modifies this, armazenamento
      ensures Modelo() == old(Modelo()).AdicionarItem(gravacaoOk)
    {
      if EmBranco(motivo) || EmBranco(valor) {
        return;
      }
      var novos := dados + [Dado(motivo, valor, None)];
      dados := novos;
      SalvarNoDispositivo(novos, gravacaoOk);
      motivo := "";
      valor := "";
    }

    method ExcluirItem(index: int)
      modifies this
      ensures Modelo() == old(Modelo()).ExcluirItem(index)
    {
      dados := FiltrarIndice(dados, index);
      mostraAcoes := true;
    }

    method RefazerAlteracoes()
      modifies this
      ensures Modelo() == old(Modelo()).RefazerAlteracoes()
    {
      if dadosSalvos.Some? {
        dados := dadosSalvos.value;
        mostraAcoes := false;
      }
    }
  }
}
