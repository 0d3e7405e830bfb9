/**
 * The three enumerations of the data model. Each constant knows its Kotlin
 * `name` (the text the database stores) and its `displayName`; the `...Entries`
 * constants list the constants in declaration order, as `entries` does.
 */
module Enums {

  datatype MetodoPagamento = CartaCredito | Contanti | AltroMetodo {
    function Name(): string {
      match this
      case CartaCredito => "CARTA_CREDITO"
      case Contanti => "CONTANTI"
      case AltroMetodo => "ALTRO"
    }

    function DisplayName(): string {
      match this
      case CartaCredito => "Carta di Credito"
      case Contanti => "Pag. Elettronico Dip."
      case AltroMetodo => "Altro"
    }
  }

  datatype CategoriaSpesa = Vitto | Alloggio | Pedaggi | Parcheggi | Carburante | AltriMezzi | AltraCategoria {
    function Name(): string {
      match this
      case Vitto => "VITTO"
      case Alloggio => "ALLOGGIO"
      case Pedaggi => "PEDAGGI"
      case Parcheggi => "PARCHEGGI"
      case Carburante => "CARBURANTE"
      case AltriMezzi => "ALTRI_MEZZI"
      case AltraCategoria => "ALTRO"
    }

    function DisplayName(): string {
      match this
      case Vitto => "Vitto"
      case Alloggio => "Alloggio"
      case Pedaggi => "Pedaggi"
      case Parcheggi => "Parcheggi"
      case Carburante => "Carburante"
      case AltriMezzi => "Altri Mezzi"
      case AltraCategoria => "Altro"
    }
  }

  datatype PagatoDa = Azienda | Dipendente {
    function Name(): string {
      match this
      case Azienda => "AZIENDA"
      case Dipendente => "DIPENDENTE"
    }
  }

  const MetodoPagamentoEntries: seq<MetodoPagamento> := [CartaCredito, Contanti, AltroMetodo]

  const CategoriaSpesaEntries: seq<CategoriaSpesa> :=
    [Vitto, Alloggio, Pedaggi, Parcheggi, Carburante, AltriMezzi, AltraCategoria]

  const PagatoDaEntries: seq<PagatoDa> := [Azienda, Dipendente]

  /** A list that names every constant exactly once. */
  ghost predicate ListsEachOnce<T(!new)>(entries: seq<T>) {
    (forall x: T :: x in entries)
    && (forall i, j :: 0 <= i < j < |entries| ==> entries[i] != entries[j])
  }

  lemma EntriesListEachConstantOnce()
    ensures ListsEachOnce(MetodoPagamentoEntries)
    ensures ListsEachOnce(CategoriaSpesaEntries)
    ensures ListsEachOnce(PagatoDaEntries)
  {
    forall m: MetodoPagamento ensures m in MetodoPagamentoEntries {
      match m
      case CartaCredito => assert MetodoPagamentoEntries[0] == m;
      case Contanti => assert MetodoPagamentoEntries[1] == m;
      case AltroMetodo => assert MetodoPagamentoEntries[2] == m;
    }
    forall c: CategoriaSpesa ensures c in CategoriaSpesaEntries {
      match c
      case Vitto => assert CategoriaSpesaEntries[0] == c;
      case Alloggio => assert CategoriaSpesaEntries[1] == c;
      case Pedaggi => assert CategoriaSpesaEntries[2] == c;
      case Parcheggi => assert CategoriaSpesaEntries[3] == c;
      case Carburante => assert CategoriaSpesaEntries[4] == c;
      case AltriMezzi => assert CategoriaSpesaEntries[5] == c;
      case AltraCategoria => assert CategoriaSpesaEntries[6] == c;
    }
    forall p: PagatoDa ensures p in PagatoDaEntries {
      match p
      case Azienda => assert PagatoDaEntries[0] == p;
      case Dipendente => assert PagatoDaEntries[1] == p;
    }
  }
}
