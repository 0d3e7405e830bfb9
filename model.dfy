/**
 * The two Room entities: an expense note (`NotaSpese`, one business trip) and
 * a single expense (`Spesa`). Amounts, kilometres and per-kilometre rates are
 * exact reals; dates are epoch milliseconds.
 */
module Model {
  import opened Wrappers
  import opened Enums

  datatype Spesa = Spesa(
    id: int,
    notaSpeseId: int,
    descrizione: string,
    importo: real,
    data: int,
    metodoPagamento: MetodoPagamento,
    categoria: CategoriaSpesa,
    fotoScontrinoPath: Option<string>,
    pagatoDa: PagatoDa)

  /** A new expense with the entity's defaults: no id yet, no receipt, paid by the company. */
  function NewSpesa(notaSpeseId: int, descrizione: string, importo: real, data: int,
                    metodoPagamento: MetodoPagamento, categoria: CategoriaSpesa): (s: Spesa)
    ensures s.id == 0 && s.fotoScontrinoPath == None && s.pagatoDa == Azienda
    ensures s.notaSpeseId == notaSpeseId && s.importo == importo && s.data == data
    ensures s.descrizione == descrizione && s.metodoPagamento == metodoPagamento && s.categoria == categoria
  {
    Spesa(0, notaSpeseId, descrizione, importo, data, metodoPagamento, categoria, None, Azienda)
  }

  datatype NotaSpese = NotaSpese(
    id: int,
    numeroNota: string,
    nomeCognome: string,
    dataInizioTrasferta: int,
    oraInizioTrasferta: string,
    dataFineTrasferta: int,
    oraFineTrasferta: string,
    luogoTrasferta: string,
    cliente: string,
    causale: string,
    auto: string,
    dataCompilazione: int,
    altriTrasfertisti: string,
    anticipo: real,
    kmPercorsi: real,
    costoKmRimborso: real,
    costoKmCliente: real)

  /** A note built from its required fields only; every defaulted field keeps its default. */
  function NewNotaSpese(nomeCognome: string, dataInizioTrasferta: int, dataFineTrasferta: int,
                        luogoTrasferta: string, cliente: string, causale: string, auto: string,
                        dataCompilazione: int): (n: NotaSpese)
    ensures n.id == 0 && n.numeroNota == "" && n.oraInizioTrasferta == "" && n.oraFineTrasferta == ""
    ensures n.altriTrasfertisti == "" && n.anticipo == 0.0
    ensures n.kmPercorsi == 0.0 && n.costoKmRimborso == 0.0 && n.costoKmCliente == 0.0
    ensures TotaleRimborsoKm(n) == 0.0 && TotaleCostoKmCliente(n) == 0.0
  {
    NotaSpese(0, "", nomeCognome, dataInizioTrasferta, "", dataFineTrasferta, "", luogoTrasferta,
              cliente, causale, auto, dataCompilazione, "", 0.0, 0.0, 0.0, 0.0)
  }

  /** What the employee is paid back for the kilometres driven. */
  function TotaleRimborsoKm(n: NotaSpese): real {
    n.kmPercorsi * n.costoKmRimborso
  }

  /** What the client is charged for the kilometres driven. */
  function TotaleCostoKmCliente(n: NotaSpese): real {
    n.kmPercorsi * n.costoKmCliente
  }

  /** The reimbursement never depends on the client rate, nor the client charge on the reimbursement rate. */
  lemma KmTotalsIndependent(n: NotaSpese, rate: real)
    ensures TotaleRimborsoKm(n.(costoKmCliente := rate)) == TotaleRimborsoKm(n)
    ensures TotaleCostoKmCliente(n.(costoKmRimborso := rate)) == TotaleCostoKmCliente(n)
  {
  }

  /** No kilometres, no kilometre money; non-negative inputs give non-negative totals. */
  lemma KmTotalsSign(n: NotaSpese)
    ensures n.kmPercorsi == 0.0 ==> TotaleRimborsoKm(n) == 0.0 && TotaleCostoKmCliente(n) == 0.0
    ensures n.kmPercorsi >= 0.0 && n.costoKmRimborso >= 0.0 ==> TotaleRimborsoKm(n) >= 0.0
    ensures n.kmPercorsi >= 0.0 && n.costoKmCliente >= 0.0 ==> TotaleCostoKmCliente(n) >= 0.0
  {
  }
}
