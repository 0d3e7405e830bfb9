/**
 * A note together with its expenses (`NotaSpeseConSpese`) and the totals the
 * detail screen and the PDF report show: by payment method, by payer, by
 * category, and what the employee is owed.
 */
module Aggregates {
  import opened Enums
  import opened Model

  datatype NotaSpeseConSpese = NotaSpeseConSpese(notaSpese: NotaSpese, spese: seq<Spesa>)

  /** `sumOf { it.importo }`. */
  function SumImporti(spese: seq<Spesa>): real
    decreases |spese|
  {
    if spese == [] then 0.0 else spese[0].importo + SumImporti(spese[1..])
  }

  /** `filter(keep)`: the expenses that satisfy `keep`, in their original order. */
  function Where(spese: seq<Spesa>, keep: Spesa -> bool): (r: seq<Spesa>)
    ensures |r| <= |spese|
    ensures forall x :: x in r ==> x in spese && keep(x)
    ensures forall x :: x in spese && keep(x) ==> x in r
    decreases |spese|
  {
    if spese == [] then []
    else (if keep(spese[0]) then [spese[0]] else []) + Where(spese[1..], keep)
  }

  function TotaleSpese(n: NotaSpeseConSpese): real {
    SumImporti(n.spese)
  }

  function TotaleDovuto(n: NotaSpeseConSpese): real {
    TotaleSpese(n) - n.notaSpese.anticipo
  }

  function IsMetodo(m: MetodoPagamento): Spesa -> bool {
    (s: Spesa) => s.metodoPagamento == m
  }

  function IsPagatoDa(p: PagatoDa): Spesa -> bool {
    (s: Spesa) => s.pagatoDa == p
  }

  function IsCategoria(c: CategoriaSpesa): Spesa -> bool {
    (s: Spesa) => s.categoria == c
  }

  function TotaleByMetodo(n: NotaSpeseConSpese, m: MetodoPagamento): real {
    SumImporti(Where(n.spese, IsMetodo(m)))
  }

  function TotaleByCarta(n: NotaSpeseConSpese): real { TotaleByMetodo(n, CartaCredito) }

  function TotaleContanti(n: NotaSpeseConSpese): real { TotaleByMetodo(n, Contanti) }

  function TotaleAltro(n: NotaSpeseConSpese): real { TotaleByMetodo(n, AltroMetodo) }

  function SpeseAzienda(n: NotaSpeseConSpese): seq<Spesa> { Where(n.spese, IsPagatoDa(Azienda)) }

  function SpeseDipendente(n: NotaSpeseConSpese): seq<Spesa> { Where(n.spese, IsPagatoDa(Dipendente)) }

  function TotalePagatoAzienda(n: NotaSpeseConSpese): real { SumImporti(SpeseAzienda(n)) }

  function TotalePagatoDipendente(n: NotaSpeseConSpese): real { SumImporti(SpeseDipendente(n)) }

  /** What is still owed to the employee: what they paid, plus the kilometres, minus the advance. */
  function TotaleRimborsoDipendente(n: NotaSpeseConSpese): real {
    TotalePagatoDipendente(n) + TotaleRimborsoKm(n.notaSpese) - n.notaSpese.anticipo
  }

  /** The same before the advance is subtracted. */
  function TotaleRimborsoDipendenteLordo(n: NotaSpeseConSpese): real {
    TotalePagatoDipendente(n) + TotaleRimborsoKm(n.notaSpese)
  }

  /** What the whole trip costs: every expense plus the kilometre reimbursement. */
  function CostoComplessivoNotaSpese(n: NotaSpeseConSpese): real {
    TotaleSpese(n) + TotaleRimborsoKm(n.notaSpese)
  }

  function TotaleByCategoria(n: NotaSpeseConSpese, c: CategoriaSpesa): real {
    SumImporti(Where(n.spese, IsCategoria(c)))
  }

  /** The category totals added up in the order of `CategoriaSpesa.entries`. */
  function SumByCategorie(n: NotaSpeseConSpese, cats: seq<CategoriaSpesa>): real
    decreases |cats|
  {
    if cats == [] then 0.0 else TotaleByCategoria(n, cats[0]) + SumByCategorie(n, cats[1..])
  }

  /** `a` is `b` with some elements left out, the rest kept in order. */
  ghost predicate IsSubsequence(a: seq<Spesa>, b: seq<Spesa>)
    decreases |b|
  {
    if a == [] then true
    else if b == [] then false
    else (a[0] == b[0] && IsSubsequence(a[1..], b[1..])) || IsSubsequence(a, b[1..])
  }

  // ---------------------------------------------------------------- proofs

  lemma {:induction false} SumAppend(a: seq<Spesa>, b: seq<Spesa>)
    ensures SumImporti(a + b) == SumImporti(a) + SumImporti(b)
    decreases |a|
  {
    if a == [] {
      assert a + b == b;
    } else {
      assert (a + b)[0] == a[0] && (a + b)[1..] == a[1..] + b;
      SumAppend(a[1..], b);
    }
  }

  lemma {:induction false} MetodoSplit(spese: seq<Spesa>)
    ensures SumImporti(Where(spese, IsMetodo(CartaCredito))) + SumImporti(Where(spese, IsMetodo(Contanti)))
            + SumImporti(Where(spese, IsMetodo(AltroMetodo))) == SumImporti(spese)
    decreases |spese|
  {
    if spese != [] {
      MetodoSplit(spese[1..]);
      var s := spese[0];
      SumAppend(if IsMetodo(CartaCredito)(s) then [s] else [], Where(spese[1..], IsMetodo(CartaCredito)));
      SumAppend(if IsMetodo(Contanti)(s) then [s] else [], Where(spese[1..], IsMetodo(Contanti)));
      SumAppend(if IsMetodo(AltroMetodo)(s) then [s] else [], Where(spese[1..], IsMetodo(AltroMetodo)));
    }
  }

  /** Every expense has exactly one payment method, so the three method totals add up to the total. */
  lemma MetodoPartition(n: NotaSpeseConSpese)
    ensures TotaleByCarta(n) + TotaleContanti(n) + TotaleAltro(n) == TotaleSpese(n)
  {
    MetodoSplit(n.spese);
  }

  lemma {:induction false} PagatoDaSplit(spese: seq<Spesa>)
    ensures SumImporti(Where(spese, IsPagatoDa(Azienda))) + SumImporti(Where(spese, IsPagatoDa(Dipendente)))
            == SumImporti(spese)
    ensures |Where(spese, IsPagatoDa(Azienda))| + |Where(spese, IsPagatoDa(Dipendente))| == |spese|
    ensures multiset(Where(spese, IsPagatoDa(Azienda))) + multiset(Where(spese, IsPagatoDa(Dipendente)))
            == multiset(spese)
    decreases |spese|
  {
    if spese != [] {
      PagatoDaSplit(spese[1..]);
      var s := spese[0];
      SumAppend(if IsPagatoDa(Azienda)(s) then [s] else [], Where(spese[1..], IsPagatoDa(Azienda)));
      SumAppend(if IsPagatoDa(Dipendente)(s) then [s] else [], Where(spese[1..], IsPagatoDa(Dipendente)));
      assert spese == [s] + spese[1..];
    }
  }

  lemma {:induction false} WhereIsSubsequence(spese: seq<Spesa>, keep: Spesa -> bool)
    ensures IsSubsequence(Where(spese, keep), spese)
    decreases |spese|
  {
    if spese != [] {
      WhereIsSubsequence(spese[1..], keep);
      var r := Where(spese, keep);
      if keep(spese[0]) {
        assert r[0] == spese[0] && r[1..] == Where(spese[1..], keep);
      } else {
        assert r == Where(spese[1..], keep);
        if r != [] {
          assert IsSubsequence(r, spese[1..]);
        }
      }
    }
  }

  /**
   * The company's and the employee's expenses split the list: together they
   * are every expense exactly once, each keeps the original order, and their
   * totals add up to the grand total.
   */
  lemma PagatoDaPartition(n: NotaSpeseConSpese)
    ensures TotalePagatoAzienda(n) + TotalePagatoDipendente(n) == TotaleSpese(n)
    ensures |SpeseAzienda(n)| + |SpeseDipendente(n)| == |n.spese|
    ensures multiset(SpeseAzienda(n)) + multiset(SpeseDipendente(n)) == multiset(n.spese)
    ensures forall s :: s in SpeseAzienda(n) ==> s.pagatoDa == Azienda
    ensures forall s :: s in SpeseDipendente(n) ==> s.pagatoDa == Dipendente
    ensures IsSubsequence(SpeseAzienda(n), n.spese) && IsSubsequence(SpeseDipendente(n), n.spese)
  {
    PagatoDaSplit(n.spese);
    WhereIsSubsequence(n.spese, IsPagatoDa(Azienda));
    WhereIsSubsequence(n.spese, IsPagatoDa(Dipendente));
  }

  /** Removing the first expense takes its amount away from the total of exactly the categories listed that it belongs to. */
  lemma {:induction false} CategorieStep(n: NotaSpeseConSpese, cats: seq<CategoriaSpesa>)
    requires n.spese != []
    requires forall i, j :: 0 <= i < j < |cats| ==> cats[i] != cats[j]
    ensures SumByCategorie(n, cats)
            == (if n.spese[0].categoria in cats then n.spese[0].importo else 0.0)
               + SumByCategorie(n.(spese := n.spese[1..]), cats)
    decreases |cats|
  {
    if cats != [] {
      var s := n.spese[0];
      var rest := n.(spese := n.spese[1..]);
      CategorieStep(n, cats[1..]);
      SumAppend(if IsCategoria(cats[0])(s) then [s] else [], Where(rest.spese, IsCategoria(cats[0])));
      assert cats[0] !in cats[1..];
      assert s.categoria in cats <==> s.categoria == cats[0] || s.categoria in cats[1..];
    }
  }

  lemma {:induction false} CategorieSplit(n: NotaSpeseConSpese)
    ensures SumByCategorie(n, CategoriaSpesaEntries) == TotaleSpese(n)
    decreases |n.spese|
  {
    var cats := CategoriaSpesaEntries;
    if n.spese == [] {
      assert cats[1..][1..][1..][1..][1..][1..][1..] == [];
    } else {
      EntriesListEachConstantOnce();
      CategorieSplit(n.(spese := n.spese[1..]));
      CategorieStep(n, cats);
    }
  }

  /** The category totals, over every category, add up to the total of the note. */
  lemma CategoriaPartition(n: NotaSpeseConSpese)
    ensures SumByCategorie(n, CategoriaSpesaEntries) == TotaleSpese(n)
  {
    CategorieSplit(n);
  }

  /**
   * The overall cost is what the company paid plus the employee's gross
   * reimbursement, and what the employee is owed is the gross reimbursement
   * minus the advance.
   */
  lemma CostoComplessivoSplit(n: NotaSpeseConSpese)
    ensures CostoComplessivoNotaSpese(n) == TotalePagatoAzienda(n) + TotaleRimborsoDipendenteLordo(n)
    ensures TotaleRimborsoDipendente(n) == TotaleRimborsoDipendenteLordo(n) - n.notaSpese.anticipo
    ensures TotaleDovuto(n) == CostoComplessivoNotaSpese(n) - TotaleRimborsoKm(n.notaSpese) - n.notaSpese.anticipo
  {
    PagatoDaSplit(n.spese);
  }

  /** When the employee paid nothing themselves, they are owed only the kilometres minus the advance. */
  lemma RimborsoOnlyKmWhenCompanyPaidAll(n: NotaSpeseConSpese)
    requires forall s :: s in n.spese ==> s.pagatoDa == Azienda
    ensures TotaleRimborsoDipendente(n) == TotaleRimborsoKm(n.notaSpese) - n.notaSpese.anticipo
    ensures TotalePagatoAzienda(n) == TotaleSpese(n)
  {
    PagatoDaSplit(n.spese);
    WhereNone(n.spese, IsPagatoDa(Dipendente));
  }

  lemma {:induction false} WhereNone(spese: seq<Spesa>, keep: Spesa -> bool)
    requires forall s :: s in spese ==> !keep(s)
    ensures Where(spese, keep) == []
    decreases |spese|
  {
    if spese != [] {
      assert spese[0] in spese;
      WhereNone(spese[1..], keep);
    }
  }
}
