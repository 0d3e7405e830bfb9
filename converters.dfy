/**
 * The Room type converters: an enumeration constant is stored as its `name`
 * and read back with `valueOf`, which rejects every other text (modelled as
 * `None` instead of the exception).
 */
module Converters {
  import opened Wrappers
  import opened Enums

  /** `value.name`: the stored text is one `valueOf` reads back as `value`. */
  function FromMetodoPagamento(value: MetodoPagamento): (s: string)
    ensures ToMetodoPagamento(s) == Some(value)
  {
    value.Name()
  }

  /** `MetodoPagamento.valueOf(value)`: defined exactly on the declared names. */
  function ToMetodoPagamento(value: string): (r: Option<MetodoPagamento>)
    ensures r.Some? <==> exists m: MetodoPagamento :: m.Name() == value
    ensures r.Some? ==> r.value.Name() == value
  {
    if value == "CARTA_CREDITO" then assert CartaCredito.Name() == value; Some(CartaCredito)
    else if value == "CONTANTI" then assert Contanti.Name() == value; Some(Contanti)
    else if value == "ALTRO" then assert AltroMetodo.Name() == value; Some(AltroMetodo)
    else None
  }

  /** `value.name`: the stored text is one `valueOf` reads back as `value`. */
  function FromCategoriaSpesa(value: CategoriaSpesa): (s: string)
    ensures ToCategoriaSpesa(s) == Some(value)
  {
    value.Name()
  }

  /** `CategoriaSpesa.valueOf(value)`: defined exactly on the declared names. */
  function ToCategoriaSpesa(value: string): (r: Option<CategoriaSpesa>)
    ensures r.Some? <==> exists c: CategoriaSpesa :: c.Name() == value
    ensures r.Some? ==> r.value.Name() == value
  {
    if value == "VITTO" then assert Vitto.Name() == value; Some(Vitto)
    else if value == "ALLOGGIO" then assert Alloggio.Name() == value; Some(Alloggio)
    else if value == "PEDAGGI" then assert Pedaggi.Name() == value; Some(Pedaggi)
    else if value == "PARCHEGGI" then assert Parcheggi.Name() == value; Some(Parcheggi)
    else if value == "CARBURANTE" then assert Carburante.Name() == value; Some(Carburante)
    else if value == "ALTRI_MEZZI" then assert AltriMezzi.Name() == value; Some(AltriMezzi)
    else if value == "ALTRO" then assert AltraCategoria.Name() == value; Some(AltraCategoria)
    else None
  }

  lemma MetodoPagamentoRoundTrip(m: MetodoPagamento)
    ensures ToMetodoPagamento(FromMetodoPagamento(m)) == Some(m)
  {
  }

  lemma CategoriaSpesaRoundTrip(c: CategoriaSpesa)
    ensures ToCategoriaSpesa(FromCategoriaSpesa(c)) == Some(c)
  {
  }

  /** Distinct constants are stored under distinct names. */
  lemma FromConvertersInjective()
    ensures forall a: MetodoPagamento, b: MetodoPagamento ::
      FromMetodoPagamento(a) == FromMetodoPagamento(b) ==> a == b
    ensures forall a: CategoriaSpesa, b: CategoriaSpesa ::
      FromCategoriaSpesa(a) == FromCategoriaSpesa(b) ==> a == b
  {
    forall a: MetodoPagamento, b: MetodoPagamento | FromMetodoPagamento(a) == FromMetodoPagamento(b)
      ensures a == b
    {
      MetodoPagamentoRoundTrip(a);
      MetodoPagamentoRoundTrip(b);
    }
    forall a: CategoriaSpesa, b: CategoriaSpesa | FromCategoriaSpesa(a) == FromCategoriaSpesa(b)
      ensures a == b
    {
      CategoriaSpesaRoundTrip(a);
      CategoriaSpesaRoundTrip(b);
    }
  }

  /** Whatever text reads back as a constant is exactly what that constant stores. */
  lemma ToConvertersLeftInverse(s: string)
    ensures ToMetodoPagamento(s).Some? ==> FromMetodoPagamento(ToMetodoPagamento(s).value) == s
    ensures ToCategoriaSpesa(s).Some? ==> FromCategoriaSpesa(ToCategoriaSpesa(s).value) == s
  {
  }
}
