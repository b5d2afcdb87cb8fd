/** The catalogue record of the restaurant app: Produto. */
module RestaurantModels {
  import opened Wrappers
  import opened Text
  import opened Tables

  /** A product. The price is a decimal with two places, held as integer cents;
      None stands for a product whose price was never set. */
  datatype Produto = Produto(nome: string, descricao: string, preco: Option<int>, ativo: bool)

  /** The model's default ordering: by name. */
  predicate ByNome(a: Produto, b: Produto) {
    LexLe(a.nome, b.nome)
  }

  lemma ByNomeIsPreorder()
    ensures TotalPreorder(ByNome)
  {
    forall a: Produto, b: Produto ensures ByNome(a, b) || ByNome(b, a) {
      LexLeTotal(a.nome, b.nome);
    }
    forall a: Produto, b: Produto, c: Produto | ByNome(a, b) && ByNome(b, c) ensures ByNome(a, c) {
      LexLeTransitive(a.nome, b.nome, c.nome);
    }
  }
}
