/** The staff side: the kanban board of finalised orders, the four status
    actions, the bulk clear of delivered orders and product deletion. */
module RestaurantViews {
  import opened Wrappers
  import opened Tables
  import opened RestaurantModels
  import opened StoreModels
  import opened StoreViews

  /** The context of the kanban template: four columns of (id, order) rows. */
  datatype Quadro = Quadro(
    solicitados: seq<Row<Pedido>>,
    emPreparo: seq<Row<Pedido>>,
    emEntrega: seq<Row<Pedido>>,
    finalizados: seq<Row<Pedido>>)

  /** The ids shown in one column. */
  function Ids(g: seq<Row<Pedido>>): set<nat> {
    set x | x in g :: x.0
  }

  /** Column g lists, once each, exactly the finalised orders of status st. */
  ghost predicate Coluna(g: seq<Row<Pedido>>, pedidos: map<nat, Pedido>, n: nat, st: Status) {
    && (forall x :: x in g ==> x.0 in pedidos && pedidos[x.0] == x.1 && x.1.finalizado && x.1.status == st)
    && (forall k :: k < n && k in pedidos && pedidos[k].finalizado && pedidos[k].status == st ==> (k, pedidos[k]) in g)
    && DistinctKeys(g)
  }

  /** `gestao_pedidos` and `_recarregar_kanban`, which run the same four queries:
      three columns oldest first, the delivered column newest first, none truncated. */
  function Kanban(pedidos: map<nat, Pedido>, n: nat): (q: Quadro)
    ensures Coluna(q.solicitados, pedidos, n, Solicitado) && Sorted(q.solicitados, OldestFirst)
    ensures Coluna(q.emPreparo, pedidos, n, EmPreparo) && Sorted(q.emPreparo, OldestFirst)
    ensures Coluna(q.emEntrega, pedidos, n, SaiuParaEntrega) && Sorted(q.emEntrega, OldestFirst)
    ensures Coluna(q.finalizados, pedidos, n, Entregue) && Sorted(q.finalizados, NewestFirst)
  {
    DateOrdersArePreorders();
    Quadro(
      Query(pedidos, n, (p: Pedido) => p.finalizado && p.status == Solicitado, OldestFirst),
      Query(pedidos, n, (p: Pedido) => p.finalizado && p.status == EmPreparo, OldestFirst),
      Query(pedidos, n, (p: Pedido) => p.finalizado && p.status == SaiuParaEntrega, OldestFirst),
      Query(pedidos, n, (p: Pedido) => p.finalizado && p.status == Entregue, NewestFirst))
  }

  /** An order is in a column exactly when it is finalised with that column's status. */
  lemma ColunaIds(g: seq<Row<Pedido>>, pedidos: map<nat, Pedido>, n: nat, st: Status, k: nat)
    requires Coluna(g, pedidos, n, st) && k < n
    ensures k in Ids(g) <==> k in pedidos && pedidos[k].finalizado && pedidos[k].status == st
  {
    if k in Ids(g) {
      var x :| x in g && x.0 == k;
    }
    if k in pedidos && pedidos[k].finalizado && pedidos[k].status == st {
      assert (k, pedidos[k]) in g;
    }
  }

  /** Carts, pending, cancelled and cleared orders are on no column. */
  lemma ForaDoQuadro(pedidos: map<nat, Pedido>, n: nat, k: nat)
    requires k < n
    requires k !in pedidos || !pedidos[k].finalizado || pedidos[k].status in {Pendente, Cancelado, Limpo}
    ensures var q := Kanban(pedidos, n);
      k !in Ids(q.solicitados) && k !in Ids(q.emPreparo) && k !in Ids(q.emEntrega) && k !in Ids(q.finalizados)
  {
    var q := Kanban(pedidos, n);
    ColunaIds(q.solicitados, pedidos, n, Solicitado, k);
    ColunaIds(q.emPreparo, pedidos, n, EmPreparo, k);
    ColunaIds(q.emEntrega, pedidos, n, SaiuParaEntrega, k);
    ColunaIds(q.finalizados, pedidos, n, Entregue, k);
  }

  /** `pedido.status = st; pedido.save()` on an existing order. */
  function ComStatus(pedidos: map<nat, Pedido>, id: nat, st: Status): (m: map<nat, Pedido>)
    requires id in pedidos
    ensures m.Keys == pedidos.Keys
    ensures m[id].status == st
    ensures m[id].cliente == pedidos[id].cliente && m[id].dataPedido == pedidos[id].dataPedido
    ensures m[id].finalizado == pedidos[id].finalizado
    ensures forall k :: k in pedidos && k != id ==> m[k] == pedidos[k]
  {
    pedidos[id := pedidos[id].(status := st)]
  }

  /** Writing the same status twice is writing it once. */
  lemma ComStatusIdempotente(pedidos: map<nat, Pedido>, id: nat, st: Status)
    requires id in pedidos
    ensures ComStatus(ComStatus(pedidos, id, st), id, st) == ComStatus(pedidos, id, st)
  {
  }

  /** Accepting a finalised order puts it in the preparation column and in no other. */
  lemma AceitarMostraEmPreparo(pedidos: map<nat, Pedido>, n: nat, id: nat)
    requires id in pedidos && id < n && pedidos[id].finalizado
    ensures var q := Kanban(ComStatus(pedidos, id, EmPreparo), n);
      id in Ids(q.emPreparo) && id !in Ids(q.solicitados) && id !in Ids(q.emEntrega) && id !in Ids(q.finalizados)
  {
    var m := ComStatus(pedidos, id, EmPreparo);
    var q := Kanban(m, n);
    ColunaIds(q.solicitados, m, n, Solicitado, id);
    ColunaIds(q.emPreparo, m, n, EmPreparo, id);
    ColunaIds(q.emEntrega, m, n, SaiuParaEntrega, id);
    ColunaIds(q.finalizados, m, n, Entregue, id);
  }

  /** `Pedido.objects.filter(status='entregue').update(status='limpo')`, which does
      not look at `finalizado`. */
  function Limpar(pedidos: map<nat, Pedido>): (m: map<nat, Pedido>)
    ensures m.Keys == pedidos.Keys
    ensures forall k :: k in m ==> m[k].status != Entregue
    ensures forall k :: k in pedidos && pedidos[k].status == Entregue ==> m[k] == pedidos[k].(status := Limpo)
    ensures forall k :: k in pedidos && pedidos[k].status != Entregue ==> m[k] == pedidos[k]
  {
    map k | k in pedidos :: if pedidos[k].status == Entregue then pedidos[k].(status := Limpo) else pedidos[k]
  }

  /** A column for a status that no order has is empty. */
  lemma ColunaVazia(g: seq<Row<Pedido>>, pedidos: map<nat, Pedido>, n: nat, st: Status)
    requires Coluna(g, pedidos, n, st)
    requires forall k :: k in pedidos ==> pedidos[k].status != st
    ensures g == []
  {
    FirstIn(g);
  }

  /** After the clear the delivered column is empty. */
  lemma LimparEsvaziaEntregues(pedidos: map<nat, Pedido>, n: nat)
    ensures Kanban(Limpar(pedidos), n).finalizados == []
  {
    var m := Limpar(pedidos);
    ColunaVazia(Kanban(m, n).finalizados, m, n, Entregue);
  }

  /** Clearing twice is clearing once. */
  lemma LimparIdempotente(pedidos: map<nat, Pedido>)
    ensures Limpar(Limpar(pedidos)) == Limpar(pedidos)
  {
  }

  /** `visualizar_produto`: every product, active or not, by name. */
  function VisualizarProduto(produtos: map<nat, Produto>, n: nat): (r: seq<Row<Produto>>)
    ensures forall x :: x in r ==> x.0 in produtos && produtos[x.0] == x.1
    ensures forall k :: k < n && k in produtos ==> (k, produtos[k]) in r
    ensures DistinctKeys(r) && Sorted(r, ByNome)
  {
    ByNomeIsPreorder();
    Query(produtos, n, (p: Produto) => true, ByNome)
  }

  /** The shared body of the four status actions: 404 for an unknown id,
      otherwise the status is overwritten whatever it was, and the board is
      read back. */
  method GravarStatus(s: Store, id: nat, st: Status) returns (r: Result<Quadro>)
    requires s.Valid()
    modifies s
    ensures s.Valid()
    ensures r.NotFound? <==> id !in old(s.pedidos)
    ensures r.NotFound? ==> s.pedidos == old(s.pedidos)
    ensures r.Ok? ==> s.pedidos == ComStatus(old(s.pedidos), id, st) && r.value == Kanban(s.pedidos, s.proximoPedido)
    ensures s.itens == old(s.itens) && s.produtos == old(s.produtos)
    ensures s.proximoPedido == old(s.proximoPedido) && s.proximoItem == old(s.proximoItem) && s.proximoProduto == old(s.proximoProduto)
  {
    if id !in s.pedidos {
      return NotFound;
    }
    MudarStatus(s, id, st);
    r := Ok(Kanban(s.pedidos, s.proximoPedido));
  }

  /** The write of `pedido.save()` after a status change. */
  method MudarStatus(s: Store, id: nat, st: Status)
    requires s.Valid() && id in s.pedidos
    modifies s
    ensures s.Valid()
    ensures s.pedidos == ComStatus(old(s.pedidos), id, st)
    ensures s.itens == old(s.itens) && s.produtos == old(s.produtos)
    ensures s.proximoPedido == old(s.proximoPedido) && s.proximoItem == old(s.proximoItem) && s.proximoProduto == old(s.proximoProduto)
  {
    SoStatusPreserva(s.pedidos, ComStatus(s.pedidos, id, st), s.itens, s.produtos);
    s.pedidos := ComStatus(s.pedidos, id, st);
  }

  /** `aceitar_pedido`: status `em_preparo`; a finalised order then shows in the
      preparation column only. */
  method AceitarPedido(s: Store, id: nat) returns (r: Result<Quadro>)
    requires s.Valid()
    modifies s
    ensures s.Valid()
    ensures r.NotFound? <==> id !in old(s.pedidos)
    ensures r.NotFound? ==> s.pedidos == old(s.pedidos)
    ensures r.Ok? ==> s.pedidos == ComStatus(old(s.pedidos), id, EmPreparo) && r.value == Kanban(s.pedidos, s.proximoPedido)
    ensures r.Ok? && old(s.pedidos)[id].finalizado ==>
      id in Ids(r.value.emPreparo) && id !in Ids(r.value.solicitados) && id !in Ids(r.value.emEntrega) && id !in Ids(r.value.finalizados)
    ensures s.itens == old(s.itens) && s.produtos == old(s.produtos)
    ensures s.proximoPedido == old(s.proximoPedido) && s.proximoItem == old(s.proximoItem) && s.proximoProduto == old(s.proximoProduto)
  {
    r := GravarStatus(s, id, EmPreparo);
    if r.Ok? && old(s.pedidos)[id].finalizado {
      AceitarMostraEmPreparo(old(s.pedidos), s.proximoPedido, id);
    }
  }

  /** `marcar_como_em_entrega`: status `saiu_para_entrega`. */
  method MarcarComoEmEntrega(s: Store, id: nat) returns (r: Result<Quadro>)
    requires s.Valid()
    modifies s
    ensures s.Valid()
    ensures r.NotFound? <==> id !in old(s.pedidos)
    ensures r.NotFound? ==> s.pedidos == old(s.pedidos)
    ensures r.Ok? ==> s.pedidos == ComStatus(old(s.pedidos), id, SaiuParaEntrega) && r.value == Kanban(s.pedidos, s.proximoPedido)
    ensures s.itens == old(s.itens) && s.produtos == old(s.produtos)
    ensures s.proximoPedido == old(s.proximoPedido) && s.proximoItem == old(s.proximoItem) && s.proximoProduto == old(s.proximoProduto)
  {
    r := GravarStatus(s, id, SaiuParaEntrega);
  }

  /** `marcar_como_finalizado`: status `entregue`. */
  method MarcarComoFinalizado(s: Store, id: nat) returns (r: Result<Quadro>)
    requires s.Valid()
    modifies s
    ensures s.Valid()
    ensures r.NotFound? <==> id !in old(s.pedidos)
    ensures r.NotFound? ==> s.pedidos == old(s.pedidos)
    ensures r.Ok? ==> s.pedidos == ComStatus(old(s.pedidos), id, Entregue) && r.value == Kanban(s.pedidos, s.proximoPedido)
    ensures s.itens == old(s.itens) && s.produtos == old(s.produtos)
    ensures s.proximoPedido == old(s.proximoPedido) && s.proximoItem == old(s.proximoItem) && s.proximoProduto == old(s.proximoProduto)
  {
    r := GravarStatus(s, id, Entregue);
  }

  /** `recusar_pedido`: status `cancelado`, which takes the order off the board. */
  method RecusarPedido(s: Store, id: nat) returns (r: Result<Quadro>)
    requires s.Valid()
    modifies s
    ensures s.Valid()
    ensures r.NotFound? <==> id !in old(s.pedidos)
    ensures r.NotFound? ==> s.pedidos == old(s.pedidos)
    ensures r.Ok? ==> s.pedidos == ComStatus(old(s.pedidos), id, Cancelado) && r.value == Kanban(s.pedidos, s.proximoPedido)
    ensures r.Ok? ==>
      id !in Ids(r.value.solicitados) && id !in Ids(r.value.emPreparo) && id !in Ids(r.value.emEntrega) && id !in Ids(r.value.finalizados)
    ensures s.itens == old(s.itens) && s.produtos == old(s.produtos)
    ensures s.proximoPedido == old(s.proximoPedido) && s.proximoItem == old(s.proximoItem) && s.proximoProduto == old(s.proximoProduto)
  {
    r := GravarStatus(s, id, Cancelado);
    if r.Ok? {
      ForaDoQuadro(s.pedidos, s.proximoPedido, id);
    }
  }

  /** `limpar_finalizados`: every `entregue` order becomes `limpo`; the board read
      back has an empty delivered column. */
  method LimparFinalizados(s: Store) returns (q: Quadro)
    requires s.Valid()
    modifies s
    ensures s.Valid()
    ensures s.pedidos == Limpar(old(s.pedidos))
    ensures q == Kanban(s.pedidos, s.proximoPedido) && q.finalizados == []
    ensures s.itens == old(s.itens) && s.produtos == old(s.produtos)
    ensures s.proximoPedido == old(s.proximoPedido) && s.proximoItem == old(s.proximoItem) && s.proximoProduto == old(s.proximoProduto)
  {
    SoStatusPreserva(s.pedidos, Limpar(s.pedidos), s.itens, s.produtos);
    s.pedidos := Limpar(s.pedidos);
    q := Kanban(s.pedidos, s.proximoPedido);
    LimparEsvaziaEntregues(old(s.pedidos), s.proximoPedido);
  }

  /** Every order's totals after `SET_NULL` on product pk. */
  lemma TotaisAposDeletarProduto(itens: map<nat, ItemPedido>, produtos: map<nat, Produto>, pk: nat, n: nat)
    ensures forall c :: TotalItens(ItensDoPedido(SemReferencia(itens, pk), c, n)) == TotalItens(ItensDoPedido(itens, c, n))
    ensures forall c :: TotalPedido(ItensDoPedido(SemReferencia(itens, pk), c, n), produtos - {pk})
                        == TotalPedido(ItensDoPedido(SemProduto(itens, pk), c, n), produtos)
  {
    forall c
      ensures TotalItens(ItensDoPedido(SemReferencia(itens, pk), c, n)) == TotalItens(ItensDoPedido(itens, c, n))
      ensures TotalPedido(ItensDoPedido(SemReferencia(itens, pk), c, n), produtos - {pk})
              == TotalPedido(ItensDoPedido(SemProduto(itens, pk), c, n), produtos)
    {
      TotalItensAfterProductDeletion(itens, pk, c, n);
      TotalPedidoAfterProductDeletion(itens, produtos, pk, c, n);
    }
  }

  /** `deletar_produto` (the POST branch): 404 for an unknown product; otherwise
      the product goes and its lines stay with a null product, so every order
      keeps its item count and loses exactly those lines' subtotals. */
  method DeletarProduto(s: Store, pk: nat) returns (r: Result<()>)
    requires s.Valid()
    modifies s
    ensures s.Valid()
    ensures r.NotFound? <==> pk !in old(s.produtos)
    ensures r.NotFound? ==> s.produtos == old(s.produtos) && s.itens == old(s.itens)
    ensures r.Ok? ==> s.produtos == old(s.produtos) - {pk} && s.itens == SemReferencia(old(s.itens), pk)
    ensures forall c :: TotalItens(s.ItensDe(c)) == TotalItens(old(s.ItensDe(c)))
    ensures r.Ok? ==> forall c ::
      TotalPedido(s.ItensDe(c), s.produtos) == TotalPedido(ItensDoPedido(SemProduto(old(s.itens), pk), c, s.proximoItem), old(s.produtos))
    ensures s.pedidos == old(s.pedidos)
    ensures s.proximoPedido == old(s.proximoPedido) && s.proximoItem == old(s.proximoItem) && s.proximoProduto == old(s.proximoProduto)
  {
    if pk !in s.produtos {
      return NotFound;
    }
    TotaisAposDeletarProduto(s.itens, s.produtos, pk, s.proximoItem);
    SemReferenciaPreserva(s.itens, s.pedidos, s.produtos, pk);
    s.produtos := s.produtos - {pk};
    s.itens := SemReferencia(s.itens, pk);
    r := Ok(());
  }
}
