/** The customer side of the store: the persistent tables as one object whose
    methods are the cart and checkout views, and the read-only listings. */
module StoreViews {
  import opened Wrappers
  import opened Tables
  import opened RestaurantModels
  import opened StoreModels

  /** Order k is the open cart (`finalizado = false`) of `cliente`. */
  ghost predicate IsCarrinho(pedidos: map<nat, Pedido>, k: nat, cliente: nat) {
    k in pedidos && pedidos[k].cliente == cliente && !pedidos[k].finalizado
  }

  ghost predicate TemCarrinho(pedidos: map<nat, Pedido>, cliente: nat) {
    exists k :: IsCarrinho(pedidos, k, cliente)
  }

  /** No customer has two open carts. */
  ghost predicate UmCarrinhoPorCliente(pedidos: map<nat, Pedido>) {
    forall a, b ::
      a in pedidos && b in pedidos && !pedidos[a].finalizado && !pedidos[b].finalizado && pedidos[a].cliente == pedidos[b].cliente
      ==> a == b
  }

  /** Every line belongs to an existing order, names an existing product or
      none, and holds at least one unit. */
  ghost predicate LinhasValidas(itens: map<nat, ItemPedido>, pedidos: map<nat, Pedido>, produtos: map<nat, Produto>) {
    forall k :: k in itens ==>
      itens[k].pedido in pedidos && itens[k].quantidade >= 1 && (itens[k].produto.Some? ==> itens[k].produto.value in produtos)
  }

  /** p' differs from p in statuses only. */
  ghost predicate SoStatus(p: map<nat, Pedido>, p': map<nat, Pedido>) {
    p'.Keys == p.Keys && forall k :: k in p ==> p'[k].cliente == p[k].cliente && p'[k].finalizado == p[k].finalizado
  }

  /** Rewriting statuses keeps the carts and the lines' references valid. */
  lemma SoStatusPreserva(p: map<nat, Pedido>, p': map<nat, Pedido>, itens: map<nat, ItemPedido>, produtos: map<nat, Produto>)
    requires SoStatus(p, p')
    ensures UmCarrinhoPorCliente(p) ==> UmCarrinhoPorCliente(p')
    ensures LinhasValidas(itens, p, produtos) ==> LinhasValidas(itens, p', produtos)
  {
  }

  /** Setting one line's quantity to at least one keeps the lines valid and unique. */
  lemma NovaQuantidadePreserva(itens: map<nat, ItemPedido>, pedidos: map<nat, Pedido>, produtos: map<nat, Produto>, k: nat, q: nat, n: nat)
    requires k in itens && q >= 1
    ensures KeysBelow(itens, n) ==> KeysBelow(itens[k := itens[k].(quantidade := q)], n)
    ensures LinhasValidas(itens, pedidos, produtos) ==> LinhasValidas(itens[k := itens[k].(quantidade := q)], pedidos, produtos)
    ensures ParesUnicos(itens) ==> ParesUnicos(itens[k := itens[k].(quantidade := q)])
  {
  }

  /** Deleting a product with `SET_NULL` keeps the lines valid and unique. */
  lemma SemReferenciaPreserva(itens: map<nat, ItemPedido>, pedidos: map<nat, Pedido>, produtos: map<nat, Produto>, pk: nat)
    ensures LinhasValidas(itens, pedidos, produtos) ==> LinhasValidas(SemReferencia(itens, pk), pedidos, produtos - {pk})
    ensures ParesUnicos(itens) ==> ParesUnicos(SemReferencia(itens, pk))
  {
  }

  /** Row k is the line of product `produto` in order `pedido`. */
  ghost predicate IsLinha(itens: map<nat, ItemPedido>, k: nat, pedido: nat, produto: nat) {
    k in itens && itens[k].pedido == pedido && itens[k].produto == Some(produto)
  }

  ghost predicate TemLinha(itens: map<nat, ItemPedido>, pedido: nat, produto: nat) {
    exists k :: IsLinha(itens, k, pedido, produto)
  }

  /** `get_object_or_404(ItemPedido, id=item_id, pedido__cliente=user)` finds the row:
      it exists and its order belongs to `cliente`, finalised or not. */
  ghost predicate DoCliente(pedidos: map<nat, Pedido>, itens: map<nat, ItemPedido>, itemId: nat, cliente: nat) {
    itemId in itens && itens[itemId].pedido in pedidos && pedidos[itens[itemId].pedido].cliente == cliente
  }

  /** A new line for a product the order does not list yet keeps lines unique. */
  lemma NovaLinhaUnica(itens: map<nat, ItemPedido>, k: nat, pedido: nat, produto: nat)
    requires ParesUnicos(itens) && k !in itens && !TemLinha(itens, pedido, produto)
    ensures ParesUnicos(itens[k := ItemPedido(Some(produto), pedido, 1)])
  {
    var m := itens[k := ItemPedido(Some(produto), pedido, 1)];
    forall a, b | a in m && b in m && a != b && m[a].pedido == m[b].pedido && m[a].produto.Some?
      ensures m[a].produto != m[b].produto
    {
      if a == k {
        assert !IsLinha(itens, b, pedido, produto);
      } else if b == k {
        assert !IsLinha(itens, a, pedido, produto);
      }
    }
  }

  /** `meus_pedidos`: the customer's finalised orders, newest first. */
  function MeusPedidos(pedidos: map<nat, Pedido>, n: nat, cliente: nat): (r: seq<Row<Pedido>>)
    ensures forall x :: x in r ==> x.0 in pedidos && pedidos[x.0] == x.1 && x.1.cliente == cliente && x.1.finalizado
    ensures forall k :: k < n && k in pedidos && pedidos[k].cliente == cliente && pedidos[k].finalizado ==> (k, pedidos[k]) in r
    ensures DistinctKeys(r) && Sorted(r, NewestFirst)
  {
    DateOrdersArePreorders();
    Query(pedidos, n, (p: Pedido) => p.cliente == cliente && p.finalizado, NewestFirst)
  }

  /** `lista_produtos`: the active products, in the model's default order (by name). */
  function ListaProdutos(produtos: map<nat, Produto>, n: nat): (r: seq<Row<Produto>>)
    ensures forall x :: x in r ==> x.0 in produtos && produtos[x.0] == x.1 && x.1.ativo
    ensures forall k :: k < n && k in produtos && produtos[k].ativo ==> (k, produtos[k]) in r
    ensures DistinctKeys(r) && Sorted(r, ByNome)
  {
    ByNomeIsPreorder();
    Query(produtos, n, (p: Produto) => p.ativo, ByNome)
  }

  /** The database: three tables, each with its auto-increment counter. */
  class Store {
    var produtos: map<nat, Produto>
    var proximoProduto: nat
    var pedidos: map<nat, Pedido>
    var proximoPedido: nat
    var itens: map<nat, ItemPedido>
    var proximoItem: nat

    ghost predicate Valid()
      reads this
    {
      && KeysBelow(produtos, proximoProduto)
      && KeysBelow(pedidos, proximoPedido)
      && KeysBelow(itens, proximoItem)
      && LinhasValidas(itens, pedidos, produtos)
      && ParesUnicos(itens)
      && UmCarrinhoPorCliente(pedidos)
    }

    /** `pedido.itempedido_set.all()` */
    function ItensDe(pedido: nat): seq<ItemPedido>
      reads this
    {
      ItensDoPedido(itens, pedido, proximoItem)
    }

    /** A database holding the catalogue `catalogo` and no orders. */
    constructor (catalogo: map<nat, Produto>, proximo: nat)
      requires forall k :: k in catalogo ==> k < proximo
      ensures Valid()
      ensures produtos == catalogo && proximoProduto == proximo
      ensures pedidos == map[] && itens == map[]
      ensures proximoPedido == 1 && proximoItem == 1
    {
      produtos, proximoProduto := catalogo, proximo;
      pedidos, proximoPedido := map[], 1;
      itens, proximoItem := map[], 1;
    }

    /** `Pedido.objects.get_or_create(cliente=user, finalizado=False)`: the customer's
        open cart, created (empty, `pendente`, stamped `agora`) when there is none. */
    method ObterCarrinho(cliente: nat, agora: int) returns (id: nat)
      requires Valid()
      modifies this
      ensures Valid()
      ensures IsCarrinho(pedidos, id, cliente)
      ensures forall k :: IsCarrinho(pedidos, k, cliente) ==> k == id
      ensures old(TemCarrinho(pedidos, cliente)) ==>
        old(IsCarrinho(pedidos, id, cliente)) && pedidos == old(pedidos) && proximoPedido == old(proximoPedido)
      ensures !old(TemCarrinho(pedidos, cliente)) ==>
        && id == old(proximoPedido) && id !in old(pedidos)
        && pedidos == old(pedidos)[id := NovoPedido(cliente, agora)]
        && proximoPedido == old(proximoPedido) + 1
      ensures itens == old(itens) && proximoItem == old(proximoItem)
      ensures produtos == old(produtos) && proximoProduto == old(proximoProduto)
    {
      if k :| k in pedidos && pedidos[k].cliente == cliente && !pedidos[k].finalizado {
        assert IsCarrinho(pedidos, k, cliente);
        id := k;
      } else {
        id := proximoPedido;
        pedidos := pedidos[id := NovoPedido(cliente, agora)];
        proximoPedido := proximoPedido + 1;
      }
    }

    /** `hx_contagem_carrinho`: the open cart of a signed-in customer (created if
        needed); nothing for an anonymous visitor. */
    method HxContagemCarrinho(cliente: Option<nat>, agora: int) returns (r: Option<nat>)
      requires Valid()
      modifies this
      ensures Valid()
      ensures r.None? <==> cliente.None?
      ensures cliente.None? ==> pedidos == old(pedidos) && proximoPedido == old(proximoPedido)
      ensures cliente.Some? ==> IsCarrinho(pedidos, r.value, cliente.value)
      ensures cliente.Some? && old(TemCarrinho(pedidos, cliente.value)) ==> pedidos == old(pedidos)
      ensures cliente.Some? && !old(TemCarrinho(pedidos, cliente.value)) ==>
        r.value == old(proximoPedido) && pedidos == old(pedidos)[r.value := NovoPedido(cliente.value, agora)]
      ensures cliente.Some? ==>
        proximoPedido == old(proximoPedido) + if old(TemCarrinho(pedidos, cliente.value)) then 0 else 1
      ensures itens == old(itens) && produtos == old(produtos)
      ensures proximoItem == old(proximoItem) && proximoProduto == old(proximoProduto)
    {
      if cliente.Some? {
        var id := ObterCarrinho(cliente.value, agora);
        r := Some(id);
      } else {
        r := None;
      }
    }

    /** Adds one unit to line k. */
    method IncrementarLinha(k: nat)
      requires Valid() && k in itens
      modifies this
      ensures Valid()
      ensures itens == old(itens)[k := old(itens)[k].(quantidade := old(itens)[k].quantidade + 1)]
      ensures TotalItens(ItensDe(old(itens)[k].pedido)) == TotalItens(old(ItensDe(itens[k].pedido))) + 1
      ensures pedidos == old(pedidos) && produtos == old(produtos)
      ensures proximoPedido == old(proximoPedido) && proximoItem == old(proximoItem) && proximoProduto == old(proximoProduto)
    {
      var item := itens[k];
      NovaQuantidadePreserva(itens, pedidos, produtos, k, item.quantidade + 1, proximoItem);
      itens := itens[k := item.(quantidade := item.quantidade + 1)];
      TotalItensExcept(old(itens), itens, item.pedido, proximoItem, k);
    }

    /** Removes one unit from line k, which keeps at least one. */
    method DecrementarLinha(k: nat)
      requires Valid() && k in itens && itens[k].quantidade > 1
      modifies this
      ensures Valid()
      ensures itens == old(itens)[k := old(itens)[k].(quantidade := old(itens)[k].quantidade - 1)]
      ensures TotalItens(ItensDe(old(itens)[k].pedido)) == TotalItens(old(ItensDe(itens[k].pedido))) - 1
      ensures pedidos == old(pedidos) && produtos == old(produtos)
      ensures proximoPedido == old(proximoPedido) && proximoItem == old(proximoItem) && proximoProduto == old(proximoProduto)
    {
      var item := itens[k];
      NovaQuantidadePreserva(itens, pedidos, produtos, k, item.quantidade - 1, proximoItem);
      itens := itens[k := item.(quantidade := item.quantidade - 1)];
      TotalItensExcept(old(itens), itens, item.pedido, proximoItem, k);
    }

    /** Deletes line k. */
    method ApagarLinha(k: nat)
      requires Valid() && k in itens
      modifies this
      ensures Valid()
      ensures itens == old(itens) - {k}
      ensures TotalItens(ItensDe(old(itens)[k].pedido)) == TotalItens(old(ItensDe(itens[k].pedido))) - old(itens)[k].quantidade
      ensures pedidos == old(pedidos) && produtos == old(produtos)
      ensures proximoPedido == old(proximoPedido) && proximoItem == old(proximoItem) && proximoProduto == old(proximoProduto)
    {
      var pedido := itens[k].pedido;
      itens := itens - {k};
      TotalItensExcept(old(itens), itens, pedido, proximoItem, k);
    }

    /** Inserts a one-unit line of `produto` in `pedido`, which has none yet. */
    method CriarLinha(pedido: nat, produto: nat)
      requires Valid() && pedido in pedidos && produto in produtos && !TemLinha(itens, pedido, produto)
      modifies this
      ensures Valid()
      ensures itens == old(itens)[old(proximoItem) := ItemPedido(Some(produto), pedido, 1)]
      ensures proximoItem == old(proximoItem) + 1
      ensures TotalItens(ItensDe(pedido)) == TotalItens(old(ItensDe(pedido))) + 1
      ensures pedidos == old(pedidos) && produtos == old(produtos)
      ensures proximoPedido == old(proximoPedido) && proximoProduto == old(proximoProduto)
    {
      var k := proximoItem;
      ghost var antes := itens;
      assert k !in antes;
      itens := itens[k := ItemPedido(Some(produto), pedido, 1)];
      proximoItem := proximoItem + 1;
      NovaLinhaUnica(antes, k, pedido, produto);
      TotalItensAppend(antes, ItemPedido(Some(produto), pedido, 1), k);
    }

    /** `adicionar_ao_carrinho`: 404 for an unknown product before the cart is
        looked up; otherwise the line of the product in the open cart gains one
        unit, or is created with quantity 1. */
    method AdicionarAoCarrinho(cliente: nat, produtoId: nat, agora: int) returns (r: Result<nat>)
      requires Valid()
      modifies this
      ensures Valid()
      ensures r.NotFound? <==> produtoId !in old(produtos)
      ensures r.NotFound? ==>
        pedidos == old(pedidos) && itens == old(itens) && proximoPedido == old(proximoPedido) && proximoItem == old(proximoItem)
      ensures r.Ok? ==> IsCarrinho(pedidos, r.value, cliente)
      ensures r.Ok? && old(TemCarrinho(pedidos, cliente)) ==> pedidos == old(pedidos) && proximoPedido == old(proximoPedido)
      ensures r.Ok? && !old(TemCarrinho(pedidos, cliente)) ==>
        && r.value == old(proximoPedido)
        && pedidos == old(pedidos)[r.value := NovoPedido(cliente, agora)]
        && proximoPedido == old(proximoPedido) + 1
      ensures r.Ok? ==> forall k :: IsLinha(old(itens), k, r.value, produtoId) ==>
        itens == old(itens)[k := old(itens)[k].(quantidade := old(itens)[k].quantidade + 1)] && proximoItem == old(proximoItem)
      ensures r.Ok? && !TemLinha(old(itens), r.value, produtoId) ==>
        itens == old(itens)[old(proximoItem) := ItemPedido(Some(produtoId), r.value, 1)] && proximoItem == old(proximoItem) + 1
      ensures r.Ok? ==> TotalItens(ItensDe(r.value)) == TotalItens(old(ItensDe(r.value))) + 1
      ensures produtos == old(produtos) && proximoProduto == old(proximoProduto)
    {
      if produtoId !in produtos {
        return NotFound;
      }
      var pedido := ObterCarrinho(cliente, agora);
      if k :| k in itens && itens[k].pedido == pedido && itens[k].produto == Some(produtoId) {
        assert IsLinha(itens, k, pedido, produtoId);
        assert forall j :: IsLinha(old(itens), j, pedido, produtoId) ==> j == k;
        IncrementarLinha(k);
      } else {
        CriarLinha(pedido, produtoId);
      }
      r := Ok(pedido);
    }

    /** `atualizar_carrinho`: `inc` adds a unit, `dec` removes one and deletes the
        line when none is left, any other action changes nothing. */
    method AtualizarCarrinho(cliente: nat, itemId: nat, acao: Option<string>) returns (r: Result<nat>)
      requires Valid()
      modifies this
      ensures Valid()
      ensures r.NotFound? <==> !old(DoCliente(pedidos, itens, itemId, cliente))
      ensures r.NotFound? ==> itens == old(itens)
      ensures r.Ok? ==> r.value == old(itens)[itemId].pedido
      ensures r.Ok? && acao == Some("inc") ==>
        itens == old(itens)[itemId := old(itens)[itemId].(quantidade := old(itens)[itemId].quantidade + 1)]
      ensures r.Ok? && acao == Some("dec") && old(itens)[itemId].quantidade - 1 > 0 ==>
        itens == old(itens)[itemId := old(itens)[itemId].(quantidade := old(itens)[itemId].quantidade - 1)]
      ensures r.Ok? && acao == Some("dec") && old(itens)[itemId].quantidade - 1 <= 0 ==>
        itens == old(itens) - {itemId}
      ensures r.Ok? && acao != Some("inc") && acao != Some("dec") ==> itens == old(itens)
      ensures r.Ok? ==>
        TotalItens(ItensDe(r.value)) == TotalItens(old(ItensDe(r.value))) + (if acao == Some("inc") then 1 else if acao == Some("dec") then -1 else 0)
      ensures pedidos == old(pedidos) && produtos == old(produtos)
      ensures proximoPedido == old(proximoPedido) && proximoItem == old(proximoItem) && proximoProduto == old(proximoProduto)
    {
      if !(itemId in itens && itens[itemId].pedido in pedidos && pedidos[itens[itemId].pedido].cliente == cliente) {
        return NotFound;
      }
      var pedido := itens[itemId].pedido;
      if acao == Some("inc") {
        IncrementarLinha(itemId);
      } else if acao == Some("dec") {
        if itens[itemId].quantidade - 1 > 0 {
          DecrementarLinha(itemId);
        } else {
          ApagarLinha(itemId);
        }
      }
      r := Ok(pedido);
    }

    /** `remover_do_carrinho`: deletes the line whatever its quantity. */
    method RemoverDoCarrinho(cliente: nat, itemId: nat) returns (r: Result<nat>)
      requires Valid()
      modifies this
      ensures Valid()
      ensures r.NotFound? <==> !old(DoCliente(pedidos, itens, itemId, cliente))
      ensures r.NotFound? ==> itens == old(itens)
      ensures r.Ok? ==> r.value == old(itens)[itemId].pedido && itens == old(itens) - {itemId}
      ensures r.Ok? ==> TotalItens(ItensDe(r.value)) == TotalItens(old(ItensDe(r.value))) - old(itens)[itemId].quantidade
      ensures pedidos == old(pedidos) && produtos == old(produtos)
      ensures proximoPedido == old(proximoPedido) && proximoItem == old(proximoItem) && proximoProduto == old(proximoProduto)
    {
      if !(itemId in itens && itens[itemId].pedido in pedidos && pedidos[itens[itemId].pedido].cliente == cliente) {
        return NotFound;
      }
      var pedido := itens[itemId].pedido;
      ApagarLinha(itemId);
      r := Ok(pedido);
    }

    /** `finalizar_pedido`: 404 without an open cart; otherwise the cart, empty or
        not, becomes a finalised order with status `solicitado`. */
    method FinalizarPedido(cliente: nat) returns (r: Result<nat>)
      requires Valid()
      modifies this
      ensures Valid()
      ensures r.NotFound? <==> !old(TemCarrinho(pedidos, cliente))
      ensures r.NotFound? ==> pedidos == old(pedidos)
      ensures r.Ok? ==> old(IsCarrinho(pedidos, r.value, cliente))
      ensures r.Ok? ==> pedidos == old(pedidos)[r.value := old(pedidos)[r.value].(finalizado := true, status := Solicitado)]
      ensures !TemCarrinho(pedidos, cliente)
      ensures itens == old(itens) && produtos == old(produtos)
      ensures proximoPedido == old(proximoPedido) && proximoItem == old(proximoItem) && proximoProduto == old(proximoProduto)
    {
      if k :| k in pedidos && pedidos[k].cliente == cliente && !pedidos[k].finalizado {
        assert IsCarrinho(pedidos, k, cliente);
        pedidos := pedidos[k := pedidos[k].(finalizado := true, status := Solicitado)];
        r := Ok(k);
      } else {
        r := NotFound;
      }
    }

    /** `pedido.delete()`: the order goes and, by `on_delete=CASCADE`, so do its lines. */
    method DeletarPedido(id: nat)
      requires Valid() && id in pedidos
      modifies this
      ensures Valid()
      ensures pedidos == old(pedidos) - {id}
      ensures itens == SemPedido(old(itens), id)
      ensures ItensDe(id) == []
      ensures forall c :: c != id ==> ItensDe(c) == old(ItensDe(c))
      ensures produtos == old(produtos)
      ensures proximoPedido == old(proximoPedido) && proximoItem == old(proximoItem) && proximoProduto == old(proximoProduto)
    {
      pedidos := pedidos - {id};
      itens := SemPedido(itens, id);
      forall c ensures ItensDoPedido(itens, id, proximoItem) == [] && (c != id ==> ItensDe(c) == old(ItensDe(c))) {
        CascadeDeletesLines(old(itens), id, c, proximoItem);
      }
    }
  }
}
