/** The order records of the store app: Pedido and ItemPedido, with the values
    derived from them on read (subtotal, total_pedido, total_itens, __str__). */
module StoreModels {
  import opened Wrappers
  import opened Text
  import opened Tables
  import opened RestaurantModels

  /** Every status the code writes: the five declared choices plus `solicitado`
      (written on checkout) and `limpo` (written when the board is cleared). */
  datatype Status = Pendente | EmPreparo | SaiuParaEntrega | Entregue | Cancelado | Solicitado | Limpo

  /** The value stored in the status column. */
  function StatusCode(s: Status): (code: string)
    ensures 0 < |code| <= 20
  {
    match s
    case Pendente => "pendente"
    case EmPreparo => "em_preparo"
    case SaiuParaEntrega => "saiu_para_entrega"
    case Entregue => "entregue"
    case Cancelado => "cancelado"
    case Solicitado => "solicitado"
    case Limpo => "limpo"
  }

  lemma StatusCodeInjective(a: Status, b: Status)
    ensures StatusCode(a) == StatusCode(b) ==> a == b
  {
  }

  /** An order. While `finalizado` is false it is the customer's cart. */
  datatype Pedido = Pedido(cliente: nat, dataPedido: int, finalizado: bool, status: Status)

  /** The row `get_or_create` inserts: the field defaults, stamped with the creation time. */
  function NovoPedido(cliente: nat, agora: int): Pedido {
    Pedido(cliente, agora, false, Pendente)
  }

  predicate OldestFirst(a: Pedido, b: Pedido) {
    a.dataPedido <= b.dataPedido
  }

  predicate NewestFirst(a: Pedido, b: Pedido) {
    a.dataPedido >= b.dataPedido
  }

  lemma DateOrdersArePreorders()
    ensures TotalPreorder(OldestFirst) && TotalPreorder(NewestFirst)
  {
  }

  /** A line of an order. `produto` is NULL once the product was deleted. */
  datatype ItemPedido = ItemPedido(produto: Option<nat>, pedido: nat, quantidade: nat)

  /** `item.produto`: the referenced product, or None for a NULL reference. */
  function ProdutoDe(item: ItemPedido, produtos: map<nat, Produto>): Option<Produto> {
    if item.produto.Some? && item.produto.value in produtos then Some(produtos[item.produto.value]) else None
  }

  /** `subtotal`: price times quantity, or 0 when there is no product or no price. */
  function Subtotal(item: ItemPedido, produtos: map<nat, Produto>): (r: int)
    ensures ProdutoDe(item, produtos).None? ==> r == 0
    ensures (forall k :: k in produtos && produtos[k].preco.Some? ==> produtos[k].preco.value >= 0) ==> r >= 0
  {
    match ProdutoDe(item, produtos)
    case Some(p) => if p.preco.Some? then p.preco.value * item.quantidade else 0
    case None => 0
  }

  /** `total_itens`: the sum of the quantities of the lines s. */
  function TotalItens(s: seq<ItemPedido>): (r: nat)
    ensures (forall i :: 0 <= i < |s| ==> s[i].quantidade >= 1) ==> r >= |s|
  {
    if s == [] then 0 else TotalItens(s[..|s| - 1]) + s[|s| - 1].quantidade
  }

  /** `total_pedido`: the sum of the subtotals of the lines s. */
  function TotalPedido(s: seq<ItemPedido>, produtos: map<nat, Produto>): (r: int)
    ensures (forall i :: 0 <= i < |s| ==> s[i].produto.None?) ==> r == 0
    ensures (forall k :: k in produtos && produtos[k].preco.Some? ==> produtos[k].preco.value >= 0) ==> r >= 0
  {
    if s == [] then 0 else TotalPedido(s[..|s| - 1], produtos) + Subtotal(s[|s| - 1], produtos)
  }

  lemma TotalsSnoc(s: seq<ItemPedido>, x: ItemPedido, produtos: map<nat, Produto>)
    ensures TotalItens(s + [x]) == TotalItens(s) + x.quantidade
    ensures TotalPedido(s + [x], produtos) == TotalPedido(s, produtos) + Subtotal(x, produtos)
  {
    assert (s + [x])[..|s|] == s;
  }

  /** Both totals are sums: they add up over any split of the lines. */
  lemma {:induction false} TotalsConcat(a: seq<ItemPedido>, b: seq<ItemPedido>, produtos: map<nat, Produto>)
    ensures TotalItens(a + b) == TotalItens(a) + TotalItens(b)
    ensures TotalPedido(a + b, produtos) == TotalPedido(a, produtos) + TotalPedido(b, produtos)
  {
    if b == [] {
      assert a + b == a;
    } else {
      var b', x := b[..|b| - 1], b[|b| - 1];
      assert b == b' + [x];
      assert a + b == (a + b') + [x];
      TotalsConcat(a, b', produtos);
      TotalsSnoc(a + b', x, produtos);
      TotalsSnoc(b', x, produtos);
    }
  }

  /** Taking one x out of both sides keeps two sequences permutations of each other. */
  lemma SemUm<T>(a: seq<T>, x: T, l: seq<T>, r: seq<T>)
    requires multiset(a + [x]) == multiset(l + [x] + r)
    ensures multiset(a) == multiset(l + r)
  {
    assert multiset(a + [x]) == multiset(a) + multiset{x};
    assert multiset(l + [x] + r) == multiset(l + r) + multiset{x};
    assert multiset(a) == multiset(a) + multiset{x} - multiset{x};
    assert multiset(l + r) == multiset(l + r) + multiset{x} - multiset{x};
  }

  /** A line in the middle of a run adds its quantity and its subtotal. */
  lemma TotalsMiddle(l: seq<ItemPedido>, x: ItemPedido, r: seq<ItemPedido>, produtos: map<nat, Produto>)
    ensures TotalItens(l + [x] + r) == TotalItens(l + r) + x.quantidade
    ensures TotalPedido(l + [x] + r, produtos) == TotalPedido(l + r, produtos) + Subtotal(x, produtos)
  {
    TotalsSnoc(l, x, produtos);
    TotalsConcat(l, r, produtos);
    TotalsConcat(l + [x], r, produtos);
  }

  /** Both totals depend only on which lines there are, not on the order in
      which `itempedido_set.all()` returns them. */
  lemma {:induction false} TotalsPermutation(a: seq<ItemPedido>, b: seq<ItemPedido>, produtos: map<nat, Produto>)
    requires multiset(a) == multiset(b)
    ensures TotalItens(a) == TotalItens(b)
    ensures TotalPedido(a, produtos) == TotalPedido(b, produtos)
  {
    if a == [] {
      assert |b| == |multiset(b)| == 0;
    } else {
      var a', x := a[..|a| - 1], a[|a| - 1];
      assert a' + [x] == a;
      assert x in multiset(b);
      var i :| 0 <= i < |b| && b[i] == x;
      var l, r := b[..i], b[i + 1..];
      assert l + [x] + r == b;
      SemUm(a', x, l, r);
      TotalsPermutation(a', l + r, produtos);
      TotalsSnoc(a', x, produtos);
      TotalsMiddle(l, x, r, produtos);
    }
  }

  /** `pedido.itempedido_set.all()`: the lines of order `pedido` among the rows
      of `itens` with key below n, in key order. */
  function ItensDoPedido(itens: map<nat, ItemPedido>, pedido: nat, n: nat): (r: seq<ItemPedido>)
    ensures forall i :: 0 <= i < |r| ==> r[i].pedido == pedido
  {
    if n == 0 then []
    else ItensDoPedido(itens, pedido, n - 1) + if n - 1 in itens && itens[n - 1].pedido == pedido then [itens[n - 1]] else []
  }

  /** `unique_together = ('pedido', 'produto')`: two rows with the same order never
      name the same product. NULL products do not clash, as in SQL. */
  ghost predicate ParesUnicos(itens: map<nat, ItemPedido>) {
    forall a, b :: a in itens && b in itens && a != b && itens[a].pedido == itens[b].pedido && itens[a].produto.Some?
      ==> itens[a].produto != itens[b].produto
  }

  /** What row k adds to `total_itens` of order `pedido`. */
  function Qtd(itens: map<nat, ItemPedido>, pedido: nat, k: nat): nat {
    if k in itens && itens[k].pedido == pedido then itens[k].quantidade else 0
  }

  /** What row k adds to `total_pedido` of order `pedido`. */
  function Valor(itens: map<nat, ItemPedido>, produtos: map<nat, Produto>, pedido: nat, k: nat): int {
    if k in itens && itens[k].pedido == pedido then Subtotal(itens[k], produtos) else 0
  }

  lemma {:induction false} ItensDoPedidoAgree(m: map<nat, ItemPedido>, m': map<nat, ItemPedido>, pedido: nat, n: nat)
    requires forall j :: j < n ==> (j in m <==> j in m')
    requires forall j :: j < n && j in m ==> m[j] == m'[j]
    ensures ItensDoPedido(m', pedido, n) == ItensDoPedido(m, pedido, n)
  {
    if n > 0 {
      ItensDoPedidoAgree(m, m', pedido, n - 1);
    }
  }

  /** One step of the scan behind `itempedido_set.all()`. */
  lemma ItensDoPedidoStep(m: map<nat, ItemPedido>, pedido: nat, n: nat)
    requires n > 0
    ensures ItensDoPedido(m, pedido, n)
         == if n - 1 in m && m[n - 1].pedido == pedido
            then ItensDoPedido(m, pedido, n - 1) + [m[n - 1]]
            else ItensDoPedido(m, pedido, n - 1)
  {
    var p := ItensDoPedido(m, pedido, n - 1);
    assert p + [] == p;
  }

  /** Row n - 1 adds what it holds for the order to both totals. */
  lemma TotalsStep(m: map<nat, ItemPedido>, produtos: map<nat, Produto>, pedido: nat, n: nat)
    requires n > 0
    ensures TotalItens(ItensDoPedido(m, pedido, n)) == TotalItens(ItensDoPedido(m, pedido, n - 1)) + Qtd(m, pedido, n - 1)
    ensures TotalPedido(ItensDoPedido(m, pedido, n), produtos)
         == TotalPedido(ItensDoPedido(m, pedido, n - 1), produtos) + Valor(m, produtos, pedido, n - 1)
  {
    ItensDoPedidoStep(m, pedido, n);
    if n - 1 in m && m[n - 1].pedido == pedido {
      TotalsSnoc(ItensDoPedido(m, pedido, n - 1), m[n - 1], produtos);
    }
  }

  /** `total_itens` and `total_pedido` of order `pedido`, added up row by row over
      the keys below n. */
  function SomaQtd(m: map<nat, ItemPedido>, pedido: nat, n: nat): nat {
    if n == 0 then 0 else SomaQtd(m, pedido, n - 1) + Qtd(m, pedido, n - 1)
  }

  function SomaValor(m: map<nat, ItemPedido>, produtos: map<nat, Produto>, pedido: nat, n: nat): int {
    if n == 0 then 0 else SomaValor(m, produtos, pedido, n - 1) + Valor(m, produtos, pedido, n - 1)
  }

  /** The totals of the scanned lines are the row-by-row sums. */
  lemma {:induction false} TotalsScan(m: map<nat, ItemPedido>, produtos: map<nat, Produto>, pedido: nat, n: nat)
    ensures TotalItens(ItensDoPedido(m, pedido, n)) == SomaQtd(m, pedido, n)
    ensures TotalPedido(ItensDoPedido(m, pedido, n), produtos) == SomaValor(m, produtos, pedido, n)
  {
    if n > 0 {
      TotalsScan(m, produtos, pedido, n - 1);
      TotalsStep(m, produtos, pedido, n);
    }
  }

  /** A row appended at key n (the next value of the counter) adds its quantity
      to the total of its own order. */
  lemma TotalItensAppend(m: map<nat, ItemPedido>, x: ItemPedido, n: nat)
    requires n !in m
    ensures TotalItens(ItensDoPedido(m[n := x], x.pedido, n + 1)) == TotalItens(ItensDoPedido(m, x.pedido, n)) + x.quantidade
  {
    var m' := m[n := x];
    TotalsStep(m', map[], x.pedido, n + 1);
    ItensDoPedidoAgree(m, m', x.pedido, n);
  }

  lemma {:induction false} SomaQtdExcept(m: map<nat, ItemPedido>, m': map<nat, ItemPedido>, pedido: nat, n: nat, k: nat)
    requires k < n
    requires forall j: nat :: j != k ==> Qtd(m, pedido, j) == Qtd(m', pedido, j)
    ensures SomaQtd(m', pedido, n) == SomaQtd(m, pedido, n) - Qtd(m, pedido, k) + Qtd(m', pedido, k)
  {
    if n - 1 == k {
      SomaQtdAgree(m, m', pedido, k);
    } else {
      SomaQtdExcept(m, m', pedido, n - 1, k);
    }
  }

  lemma {:induction false} SomaQtdAgree(m: map<nat, ItemPedido>, m': map<nat, ItemPedido>, pedido: nat, n: nat)
    requires forall j: nat :: j < n ==> Qtd(m, pedido, j) == Qtd(m', pedido, j)
    ensures SomaQtd(m', pedido, n) == SomaQtd(m, pedido, n)
  {
    if n > 0 {
      SomaQtdAgree(m, m', pedido, n - 1);
    }
  }

  /** Writing, inserting or deleting the single row k changes `total_itens` of
      every order by exactly what that row adds to it before and after. */
  lemma TotalItensExcept(m: map<nat, ItemPedido>, m': map<nat, ItemPedido>, pedido: nat, n: nat, k: nat)
    requires k < n
    requires forall j :: j != k ==> (j in m <==> j in m')
    requires forall j :: j != k && j in m ==> m[j] == m'[j]
    ensures TotalItens(ItensDoPedido(m', pedido, n)) == TotalItens(ItensDoPedido(m, pedido, n)) - Qtd(m, pedido, k) + Qtd(m', pedido, k)
  {
    TotalsScan(m, map[], pedido, n);
    TotalsScan(m', map[], pedido, n);
    assert forall j: nat :: j != k ==> Qtd(m, pedido, j) == Qtd(m', pedido, j);
    SomaQtdExcept(m, m', pedido, n, k);
  }

  /** `on_delete=SET_NULL`: the items after product pk is deleted. */
  function SemReferencia(itens: map<nat, ItemPedido>, pk: nat): (r: map<nat, ItemPedido>)
    ensures r.Keys == itens.Keys
  {
    map k | k in itens :: if itens[k].produto == Some(pk) then itens[k].(produto := None) else itens[k]
  }

  /** The rows of `itens` that do not name product pk. */
  function SemProduto(itens: map<nat, ItemPedido>, pk: nat): map<nat, ItemPedido> {
    map k | k in itens && itens[k].produto != Some(pk) :: itens[k]
  }

  /** Deleting a product keeps every line and its quantity: no order's
      `total_itens` changes. */
  lemma TotalItensAfterProductDeletion(m: map<nat, ItemPedido>, pk: nat, pedido: nat, n: nat)
    ensures TotalItens(ItensDoPedido(SemReferencia(m, pk), pedido, n)) == TotalItens(ItensDoPedido(m, pedido, n))
  {
    var m' := SemReferencia(m, pk);
    TotalsScan(m, map[], pedido, n);
    TotalsScan(m', map[], pedido, n);
    assert forall j: nat :: j < n ==> Qtd(m, pedido, j) == Qtd(m', pedido, j);
    SomaQtdAgree(m, m', pedido, n);
  }

  lemma {:induction false} SomaValorAfterProductDeletion(m: map<nat, ItemPedido>, produtos: map<nat, Produto>, pk: nat, pedido: nat, n: nat)
    ensures SomaValor(SemReferencia(m, pk), produtos - {pk}, pedido, n) == SomaValor(SemProduto(m, pk), produtos, pedido, n)
  {
    if n > 0 {
      SomaValorAfterProductDeletion(m, produtos, pk, pedido, n - 1);
      if n - 1 in m {
        SubtotalAfterProductDeletion(m[n - 1], produtos, pk);
      }
    }
  }

  /** Deleting a product turns the subtotal of each line that named it into 0
      and leaves every other subtotal as it was: `total_pedido` becomes what it
      would be had those lines been deleted instead. */
  lemma TotalPedidoAfterProductDeletion(m: map<nat, ItemPedido>, produtos: map<nat, Produto>, pk: nat, pedido: nat, n: nat)
    ensures TotalPedido(ItensDoPedido(SemReferencia(m, pk), pedido, n), produtos - {pk})
         == TotalPedido(ItensDoPedido(SemProduto(m, pk), pedido, n), produtos)
  {
    TotalsScan(SemReferencia(m, pk), produtos - {pk}, pedido, n);
    TotalsScan(SemProduto(m, pk), produtos, pedido, n);
    SomaValorAfterProductDeletion(m, produtos, pk, pedido, n);
  }

  lemma SubtotalAfterProductDeletion(x: ItemPedido, produtos: map<nat, Produto>, pk: nat)
    ensures var x' := if x.produto == Some(pk) then x.(produto := None) else x;
            Subtotal(x', produtos - {pk}) == if x.produto == Some(pk) then 0 else Subtotal(x, produtos)
  {
    if x.produto.Some? && x.produto.value != pk {
      assert ProdutoDe(x, produtos - {pk}) == ProdutoDe(x, produtos);
    }
  }

  /** `on_delete=CASCADE`: the items after order `pedido` is deleted. */
  function SemPedido(itens: map<nat, ItemPedido>, pedido: nat): (r: map<nat, ItemPedido>)
    ensures forall k :: k in r <==> k in itens && itens[k].pedido != pedido
    ensures forall k :: k in r ==> r[k] == itens[k]
  {
    map k | k in itens && itens[k].pedido != pedido :: itens[k]
  }

  /** Deleting an order leaves it no lines and leaves every other order's lines as they were. */
  lemma {:induction false} CascadeDeletesLines(m: map<nat, ItemPedido>, pedido: nat, outro: nat, n: nat)
    ensures ItensDoPedido(SemPedido(m, pedido), pedido, n) == []
    ensures outro != pedido ==> ItensDoPedido(SemPedido(m, pedido), outro, n) == ItensDoPedido(m, outro, n)
  {
    if n > 0 {
      CascadeDeletesLines(m, pedido, outro, n - 1);
    }
  }

  /** `ItemPedido.__str__`. */
  function ItemLabel(item: ItemPedido, produtos: map<nat, Produto>): string {
    var nome := match ProdutoDe(item, produtos)
      case Some(p) => p.nome
      case None => "[Produto Removido]";
    NatToString(item.quantidade) + "x " + nome + " no Pedido #" + NatToString(item.pedido)
  }

  /** The rendering starts with the quantity and ends with the order id, both
      readable back from it whatever the product's name. */
  lemma ItemLabelReadBack(item: ItemPedido, produtos: map<nat, Produto>)
    ensures DigitsValue(LeadingDigits(ItemLabel(item, produtos))) == item.quantidade
    ensures DigitsValue(TrailingDigits(ItemLabel(item, produtos))) == item.pedido
  {
    var q, id := NatToString(item.quantidade), NatToString(item.pedido);
    var nome := match ProdutoDe(item, produtos) case Some(p) => p.nome case None => "[Produto Removido]";
    var middle := "x " + nome + " no Pedido #";
    assert ItemLabel(item, produtos) == q + (middle + id);
    assert ItemLabel(item, produtos) == (q + middle) + id;
    LeadingDigitsOf(q, middle + id);
    TrailingDigitsOf(q + middle, id);
    NatToStringRoundTrip(item.quantidade);
    NatToStringRoundTrip(item.pedido);
  }
}
