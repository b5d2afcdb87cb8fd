# IFfood cart, orders and kanban — a Dafny model

IFfood is a Django food-ordering site. Customers browse active products and fill
a cart. The cart is their one open `Pedido` (`finalizado = false`), and each of its
lines is an `ItemPedido`. Finalising the cart turns it into an order with status
`solicitado`. The staff then move that order across a kanban board:

- `aceitar_pedido` sets `em_preparo`;
- `marcar_como_em_entrega` sets `saiu_para_entrega`;
- `marcar_como_finalizado` sets `entregue`;
- `recusar_pedido` sets `cancelado`;
- a bulk clear rewrites every `entregue` order to `limpo`.

This project models that core.

- **Tables.** The three database tables (`Produto`, `Pedido`, `ItemPedido`) are
  maps from primary key to record. Each has its auto-increment counter. They are
  held in one object, `StoreViews.Store`, whose invariant `Valid` holds:
  - keys below the counters;
  - foreign keys that resolve;
  - quantities of at least 1;
  - `unique_together (pedido, produto)`;
  - at most one open cart per customer.
- **Views.** The cart and checkout views (`store/views.py`) are methods of `Store`;
  `meus_pedidos` and `lista_produtos` are the functions `MeusPedidos` and `ListaProdutos`. The
  staff views (`restaurant/views.py`) are methods taking the store.
- **Computations.** The model properties (`total_itens`, `total_pedido`,
  `subtotal`, `__str__`) and the ORM queries behind the listings and the board are
  functions.
- **Outcomes.** A 404 from `get_object_or_404` is the `NotFound` outcome, and it
  changes nothing.

Modules:

- `Wrappers`: `Option` (a nullable value) and `Result` (a value or a 404).
- `Text`: decimal rendering of naturals and code-point string order.
- `Tables`: `filter(...).order_by(...)` over a table. It scans keys in order, keeps
  the matching rows and sorts them stably.
- `RestaurantModels`: `Produto` and its default ordering by `nome`.
- `StoreModels`: `Pedido`, `ItemPedido`, the status values, the totals, the
  `SET_NULL` and `CASCADE` deletions, and the line label.
- `StoreViews`: the `Store` class and the customer views.
- `RestaurantViews`: the kanban board, the staff actions and product deletion.

Prices are integer cents (`DecimalField(max_digits=10, decimal_places=2)`). A
price of `None` is kept, because `subtotal` tests for it. The status is an
enumeration of the five declared choices plus the two values the views also write:
`solicitado` and `limpo`. Django does not check `choices` on `save()`.

Behaviour of the views that the model keeps as written:

- Finalising an empty cart succeeds. There is no empty-cart error.
- Status writes are unguarded. Any status can follow any other.
- The delivered column shows every delivered order. It is not capped.
- Clearing rewrites `entregue` orders whether finalised or not.
- Removing or updating a line checks only that the order belongs to the customer,
  not that it is still open.

## Model

| member | source | states |
|---|---|---|
| StoreModels.StatusCode | store/models.py:6-17 | every status value is stored as a non-empty string that fits `max_length=20`, including `solicitado` and `limpo` |
| StoreModels.StatusCodeInjective | store/models.py:6-12 | distinct statuses are stored as distinct strings, so filtering by the stored string selects exactly one status |
| StoreModels.NovoPedido | store/models.py:15-17 | definition: the row `get_or_create` inserts holds the field defaults, `finalizado = False` and `status = 'pendente'`, stamped with the creation time; properties in `StoreViews.Store.ObterCarrinho` |
| StoreModels.DateOrdersArePreorders | restaurant/views.py:96-100 | ordering by `data_pedido` ascending and by `-data_pedido` are total preorders, so sorting by either is well defined |
| StoreModels.Subtotal | store/models.py:58-66 | `subtotal` is 0 for a line whose product is gone, and never negative when no price is negative |
| StoreModels.ItensDoPedido | store/models.py:30-37 | `itempedido_set.all()` yields only lines of that order; properties in `StoreModels.TotalsScan`, `StoreModels.CascadeDeletesLines` and `StoreModels.TotalsPermutation` |
| StoreModels.TotalItens | store/models.py:34-39 | `total_itens` of lines that each hold at least one unit is at least the number of lines |
| StoreModels.TotalPedido | store/models.py:27-32 | `total_pedido` is 0 when no line has a product, and never negative when no price is negative |
| StoreModels.TotalsConcat | store/models.py:27-39 | both totals are sums: the total of two runs of lines is the sum of their totals |
| StoreModels.TotalsPermutation | store/models.py:27-39 | both totals are the same for any two orderings of the same lines, so the unspecified order of `itempedido_set.all()` does not affect them |
| StoreModels.TotalsSnoc | store/models.py:31-38 | one more line adds its quantity to `total_itens` and its `subtotal` to `total_pedido` |
| StoreModels.TotalItensExcept | store/models.py:34-39 | changing, adding or deleting a single row changes an order's `total_itens` by exactly the difference in that row's contribution |
| StoreModels.TotalItensAppend | store/models.py:34-39 | a row inserted under the next key, as `get_or_create` does for a new line, adds its quantity to its own order's `total_itens` |
| StoreModels.SemReferencia | store/models.py:42 | `on_delete=SET_NULL` keeps every line, under the same key; properties in `StoreModels.TotalItensAfterProductDeletion` and `StoreModels.TotalPedidoAfterProductDeletion` |
| StoreModels.TotalItensAfterProductDeletion | store/models.py:42 | under `on_delete=SET_NULL` deleting a product keeps every line, so no order's `total_itens` changes |
| StoreModels.TotalPedidoAfterProductDeletion | store/models.py:58-66 | after a product is deleted, an order's `total_pedido` equals the total of its lines that did not name that product: the orphaned lines add 0 |
| StoreModels.SubtotalAfterProductDeletion | store/models.py:64-66 | a line left without its product has `subtotal` 0; every other line keeps its `subtotal` |
| StoreModels.SemPedido | store/models.py:43 | `on_delete=CASCADE` keeps exactly the rows of the other orders, each unchanged |
| StoreModels.CascadeDeletesLines | store/models.py:43 | under `on_delete=CASCADE` a deleted order has no lines left and every other order keeps exactly its lines |
| StoreModels.ItemLabel | store/models.py:52-56 | definition: `quantidade`, `x `, the product's name or `[Produto Removido]`, ` no Pedido #` and the order id; properties in `StoreModels.ItemLabelReadBack` |
| StoreModels.ItemLabelReadBack | store/models.py:52-56 | the label of a line starts with its quantity and ends with its order id, both read back exactly whether or not the product still exists |
| RestaurantModels.ByNomeIsPreorder | restaurant/models.py:13 | the default ordering by `nome` is total and transitive |
| Text.NatToStringRoundTrip | store/models.py:55 | the decimal rendering used in the label reads back as the same number |
| Tables.Query | store/views.py:126 | a `filter(...).order_by(...)` returns exactly the matching rows, each once, sorted by the given order |
| StoreViews.MeusPedidos | store/views.py:126 | `meus_pedidos` lists exactly the customer's finalised orders, each once, newest first |
| StoreViews.ListaProdutos | store/views.py:44 | `lista_produtos` lists exactly the active products, each once, in the default order by name |
| StoreViews.NovaLinhaUnica | store/models.py:50 | inserting a line for a product the order does not list yet keeps `(pedido, produto)` unique |
| StoreViews.Store.ObterCarrinho | store/views.py:49 | `get_or_create` returns the customer's open cart if there is one and changes nothing; otherwise it creates exactly one new `pendente`, unfinalised order stamped with the current time; either way that is the customer's only open cart |
| StoreViews.Store.HxContagemCarrinho | store/views.py:103-107 | a signed-in customer gets their open cart, created if needed; an anonymous visitor gets nothing and nothing changes; the order counter rises only when a cart is created, and no other counter moves |
| StoreViews.Store.IncrementarLinha | store/views.py:59-61 | one more unit on a line raises its order's `total_itens` by 1 and keeps the invariant |
| StoreViews.Store.CriarLinha | store/views.py:58 | a new line has quantity 1 and the next key, and raises its order's `total_itens` by 1 |
| StoreViews.Store.DecrementarLinha | store/views.py:75-77 | one unit less on a line that keeps at least one lowers `total_itens` by 1 |
| StoreViews.Store.ApagarLinha | store/views.py:94 | deleting a line lowers its order's `total_itens` by its quantity and leaves every other row as it was |
| StoreViews.Store.AdicionarAoCarrinho | store/views.py:55-62 | an unknown product is a 404 before the cart lookup, with nothing created; otherwise the product's line in the open cart gains exactly one unit or is created with quantity 1, all other lines stay, and the cart's `total_itens` rises by 1 |
| StoreViews.Store.AtualizarCarrinho | store/views.py:67-86 | a line not owned by the customer is a 404 with no change; `inc` adds a unit, `dec` removes one and deletes the line when none would be left, any other action changes nothing; `total_itens` moves by +1, -1 or 0 accordingly |
| StoreViews.Store.RemoverDoCarrinho | store/views.py:91-100 | a line not owned by the customer is a 404; otherwise that line alone is deleted, whatever its quantity, and `total_itens` drops by its quantity |
| StoreViews.Store.FinalizarPedido | store/views.py:111-121 | no open cart is a 404; otherwise the cart, empty or not, becomes finalised with status `solicitado`, nothing else changes, and the customer has no open cart, so the next get-or-create makes a new one under a fresh key |
| StoreViews.Store.DeletarPedido | store/models.py:43 | deleting an order removes it and all its lines, leaves every other order's lines unchanged, and keeps the invariant |
| RestaurantViews.Kanban | restaurant/views.py:96-100 | the four columns hold exactly the finalised orders with status `solicitado`, `em_preparo`, `saiu_para_entrega` and `entregue`, each once; the first three oldest first, the last newest first; none truncated |
| RestaurantViews.ColunaIds | restaurant/views.py:123-126 | an order appears in a column if and only if it is finalised with that column's status |
| RestaurantViews.ForaDoQuadro | restaurant/views.py:96-100 | carts and `pendente`, `cancelado` or `limpo` orders appear in no column |
| RestaurantViews.ComStatus | restaurant/views.py:138-140 | a status write changes only the status of the named order: same keys, same customer, date and `finalizado`, every other order untouched |
| RestaurantViews.ComStatusIdempotente | restaurant/views.py:137-156 | writing the same status twice gives the same table as writing it once |
| RestaurantViews.AceitarMostraEmPreparo | restaurant/views.py:137-141 | after accepting a finalised order the refreshed board shows it in the preparation column and in no other |
| RestaurantViews.Limpar | restaurant/views.py:201 | the clear rewrites every `entregue` order, finalised or not, to `limpo`, leaves every other order untouched, and leaves no `entregue` order |
| RestaurantViews.LimparEsvaziaEntregues | restaurant/views.py:199-202 | after the clear the delivered column is empty |
| RestaurantViews.LimparIdempotente | restaurant/views.py:201 | clearing twice is clearing once |
| RestaurantViews.VisualizarProduto | restaurant/views.py:38-41 | the staff product list holds every product, active or not, each once, sorted by name |
| RestaurantViews.GravarStatus | restaurant/views.py:138-141 | an unknown id is a 404 with no change; otherwise the status is overwritten whatever it was, nothing else changes, and the board is read back |
| RestaurantViews.MudarStatus | restaurant/views.py:139-140 | the `save()` after a status write replaces the orders by `ComStatus` of the old ones, keeps `Valid` and changes nothing else |
| RestaurantViews.AceitarPedido | restaurant/views.py:137-141 | `aceitar_pedido` writes `em_preparo` unconditionally; a finalised order then shows in the preparation column only |
| RestaurantViews.MarcarComoEmEntrega | restaurant/views.py:145-149 | `marcar_como_em_entrega` writes `saiu_para_entrega` unconditionally, or answers 404 |
| RestaurantViews.MarcarComoFinalizado | restaurant/views.py:152-156 | `marcar_como_finalizado` writes `entregue` unconditionally, or answers 404 |
| RestaurantViews.RecusarPedido | restaurant/views.py:191-195 | `recusar_pedido` writes `cancelado` unconditionally, after which the order is on no column |
| RestaurantViews.LimparFinalizados | restaurant/views.py:199-202 | the store's orders become `Limpar` of the old ones and the refreshed board has an empty delivered column |
| RestaurantViews.DeletarProduto | restaurant/views.py:76-87 | an unknown product is a 404; otherwise the product is deleted, its lines stay with a null product, every order keeps its `total_itens`, and its `total_pedido` becomes the total of its other lines |

## Left out

- Registration, login and logout views, and the `login_required`, `user_passes_test` and `require_POST` decorators. The acting customer is a parameter. The model does not capture who may call a view: `marcar_como_em_entrega`, `marcar_como_finalizado`, `recusar_pedido` and `limpar_finalizados` need only a login, not staff status.
- Template rendering, redirects, the `HX-Refresh` and `HX-Trigger` headers and 204 responses. Views return the data they would render, or `NotFound`.
- The GET branch of `deletar_produto` and the read-only `detalhes_pedido`. Both only render a page.
- `adicionar_produto` and `editar_produto` (form validation and image upload), the forms module, URL routing and the `dashboard`. The dashboard depends on the wall clock and on an unordered top-5 aggregate. The catalogue is given to the `Store` constructor.
- Users as records: a customer is a number. `Pedido.__str__` needs the username and is not modelled. Nor is deleting a user, which cascades to their orders.
- The clock: `auto_now_add` takes the current time as the parameter `agora`. `ItemPedido.data_adicionado` is not modelled, because nothing reads it.
- Concurrency, the races around `get_or_create`, and `MultipleObjectsReturned`. The model is sequential.
- Column widths: the 100-character name, the 10-digit price and the range of `PositiveIntegerField` are not enforced.
- Tie order: the database leaves the order of rows with equal sort keys unspecified. The model breaks ties by primary key and returns `itempedido_set.all()` in key order. `TotalsPermutation` shows that the totals do not depend on that order.
- Name collation: `ByNome` compares names by code point, not by the database collation.

