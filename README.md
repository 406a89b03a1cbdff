# Adega front end — a verified model of its state logic

Adega is a Next.js front end for a wine bar and restaurant. Customers check in at a table and
build a comanda (a running bill). Staff use an admin area with these parts:

- a dashboard of tables and a tables page;
- a drag-and-drop floor-plan editor (the "mapa de mesas");
- CRUD pages for employees, customers and products;
- an order-taking page;
- a menu page grouped by category;
- the dialogs that edit each kind of record.

This project models the logic inside those components in Dafny:

- the list and record transformations;
- the state each component keeps and how its handlers change it;
- the geometry of the floor-plan editor;
- the validation schema of the check-in form.

It then proves what each piece promises.

The modules are:

- One module per source file:
  - `Comanda` — `context/comanda-context.tsx`;
  - `MapaMesas` — the floor-plan editor;
  - `Funcionarios`, `Clientes` and `Produtos` — the three CRUD pages;
  - `Mesas` — the tables page;
  - `PainelAdmin` — the dashboard;
  - `FazerPedido` — the order page;
  - `Cardapio` — the admin menu page and its sections;
  - `MesaDialog`, `EditProductDialog`, `ProdutoDialog`, `ClienteDialog` and `FuncionarioDialog` — the dialogs;
  - `Checkin` — the customer check-in form.
- Two shared modules:
  - `Js` holds the JavaScript built-ins the components rely on: `x ?? d`, `parseInt` and its NaN, `Number.prototype.toString` on integers, `includes`/`indexOf`, the first-occurrence `String.prototype.replace`, and ASCII `toLowerCase`/`toUpperCase`;
  - `Lists` holds the array idioms the pages repeat: `filter`, `map` by key, `find`/`findIndex`, `Math.max(...ids, 0) + 1`, and the left-fold `reduce` sums.

How the source maps to Dafny:

- A component whose state hooks are replaced by its handlers is a `class`:
  - the hooks become fields;
  - each handler becomes a method whose `modifies` clause names exactly the fields it sets;
  - each method's `ensures` ties the new state to a pure function of the old state.
- The pure expressions the handlers compute are functions, and their properties are lemmas.
- Each class invariant is kept as a `Valid()` predicate:
  - unique ids on the CRUD pages;
  - `hasChanges` agreeing with `checkForChanges`, and the zoom scale in range, in the editor.
- Inputs from outside the component become parameters:
  - the answer of a `fetch` is an `ok` flag or an `Option` of the reloaded data;
  - `confirm(...)` is a `confirmed` flag;
  - `Date.now()` and today's date are `now` and `hoje`;
  - `parseFloat` and `Number.prototype.toString` on non-integers are function parameters;
  - the canvas rectangle is an optional origin point.
- Coordinates, prices, salaries and purchase totals are `real`.
- Integers produced by `parseInt` are `Js.JsInt` (an integer or NaN).

## Model

| member | source | states |
|---|---|---|
| Comanda.AdicionarNovo | context/comanda-context.tsx:43-52 | adding a name not in the comanda appends it with quantidade 1; nothing else changes |
| Comanda.AdicionarExistente | context/comanda-context.tsx:43-49 | adding a name already present increments only that entry's quantidade; its price and description, the order and the other entries stay as they were |
| Comanda.AdicionarValid | context/comanda-context.tsx:41-56 | adding keeps names unique and every quantidade at least 1 |
| Comanda.TotalAdicionar | context/comanda-context.tsx:79 | `totalItens` rises by exactly 1 after an add |
| Comanda.RemoverAusente | context/comanda-context.tsx:61-71 | removing an absent name leaves the list unchanged |
| Comanda.RemoverDecrementa | context/comanda-context.tsx:61-67 | removing a present name with quantidade above 1 decrements only that entry |
| Comanda.RemoverApaga | context/comanda-context.tsx:68-71 | removing a present name with quantidade 1 deletes that entry and keeps the rest in order |
| Comanda.RemoverValid | context/comanda-context.tsx:59-74 | removing keeps names unique and quantities at least 1 |
| Comanda.TotalRemover | context/comanda-context.tsx:79 | `totalItens` falls by exactly 1 after removing a present name |
| Comanda.AdicionarRemover | context/comanda-context.tsx:41-71 | an add followed by a remove of the same name restores the list exactly |
| Comanda.LimparZera | context/comanda-context.tsx:76-79 | the cleared comanda is valid and its item total is 0 |
| Comanda.TiraPonto | context/comanda-context.tsx:33 | the `.replace(".", "")` step removes only the first "." |
| Comanda.TrocaVirgula | context/comanda-context.tsx:33 | the `.replace(",", ".")` step turns only the first "," into "." |
| Comanda.PrecoTextoPassos | context/comanda-context.tsx:33 | the text given to `parseFloat` is the three first-occurrence replacements applied in order |
| Comanda.PrecoTextoSimples | context/comanda-context.tsx:31-34 | "R$ 120,50" becomes "120.50": the prefix goes and the comma becomes a point |
| Comanda.PrecoTextoMilhar | context/comanda-context.tsx:33 | "R$ 1.234,56" becomes "1234.56": one thousands separator is removed |
| Comanda.PrecoTextoSoPrimeiroPonto | context/comanda-context.tsx:33 | with two thousands separators only the first is removed, so the text keeps a second "." |
| Comanda.TotalPrecoAdicionarNovo | context/comanda-context.tsx:80-82 | adding a new item raises `totalPreco` by that item's parsed price |
| Comanda.ComandaProvider.constructor | context/comanda-context.tsx:38 | the comanda starts empty and valid |
| Comanda.ComandaProvider.AdicionarItem | context/comanda-context.tsx:41-56 | the state becomes the add result; validity is kept and the item total rises by 1 |
| Comanda.ComandaProvider.RemoverItem | context/comanda-context.tsx:59-74 | the state becomes the remove result; validity is kept |
| Comanda.ComandaProvider.LimparComanda | context/comanda-context.tsx:76 | the state becomes empty, with item total 0 |
| MapaMesas.HasChangesFromIff | app/admin/mapa-mesas/page.tsx:131-146 | the `some` scan from an index is true iff some later element lacks an original at its index or differs from it |
| MapaMesas.HasChangesIff | app/admin/mapa-mesas/page.tsx:131-146 | `hasChanges` is positional: true iff some element has no original at its index or differs there in x, y, width, height, seats, label or lock |
| MapaMesas.HasChangesSelf | app/admin/mapa-mesas/page.tsx:68-71 | right after a load or a save nothing is pending |
| MapaMesas.HasChangesAppend | app/admin/mapa-mesas/page.tsx:318-330 | an element appended beyond the snapshot always counts as a change |
| MapaMesas.PatchRequests | app/admin/mapa-mesas/page.tsx:85-116 | there is one request per selected element |
| MapaMesas.PatchSelection | app/admin/mapa-mesas/page.tsx:85-116 | an element gets a PATCH iff it is a table and no original shares its id or the first that does differs; requests follow element order with that table's body |
| MapaMesas.DiffersIgnoresStatus | app/admin/mapa-mesas/page.tsx:88-98 | `status` takes no part in the comparison |
| MapaMesas.StatusOnlyChangesNotSent | app/admin/mapa-mesas/page.tsx:85-116 | with unique ids, differences only in status produce no request |
| MapaMesas.NoPatchesAgainstSelf | app/admin/mapa-mesas/page.tsx:85-121 | saving against its own snapshot sends nothing |
| MapaMesas.ReferencesNeverSent | app/admin/mapa-mesas/page.tsx:86 | reference shapes never produce a request |
| MapaMesas.ClientToWorld | app/admin/mapa-mesas/page.tsx:156-163 | `clientToWorld` inverts the drawing transform `x * scale + pan + rect origin` |
| MapaMesas.WorldClientRoundTrip | app/admin/mapa-mesas/page.tsx:156-163 | drawing a world point and converting it back gives the point |
| MapaMesas.DragAtGrabPoint | app/admin/mapa-mesas/page.tsx:175-177 | with the offset `startDrag` records, `onDrag` at the same mouse leaves the element where it was |
| MapaMesas.DragFollowsMouse | app/admin/mapa-mesas/page.tsx:180-192 | moving the mouse by (dx, dy) pixels moves the element by (dx, dy)/scale |
| MapaMesas.StartRect | app/admin/mapa-mesas/page.tsx:208 | the resize start rectangle is the element's, with 170x110 for a missing size |
| MapaMesas.ResizeStep | app/admin/mapa-mesas/page.tsx:225-243 | a handle with "left"/"top" keeps the right/bottom edge fixed; a touched side never drops below 80x50; an untouched axis keeps position and size; only geometry changes |
| MapaMesas.ResizeKeepsIds | app/admin/mapa-mesas/page.tsx:225-226 | a resize step changes no id |
| MapaMesas.ResizeBottomRightClamps | app/admin/mapa-mesas/page.tsx:27-28 | pulling "bottom-right" past the minimum stops at 80x50 with the top-left corner fixed |
| MapaMesas.ResizeTopLeftKeepsBottomRight | app/admin/mapa-mesas/page.tsx:233-241 | the "top-left" handle keeps the bottom-right corner where it started, each side clamped to its minimum |
| MapaMesas.ZoomedScale | app/admin/mapa-mesas/page.tsx:255-262 | the new scale lies in [0.4, 3]; from a scale in range, a wheel-up never shrinks and a wheel-down never grows |
| MapaMesas.ZoomKeepsCursorPoint | app/admin/mapa-mesas/page.tsx:263-268 | the new pan keeps the world point under the cursor fixed |
| MapaMesas.Toggled | app/admin/mapa-mesas/page.tsx:435-437 | the lock button negates the lock, with absent read as unlocked, and changes nothing else |
| MapaMesas.ToggleTwiceLocks | app/admin/mapa-mesas/page.tsx:435-437 | two toggles restore a set lock, and turn an absent lock into `false` |
| MapaMesas.MesaCount | app/admin/mapa-mesas/page.tsx:295 | the table count is at most the element count |
| MapaMesas.NovaMesaNumbering | app/admin/mapa-mesas/page.tsx:295 | the new table's label is "Mesa " followed by the number one past the tables already on the map |
| MapaMesas.NovaReferencia | app/admin/mapa-mesas/page.tsx:318-330 | the new reference is an unlocked reference shape whose id starts with "ref-" |
| MapaMesas.Editor.constructor | app/admin/mapa-mesas/page.tsx:30-53 | the editor starts empty, unscaled and unpanned, with nothing pending |
| MapaMesas.Editor.UpdateElementos | app/admin/mapa-mesas/page.tsx:148-154 | the elements are replaced and `hasChanges` recomputed against the snapshot |
| MapaMesas.Editor.FetchMesas | app/admin/mapa-mesas/page.tsx:59-78 | a successful load sets elements and snapshot to the data with nothing pending; a failed one changes nothing |
| MapaMesas.Editor.SaveChanges | app/admin/mapa-mesas/page.tsx:80-129 | the selected PATCH requests are sent; when they all settle the snapshot becomes the elements and nothing is pending |
| MapaMesas.Editor.StartDrag | app/admin/mapa-mesas/page.tsx:166-178 | a missing or locked element, a resize, a pan or no canvas leaves the state alone; otherwise the drag starts with the grab offset |
| MapaMesas.Editor.OnDrag | app/admin/mapa-mesas/page.tsx:180-192 | while dragging, only the elements with the dragged id move, to the mouse minus the offset |
| MapaMesas.Editor.StopDrag | app/admin/mapa-mesas/page.tsx:194 | the drag ends |
| MapaMesas.Editor.StartResize | app/admin/mapa-mesas/page.tsx:197-213 | a locked or missing element starts no resize; otherwise the handle, the world mouse and the start rectangle are recorded |
| MapaMesas.Editor.GlobalMouseMove | app/admin/mapa-mesas/page.tsx:215-246 | while a handle is held, only the element with its id takes a resize step |
| MapaMesas.Editor.GlobalMouseUp | app/admin/mapa-mesas/page.tsx:248-252 | the resize ends |
| MapaMesas.Editor.HandleWheel | app/admin/mapa-mesas/page.tsx:255-269 | scale and pan become the zoomed ones; the scale stays in range and the point under the cursor stays put |
| MapaMesas.Editor.HandleMouseDown | app/admin/mapa-mesas/page.tsx:271-277 | the middle and right buttons start a pan from the mouse; other buttons change nothing |
| MapaMesas.Editor.HandleMouseMove | app/admin/mapa-mesas/page.tsx:278-284 | while panning, the pan moves by the mouse's displacement |
| MapaMesas.Editor.HandleMouseUp | app/admin/mapa-mesas/page.tsx:285 | panning stops |
| MapaMesas.Editor.ToggleLock | app/admin/mapa-mesas/page.tsx:435-437 | only the elements with the given id are toggled |
| MapaMesas.Editor.SetLabel | app/admin/mapa-mesas/page.tsx:486-491 | only the elements with the given id are relabelled |
| MapaMesas.Editor.AddReferencia | app/admin/mapa-mesas/page.tsx:318-330 | a reference is appended and the map then has unsaved changes |
| MapaMesas.Editor.AddMesa | app/admin/mapa-mesas/page.tsx:289-316 | the POST body is the numbered new table; after a successful POST and reload the map is the reloaded data with nothing pending |
| Funcionarios.BuscaVazia | app/admin/funcionarios/page.tsx:73-78 | an empty search term lists every employee |
| Funcionarios.BuscaIgnoraCaixa | app/admin/funcionarios/page.tsx:73-78 | the search gives the same list for a term and its lowercase form |
| Funcionarios.BuscaMembros | app/admin/funcionarios/page.tsx:73-78 | an employee is listed iff its lowercased nome, cargo or email contains the lowercased term |
| Funcionarios.FuncionariosAtivos | app/admin/funcionarios/page.tsx:111 | the active count is at most the number of employees |
| Funcionarios.FolhaSoAtivos | app/admin/funcionarios/page.tsx:112 | the payroll adds each active salary and nothing for inactive employees |
| Funcionarios.FolhaAdicionar | app/admin/funcionarios/page.tsx:111-112 | hiring adds the salary to the payroll, and one to the active count, exactly when the employee is active |
| Funcionarios.FuncionariosPage.constructor | app/admin/funcionarios/page.tsx:24-71 | the page starts with the sample employees, ids unique, empty search and closed dialog |
| Funcionarios.FuncionariosPage.SetSearchTerm | app/admin/funcionarios/page.tsx:68-71 | the search term is set |
| Funcionarios.FuncionariosPage.HandleAddFuncionario | app/admin/funcionarios/page.tsx:80-87 | the record is appended under `max(ids, 0) + 1`, above every old id; ids stay unique; the dialog closes |
| Funcionarios.FuncionariosPage.HandleEditFuncionario | app/admin/funcionarios/page.tsx:89-93 | records with the edited id are replaced; ids stay unique; the dialog closes |
| Funcionarios.FuncionariosPage.HandleDeleteFuncionario | app/admin/funcionarios/page.tsx:95-99 | confirmed, the records with that id go; unconfirmed, nothing changes |
| Funcionarios.FuncionariosPage.OpenEditDialog | app/admin/funcionarios/page.tsx:101-104 | the dialog opens on that employee |
| Funcionarios.FuncionariosPage.OpenAddDialog | app/admin/funcionarios/page.tsx:106-109 | the dialog opens with no employee |
| Clientes.BuscaVazia | app/admin/clientes/page.tsx:68-73 | an empty search term lists every customer |
| Clientes.BuscaMembros | app/admin/clientes/page.tsx:68-73 | a customer is listed iff its lowercased nome or email contains the lowercased term, or its telefone contains the term |
| Clientes.BuscaIgnoraCaixaSemTelefone | app/admin/clientes/page.tsx:68-73 | when the telefone does not match, the casing of the term does not matter |
| Clientes.BuscaTelefoneSensivelACaixa | app/admin/clientes/page.tsx:72 | the telefone match is case-sensitive: "A" matches a telefone "A" and "a" does not |
| Clientes.TotalComprasAdicionar | app/admin/clientes/page.tsx:106 | a new customer adds exactly its purchases to the total |
| Clientes.TotalComprasPartes | app/admin/clientes/page.tsx:106 | the total over a concatenation is the sum of the totals |
| Clientes.TotalComprasExcluir | app/admin/clientes/page.tsx:90-94 | with unique ids, deleting a customer takes exactly its purchases off the total |
| Clientes.ClientesPage.constructor | app/admin/clientes/page.tsx:23-66 | the page starts with the sample customers, ids unique, empty search and closed dialog |
| Clientes.ClientesPage.SetSearchTerm | app/admin/clientes/page.tsx:62-66 | the search term is set |
| Clientes.ClientesPage.HandleAddCliente | app/admin/clientes/page.tsx:75-82 | the record is appended under `max(ids, 0) + 1`; ids stay unique; the total grows by its purchases |
| Clientes.ClientesPage.HandleEditCliente | app/admin/clientes/page.tsx:84-88 | records with the edited id are replaced; ids stay unique; the dialog closes |
| Clientes.ClientesPage.HandleDeleteCliente | app/admin/clientes/page.tsx:90-94 | confirmed, the records with that id go; unconfirmed, nothing changes |
| Clientes.ClientesPage.OpenEditDialog | app/admin/clientes/page.tsx:96-99 | the dialog opens on that customer |
| Clientes.ClientesPage.OpenAddDialog | app/admin/clientes/page.tsx:101-104 | the dialog opens with no customer |
| Produtos.BuscaVazia | app/admin/produtos/page.tsx:65-69 | an empty search term lists every product |
| Produtos.BuscaIgnoraCaixa | app/admin/produtos/page.tsx:65-69 | the search gives the same list for a term and its lowercase form |
| Produtos.BuscaMembros | app/admin/produtos/page.tsx:65-69 | a product is listed iff its lowercased nome or categoria contains the lowercased term |
| Produtos.BaixoEstoque | app/admin/produtos/page.tsx:151 | the low-stock count is at most the number of products |
| Produtos.BaixoEstoqueDestaque | app/admin/produtos/page.tsx:151-182 | the count is non-zero iff some card is highlighted, since both use `estoque < 10` |
| Produtos.BaixoEstoqueInicial | app/admin/produtos/page.tsx:22-57 | of the sample catalogue only "Espumante Brut" is low on stock |
| Produtos.BaixoEstoqueAdicionar | app/admin/produtos/page.tsx:151 | a new product adds one to the count iff its stock is below 10 |
| Produtos.ProdutosPage.constructor | app/admin/produtos/page.tsx:22-63 | the page starts with the sample products, ids unique, empty search and closed dialog |
| Produtos.ProdutosPage.SetSearchTerm | app/admin/produtos/page.tsx:59-63 | the search term is set |
| Produtos.ProdutosPage.HandleAddProduto | app/admin/produtos/page.tsx:71-78 | the record is appended under `max(ids, 0) + 1`; ids stay unique; the low-stock count follows |
| Produtos.ProdutosPage.HandleEditProduto | app/admin/produtos/page.tsx:80-84 | records with the edited id are replaced; ids stay unique; the dialog closes |
| Produtos.ProdutosPage.HandleDeleteProduto | app/admin/produtos/page.tsx:86-90 | confirmed, the records with that id go; unconfirmed, nothing changes |
| Produtos.ProdutosPage.OpenEditDialog | app/admin/produtos/page.tsx:92-95 | the dialog opens on that product |
| Produtos.ProdutosPage.OpenAddDialog | app/admin/produtos/page.tsx:97-100 | the dialog opens with no product |
| Mesas.StatusText | app/admin/mesas/page.tsx:91-102 | the three codes map to their labels; any other string is shown as is |
| PainelAdmin.RotuloDoPainel | app/admin/page.tsx:170-181 | the dashboard's `getStatusText` is the tables page's, and every status it shows, having come from the API conversion, gets one of the three labels |
| Mesas.CodesAndLabelsDistinct | app/admin/mesas/page.tsx:91-102 | distinct statuses have distinct codes and distinct labels |
| Mesas.Contagem | app/admin/mesas/page.tsx:40-42 | a status count is at most the number of tables |
| Mesas.ContagensSomam | app/admin/mesas/page.tsx:40-42 | the three counts add up to the number of tables |
| Mesas.Atualizar | app/admin/mesas/page.tsx:44-48 | every table with the edited id is replaced; length and the other tables are unchanged |
| Mesas.Liberada | app/admin/mesas/page.tsx:51-56 | a freed table keeps id, numero and capacidade, is available and has no guests, time or reservation name |
| Mesas.Liberar | app/admin/mesas/page.tsx:50-58 | only the tables with the given id are freed |
| Mesas.LiberarIdempotente | app/admin/mesas/page.tsx:50-58 | freeing twice is freeing once |
| Mesas.LiberarAusente | app/admin/mesas/page.tsx:50-58 | freeing an absent id changes nothing |
| Mesas.LiberarContagens | app/admin/mesas/page.tsx:40-58 | with unique ids, freeing a busy or reserved table moves one from its count to the available count |
| Mesas.ContagemUpdate | app/admin/mesas/page.tsx:40-42 | replacing one table changes a count by what the old and new table contribute |
| Mesas.MesasPage.constructor | app/admin/mesas/page.tsx:22-38 | the page starts with the sample tables and a closed dialog |
| Mesas.MesasPage.OpenMesaDialog | app/admin/mesas/page.tsx:60-63 | the dialog opens on that table |
| Mesas.MesasPage.HandleUpdateMesa | app/admin/mesas/page.tsx:44-48 | the list becomes the replace-by-id result and the dialog closes |
| Mesas.MesasPage.HandleLiberarMesa | app/admin/mesas/page.tsx:50-58 | the list becomes the liberar result |
| Mesas.MesasPage.Contagens | app/admin/mesas/page.tsx:40-42 | the three counts shown add up to the number of tables |
| PainelAdmin.DaApi | app/admin/page.tsx:58-64 | "available" is disponivel and "busy" is ocupada, both iff; anything else is reservada |
| PainelAdmin.StatusMapDaApi | app/admin/page.tsx:58-93 | converting a page code to the API and back is the identity |
| PainelAdmin.DaApiStatusMap | app/admin/page.tsx:58-93 | API to page to API is the identity on available/busy/reserved and gives "reserved" for anything else |
| PainelAdmin.Formatadas | app/admin/page.tsx:55-72 | formatting keeps length, order and id, with numero the label, capacidade the seats and the mapped status |
| PainelAdmin.ContagensDoPainel | app/admin/page.tsx:83-85 | the three dashboard counts add up to the number of API tables |
| PainelAdmin.LiberarIgualAtualizarDisponivel | app/admin/page.tsx:98-124 | the update body equals the liberar body `{status: "available"}` iff the table was set to disponivel |
| PainelAdmin.Painel.constructor | app/admin/page.tsx:37-41 | the dashboard starts with no tables and a closed dialog |
| PainelAdmin.Painel.FetchMesas | app/admin/page.tsx:43-81 | a successful load sets the formatted tables; a failed one keeps the list |
| PainelAdmin.Painel.OpenMesaDialog | app/admin/page.tsx:139-142 | the dialog opens on that table |
| PainelAdmin.Painel.HandleUpdateMesa | app/admin/page.tsx:87-115 | the PATCH body is the mapped status; on ok the list reloads and the dialog closes; otherwise nothing changes |
| PainelAdmin.Painel.HandleLiberarMesa | app/admin/page.tsx:117-137 | the PATCH body is `{status: "available"}`; the list reloads only on ok |
| MesaDialog.FormDe | components/mesa-dialog.tsx:44-53 | the form copies the status, shows each missing optional as "" and each present one as its value, and the guest-count text parses back to the table's count |
| MesaDialog.Sincronizado | components/mesa-dialog.tsx:44-53 | the form is refilled only when a table is given |
| MesaDialog.Submit | components/mesa-dialog.tsx:55-68 | with no table nothing is saved; otherwise id, numero and capacidade are kept, the status is the form's, clientes is `parseInt` of the form's text and the time is the form's text when ocupada (both absent otherwise), and the reservation name is the form's text when reservada (absent otherwise) |
| MesaDialog.SubmitUnchanged | components/mesa-dialog.tsx:44-65 | opening on a table and submitting unedited returns the same table iff its optional fields match its status |
| MesaDialog.SubmitConsistente | components/mesa-dialog.tsx:59-65 | whatever the form holds, the submitted table's optional fields match its status |
| MesaDialog.Dialog.constructor | components/mesa-dialog.tsx:37-42 | the form starts at its initial value |
| MesaDialog.Dialog.Sincronizar | components/mesa-dialog.tsx:44-53 | the effect applies `Sincronizado` to the form |
| MesaDialog.Dialog.HandleSubmit | components/mesa-dialog.tsx:55-68 | the saved table is `Submit` of the current form |
| EditProductDialog.CategoriesDistinct | components/edit-product-dialog.tsx:41-50 | there are eight category options, all different |
| EditProductDialog.DescriptionText | components/edit-product-dialog.tsx:60 | a null description shows as "" and any other shows as itself |
| EditProductDialog.DescriptionValue | components/edit-product-dialog.tsx:90 | the body's description is null iff the field is "" |
| EditProductDialog.FormDe | components/edit-product-dialog.tsx:58-65 | the form copies name, price, category and availability, and the quantity text parses back to the quantity |
| EditProductDialog.Corpo | components/edit-product-dialog.tsx:88-95 | the body copies the text fields, sends "" as null and the parsed quantity |
| EditProductDialog.DescriptionRoundTrip | components/edit-product-dialog.tsx:60-90 | a description goes null to "" to null and s to s to s for non-empty s; only "" becomes null |
| EditProductDialog.CorpoSemEdicao | components/edit-product-dialog.tsx:58-95 | saving unedited sends the product's own values and the same integer quantity |
| EditProductDialog.Dialog.constructor | components/edit-product-dialog.tsx:56-65 | the dialog starts closed, not loading, with the form built from the product |
| EditProductDialog.Dialog.SetOpen | components/edit-product-dialog.tsx:67-78 | opening resets the form to the product; closing keeps it |
| EditProductDialog.Dialog.HandleSubmit | components/edit-product-dialog.tsx:80-110 | the PATCH for the product's id carries the form's body; the dialog closes and the callback runs only on ok; loading ends false |
| ProdutoDialog.FormDe | components/produto-dialog.tsx:45-63 | editing copies the text fields and prints price and stock; adding gives empty fields with categoria "Vinhos" |
| ProdutoDialog.Submit | components/produto-dialog.tsx:65-76 | the data has an id iff a product was edited; the text fields are copied and the price and stock parsed |
| ProdutoDialog.SubmitNovo | components/produto-dialog.tsx:55-76 | the record the default new-product form would give has no id, categoria "Vinhos" and a NaN stock |
| ProdutoDialog.SubmitSemEdicao | components/produto-dialog.tsx:46-76 | an unedited product comes back whole, the integer stock through `toString`/`parseInt` |
| ProdutoDialog.EditarSemEdicaoPreservaLista | components/produto-dialog.tsx:65-76 | saving an unedited product leaves the page's list as it was |
| ProdutoDialog.Dialog.constructor | components/produto-dialog.tsx:37-43 | the form starts empty |
| ProdutoDialog.Dialog.Sincronizar | components/produto-dialog.tsx:45-63 | the effect refills the form from the product or the defaults |
| ProdutoDialog.Dialog.HandleSubmit | components/produto-dialog.tsx:65-76 | the data handed over is `Submit` of the current form |
| ClienteDialog.FormDe | components/cliente-dialog.tsx:45-65 | editing copies the text fields and prints the purchases; adding gives empty fields, today's date and purchases "0" |
| ClienteDialog.Submit | components/cliente-dialog.tsx:67-79 | the data has an id iff a customer was edited; the text fields are copied and the purchases parsed |
| ClienteDialog.SubmitNovo | components/cliente-dialog.tsx:56-79 | the record the default new-customer form would give has no id, today's date and the purchases parsed from "0" |
| ClienteDialog.SubmitSemEdicaoTextos | components/cliente-dialog.tsx:46-78 | submitting unedited keeps the id and every text field |
| ClienteDialog.SubmitSemEdicao | components/cliente-dialog.tsx:46-78 | when the purchases survive printing and parsing, the unedited customer comes back whole |
| ClienteDialog.EditarSemEdicaoPreservaLista | components/cliente-dialog.tsx:67-79 | saving an unedited customer leaves the page's list and its total as they were |
| ClienteDialog.Dialog.constructor | components/cliente-dialog.tsx:36-43 | the form starts at the defaults for today |
| ClienteDialog.Dialog.Sincronizar | components/cliente-dialog.tsx:45-65 | the effect refills the form from the customer or the defaults |
| ClienteDialog.Dialog.HandleSubmit | components/cliente-dialog.tsx:67-79 | the data handed over is `Submit` of the current form |
| FuncionarioDialog.FormDe | components/funcionario-dialog.tsx:48-70 | editing copies the fields and prints the salary; adding gives an active "Garçom" hired today with empty fields |
| FuncionarioDialog.Submit | components/funcionario-dialog.tsx:72-85 | the data has an id iff an employee was edited; text fields and status are copied and the salary parsed |
| FuncionarioDialog.SubmitNovo | components/funcionario-dialog.tsx:60-85 | the record the default new-employee form would give has no id and is an active "Garçom" hired today |
| FuncionarioDialog.SubmitSemEdicaoTextos | components/funcionario-dialog.tsx:48-84 | submitting unedited keeps the id, every text field and the status |
| FuncionarioDialog.SubmitSemEdicao | components/funcionario-dialog.tsx:48-84 | when the salary survives printing and parsing, the unedited employee comes back whole |
| FuncionarioDialog.EditarSemEdicaoPreservaLista | components/funcionario-dialog.tsx:72-85 | saving an unedited employee leaves the page's list as it was |
| FuncionarioDialog.Dialog.constructor | components/funcionario-dialog.tsx:38-46 | the form starts at the defaults for today |
| FuncionarioDialog.Dialog.Sincronizar | components/funcionario-dialog.tsx:48-70 | the effect refills the form from the employee or the defaults |
| FuncionarioDialog.Dialog.HandleSubmit | components/funcionario-dialog.tsx:72-85 | the data handed over is `Submit` of the current form |
| FazerPedido.Remover | app/admin/fazer-pedido/page.tsx:56 | removing an id drops every entry with it and keeps every other entry |
| FazerPedido.TotalVazio | app/admin/fazer-pedido/page.tsx:57 | the empty order costs 0 |
| FazerPedido.TotalAdicionar | app/admin/fazer-pedido/page.tsx:55-57 | appending a product adds its price |
| FazerPedido.TotalRemover | app/admin/fazer-pedido/page.tsx:56-57 | removing an id takes off the prices of exactly the entries with it |
| FazerPedido.RemoverIdempotente | app/admin/fazer-pedido/page.tsx:56 | removing twice is removing once |
| FazerPedido.RemoverAusente | app/admin/fazer-pedido/page.tsx:56 | removing an absent id changes nothing |
| FazerPedido.PedidoPage.constructor | app/admin/fazer-pedido/page.tsx:43-47 | the page starts with no table, an empty order and a closed dialog |
| FazerPedido.PedidoPage.AbrirDialog | app/admin/fazer-pedido/page.tsx:49-53 | opening selects the table and starts an empty order costing 0 |
| FazerPedido.PedidoPage.AdicionarProduto | app/admin/fazer-pedido/page.tsx:55 | the product is appended, duplicates included, and the total rises by its price |
| FazerPedido.PedidoPage.RemoverProduto | app/admin/fazer-pedido/page.tsx:56 | every entry with the id goes and the total falls by their prices |
| FazerPedido.PedidoPage.FinalizarHabilitado | app/admin/fazer-pedido/page.tsx:174 | "Finalizar Pedido" is enabled iff the order is not empty |
| Cardapio.CategoriaDe | app/admin/cardapio/page.tsx:72 | a product goes to its category, or to "outros" when that is empty |
| Cardapio.ItemDe | app/admin/cardapio/page.tsx:77-83 | the item copies id, name and stock and parses the price; the description is kept, or "Sem descrição" when null or empty |
| Cardapio.ChavesIff | app/admin/cardapio/page.tsx:71-84 | a group key exists iff some product has that category |
| Cardapio.ChavesDistintas | app/admin/cardapio/page.tsx:73-75 | no group key appears twice |
| Cardapio.ItensDeNaoVazio | app/admin/cardapio/page.tsx:73-83 | a group has items iff its key exists |
| Cardapio.ItensDeMembro | app/admin/cardapio/page.tsx:71-84 | every product's item is in the group of its category |
| Cardapio.ItensDeEmOrdem | app/admin/cardapio/page.tsx:71-84 | a group holds the items of the products of its category, in input order |
| Cardapio.TamanhosSomam | app/admin/cardapio/page.tsx:71-84 | the group sizes add up to the number of products |
| Cardapio.ChavesVazias | app/admin/cardapio/page.tsx:150 | "Nenhum produto disponível" shows iff there are no products |
| Cardapio.GroupByCategory | app/admin/cardapio/page.tsx:68-87 | the loop builds keys in first-appearance order and, for each key, exactly the items of its group |
| Cardapio.Titulo | app/admin/cardapio/page.tsx:142 | the title is the first character uppercased followed by the rest unchanged |
| Cardapio.TituloSoMudaCaixa | app/admin/cardapio/page.tsx:142 | the title lowercases to the lowercased key, and capitalising twice is capitalising once |
| Cardapio.IconeDe | app/admin/cardapio/page.tsx:92-104 | the icon is the table's entry for the lowercased category, or the shopping bag |
| Cardapio.IconeIgnoraCaixa | app/admin/cardapio/page.tsx:103 | the icon does not depend on case, so the title and the key get the same icon |
| Cardapio.CategoriasTemIcone | app/admin/cardapio/page.tsx:93-102 | every category the edit dialog offers has its own icon |
| Cardapio.IconeOutros | app/admin/cardapio/page.tsx:92-104 | the "outros" group gets the default icon |
| Cardapio.ProdutosDaSecao | app/admin/cardapio/page.tsx:145 | a section receives exactly the products whose category equals its key |
| Cardapio.OutrosSemControles | app/admin/cardapio/page.tsx:145 | a product with an empty category is listed under "outros" but its card has no edit or delete controls |
| Cardapio.ProdutosDaSecaoCorrigido | app/admin/cardapio/page.tsx:145 | filtering by the grouping's own `category \|\| "outros"` gives exactly the products of the group |
| Cardapio.ControlesCorrigidos | app/admin/cardapio/page.tsx:217-230 | with that filter every card of every group has its controls |
| Cardapio.Secao.constructor | app/admin/cardapio/page.tsx:184 | no product is being deleted at first |
| Cardapio.Secao.HandleDelete | app/admin/cardapio/page.tsx:186-206 | `deletingId` is the product while the DELETE is pending and null afterwards; `onUpdate` runs iff the answer is ok and a callback was given |
| Checkin.Erros | app/clients/login-clientes/page.tsx:32-37 | the schema reports each field's message iff that field fails, and NaN for the table number gets zod's own message |
| Checkin.ValidoSemErros | app/clients/login-clientes/page.tsx:32-37 | the form is accepted iff no message is reported |
| Checkin.CpfFormatadoRejeitado | app/clients/login-clientes/page.tsx:34 | a CPF typed with punctuation (14 characters) is rejected |
| Checkin.CpfSoComprimento | app/clients/login-clientes/page.tsx:34 | only the CPF's length is checked: eleven letters pass |
| Checkin.MesaLimite | app/clients/login-clientes/page.tsx:36 | 0 and NaN are rejected and 1 is the smallest table accepted |
| Checkin.CheckinForm.constructor | app/clients/login-clientes/page.tsx:42 | the form starts not submitting |
| Checkin.CheckinForm.BotaoDesabilitado | app/clients/login-clientes/page.tsx:173 | the button is disabled iff submitting |
| Checkin.CheckinForm.TextoBotao | app/clients/login-clientes/page.tsx:175 | the button reads "Confirmando..." while submitting and "Confirmar Entrada" otherwise |
| Checkin.CheckinForm.Submeter | app/clients/login-clientes/page.tsx:56-57 | `onSubmit` runs iff the values pass the schema and then sets submitting; nothing sets it back |
| Js.IndexOf | context/comanda-context.tsx:33 | the result is -1 with no occurrence anywhere, or the first position where the pattern occurs |
| Js.IncludesIff | app/admin/funcionarios/page.tsx:75-77 | `includes` holds iff the pattern occurs somewhere |
| Js.ReplaceFirstAtIndexOf | context/comanda-context.tsx:33 | `replace` with a string pattern splices the replacement at the first occurrence, or returns the text unchanged |
| Js.Lower | app/admin/funcionarios/page.tsx:75-77 | lowercasing keeps the length and maps each character |
| Js.LowerIdempotent | app/admin/funcionarios/page.tsx:75-77 | lowercasing twice is lowercasing once |
| Js.ParseInt | components/edit-product-dialog.tsx:93 | `parseInt` is NaN iff there is no digit after leading blanks and sign |
| Js.ParseIntOfIntToString | components/edit-product-dialog.tsx:93 | `parseInt(n.toString())` is n for every integer n written in plain decimal (see Left out) |
| Js.ParseIntOfJsIntToString | components/produto-dialog.tsx:52-73 | printing and parsing what `parseInt` produced gives it back, NaN included |
| Lists.FilterMembers | app/admin/funcionarios/page.tsx:97 | a filter keeps only records of the list and every record that passes |
| Lists.FilterKeepsIff | app/admin/produtos/page.tsx:65-69 | a record of the list is kept by `filter` exactly when it passes the predicate; each page's search uses this |
| Lists.FilterAppend | app/admin/funcionarios/page.tsx:73-78 | filtering distributes over concatenation, keeping order |
| Lists.MapWhere | app/admin/mapa-mesas/page.tsx:186-189 | rewriting by key changes exactly the records with that key |
| Lists.Find | context/comanda-context.tsx:43 | `find` by key is absent iff no record has the key, and otherwise the first record of the list with that key |
| Lists.MaxId | app/admin/funcionarios/page.tsx:83 | `Math.max(...ids, 0)` is at least every id and 0, and is 0 or one of the ids |
| Lists.NextId | app/admin/funcionarios/page.tsx:83 | the next id is positive and above every existing id |
| Lists.AppendNextIdUnique | app/admin/funcionarios/page.tsx:83-85 | appending under the next id keeps ids unique |
| Lists.FilterUnique | app/admin/funcionarios/page.tsx:97 | deleting keeps the remaining ids unique |
| Lists.ReplaceByKey | app/admin/funcionarios/page.tsx:90 | edit replaces the records with the key by the record and keeps every other record and the length |
| Lists.ReplaceByKeyUnique | app/admin/funcionarios/page.tsx:90 | edit keeps every key in place, so ids stay unique |
| Lists.ReplaceByKeyAt | app/admin/funcionarios/page.tsx:90 | with unique ids, edit is a point update |
| Lists.RemoveKey | app/admin/funcionarios/page.tsx:97 | delete keeps exactly the records of the list with another key |
| Lists.RemoveKeyAt | app/admin/funcionarios/page.tsx:97 | with unique ids, delete removes exactly that record and keeps the others in order |
| Lists.RemoveKeyAbsent | app/admin/funcionarios/page.tsx:97 | deleting an absent id changes nothing |
| Lists.SumAppend | app/admin/funcionarios/page.tsx:112 | the left-fold sum over a concatenation is the sum of the two sums |
| Lists.SumFilter | app/admin/funcionarios/page.tsx:112 | summing after a filter is summing a function that is zero on the rejected records |

## Left out

- Network: every `fetch` and the API routes behind it are left out. A response is an `ok` flag, or an `Option` that is None when the request or its JSON failed.
- Network: `Promise.all` in `saveChanges` is one `allSettled` flag. Requests are not ordered or partially applied, and the model only states which requests are sent.
- Browser services: `confirm` is a boolean parameter.
- Browser services: `alert`, `toast`, `console` and the `setTimeout` navigation after check-in have no effect on the modelled state and are left out.
- Browser services: `Date.now()` (reference ids) and `new Date().toISOString()` (default dates) are the parameters `now` and `hoje`.
- Floating point:
  - Prices, salaries, purchase totals and canvas coordinates are `real`, with exact arithmetic.
  - Rounding in `totalPreco`, the payroll, the purchase total, the order total and the zoom/drag geometry is not modelled.
  - The geometric identities are exact only over reals.
- `parseFloat` and `Number.prototype.toString` on non-integers are function parameters. Lemmas that need a price to survive printing and parsing say so in their `requires`.
- `Js.ParseInt`: models decimal `parseInt`, meaning leading whitespace, an optional sign and the longest digit prefix. The "0x" hexadecimal prefix and the radix argument are not modelled, because the forms never supply them.
- `Js.ParseInt`: the whitespace skipped is the six ASCII blanks (space, tab, line feed, carriage return, vertical tab, form feed). JavaScript also skips U+00A0, U+FEFF, U+2028, U+2029 and the other Unicode space separators, and this is not modelled.
- `Js.IntToString`: integers are unbounded and always printed in plain decimal. JavaScript numbers lose integer precision beyond 2^53, and `toString` switches to exponent form ("1e+21") from 10^21 on, where `parseInt` would read 1. Neither is modelled.
- `Js.ParseIntOfIntToString`: holds for every integer of the model. In JavaScript it holds only for safe integers below 10^21 in magnitude, which covers the stock and guest counts the pages handle.
- `Js.Lower`: lowercases ASCII letters only. Unicode case mapping, such as accented capitals, is not modelled.
- `Checkin.Erros`: `z.coerce.number()` is modelled as its result, a finite number or NaN. The text-to-number coercion `Number(input)` itself is not modelled.
- `Checkin.Erros`: zod string lengths are sequence lengths. UTF-16 code-unit counting for characters outside the Basic Multilingual Plane is not modelled.
- `Cardapio.GroupByCategory`: the keys are in first-appearance order. JavaScript orders integer-like object keys first, and that ordering is not modelled.
- `Cardapio.GroupByCategory`: category names that collide with `Object.prototype` members are not treated specially.
- `Cardapio.IconeDe`: the icon table is a Dafny map. A category named like an `Object.prototype` member would find that member in JavaScript, and this is not modelled.
- React mechanics: the model reads the current state, and stale closures, batched updates and re-renders are not modelled. This affects the listeners `startResize` registers and the handlers that close over `elementos`.
- React mechanics: the window listener registration and removal of `startResize`/`globalMouseUp` are not modelled.
- `MapaMesas.Editor.SetLabel`: models the value written by the label input. The local `editing` flag that shows the input is not modelled.
- Browser form validation: the dialogs' inputs are `required`, some with `type="number"` and, for the guest count, `min="1"` and `max` the capacity. The browser refuses to submit a form that fails these checks. Each dialog's `Submit` is defined on every form, including forms the browser would refuse, and the `SubmitNovo` lemmas describe the default form, which the browser would not submit as it stands.
- UI: JSX and CSS are not modelled, nor the colour of each status. Form fields that only mirror `onChange` into state are not modelled beyond the `formData` they produce.
- `components/product-availability-toggle.tsx`, the API routes, the employee login, navigation, layout and theme are context files and are not part of this model.

## Findings

| source | as written | input that shows it | evidently intended | confidence | as-written member | corrected member |
|---|---|---|---|---|---|---|
| app/admin/cardapio/page.tsx:145 | A section receives `products.filter((p) => p.category === category)`. The grouping at line 72 put products with an empty category under the key "outros", so that filter finds none of them. Their cards then get no edit or delete controls (lines 217 and 230). | A product `{ id: 1, category: "" }`: it is listed under "Outros", but `products.find((p) => p.id === 1)` over the section's products is undefined. | Filter with the same `p.category \|\| "outros"` the grouping uses, so every card of every section has its controls. | medium, not executed | Cardapio.OutrosSemControles | Cardapio.ControlesCorrigidos |
