# Order money arithmetic of React-Compras, in Dafny

This project models the money arithmetic of two React components of an
order-management dashboard:

- **`TablaTotales`**: the profit table built from saved summaries
  (`resumenes`). Each summary holds order details (`detalles`). The table
  has one row per detail, in summary order and then detail order. Every
  numeric input that is not a number reads as 0. Within each summary the
  supplier import-tax figure `impuestosProveedor` is split across the rows
  in proportion to each row's purchase cost. Each row then gets the
  supplier's total cost, the profit (`ganancia`) and the margin (`margen`).
  The rows are summed into grand totals (`totales`).
- **`TablaPedidos`**: the order list. Each fetched order's `costo` is
  normalised to a number. The footer shows the total `costo` of the rows on
  display, plus a commission. The add/edit form is either adding a new
  order or editing the order whose id is `editandoId`. Four columns can be
  filtered.

Money is `real`: the code is plain accounting and what it promises is
exact arithmetic. JavaScript's numeric coercion is the datatype
`Coercion.Raw = Num(x) | Invalid`, read by `Coercion.Coerce` as
`Number(v) || 0`, so an invalid value becomes 0. The model does not parse
strings.

Files:

- `coercion.dfy`: `Raw`, `Coerce`, and `Key`, the value of an `id` with
  JavaScript truthiness.
- `tabla_totales.dfy`: module `TablaTotales`, all pure functions and lemmas.
- `tabla_pedidos.dfy`: module `TablaPedidos`. Normalisation, totals and
  columns are pure functions. The form state is the class `EstadoTabla`,
  whose handler methods update its fields.

Where the code differs from what one might expect, the model follows the
code:

- The submit button (`TablaPedidos.js:262`) and the heading (line 240) test
  `editandoId` for JavaScript truthiness, not for `null`. Editing an order
  whose id is `0` or `""` therefore submits it as a new order
  (`EditarYGuardar`).
- The allocation guard is `totalCompraGeneral > 0` (line 40). A summary
  whose purchase costs add up to a negative number also allocates 0.
- `totales.impuestos` holds the tax figure once (line 67). But every summary
  with positive purchases allocates the whole figure to its own rows (lines
  39-41). So the total profit subtracts the figure once per such summary
  (`GananciaTotal`).
- The orders of `TablaPedidos` carry one money field, `costo`. Sale price,
  purchase cost and shipping exist only on the details of a saved summary
  (`TablaTotales.js:34-36`), and are modelled there as `Detalle.venta`,
  `Detalle.costo` and `Detalle.envio`. The code has no receipt and no
  deposit or discount adjustments. It reports no allocation residue: in
  exact arithmetic the allocations of a summary with positive purchases add
  up to the figure exactly.

## Model

| member | source | states |
|---|---|---|
| `TablaTotales.DatosGanancias` | src/components/TablaTotales.js:32-60 | the flattened table has exactly as many rows as all summaries have details together |
| `TablaTotales.FilaEn` | src/components/TablaTotales.js:32-58 | detail `j` of summary `i` is the row at the summary's offset plus `j`; that row carries the summary id, customer and order label, and the coerced sale, purchase cost and shipping (0 for an invalid number) |
| `TablaTotales.ConstruirFila` | src/components/TablaTotales.js:33-58 | a row copies the summary id, customer and order label and the coerced sale, purchase cost and shipping; supplier cost = purchase cost + allocated tax + shipping; sale = supplier cost + profit; a summary without positive purchases allocates the row no tax |
| `TablaTotales.FilaDeDetalle` | src/components/TablaTotales.js:33-58 | within a summary, row `k` is built from detail `k` |
| `TablaTotales.MargenDeFila` | src/components/TablaTotales.js:43-45 | supplier cost is purchase cost plus allocated tax plus shipping; sale = supplier cost + profit; margin is 0 when the supplier cost is not positive; otherwise margin × cost = 100 × profit, the margin has the profit's sign, and it is at least -100 when the sale is not negative |
| `TablaTotales.SumaDeProporciones` | src/components/TablaTotales.js:39-40 | a summary's shares add up to 1 when its total purchase cost is positive, and are all 0 otherwise |
| `TablaTotales.ImpuestosDeResumen` | src/components/TablaTotales.js:39-41 | with a positive total purchase cost, a summary's allocated taxes add up to the coerced tax figure; otherwise every row is allocated 0 |
| `TablaTotales.ProporcionAcotada` | src/components/TablaTotales.js:39-41 | with non-negative purchase costs each row's share of its summary's purchases lies in [0, 1] |
| `TablaTotales.AsignacionProporcional` | src/components/TablaTotales.js:39-41 | when the summary's total purchase cost is positive (refund rows included), or all its purchase costs are non-negative, a row's allocated tax × that total = the row's purchase cost × the tax figure |
| `TablaTotales.EjemploAsignacion` | src/components/TablaTotales.js:39-44 | purchase costs 100 and 300 with a tax figure of 40 are allocated 10 and 30 |
| `TablaTotales.CalcularTotales` | src/components/TablaTotales.js:63-69 | `totales.impuestos` is the coerced tax figure, and total profit = total sales − total purchase cost − total shipping − the table's total allocated tax |
| `TablaTotales.ImpuestosDeTabla` | src/components/TablaTotales.js:32-41 | the allocated taxes of the whole table add up to the tax figure taken once per summary with positive purchases |
| `TablaTotales.ImpuestosAsignadosTotales` | src/components/TablaTotales.js:39-67 | the table's allocated taxes equal (number of summaries with positive purchases) × the figure, while `totales.impuestos` is the figure exactly once |
| `TablaTotales.ImpuestosPorResumenEsProducto` | src/components/TablaTotales.js:39-41 | the figure taken once per summary with positive purchases is that count times the figure |
| `TablaTotales.GananciaTotal` | src/components/TablaTotales.js:43-68 | total profit = total sales − total purchase cost − total shipping − `totales.impuestos` taken once per summary with positive purchases |
| `TablaTotales.TotalesAditivos` | src/components/TablaTotales.js:63-69 | the summed totals of two lists of summaries joined are the sums of their totals; the tax total stays the single coerced figure |
| `Coercion.Coerce` | src/components/TablaTotales.js:34-36 | a money field is read with 0 as the fallback: a number reads as itself and anything else as 0 |
| `Coercion.Truthy` | src/components/TablaPedidos.js:262 | an id is truthy exactly when it is none of `null`, `0` and `""` |
| `TablaPedidos.Normalizar` | src/components/TablaPedidos.js:34-37 | keeps length and order, changes only `costo`, makes it a number, and keeps the numeric reading of every order's cost |
| `TablaPedidos.NormalizarIdempotente` | src/components/TablaPedidos.js:34-37 | normalising a normalised list changes nothing |
| `TablaPedidos.TotalTrasNormalizar` | src/components/TablaPedidos.js:123-125 | normalisation does not change the displayed cost total |
| `TablaPedidos.TotalCostoFiltrado` | src/components/TablaPedidos.js:123-125 | the total of no rows is 0, and the total of rows whose costs are all non-negative is non-negative |
| `TablaPedidos.TotalConcatenado` | src/components/TablaPedidos.js:121-125 | the cost total of joined row lists is the sum of their totals |
| `TablaPedidos.TotalDePagina` | src/components/TablaPedidos.js:117-125 | the rows handed over are one page of the filtered list; with non-negative costs the page total is at most the total of the whole list |
| `TablaPedidos.TotalConComision` | src/components/TablaPedidos.js:127-129 | the total with commission is the row total plus the commission, and an invalid commission adds nothing |
| `TablaPedidos.ColumnasFiltrables` | src/components/TablaPedidos.js:162-164 | of the seven columns exactly `pedido`, `cliente`, `tienda` and `estado` can be filtered; `descripcion`, `costo` and `acciones` cannot |
| `TablaPedidos.Cambiar` | src/components/TablaPedidos.js:47-49 | a change sets the named field and leaves the id and every other field unchanged |
| `TablaPedidos.UltimoCambioGana` | src/components/TablaPedidos.js:47-49 | of two changes to the same field the later one wins |
| `TablaPedidos.CambiosConmutan` | src/components/TablaPedidos.js:47-49 | changes to different fields commute |
| `TablaPedidos.EstadoTabla.Editando` | src/components/TablaPedidos.js:240 | the form is in editing mode (heading "Editar Pedido") exactly when `editandoId` is none of `null`, `0` and `""` |
| `TablaPedidos.EstadoTabla.TotalMostrado` | src/components/TablaPedidos.js:127-129 | the "Total + Comisión" figure is the displayed rows' cost total plus the stored commission, and just the commission for no rows |
| `TablaPedidos.EstadoTabla.constructor` | src/components/TablaPedidos.js:14-25 | the component starts with no orders, an empty form, adding mode and commission 0 |
| `TablaPedidos.EstadoTabla.CargarPedidos` | src/components/TablaPedidos.js:30-40 | a fetch replaces the order list with the normalised snapshot |
| `TablaPedidos.EstadoTabla.HandleChange` | src/components/TablaPedidos.js:47-49 | the form becomes the old form with that one field changed |
| `TablaPedidos.EstadoTabla.HandleEditar` | src/components/TablaPedidos.js:66-69 | `editandoId` becomes the order's id and the form holds the order; editing mode iff that id is truthy |
| `TablaPedidos.EstadoTabla.HandleAgregar` | src/components/TablaPedidos.js:51-59 | sends the form as a new order; once the request resolves the form is emptied, and a rejected request leaves it as it was; the mode never changes |
| `TablaPedidos.EstadoTabla.HandleActualizar` | src/components/TablaPedidos.js:71-80 | sends the form as an update of `editandoId`; once the request resolves the form is emptied and adding mode restored, and a rejected request leaves both as they were |
| `TablaPedidos.EstadoTabla.Guardar` | src/components/TablaPedidos.js:261-266 | submits an update exactly when `editandoId` is truthy and an add otherwise; after a resolved request the form is empty and in adding mode, after a rejected one form and id are unchanged |
| `TablaPedidos.EstadoTabla.HandleComision` | src/components/TablaPedidos.js:227-232 | the stored commission is the input's number, or 0 when it is not one |
| `TablaPedidos.EditarYGuardar` | src/components/TablaPedidos.js:66-80 | editing an order, changing a field and saving sends an update of that order's id with the changed record, and an order with a falsy id is sent as a new order and stays the edited id; the form ends empty after a resolved request and holds the changed record after a rejected one; the loaded orders and the commission are unchanged |

## Left out

- Network requests (`fetch`, `axios`) are I/O. A request becomes the value
  a handler returns (`Peticion`), and a refresh becomes a call of
  `CargarPedidos` with the new snapshot. Whether the request's promise
  resolves is the parameter `respondio` of the submit handlers; the thrown
  error itself is not modelled. `TablaTotales`' `loading`/`error`
  state and its fetch of summaries are left out.
- TablaTotales.DatosGanancias: a summary always holds a sequence of
  details, so the `TypeError` that `resumen.detalles.map` (line 33) throws
  for a summary without `detalles` is not modelled.
- `handleEliminar` only sends a DELETE request and refreshes the list. It
  changes no component state, so it is not modelled.
- Filtering, sorting and pagination are done by `@tanstack/react-table`,
  whose code is not part of this model. The rows on display are an input
  sequence (`getRowModel()`, i.e. one page).
- Rendering is presentation: JSX, `toFixed(2)`, the colour chosen by sign,
  the "Total Costos" tile (`TablaTotales.js:86`) and the footer margin
  (`TablaTotales.js:140`). That margin can also be `Infinity`, which is
  float behaviour.
- IEEE floating point: rounding, `Infinity` and `-0` are not modelled;
  money is exact `real`.
- The string parsing of `Number` and `parseFloat` is not modelled. Both
  read a value as `Raw`, so the model ignores cases where they disagree
  (`"12abc"`, `""`). The empty form's `costo` reads as `Invalid`, as
  `parseFloat("")` does.
- Order properties other than the six form fields and `id` are left out.
  The spread operator copies them unchanged.
- React batches and schedules state updates, and `handleChange` reads the
  form from its render's closure. The model applies handler calls one
  after another.
- `src/login.js` and `src/App.js` hold only a login form, an HTTP post and
  a view switch on a token. They are not part of this model.
