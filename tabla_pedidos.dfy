/** The orders table (`TablaPedidos`): the fetched order list, the displayed
    cost total with commission, and the add/edit form.

    Fetching, sorting, filtering and pagination are done outside this
    component: the fetched list arrives as a parameter, and the rows the
    table shows (one page of the filtered, sorted list) arrive as a
    parameter too.
 */
module TablaPedidos {
  import opened Coercion

  /** An order as the backend returns it and as the form holds it. */
  datatype Pedido = Pedido(
    id: Key,
    pedido: string,
    cliente: string,
    tienda: string,
    descripcion: string,
    estado: string,
    costo: Raw)

  // ---------------------------------------------------------------------------
  // Normalisation of the fetched list
  // ---------------------------------------------------------------------------

  /** `data.map(p => ({...p, costo: parseFloat(p.costo) || 0}))` */
  function Normalizar(ps: seq<Pedido>): (r: seq<Pedido>)
    ensures |r| == |ps|
    ensures forall i :: 0 <= i < |ps| ==>
              && r[i] == ps[i].(costo := r[i].costo)
              && r[i].costo.Num?
              && Coerce(r[i].costo) == Coerce(ps[i].costo)
  {
    if ps == [] then []
    else [ps[0].(costo := Num(Coerce(ps[0].costo)))] + Normalizar(ps[1..])
  }

  /** Normalising an already normalised list changes nothing. */
  lemma {:induction false} NormalizarIdempotente(ps: seq<Pedido>)
    ensures Normalizar(Normalizar(ps)) == Normalizar(ps)
  {
    if ps != [] {
      var n := Normalizar(ps);
      assert n[0].costo.Num?;
      assert n[1..] == Normalizar(ps[1..]);
      NormalizarIdempotente(ps[1..]);
    }
  }

  // ---------------------------------------------------------------------------
  // Displayed totals
  // ---------------------------------------------------------------------------

  /** `filteredRows.reduce((sum, row) => sum + (Number(row.original.costo) || 0), 0)` */
  function TotalCostoFiltrado(filas: seq<Pedido>): (r: real)
    ensures filas == [] ==> r == 0.0
    ensures (forall i :: 0 <= i < |filas| ==> Coerce(filas[i].costo) >= 0.0) ==> r >= 0.0
  {
    if filas == [] then 0.0 else Coerce(filas[0].costo) + TotalCostoFiltrado(filas[1..])
  }

  /** The total of consecutive pieces of a row list is the sum of their totals. */
  lemma {:induction false} TotalConcatenado(a: seq<Pedido>, b: seq<Pedido>)
    ensures TotalCostoFiltrado(a + b) == TotalCostoFiltrado(a) + TotalCostoFiltrado(b)
  {
    if a == [] {
      assert a + b == b;
    } else {
      assert (a + b)[0] == a[0];
      assert (a + b)[1..] == a[1..] + b;
      TotalConcatenado(a[1..], b);
    }
  }

  /** The rows handed over are one page of the filtered list, so with
      non-negative costs the displayed total never exceeds the total of the
      whole filtered list. */
  lemma TotalDePagina(antes: seq<Pedido>, pagina: seq<Pedido>, despues: seq<Pedido>)
    requires forall i :: 0 <= i < |antes + pagina + despues| ==> Coerce((antes + pagina + despues)[i].costo) >= 0.0
    ensures TotalCostoFiltrado(pagina) <= TotalCostoFiltrado(antes + pagina + despues)
  {
    var todas := antes + pagina + despues;
    TotalConcatenado(antes + pagina, despues);
    TotalConcatenado(antes, pagina);
    forall i | 0 <= i < |antes| ensures Coerce(antes[i].costo) >= 0.0 {
      assert antes[i] == todas[i];
    }
    forall i | 0 <= i < |despues| ensures Coerce(despues[i].costo) >= 0.0 {
      assert despues[i] == todas[|antes| + |pagina| + i];
    }
  }

  /** Normalising the fetched list does not change the displayed total. */
  lemma {:induction false} TotalTrasNormalizar(ps: seq<Pedido>)
    ensures TotalCostoFiltrado(Normalizar(ps)) == TotalCostoFiltrado(ps)
  {
    if ps != [] {
      var n := Normalizar(ps);
      assert n[1..] == Normalizar(ps[1..]);
      TotalTrasNormalizar(ps[1..]);
    }
  }

  /** `totalCostoFiltrado + (Number(comision) || 0)` */
  function TotalConComision(filas: seq<Pedido>, comision: Raw): (r: real)
    ensures comision.Invalid? ==> r == TotalCostoFiltrado(filas)
    ensures comision.Num? ==> r - comision.x == TotalCostoFiltrado(filas)
  {
    TotalCostoFiltrado(filas) + Coerce(comision)
  }

  // ---------------------------------------------------------------------------
  // Columns
  // ---------------------------------------------------------------------------

  /** The column ids of the table, in display order. */
  const Columnas: seq<string> := ["pedido", "cliente", "tienda", "descripcion", "estado", "costo", "acciones"]

  /** Whether a column shows a filter input. */
  predicate PuedeFiltrar(columnId: string)
  {
    columnId in ["pedido", "cliente", "tienda", "estado"]
  }

  /** Of the table's columns, exactly order label, customer, store and
      status can be filtered. */
  lemma ColumnasFiltrables()
    ensures (set c | c in Columnas && PuedeFiltrar(c)) == {"pedido", "cliente", "tienda", "estado"}
    ensures !PuedeFiltrar("descripcion") && !PuedeFiltrar("costo") && !PuedeFiltrar("acciones")
  {
    var s := set c | c in Columnas && PuedeFiltrar(c);
    assert "pedido" == Columnas[0] && "cliente" == Columnas[1] && "tienda" == Columnas[2] && "estado" == Columnas[4];
    assert "descripcion" != "pedido" && "costo" != "pedido" && "acciones" != "pedido";
    assert {"pedido", "cliente", "tienda", "estado"} <= s;
  }

  // ---------------------------------------------------------------------------
  // The form
  // ---------------------------------------------------------------------------

  /** The five text inputs of the form. */
  datatype Campo = CampoPedido | CampoCliente | CampoTienda | CampoDescripcion | CampoEstado

  /** A change event from one of the form's inputs: a text input, or the
      numeric cost input (whose value reads as a number or as nothing). */
  datatype Cambio = Texto(campo: Campo, valor: string) | Costo(cifra: Raw)

  function Leer(p: Pedido, c: Campo): string
  {
    match c
    case CampoPedido => p.pedido
    case CampoCliente => p.cliente
    case CampoTienda => p.tienda
    case CampoDescripcion => p.descripcion
    case CampoEstado => p.estado
  }

  /** `{...nuevoPedido, [e.target.name]: e.target.value}`: the named field
      takes the new value and every other field keeps its old one. */
  function Cambiar(p: Pedido, c: Cambio): (r: Pedido)
    ensures r.id == p.id
    ensures forall k :: Leer(r, k) == if c.Texto? && k == c.campo then c.valor else Leer(p, k)
    ensures r.costo == if c.Costo? then c.cifra else p.costo
  {
    match c
    case Costo(v) => p.(costo := v)
    case Texto(campo, v) =>
      match campo
      case CampoPedido => p.(pedido := v)
      case CampoCliente => p.(cliente := v)
      case CampoTienda => p.(tienda := v)
      case CampoDescripcion => p.(descripcion := v)
      case CampoEstado => p.(estado := v)
  }

  /** Whether two changes target the same input. */
  predicate MismoCampo(a: Cambio, b: Cambio)
  {
    (a.Costo? && b.Costo?) || (a.Texto? && b.Texto? && a.campo == b.campo)
  }

  /** Two changes to the same field: the later one wins. */
  lemma UltimoCambioGana(p: Pedido, a: Cambio, b: Cambio)
    requires MismoCampo(a, b)
    ensures Cambiar(Cambiar(p, a), b) == Cambiar(p, b)
  {
  }

  /** Changes to different fields commute. */
  lemma CambiosConmutan(p: Pedido, a: Cambio, b: Cambio)
    requires !MismoCampo(a, b)
    ensures Cambiar(Cambiar(p, a), b) == Cambiar(Cambiar(p, b), a)
  {
  }

  /** The form after a reset: every input empty, no id. */
  const FormularioVacio: Pedido := Pedido(Null, "", "", "", "", "", Invalid)

  /** The request a submission sends. Its body is the form with `costo`
      read by `parseFloat` (which leaves a non-number as NaN). */
  datatype Peticion = Alta(cuerpo: Pedido) | Modificacion(id: Key, cuerpo: Pedido)

  /** The component's state: the loaded orders, the form, the id being
      edited (falsy when adding) and the commission. */
  class EstadoTabla {
    var pedidos: seq<Pedido>
    var nuevoPedido: Pedido
    var editandoId: Key
    var comision: real

    constructor ()
      ensures pedidos == [] && nuevoPedido == FormularioVacio && editandoId == Null && comision == 0.0
      ensures !Editando()
    {
      pedidos := [];
      nuevoPedido := FormularioVacio;
      editandoId := Null;
      comision := 0.0;
    }

    /** Editing mode, as the heading and the submit button decide it. */
    predicate Editando(): (b: bool)
      reads this
      ensures b <==> editandoId != Null && editandoId != NumKey(0) && editandoId != StrKey("")
    {
      Truthy(editandoId)
    }

    /** `fetchPedidos`: the list is replaced by the normalised snapshot. */
    method CargarPedidos(data: seq<Pedido>)
      modifies this`pedidos
      ensures pedidos == Normalizar(data)
    {
      pedidos := Normalizar(data);
    }

    method HandleChange(c: Cambio)
      modifies this`nuevoPedido
      ensures nuevoPedido == Cambiar(old(nuevoPedido), c)
    {
      nuevoPedido := Cambiar(nuevoPedido, c);
    }

    method HandleEditar(p: Pedido)
      modifies this`editandoId, this`nuevoPedido
      ensures editandoId == p.id && nuevoPedido == p
      ensures Editando() <==> Truthy(p.id)
    {
      editandoId := p.id;
      nuevoPedido := p;
    }

    /** `handleAgregar`: posts the form as a new order. The form is emptied
        only once the request's promise resolves (`respondio`); when it
        rejects, the handler throws before the reset and the form stays. */
    method HandleAgregar(respondio: bool) returns (req: Peticion)
      modifies this`nuevoPedido
      ensures req == Alta(old(nuevoPedido))
      ensures respondio ==> nuevoPedido == FormularioVacio
      ensures !respondio ==> nuevoPedido == old(nuevoPedido)
    {
      req := Alta(nuevoPedido);
      if respondio {
        nuevoPedido := FormularioVacio;
      }
    }

    /** `handleActualizar`: puts the form as an update of `editandoId`. Once
        the request resolves the form is emptied and adding mode restored;
        a rejected request leaves both as they were. */
    method HandleActualizar(respondio: bool) returns (req: Peticion)
      modifies this`nuevoPedido, this`editandoId
      ensures req == Modificacion(old(editandoId), old(nuevoPedido))
      ensures respondio ==> nuevoPedido == FormularioVacio && editandoId == Null && !Editando()
      ensures !respondio ==> nuevoPedido == old(nuevoPedido) && editandoId == old(editandoId)
    {
      req := Modificacion(editandoId, nuevoPedido);
      if respondio {
        nuevoPedido := FormularioVacio;
        editandoId := Null;
      }
    }

    /** The submit button: update when editing, add otherwise. When the
        request resolves the form is emptied and in adding mode afterwards;
        when it rejects nothing changes. */
    method Guardar(respondio: bool) returns (req: Peticion)
      modifies this`nuevoPedido, this`editandoId
      ensures old(Editando()) ==> req == Modificacion(old(editandoId), old(nuevoPedido))
      ensures !old(Editando()) ==> req == Alta(old(nuevoPedido))
      ensures editandoId == if respondio && old(Editando()) then Null else old(editandoId)
      ensures nuevoPedido == if respondio then FormularioVacio else old(nuevoPedido)
      ensures respondio ==> !Editando()
    {
      if Editando() {
        req := HandleActualizar(respondio);
      } else {
        req := HandleAgregar(respondio);
      }
    }

    /** The commission input: a non-number is stored as 0. */
    method HandleComision(v: Raw)
      modifies this`comision
      ensures comision == Coerce(v)
    {
      comision := Coerce(v);
    }

    /** The figure shown as "Total + Comisión" for the rows on display: the
        displayed cost total plus the stored commission. */
    function TotalMostrado(filas: seq<Pedido>): (r: real)
      reads this
      ensures r == TotalCostoFiltrado(filas) + comision
      ensures filas == [] ==> r == comision
    {
      TotalConComision(filas, Num(comision))
    }
  }

  /** Editing an order, changing one field and saving sends an update for
      that order's id. An order whose id is falsy (0 or "") is sent as a new
      order instead, and stays the edited id. Once the request resolves the
      form is empty; the loaded orders and the commission never change. */
  method EditarYGuardar(t: EstadoTabla, p: Pedido, c: Cambio, respondio: bool) returns (req: Peticion)
    modifies t`nuevoPedido, t`editandoId
    ensures Truthy(p.id) ==> req == Modificacion(p.id, Cambiar(p, c))
    ensures !Truthy(p.id) ==> req == Alta(Cambiar(p, c))
    ensures t.nuevoPedido == if respondio then FormularioVacio else Cambiar(p, c)
    ensures t.editandoId == if respondio && Truthy(p.id) then Null else p.id
    ensures t.pedidos == old(t.pedidos) && t.comision == old(t.comision)
  {
    t.HandleEditar(p);
    t.HandleChange(c);
    req := t.Guardar(respondio);
  }
}
