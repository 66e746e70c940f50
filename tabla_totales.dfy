/** The profit table built from saved summaries (`TablaTotales`).

    Every saved summary (`resumen`) holds a list of order details. The table
    flattens them into one row per detail, in summary order and then detail
    order. Each row receives a share of the single supplier import-tax figure
    `impuestosProveedor`, proportional to the row's purchase cost within its
    own summary. The row then carries the supplier's total cost, the profit
    (`ganancia`) and the margin (`margen`, a percentage of that cost), and the
    rows are summed into grand totals.
 */
module TablaTotales {
  import opened Coercion

  /** One order detail of a saved summary, before coercion. */
  datatype Detalle = Detalle(cliente: string, pedido: string, venta: Raw, costo: Raw, envio: Raw)

  datatype Resumen = Resumen(id: Key, detalles: seq<Detalle>)

  /** One row of the profit table. `costo` is the sale price charged to the
      customer; `costoCompra` is what the supplier was paid. The row's
      `margen` is determined by its profit and supplier cost, so it is a
      member function rather than a stored field. */
  datatype Fila = Fila(
    resumenId: Key,
    cliente: string,
    pedido: string,
    costo: real,
    costoCompra: real,
    envio: real,
    impuestosAsignados: real,
    costosTotalesProveedor: real,
    ganancia: real)
  {
    function margen(): real
    {
      Margen(ganancia, costosTotalesProveedor)
    }
  }

  datatype Totales = Totales(costo: real, costoCompra: real, envio: real, impuestos: real, ganancia: real)

  /** The summed columns of the table. */
  datatype Columna = ColCosto | ColCostoCompra | ColEnvio | ColImpuestos | ColGanancia

  function Campo(f: Fila, c: Columna): real
  {
    match c
    case ColCosto => f.costo
    case ColCostoCompra => f.costoCompra
    case ColEnvio => f.envio
    case ColImpuestos => f.impuestosAsignados
    case ColGanancia => f.ganancia
  }

  /** `filas.reduce((sum, d) => sum + d.<columna>, 0)` */
  function Suma(fs: seq<Fila>, c: Columna): real
  {
    if fs == [] then 0.0 else Campo(fs[0], c) + Suma(fs[1..], c)
  }

  // ---------------------------------------------------------------------------
  // Rows
  // ---------------------------------------------------------------------------

  /** The summary's total purchase cost, each detail's `costo` coerced. */
  function TotalCompra(ds: seq<Detalle>): real
  {
    if ds == [] then 0.0 else Coerce(ds[0].costo) + TotalCompra(ds[1..])
  }

  /** The row's share of the tax figure; 0 unless the total is positive. */
  function Proporcion(costoCompra: real, totalCompra: real): real
  {
    if totalCompra > 0.0 then costoCompra / totalCompra else 0.0
  }

  /** Profit as a percentage of the supplier's total cost; 0 unless that cost is positive. */
  function Margen(ganancia: real, costos: real): real
  {
    if costos > 0.0 then ganancia / costos * 100.0 else 0.0
  }

  /** The row for detail `d` of the summary `id`, whose total purchase cost is
      `totalCompra`, with `impuestos` the coerced tax figure. */
  function ConstruirFila(id: Key, d: Detalle, totalCompra: real, impuestos: real): (r: Fila)
    ensures r.resumenId == id && r.cliente == d.cliente && r.pedido == d.pedido
    ensures r.costo == Coerce(d.venta) && r.costoCompra == Coerce(d.costo) && r.envio == Coerce(d.envio)
    ensures r.costo == r.costosTotalesProveedor + r.ganancia
    ensures r.costosTotalesProveedor == r.costoCompra + r.impuestosAsignados + r.envio
    ensures totalCompra <= 0.0 ==> r.impuestosAsignados == 0.0 && r.ganancia == r.costo - r.costoCompra - r.envio
  {
    var costo := Coerce(d.venta);
    var costoCompra := Coerce(d.costo);
    var envio := Coerce(d.envio);
    var impuestosAsignados := Proporcion(costoCompra, totalCompra) * impuestos;
    var costosTotales := costoCompra + impuestosAsignados + envio;
    var ganancia := costo - costosTotales;
    Fila(id, d.cliente, d.pedido, costo, costoCompra, envio, impuestosAsignados, costosTotales, ganancia)
  }

  /** `detalles.map(...)`: one row per detail, in order. */
  function FilasDe(id: Key, ds: seq<Detalle>, totalCompra: real, impuestos: real): (r: seq<Fila>)
    ensures |r| == |ds|
  {
    if ds == [] then []
    else [ConstruirFila(id, ds[0], totalCompra, impuestos)] + FilasDe(id, ds[1..], totalCompra, impuestos)
  }

  /** Row `k` of a summary is built from detail `k`. */
  lemma {:induction false} FilaDeDetalle(id: Key, ds: seq<Detalle>, totalCompra: real, impuestos: real, k: nat)
    requires k < |ds|
    ensures FilasDe(id, ds, totalCompra, impuestos)[k] == ConstruirFila(id, ds[k], totalCompra, impuestos)
  {
    if k > 0 {
      FilaDeDetalle(id, ds[1..], totalCompra, impuestos, k - 1);
    }
  }

  /** The rows of one summary. */
  function FilasResumen(r: Resumen, impuestosProveedor: Raw): seq<Fila>
  {
    FilasDe(r.id, r.detalles, TotalCompra(r.detalles), Coerce(impuestosProveedor))
  }

  function CantidadDetalles(rs: seq<Resumen>): nat
  {
    if rs == [] then 0 else |rs[0].detalles| + CantidadDetalles(rs[1..])
  }

  /** `resumenes.flatMap(...)`: the whole table. */
  function DatosGanancias(rs: seq<Resumen>, impuestosProveedor: Raw): (r: seq<Fila>)
    ensures |r| == CantidadDetalles(rs)
  {
    if rs == [] then []
    else FilasResumen(rs[0], impuestosProveedor) + DatosGanancias(rs[1..], impuestosProveedor)
  }

  /** Where the rows of summary `i` start in the table. */
  function Desplazamiento(rs: seq<Resumen>, i: nat): nat
    requires i <= |rs|
  {
    if i == 0 then 0 else |rs[0].detalles| + Desplazamiento(rs[1..], i - 1)
  }

  /** Detail `j` of summary `i` lands at `Desplazamiento(rs, i) + j`, and its
      row copies the summary id, customer and order label and carries the
      coerced sale, purchase cost and shipping (0 for an invalid number). */
  lemma {:induction false} FilaEn(rs: seq<Resumen>, imp: Raw, i: nat, j: nat)
    requires i < |rs| && j < |rs[i].detalles|
    ensures Desplazamiento(rs, i) + j < |DatosGanancias(rs, imp)|
    ensures var f := DatosGanancias(rs, imp)[Desplazamiento(rs, i) + j];
            var d := rs[i].detalles[j];
            && f == ConstruirFila(rs[i].id, d, TotalCompra(rs[i].detalles), Coerce(imp))
            && f.resumenId == rs[i].id && f.cliente == d.cliente && f.pedido == d.pedido
            && f.costo == Coerce(d.venta) && f.costoCompra == Coerce(d.costo) && f.envio == Coerce(d.envio)
  {
    var filas := DatosGanancias(rs, imp);
    assert filas == FilasResumen(rs[0], imp) + DatosGanancias(rs[1..], imp);
    if i == 0 {
      FilaDeDetalle(rs[0].id, rs[0].detalles, TotalCompra(rs[0].detalles), Coerce(imp), j);
      assert filas[j] == FilasResumen(rs[0], imp)[j];
    } else {
      FilaEn(rs[1..], imp, i - 1, j);
      assert rs[1..][i - 1] == rs[i];
    }
  }

  /** Within each row the sale price splits into the supplier's total cost
      and the profit, and the margin is the profit as a percentage of that
      cost: 0 when the cost is not positive, of the profit's sign otherwise,
      and never below -100 when the sale price is not negative. */
  lemma MargenDeFila(id: Key, d: Detalle, totalCompra: real, impuestos: real)
    ensures var f := ConstruirFila(id, d, totalCompra, impuestos);
            && f.costosTotalesProveedor == f.costoCompra + f.impuestosAsignados + f.envio
            && f.costo == f.costosTotalesProveedor + f.ganancia
            && (f.costosTotalesProveedor <= 0.0 ==> f.margen() == 0.0)
            && (f.costosTotalesProveedor > 0.0 ==>
                  && f.margen() * f.costosTotalesProveedor == 100.0 * f.ganancia
                  && (f.margen() >= 0.0 <==> f.ganancia >= 0.0)
                  && (f.costo >= 0.0 ==> f.margen() >= -100.0))
  {
    var f := ConstruirFila(id, d, totalCompra, impuestos);
    var c := f.costosTotalesProveedor;
    if c > 0.0 {
      CocienteSigno(f.ganancia, c);
      assert f.margen() == f.ganancia / c * 100.0;
    }
  }

  /** Sign and lower bound of a quotient by a positive divisor. */
  lemma CocienteSigno(g: real, c: real)
    requires c > 0.0
    ensures (g / c) * c == g
    ensures g / c >= 0.0 <==> g >= 0.0
    ensures g >= -c ==> g / c >= -1.0
  {
    var q := g / c;
    assert q * c == g;
    assert q < 0.0 ==> q * c < 0.0;
    assert q < -1.0 ==> q * c < -c;
  }

  // ---------------------------------------------------------------------------
  // Allocation of the supplier tax within one summary
  // ---------------------------------------------------------------------------

  /** The sum of the shares `porcentajeImpuestos` over a summary's details. */
  function SumaProporciones(ds: seq<Detalle>, totalCompra: real): real
  {
    if ds == [] then 0.0 else Proporcion(Coerce(ds[0].costo), totalCompra) + SumaProporciones(ds[1..], totalCompra)
  }

  lemma {:induction false} SumaProporcionesEsCociente(ds: seq<Detalle>, totalCompra: real)
    requires totalCompra > 0.0
    ensures SumaProporciones(ds, totalCompra) == TotalCompra(ds) / totalCompra
  {
    if ds != [] {
      SumaProporcionesEsCociente(ds[1..], totalCompra);
      SumaDeCocientes(Coerce(ds[0].costo), TotalCompra(ds[1..]), totalCompra);
    }
  }

  lemma SumaDeCocientes(a: real, b: real, t: real)
    requires t > 0.0
    ensures a / t + b / t == (a + b) / t
  {
  }

  /** The shares of a summary's details add up to 1 when its total purchase
      cost is positive, and are all 0 otherwise. */
  lemma SumaDeProporciones(ds: seq<Detalle>)
    ensures TotalCompra(ds) > 0.0 ==> SumaProporciones(ds, TotalCompra(ds)) == 1.0
    ensures TotalCompra(ds) <= 0.0 ==>
              forall i :: 0 <= i < |ds| ==> Proporcion(Coerce(ds[i].costo), TotalCompra(ds)) == 0.0
  {
    var t := TotalCompra(ds);
    if t > 0.0 {
      SumaProporcionesEsCociente(ds, t);
      assert t / t == 1.0;
    }
  }

  lemma Distribuye(a: real, b: real, x: real)
    ensures a * x + b * x == (a + b) * x
  {
  }

  /** The allocated taxes of a summary's details, one term per detail. */
  function SumaAsignaciones(ds: seq<Detalle>, totalCompra: real, impuestos: real): real
  {
    if ds == [] then 0.0
    else Proporcion(Coerce(ds[0].costo), totalCompra) * impuestos + SumaAsignaciones(ds[1..], totalCompra, impuestos)
  }

  lemma {:induction false} ImpuestosDeFilas(id: Key, ds: seq<Detalle>, totalCompra: real, impuestos: real)
    ensures Suma(FilasDe(id, ds, totalCompra, impuestos), ColImpuestos) == SumaAsignaciones(ds, totalCompra, impuestos)
  {
    if ds != [] {
      var f := ConstruirFila(id, ds[0], totalCompra, impuestos);
      var resto := FilasDe(id, ds[1..], totalCompra, impuestos);
      assert ([f] + resto)[0] == f;
      assert ([f] + resto)[1..] == resto;
      ImpuestosDeFilas(id, ds[1..], totalCompra, impuestos);
    }
  }

  lemma {:induction false} SumaAsignacionesEsProducto(ds: seq<Detalle>, totalCompra: real, impuestos: real)
    ensures SumaAsignaciones(ds, totalCompra, impuestos) == SumaProporciones(ds, totalCompra) * impuestos
  {
    if ds != [] {
      SumaAsignacionesEsProducto(ds[1..], totalCompra, impuestos);
      Distribuye(Proporcion(Coerce(ds[0].costo), totalCompra), SumaProporciones(ds[1..], totalCompra), impuestos);
    }
  }

  /** Within one summary the allocated taxes add up to the coerced tax
      figure when the total purchase cost is positive; otherwise every row
      is allocated 0. */
  lemma ImpuestosDeResumen(r: Resumen, imp: Raw)
    ensures TotalCompra(r.detalles) > 0.0 ==> Suma(FilasResumen(r, imp), ColImpuestos) == Coerce(imp)
    ensures TotalCompra(r.detalles) <= 0.0 ==>
              && Suma(FilasResumen(r, imp), ColImpuestos) == 0.0
              && forall k :: 0 <= k < |r.detalles| ==> FilasResumen(r, imp)[k].impuestosAsignados == 0.0
  {
    ImpuestosDeFilas(r.id, r.detalles, TotalCompra(r.detalles), Coerce(imp));
    SumaAsignacionesEsProducto(r.detalles, TotalCompra(r.detalles), Coerce(imp));
    SumaDeProporciones(r.detalles);
    if TotalCompra(r.detalles) <= 0.0 {
      SumaProporcionesCero(r.detalles, TotalCompra(r.detalles));
      forall k | 0 <= k < |r.detalles|
        ensures FilasResumen(r, imp)[k].impuestosAsignados == 0.0
      {
        FilaDeDetalle(r.id, r.detalles, TotalCompra(r.detalles), Coerce(imp), k);
      }
    }
  }

  lemma {:induction false} SumaProporcionesCero(ds: seq<Detalle>, totalCompra: real)
    requires totalCompra <= 0.0
    ensures SumaProporciones(ds, totalCompra) == 0.0
  {
    if ds != [] {
      SumaProporcionesCero(ds[1..], totalCompra);
    }
  }

  predicate CostosNoNegativos(ds: seq<Detalle>)
  {
    forall i :: 0 <= i < |ds| ==> Coerce(ds[i].costo) >= 0.0
  }

  lemma {:induction false} CostoNoSuperaTotal(ds: seq<Detalle>, k: nat)
    requires CostosNoNegativos(ds) && k < |ds|
    ensures 0.0 <= Coerce(ds[k].costo) <= TotalCompra(ds)
  {
    TotalNoNegativo(ds[1..]);
    if k > 0 {
      CostoNoSuperaTotal(ds[1..], k - 1);
    }
  }

  lemma {:induction false} TotalNoNegativo(ds: seq<Detalle>)
    requires CostosNoNegativos(ds)
    ensures TotalCompra(ds) >= 0.0
  {
    if ds != [] {
      TotalNoNegativo(ds[1..]);
    }
  }

  /** With non-negative purchase costs every share lies in [0, 1]. */
  lemma ProporcionAcotada(ds: seq<Detalle>, k: nat)
    requires CostosNoNegativos(ds) && k < |ds|
    ensures 0.0 <= Proporcion(Coerce(ds[k].costo), TotalCompra(ds)) <= 1.0
  {
    CostoNoSuperaTotal(ds, k);
    CocienteAcotado(Coerce(ds[k].costo), TotalCompra(ds));
  }

  /** Row `f` carries the share of tax figure `x` that purchase cost `c`
      earns out of total purchase cost `t`: `f.impuestosAsignados * t == c * x`. */
  predicate AsignacionExacta(f: Fila, c: real, t: real, x: real)
  {
    f.impuestosAsignados * t == c * x
  }

  /** When the summary's purchases add up to a positive total (refund rows
      included), or all its purchase costs are non-negative, the allocated
      tax is the cost's exact proportion of the tax figure:
      allocation × total = cost × figure. */
  lemma AsignacionProporcional(r: Resumen, imp: Raw, k: nat)
    requires TotalCompra(r.detalles) > 0.0 || CostosNoNegativos(r.detalles)
    requires k < |r.detalles|
    ensures AsignacionExacta(FilasResumen(r, imp)[k], Coerce(r.detalles[k].costo),
                             TotalCompra(r.detalles), Coerce(imp))
  {
    var t := TotalCompra(r.detalles);
    if t <= 0.0 {
      CostoNoSuperaTotal(r.detalles, k);
    }
    FilaDeDetalle(r.id, r.detalles, t, Coerce(imp), k);
    AsignacionDeFila(FilasResumen(r, imp)[k], r.id, r.detalles[k], t, Coerce(imp));
  }

  lemma AsignacionDeFila(f: Fila, id: Key, d: Detalle, totalCompra: real, impuestos: real)
    requires f == ConstruirFila(id, d, totalCompra, impuestos)
    requires totalCompra > 0.0 || 0.0 <= Coerce(d.costo) <= totalCompra
    ensures AsignacionExacta(f, Coerce(d.costo), totalCompra, impuestos)
  {
    var c := Coerce(d.costo);
    CocienteMultiplica(f.impuestosAsignados, c, totalCompra, impuestos);
  }

  lemma MultiplicaMayor(p: real, t: real)
    requires t > 0.0
    ensures p > 1.0 ==> p * t > t
  {
  }

  lemma CocienteAcotado(c: real, t: real)
    requires 0.0 <= c <= t
    ensures 0.0 <= Proporcion(c, t) <= 1.0
  {
    if t > 0.0 {
      var p := c / t;
      assert p * t == c;
      MultiplicaMayor(p, t);
    }
  }

  lemma CocienteMultiplica(a: real, c: real, t: real, x: real)
    requires t > 0.0 || 0.0 <= c <= t
    requires a == Proporcion(c, t) * x
    ensures a * t == c * x
  {
    if t > 0.0 {
      var p := c / t;
      assert p * t == c;
      assert p * x * t == p * t * x;
    }
  }

  // ---------------------------------------------------------------------------
  // Grand totals
  // ---------------------------------------------------------------------------

  /** `totales`: the column sums, with the tax figure counted once. */
  function CalcularTotales(rs: seq<Resumen>, impuestosProveedor: Raw): (t: Totales)
    ensures t.impuestos == Coerce(impuestosProveedor)
    ensures t.ganancia == t.costo - t.costoCompra - t.envio
                          - Suma(DatosGanancias(rs, impuestosProveedor), ColImpuestos)
  {
    var filas := DatosGanancias(rs, impuestosProveedor);
    FilasCuadran(rs, impuestosProveedor);
    GananciaDeFilas(filas);
    Totales(Suma(filas, ColCosto), Suma(filas, ColCostoCompra), Suma(filas, ColEnvio),
            Coerce(impuestosProveedor), Suma(filas, ColGanancia))
  }

  /** How many summaries have a positive total purchase cost, i.e. allocate
      the whole tax figure among their rows. */
  function ResumenesConCompra(rs: seq<Resumen>): nat
  {
    if rs == [] then 0
    else (if TotalCompra(rs[0].detalles) > 0.0 then 1 else 0) + ResumenesConCompra(rs[1..])
  }

  lemma {:induction false} SumaConcatenada(a: seq<Fila>, b: seq<Fila>, c: Columna)
    ensures Suma(a + b, c) == Suma(a, c) + Suma(b, c)
  {
    if a == [] {
      assert a + b == b;
    } else {
      assert (a + b)[0] == a[0];
      assert (a + b)[1..] == a[1..] + b;
      SumaConcatenada(a[1..], b, c);
    }
  }

  /** The tax figure once for every summary with a positive total purchase cost. */
  function ImpuestosPorResumen(rs: seq<Resumen>, x: real): real
  {
    if rs == [] then 0.0
    else (if TotalCompra(rs[0].detalles) > 0.0 then x else 0.0) + ImpuestosPorResumen(rs[1..], x)
  }

  lemma {:induction false} ImpuestosDeTabla(rs: seq<Resumen>, imp: Raw)
    ensures Suma(DatosGanancias(rs, imp), ColImpuestos) == ImpuestosPorResumen(rs, Coerce(imp))
  {
    if rs != [] {
      var cabeza := FilasResumen(rs[0], imp);
      var cola := DatosGanancias(rs[1..], imp);
      assert DatosGanancias(rs, imp) == cabeza + cola;
      SumaConcatenada(cabeza, cola, ColImpuestos);
      ImpuestosDeResumen(rs[0], imp);
      ImpuestosDeTabla(rs[1..], imp);
    }
  }

  lemma {:induction false} ImpuestosPorResumenEsProducto(rs: seq<Resumen>, x: real)
    ensures ImpuestosPorResumen(rs, x) == ResumenesConCompra(rs) as real * x
  {
    if rs != [] {
      ImpuestosPorResumenEsProducto(rs[1..], x);
      var n := ResumenesConCompra(rs[1..]) as real;
      if TotalCompra(rs[0].detalles) > 0.0 {
        assert ResumenesConCompra(rs) as real == 1.0 + n;
        assert (1.0 + n) * x == x + n * x;
      }
    }
  }

  /** Every summary with positive purchases allocates the full tax figure,
      so the allocated taxes of the whole table add up to that figure once
      per such summary, while `totales.impuestos` holds it exactly once. */
  lemma ImpuestosAsignadosTotales(rs: seq<Resumen>, imp: Raw)
    ensures Suma(DatosGanancias(rs, imp), ColImpuestos) == ResumenesConCompra(rs) as real * Coerce(imp)
    ensures CalcularTotales(rs, imp).impuestos == Coerce(imp)
  {
    ImpuestosDeTabla(rs, imp);
    ImpuestosPorResumenEsProducto(rs, Coerce(imp));
  }

  lemma {:induction false} DatosGananciasConcatenados(a: seq<Resumen>, b: seq<Resumen>, imp: Raw)
    ensures DatosGanancias(a + b, imp) == DatosGanancias(a, imp) + DatosGanancias(b, imp)
  {
    if a == [] {
      assert a + b == b;
    } else {
      assert (a + b)[0] == a[0];
      assert (a + b)[1..] == a[1..] + b;
      DatosGananciasConcatenados(a[1..], b, imp);
    }
  }

  /** Splitting the saved summaries into two lists splits every summed
      total into the two lists' totals, except the tax figure, which stays
      the single coerced figure on every part. */
  lemma TotalesAditivos(a: seq<Resumen>, b: seq<Resumen>, imp: Raw)
    ensures var t, ta, tb := CalcularTotales(a + b, imp), CalcularTotales(a, imp), CalcularTotales(b, imp);
            && t.costo == ta.costo + tb.costo
            && t.costoCompra == ta.costoCompra + tb.costoCompra
            && t.envio == ta.envio + tb.envio
            && t.ganancia == ta.ganancia + tb.ganancia
            && t.impuestos == ta.impuestos == tb.impuestos == Coerce(imp)
  {
    DatosGananciasConcatenados(a, b, imp);
    var fa, fb := DatosGanancias(a, imp), DatosGanancias(b, imp);
    SumaConcatenada(fa, fb, ColCosto);
    SumaConcatenada(fa, fb, ColCostoCompra);
    SumaConcatenada(fa, fb, ColEnvio);
    SumaConcatenada(fa, fb, ColGanancia);
  }

  /** Row profit is the sale minus purchase cost, allocated tax and shipping. */
  predicate Cuadra(f: Fila)
  {
    f.ganancia == f.costo - f.costoCompra - f.impuestosAsignados - f.envio
  }

  lemma {:induction false} GananciaDeFilas(fs: seq<Fila>)
    requires forall i :: 0 <= i < |fs| ==> Cuadra(fs[i])
    ensures Suma(fs, ColGanancia)
            == Suma(fs, ColCosto) - Suma(fs, ColCostoCompra) - Suma(fs, ColImpuestos) - Suma(fs, ColEnvio)
  {
    if fs != [] {
      assert Cuadra(fs[0]);
      GananciaDeFilas(fs[1..]);
    }
  }

  lemma {:induction false} FilasCuadran(rs: seq<Resumen>, imp: Raw)
    ensures forall i :: 0 <= i < |DatosGanancias(rs, imp)| ==> Cuadra(DatosGanancias(rs, imp)[i])
  {
    if rs != [] {
      FilasCuadran(rs[1..], imp);
      var a := FilasResumen(rs[0], imp);
      var filas := DatosGanancias(rs, imp);
      forall i | 0 <= i < |filas|
        ensures Cuadra(filas[i])
      {
        if i < |a| {
          FilaDeDetalle(rs[0].id, rs[0].detalles, TotalCompra(rs[0].detalles), Coerce(imp), i);
        } else {
          assert filas[i] == DatosGanancias(rs[1..], imp)[i - |a|];
        }
      }
    }
  }

  /** The total profit is total sales minus total purchase cost, total
      shipping and the tax figure once per summary with positive purchases
      (`ImpuestosPorResumenEsProducto`). It matches "sales minus (purchase
      cost + `totales.impuestos`) minus shipping" only when exactly one
      summary has positive purchases, or the tax figure is 0. */
  lemma GananciaTotal(rs: seq<Resumen>, imp: Raw)
    ensures var t := CalcularTotales(rs, imp);
            t.ganancia == t.costo - t.costoCompra - t.envio - ImpuestosPorResumen(rs, t.impuestos)
  {
    var filas := DatosGanancias(rs, imp);
    FilasCuadran(rs, imp);
    GananciaDeFilas(filas);
    ImpuestosDeTabla(rs, imp);
  }

  /** Purchase costs 100 and 300 with a tax figure of 40 are allocated 10
      and 30. */
  lemma EjemploAsignacion(id: Key)
    ensures var r := Resumen(id, [Detalle("a", "p1", Invalid, Num(100.0), Invalid),
                                  Detalle("b", "p2", Invalid, Num(300.0), Invalid)]);
            var filas := FilasResumen(r, Num(40.0));
            && |filas| == 2
            && filas[0].impuestosAsignados == 10.0
            && filas[1].impuestosAsignados == 30.0
            && filas[0].ganancia == -110.0
  {
    var ds := [Detalle("a", "p1", Invalid, Num(100.0), Invalid), Detalle("b", "p2", Invalid, Num(300.0), Invalid)];
    assert TotalCompra(ds) == 400.0 by {
      assert ds[1..][1..] == [];
    }
    FilaDeDetalle(id, ds, 400.0, 40.0, 0);
    FilaDeDetalle(id, ds, 400.0, 40.0, 1);
  }
}
