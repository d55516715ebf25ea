/** The monthly bar chart of the statistics screen: the exchanges of the last
    five calendar months, counted and weighed month by month, and one bar per
    month. */
module BarGraph {
  import opened Wrappers
  import opened Js
  import opened Seqs
  import opened Fechas
  import IC = IntercambiosContext

  /** A calendar month: `mes` counts from 0, as `getMonth()` does. */
  datatype Mes = Mes(anio: int, mes: int)

  /** A month as one number, so that consecutive months differ by one. */
  function Indice(m: Mes): int {
    m.anio * 12 + m.mes
  }

  /** The year and month of `new Date(anio, mes - i, 1)`: months before January
      roll back into earlier years. */
  function MesAnterior(hoy: Mes, i: nat): (r: Mes)
    ensures 0 <= r.mes < 12
    ensures Indice(r) == Indice(hoy) - i
  {
    var t := Indice(hoy) - i;
    Mes(t / 12, t % 12)
  }

  /** The month and year of a month number are unique. */
  lemma MismoMes(a: int, b: int, q: int, r: int)
    requires 0 <= b < 12 && 0 <= r < 12 && a * 12 + b == q * 12 + r
    ensures a == q && b == r
  {
  }

  /** Within the current year the month just steps back. */
  lemma MesAnteriorMismoAnio(hoy: Mes, i: nat)
    requires i <= hoy.mes < 12
    ensures MesAnterior(hoy, i) == Mes(hoy.anio, hoy.mes - i)
  {
    var r := MesAnterior(hoy, i);
    MismoMes(r.anio, r.mes, hoy.anio, hoy.mes - i);
  }

  /** Stepping back past January lands in the year before. */
  lemma MesAnteriorAnioPrevio(hoy: Mes, i: nat)
    requires 0 <= hoy.mes < i <= hoy.mes + 12
    ensures MesAnterior(hoy, i) == Mes(hoy.anio - 1, hoy.mes - i + 12)
  {
    var r := MesAnterior(hoy, i);
    MismoMes(r.anio, r.mes, hoy.anio - 1, hoy.mes - i + 12);
  }

  /** The five months of the chart, oldest first: four months back to the
      current one. */
  function Meses(hoy: Mes): (r: seq<Mes>)
    ensures |r| == 5
    ensures forall k :: 0 <= k < 5 ==> Indice(r[k]) == Indice(hoy) - 4 + k && 0 <= r[k].mes < 12
  {
    seq(5, k requires 0 <= k < 5 => MesAnterior(hoy, 4 - k))
  }

  /** The exchange filter of one month: a defined, non-empty date whose year and
      month are the bucket's. An unparsable date matches no month. */
  predicate EnMes(x: IC.Intercambio, m: Mes) {
    && x.fecha.Some? && x.fecha.value.texto != ""
    && x.fecha.value.valor.Valida?
    && x.fecha.value.valor.anio == m.anio && x.fecha.value.valor.mes == m.mes
  }

  function DelMesFiltro(m: Mes): IC.Intercambio -> bool {
    (x: IC.Intercambio) => EnMes(x, m)
  }

  /** The exchanges of one month, in their order. */
  function DelMes(xs: seq<IC.Intercambio>, m: Mes): (r: seq<IC.Intercambio>)
    ensures forall i :: 0 <= i < |r| ==> EnMes(r[i], m)
    ensures forall i :: 0 <= i < |xs| && EnMes(xs[i], m) ==> xs[i] in r
  {
    Filter(xs, DelMesFiltro(m))
  }

  /** One bucket: its month (the source keeps its short locale name), the
      number of exchanges and their summed weight. */
  datatype MonthlyData = MonthlyData(mes: Mes, intercambios: nat, pesoTotal: real)

  function Resumen(xs: seq<IC.Intercambio>, m: Mes): MonthlyData {
    MonthlyData(m, |DelMes(xs, m)|, SumOf(DelMes(xs, m), IC.Peso))
  }

  /** The five buckets, oldest first. */
  function Buckets(xs: seq<IC.Intercambio>, hoy: Mes): (r: seq<MonthlyData>)
    ensures |r| == 5
  {
    seq(5, k requires 0 <= k < 5 => Resumen(xs, Meses(hoy)[k]))
  }

  lemma BucketDe(xs: seq<IC.Intercambio>, hoy: Mes, k: nat)
    requires k < 5
    ensures Buckets(xs, hoy)[k] == Resumen(xs, Meses(hoy)[k])
  {
  }

  /** `processIntercambiosData`: a loop from four months back to the current
      one, pushing each month's bucket. */
  method ProcesarIntercambios(xs: seq<IC.Intercambio>, hoy: Mes) returns (months: seq<MonthlyData>)
    ensures months == Buckets(xs, hoy)
  {
    months := [];
    var i := 4;
    while i >= 0
      invariant -1 <= i <= 4
      invariant months == Buckets(xs, hoy)[..4 - i]
      decreases i + 1
    {
      var date := MesAnterior(hoy, i);
      assert date == Meses(hoy)[4 - i];
      var monthIntercambios := DelMes(xs, date);
      var pesoTotal := SumOf(monthIntercambios, IC.Peso);
      months := months + [MonthlyData(date, |monthIntercambios|, pesoTotal)];
      i := i - 1;
    }
  }

  /** The buckets cover consecutive months and end with the current one. */
  lemma BucketsConsecutivos(xs: seq<IC.Intercambio>, hoy: Mes, k: nat)
    requires 0 <= hoy.mes < 12 && k < 4
    ensures Indice(Buckets(xs, hoy)[k + 1].mes) == Indice(Buckets(xs, hoy)[k].mes) + 1
    ensures Buckets(xs, hoy)[4].mes == hoy
  {
    BucketDe(xs, hoy, k);
    BucketDe(xs, hoy, k + 1);
    BucketDe(xs, hoy, 4);
    MesAnteriorMismoAnio(hoy, 0);
  }

  /** From January to April the oldest buckets fall in the previous year. */
  lemma BucketsCruzanElAnio(xs: seq<IC.Intercambio>, hoy: Mes, k: nat)
    requires 0 <= hoy.mes < 4 && k < 4 - hoy.mes
    ensures Buckets(xs, hoy)[k].mes == Mes(hoy.anio - 1, hoy.mes + 8 + k)
  {
    BucketDe(xs, hoy, k);
    MesAnteriorAnioPrevio(hoy, 4 - k);
  }

  /** An exchange matches the bucket of a month exactly when its date is in that
      month; since the five months differ, it matches at most one bucket. */
  lemma EnUnSoloBucket(xs: seq<IC.Intercambio>, hoy: Mes, x: IC.Intercambio, j: nat, k: nat)
    requires j < 5 && k < 5
    requires EnMes(x, Buckets(xs, hoy)[j].mes) && EnMes(x, Buckets(xs, hoy)[k].mes)
    ensures j == k
  {
    BucketDe(xs, hoy, j);
    BucketDe(xs, hoy, k);
    assert Indice(Meses(hoy)[j]) == Indice(Meses(hoy)[k]);
  }

  /** What one more exchange adds to a month. */
  lemma DelMesAlAgregar(xs: seq<IC.Intercambio>, x: IC.Intercambio, m: Mes)
    ensures DelMes(xs + [x], m) == DelMes(xs, m) + (if EnMes(x, m) then [x] else [])
  {
    FilterAppend(xs, [x], DelMesFiltro(m));
    assert [x][1..] == [];
  }

  /** An exchange without a date changes no bucket. */
  lemma SinFechaNoCuenta(xs: seq<IC.Intercambio>, hoy: Mes, x: IC.Intercambio)
    requires x.fecha.None?
    ensures Buckets(xs + [x], hoy) == Buckets(xs, hoy)
  {
    forall k | 0 <= k < 5
      ensures Buckets(xs + [x], hoy)[k] == Buckets(xs, hoy)[k]
    {
      var m := Meses(hoy)[k];
      DelMesAlAgregar(xs, x, m);
      assert DelMes(xs + [x], m) == DelMes(xs, m);
      BucketDe(xs, hoy, k);
      BucketDe(xs + [x], hoy, k);
    }
  }

  /** A bucket's weight is the sum, over all exchanges, of the weight of those
      in its month, a missing weight counting as zero. */
  lemma PesoDelBucket(xs: seq<IC.Intercambio>, hoy: Mes, k: nat)
    requires k < 5
    ensures var m := Buckets(xs, hoy)[k].mes;
      Buckets(xs, hoy)[k].pesoTotal ==
        SumOf(xs, (x: IC.Intercambio) => if EnMes(x, m) then NumberOrZero(x.pesoTotal) else 0.0)
  {
    BucketDe(xs, hoy, k);
    var m := Meses(hoy)[k];
    SumOfFilter(xs, DelMesFiltro(m), IC.Peso,
                (x: IC.Intercambio) => if EnMes(x, m) then NumberOrZero(x.pesoTotal) else 0.0);
  }

  /** The number of exchanges the five buckets count together. */
  function Contados(xs: seq<IC.Intercambio>, hoy: Mes): nat {
    var b := Buckets(xs, hoy);
    b[0].intercambios + b[1].intercambios + b[2].intercambios + b[3].intercambios + b[4].intercambios
  }

  /** 1 when the exchange is in the month, else 0. */
  function Cuenta(x: IC.Intercambio, m: Mes): nat {
    if EnMes(x, m) then 1 else 0
  }

  lemma CuentaAlAgregar(xs: seq<IC.Intercambio>, x: IC.Intercambio, hoy: Mes, k: nat)
    requires k < 5
    ensures Buckets(xs + [x], hoy)[k].intercambios == Buckets(xs, hoy)[k].intercambios + Cuenta(x, Meses(hoy)[k])
  {
    BucketDe(xs, hoy, k);
    BucketDe(xs + [x], hoy, k);
    DelMesAlAgregar(xs, x, Meses(hoy)[k]);
  }

  /** No exchange is counted twice: together the buckets count at most as many
      exchanges as there are. */
  lemma {:induction false} ContadosAcotados(xs: seq<IC.Intercambio>, hoy: Mes)
    ensures Contados(xs, hoy) <= |xs|
  {
    if xs != [] {
      var init, x := xs[..|xs| - 1], xs[|xs| - 1];
      assert xs == init + [x];
      ContadosAcotados(init, hoy);
      CuentaAlAgregar(init, x, hoy, 0);
      CuentaAlAgregar(init, x, hoy, 1);
      CuentaAlAgregar(init, x, hoy, 2);
      CuentaAlAgregar(init, x, hoy, 3);
      CuentaAlAgregar(init, x, hoy, 4);
      CuentaUnica(x, hoy);
    }
  }

  /** An exchange is in at most one of the five months. */
  lemma CuentaUnica(x: IC.Intercambio, hoy: Mes)
    ensures var ms := Meses(hoy);
      Cuenta(x, ms[0]) + Cuenta(x, ms[1]) + Cuenta(x, ms[2]) + Cuenta(x, ms[3]) + Cuenta(x, ms[4]) <= 1
  {
  }

  /** One bar of `getBarData`: its value is the bucket's count. */
  datatype Barra = Barra(value: nat, mes: Mes, frontColor: string)

  const ColorBarra: string := "#90D26D"

  function Barras(ms: seq<MonthlyData>): (r: seq<Barra>)
    ensures |r| == |ms|
  {
    seq(|ms|, i requires 0 <= i < |ms| => Barra(ms[i].intercambios, ms[i].mes, ColorBarra))
  }

  /** The chart has five bars, oldest month first, each as tall as the number of
      exchanges of its month, the last one being the current month. */
  lemma BarrasDelGrafico(xs: seq<IC.Intercambio>, hoy: Mes, k: nat)
    requires 0 <= hoy.mes < 12 && k < 5
    ensures |Barras(Buckets(xs, hoy))| == 5
    ensures Barras(Buckets(xs, hoy))[k].value == |DelMes(xs, Barras(Buckets(xs, hoy))[k].mes)|
    ensures Indice(Barras(Buckets(xs, hoy))[k].mes) == Indice(hoy) - 4 + k
    ensures Barras(Buckets(xs, hoy))[k].frontColor == ColorBarra
    ensures Barras(Buckets(xs, hoy))[4].mes == hoy
  {
    BucketDe(xs, hoy, k);
    BucketDe(xs, hoy, 4);
    MesAnteriorMismoAnio(hoy, 0);
  }
}
