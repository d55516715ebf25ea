/** The newsletter provider: once articles are loaded, each one is given a
    relevance that decays with its age in hours, and the list is then sorted in
    place, newest first. */
module NewsletterContext {
  import opened Wrappers
  import Seqs

  /** A JavaScript number that can come out of a division: finite, or one of
      the infinities, or NaN. */
  datatype Numero = Finito(valor: real) | MasInfinito | MenosInfinito | NoNumero

  /** An article; `fechaCreacion` is the time value of its creation date, in
      milliseconds. */
  datatype Articulo = Articulo(
    id: string, titulo: string, tag: string, fechaCreacion: int, views: real, relevancia: Option<Numero>)

  const MsPorHora: real := 3600000.0

  /** The hours elapsed between creation and `ahora`, a fraction included. */
  function Horas(fechaCreacion: int, ahora: int): real {
    (ahora - fechaCreacion) as real / MsPorHora
  }

  /** Division as JavaScript does it on numbers: a zero divisor gives an
      infinity of the dividend's sign, or NaN for a zero dividend. */
  function Cociente(n: real, d: real): (r: Numero)
    ensures d != 0.0 ==> r == Finito(n / d)
    ensures d == 0.0 ==> (r == MasInfinito <==> n > 0.0) && (r == MenosInfinito <==> n < 0.0) && (r == NoNumero <==> n == 0.0)
  {
    if d != 0.0 then Finito(n / d)
    else if n > 0.0 then MasInfinito
    else if n < 0.0 then MenosInfinito
    else NoNumero
  }

  /** `views / (horasDesdePublicacion + 1)` */
  function Relevancia(a: Articulo, ahora: int): Numero {
    Cociente(a.views, Horas(a.fechaCreacion, ahora) + 1.0)
  }

  /** What the loop writes into one article: its relevance, nothing else. */
  function ConRelevancia(a: Articulo, ahora: int): (r: Articulo)
    ensures r.relevancia == Some(Relevancia(a, ahora))
    ensures r.(relevancia := a.relevancia) == a
  {
    a.(relevancia := Some(Relevancia(a, ahora)))
  }

  /** Every article of a list with its relevance recalculated. */
  function Recalculados(s: seq<Articulo>, ahora: int): (r: seq<Articulo>)
    ensures |r| == |s| && forall i :: 0 <= i < |s| ==> r[i] == ConRelevancia(s[i], ahora)
  {
    seq(|s|, i requires 0 <= i < |s| => ConRelevancia(s[i], ahora))
  }

  /** An article published before `ahora` has a finite relevance, which for a
      non-negative view count lies between zero and that count. */
  lemma RelevanciaPasada(a: Articulo, ahora: int)
    requires a.fechaCreacion <= ahora
    ensures Relevancia(a, ahora).Finito?
    ensures a.views >= 0.0 ==> 0.0 <= Relevancia(a, ahora).valor <= a.views
  {
    var d := Horas(a.fechaCreacion, ahora) + 1.0;
    assert d >= 1.0;
    if a.views >= 0.0 {
      assert a.views / d <= a.views by {
        assert a.views / d * d == a.views;
        assert a.views <= a.views * d;
      }
    }
  }

  /** With equal views, an older article is never more relevant. */
  lemma RelevanciaDecrece(a: Articulo, b: Articulo, ahora: int)
    requires a.views == b.views >= 0.0
    requires a.fechaCreacion <= b.fechaCreacion <= ahora
    ensures Relevancia(a, ahora).Finito? && Relevancia(b, ahora).Finito?
    ensures Relevancia(a, ahora).valor <= Relevancia(b, ahora).valor
  {
    RelevanciaPasada(a, ahora);
    RelevanciaPasada(b, ahora);
    var da := Horas(a.fechaCreacion, ahora) + 1.0;
    var db := Horas(b.fechaCreacion, ahora) + 1.0;
    assert 1.0 <= db <= da;
    var v := a.views;
    var p, q := v / da, v / db;
    assert p * da == v && q * db == v;
    assert p >= 0.0;
    assert p * db <= p * da;
    assert p * da == q * db;
    assert (q - p) * db >= 0.0;
    if q < p {
      assert (q - p) * db < 0.0;
    }
  }

  /** An article dated exactly one hour ahead divides by zero. */
  lemma RelevanciaSinDivisor(a: Articulo, ahora: int)
    requires a.fechaCreacion == ahora + 3600000
    ensures !Relevancia(a, ahora).Finito?
    ensures Relevancia(a, ahora) == NoNumero <==> a.views == 0.0
  {
    assert Horas(a.fechaCreacion, ahora) == -1.0;
  }

  // ---------------------------------------------------------------------------
  // Newest first

  predicate MasRecientesPrimero(s: seq<Articulo>) {
    forall i, j :: 0 <= i < j < |s| ==> s[i].fechaCreacion >= s[j].fechaCreacion
  }

  /** Places `x` after the articles at least as recent, before the older ones;
      as the comparator `b - a` orders them under a stable sort. */
  function Insertar(s: seq<Articulo>, x: Articulo): (r: seq<Articulo>)
    ensures |r| == |s| + 1
    decreases |s|
  {
    if s == [] then [x]
    else if s[|s| - 1].fechaCreacion < x.fechaCreacion then Insertar(s[..|s| - 1], x) + [s[|s| - 1]]
    else s + [x]
  }

  /** The order the in-place sort yields. */
  function Ordenar(s: seq<Articulo>): (r: seq<Articulo>)
    ensures |r| == |s|
    decreases |s|
  {
    if s == [] then [] else Insertar(Ordenar(s[..|s| - 1]), s[|s| - 1])
  }

  /** Inserting adds the one article and loses none. */
  lemma {:induction false} InsertarMultiset(s: seq<Articulo>, x: Articulo)
    ensures multiset(Insertar(s, x)) == multiset(s) + multiset{x}
    decreases |s|
  {
    if s != [] {
      assert s == s[..|s| - 1] + [s[|s| - 1]];
      if s[|s| - 1].fechaCreacion < x.fechaCreacion {
        InsertarMultiset(s[..|s| - 1], x);
      }
    }
  }

  lemma {:induction false} InsertarOrdenado(s: seq<Articulo>, x: Articulo)
    requires MasRecientesPrimero(s)
    ensures MasRecientesPrimero(Insertar(s, x))
  {
    if s != [] && s[|s| - 1].fechaCreacion < x.fechaCreacion {
      var init, last := s[..|s| - 1], s[|s| - 1];
      InsertarOrdenado(init, x);
      var r := Insertar(init, x);
      InsertarMultiset(init, x);
      forall k | 0 <= k < |r|
        ensures r[k].fechaCreacion >= last.fechaCreacion
      {
        assert r[k] in multiset(r);
        if r[k] != x {
          assert r[k] in multiset(init);
          var m :| 0 <= m < |init| && init[m] == r[k];
          assert s[m] == init[m];
        }
      }
    }
  }

  /** The sort orders the list newest first. */
  lemma {:induction false} OrdenarOrdenado(s: seq<Articulo>)
    ensures MasRecientesPrimero(Ordenar(s))
  {
    if s != [] {
      OrdenarOrdenado(s[..|s| - 1]);
      InsertarOrdenado(Ordenar(s[..|s| - 1]), s[|s| - 1]);
    }
  }

  /** The sort keeps every article, each as many times as it was there. */
  lemma {:induction false} OrdenarPermuta(s: seq<Articulo>)
    ensures multiset(Ordenar(s)) == multiset(s)
  {
    if s != [] {
      assert s == s[..|s| - 1] + [s[|s| - 1]];
      OrdenarPermuta(s[..|s| - 1]);
      InsertarMultiset(Ordenar(s[..|s| - 1]), s[|s| - 1]);
    }
  }

  /** The articles created at time `d`. */
  function CreadoEn(d: int): Articulo -> bool {
    (a: Articulo) => a.fechaCreacion == d
  }

  /** The step of `InsertarEstable` that moves `last` behind the inserted
      article: at most one of the two passes the date test. */
  lemma PasarDetras(p: seq<Articulo>, init: seq<Articulo>, last: Articulo, x: Articulo, d: int)
    requires last.fechaCreacion < x.fechaCreacion
    requires Seqs.Filter(p, CreadoEn(d)) == Seqs.Filter(init, CreadoEn(d)) + Seqs.Filter([x], CreadoEn(d))
    ensures Seqs.Filter(p + [last], CreadoEn(d)) ==
      Seqs.Filter(init + [last], CreadoEn(d)) + Seqs.Filter([x], CreadoEn(d))
  {
    var f := CreadoEn(d);
    Seqs.FilterAppend(p, [last], f);
    Seqs.FilterAppend(init, [last], f);
    Seqs.FilterSingleton(x, f);
    Seqs.FilterSingleton(last, f);
  }

  /** Inserting keeps the articles of any one date in their order, the new
      one last among them. */
  lemma {:induction false} InsertarEstable(s: seq<Articulo>, x: Articulo, d: int)
    ensures Seqs.Filter(Insertar(s, x), CreadoEn(d)) == Seqs.Filter(s, CreadoEn(d)) + Seqs.Filter([x], CreadoEn(d))
    decreases |s|
  {
    if s == [] {
      assert Insertar(s, x) == [x];
    } else {
      var init, last := s[..|s| - 1], s[|s| - 1];
      assert s == init + [last];
      if last.fechaCreacion < x.fechaCreacion {
        assert Insertar(s, x) == Insertar(init, x) + [last];
        InsertarEstable(init, x, d);
        PasarDetras(Insertar(init, x), init, last, x, d);
      } else {
        assert Insertar(s, x) == s + [x];
        Seqs.FilterAppend(s, [x], CreadoEn(d));
      }
    }
  }

  /** The sort is stable: the articles of any one date keep the order they
      had. */
  lemma {:induction false} OrdenarEstable(s: seq<Articulo>, d: int)
    ensures Seqs.Filter(Ordenar(s), CreadoEn(d)) == Seqs.Filter(s, CreadoEn(d))
  {
    if s != [] {
      var init, last := s[..|s| - 1], s[|s| - 1];
      assert s == init + [last];
      OrdenarEstable(init, d);
      InsertarEstable(Ordenar(init), last, d);
      Seqs.FilterAppend(init, [last], CreadoEn(d));
    }
  }

  lemma RecalculadosPartes(s: seq<Articulo>, ahora: int, n: nat)
    requires n <= |s|
    ensures Recalculados(s, ahora)[..n] == Recalculados(s[..n], ahora)
    ensures Recalculados(s, ahora)[n..] == Recalculados(s[n..], ahora)
  {
  }

  lemma RecalculadosConcat(s: seq<Articulo>, t: seq<Articulo>, ahora: int)
    ensures Recalculados(s + t, ahora) == Recalculados(s, ahora) + Recalculados(t, ahora)
  {
  }

  lemma {:induction false} InsertarRecalculado(s: seq<Articulo>, x: Articulo, ahora: int)
    ensures Insertar(Recalculados(s, ahora), ConRelevancia(x, ahora)) == Recalculados(Insertar(s, x), ahora)
    decreases |s|
  {
    if s != [] {
      var init, last := s[..|s| - 1], s[|s| - 1];
      var rs := Recalculados(s, ahora);
      RecalculadosPartes(s, ahora, |s| - 1);
      assert rs[..|rs| - 1] == Recalculados(init, ahora);
      if last.fechaCreacion < x.fechaCreacion {
        InsertarRecalculado(init, x, ahora);
        RecalculadosConcat(Insertar(init, x), [last], ahora);
      } else {
        RecalculadosConcat(s, [x], ahora);
      }
    }
  }

  /** The order does not depend on the relevance: sorting the recalculated
      list moves the articles exactly as sorting the original would. */
  lemma {:induction false} OrdenarIgnoraRelevancia(s: seq<Articulo>, ahora: int)
    ensures Ordenar(Recalculados(s, ahora)) == Recalculados(Ordenar(s), ahora)
    decreases |s|
  {
    if s != [] {
      var init := s[..|s| - 1];
      var rs := Recalculados(s, ahora);
      RecalculadosPartes(s, ahora, |s| - 1);
      assert rs[..|rs| - 1] == Recalculados(init, ahora);
      OrdenarIgnoraRelevancia(init, ahora);
      InsertarRecalculado(Ordenar(init), s[|s| - 1], ahora);
    }
  }

  /** A list already newest first is left as it is. */
  lemma {:induction false} OrdenarDeOrdenado(s: seq<Articulo>)
    requires MasRecientesPrimero(s)
    ensures Ordenar(s) == s
  {
    if s != [] {
      var init := s[..|s| - 1];
      assert MasRecientesPrimero(init);
      OrdenarDeOrdenado(init);
      if |init| > 0 {
        assert init[|init| - 1].fechaCreacion >= s[|s| - 1].fechaCreacion;
      }
    }
  }

  // ---------------------------------------------------------------------------
  // The in-place operations

  /** Where the insertion lands: after the first `j` articles, when those that
      follow are all older than `x` and the `j`-th, if any, is not. */
  lemma {:induction false} InsertarEn(ord: seq<Articulo>, j: nat, x: Articulo)
    requires j <= |ord| && (j == 0 || ord[j - 1].fechaCreacion >= x.fechaCreacion)
    requires forall k :: j <= k < |ord| ==> ord[k].fechaCreacion < x.fechaCreacion
    ensures Insertar(ord, x) == ord[..j] + [x] + ord[j..]
    decreases |ord|
  {
    if |ord| > j {
      var init := ord[..|ord| - 1];
      InsertarEn(init, j, x);
      assert init[..j] == ord[..j];
      assert init[j..] + [ord[|ord| - 1]] == ord[j..];
    }
  }

  /** The shifting loop of one sort step: older articles move one place right
      until the front or an article at least as recent as the one at `i`. */
  method Desplazar(a: array<Articulo>, i: nat) returns (j: nat, x: Articulo)
    requires i < a.Length
    modifies a
    ensures x == old(a[i]) && j <= i
    ensures j == 0 || old(a[j - 1]).fechaCreacion >= x.fechaCreacion
    ensures forall k :: j <= k < i ==> old(a[k]).fechaCreacion < x.fechaCreacion
    ensures forall k :: 0 <= k < j ==> a[k] == old(a[k])
    ensures forall k :: j < k <= i ==> a[k] == old(a[k - 1])
    ensures forall k :: i < k < a.Length ==> a[k] == old(a[k])
  {
    x := a[i];
    j := i;
    while j > 0 && a[j - 1].fechaCreacion < x.fechaCreacion
      invariant 0 <= j <= i
      invariant forall k :: j <= k < i ==> old(a[k]).fechaCreacion < x.fechaCreacion
      invariant forall k :: 0 <= k < j ==> a[k] == old(a[k])
      invariant forall k :: j < k <= i ==> a[k] == old(a[k - 1])
      invariant forall k :: i < k < a.Length ==> a[k] == old(a[k])
    {
      a[j] := a[j - 1];
      j := j - 1;
    }
  }

  /** One step of the sort: the article at `i` moves left past the older
      articles of the sorted prefix before it, which shift one place right. */
  method InsertarEnPrefijo(a: array<Articulo>, i: nat)
    requires i < a.Length
    modifies a
    ensures a[..i + 1] == Insertar(old(a[..i]), old(a[i]))
    ensures a[i + 1..] == old(a[i + 1..])
  {
    ghost var ord := a[..i];
    var j, x := Desplazar(a, i);
    a[j] := x;
    InsertarEn(ord, j, x);
    ghost var r := ord[..j] + [x] + ord[j..];
    forall k | 0 <= k <= i
      ensures a[k] == r[k]
    {
      if k > j {
        assert r[k] == ord[j..][k - j - 1] == ord[k - 1];
      }
    }
    assert a[..i + 1] == r;
  }

  /** The `sort` call: an insertion sort, stable like the engine's
      (`OrdenarEstable`). */
  method OrdenarPorFecha(a: array<Articulo>)
    modifies a
    ensures a[..] == Ordenar(old(a[..]))
  {
    ghost var s := a[..];
    var i := 0;
    while i < a.Length
      invariant 0 <= i <= a.Length
      invariant a[..i] == Ordenar(s[..i])
      invariant a[i..] == s[i..]
    {
      InsertarEnPrefijo(a, i);
      assert s[..i + 1][..i] == s[..i];
      i := i + 1;
    }
    assert s[..a.Length] == s;
  }

  /** `calcularRelevancia`: every article gets its relevance, then the list is
      sorted newest first. */
  method CalcularRelevancia(a: array<Articulo>, ahora: int)
    modifies a
    ensures a[..] == Ordenar(Recalculados(old(a[..]), ahora))
  {
    var i := 0;
    while i < a.Length
      invariant 0 <= i <= a.Length
      invariant forall k :: 0 <= k < i ==> a[k] == ConRelevancia(old(a[k]), ahora)
      invariant forall k :: i <= k < a.Length ==> a[k] == old(a[k])
    {
      a[i] := ConRelevancia(a[i], ahora);
      i := i + 1;
    }
    assert a[..] == Recalculados(old(a[..]), ahora);
    OrdenarPorFecha(a);
  }

  /** The effect on the article list: the recalculation runs only for a
      non-empty list. */
  method AlCambiarArticulos(a: array<Articulo>, ahora: int) returns (recalculado: bool)
    modifies a
    ensures recalculado <==> a.Length > 0
    ensures a[..] == if recalculado then Ordenar(Recalculados(old(a[..]), ahora)) else old(a[..])
  {
    recalculado := a.Length > 0;
    if recalculado {
      CalcularRelevancia(a, ahora);
    }
  }
}
