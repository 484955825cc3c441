/** The product catalog (`inventario.py`): an insertion-ordered dictionary
    from product id to `Producto` object, rewritten in full to a JSON file
    after every successful change and rebuilt from it on start-up.

    The first half states the catalog on values (the products' states in
    insertion order); the class `Inventario` at the end holds the objects and
    ties each of its operations to those values. */
module InventarioModelo {
  import opened Wrappers
  import opened Secuencias
  import opened Cadenas
  import opened ProductoModelo

  // ---------------------------------------------------------------------
  // The persisted file
  // ---------------------------------------------------------------------

  /** What the backing file holds, as `cargar_datos` sees it. */
  datatype Archivo =
    | Ausente                                   // the file does not exist
    | Ilegible                                  // `json.load` fails to decode it
    | Documento(productos: Option<seq<Dict>>)   // a JSON object and its 'productos' entry, if any

  // ---------------------------------------------------------------------
  // Catalog values
  // ---------------------------------------------------------------------

  /** The entries of `m` under `ids`, in that order. */
  function EnOrden<V>(m: map<string, V>, ids: seq<string>): (r: seq<V>)
    requires forall k :: k in ids ==> k in m
    ensures |r| == |ids|
    ensures forall i :: 0 <= i < |ids| ==> r[i] == m[ids[i]]
  {
    if ids == [] then [] else [m[ids[0]]] + EnOrden(m, ids[1..])
  }

  function Ids(ds: seq<Datos>): (r: seq<string>)
    ensures |r| == |ds| && forall i :: 0 <= i < |ds| ==> r[i] == ds[i].id
  {
    seq(|ds|, i requires 0 <= i < |ds| => ds[i].id)
  }

  /** No product of `ds` has this id. */
  predicate IdAusente(ds: seq<Datos>, id: string) {
    forall j :: 0 <= j < |ds| ==> ds[j].id != id
  }

  /** `self.productos[d.id] = d` on the catalog's values: a new id goes at the
      end, a known id keeps its place and takes the new value. */
  function Insertar(ds: seq<Datos>, d: Datos): (r: seq<Datos>)
    ensures IdAusente(ds, d.id) ==> r == ds + [d]
  {
    if ds == [] then [d]
    else if ds[0].id == d.id then [d] + ds[1..]
    else [ds[0]] + Insertar(ds[1..], d)
  }

  /** A known id keeps its place: the first product with that id takes the
      new values and nothing else moves. */
  lemma {:induction false} InsertarExistente(ds: seq<Datos>, d: Datos, i: nat)
    requires i < |ds| && ds[i].id == d.id && IdAusente(ds[..i], d.id)
    ensures Insertar(ds, d) == ds[i := d]
  {
    if ds[0].id != d.id {
      assert i > 0;
      assert ds[1..][..i - 1] == ds[..i][1..];
      InsertarExistente(ds[1..], d, i - 1);
      assert [ds[0]] + ds[1..][i - 1 := d] == ds[i := d];
    } else {
      assert i == 0;
    }
  }

  /** Inserting keeps the ids pairwise distinct. */
  lemma InsertarSinRepetidos(ds: seq<Datos>, d: Datos)
    requires SinRepetidos(Ids(ds))
    ensures SinRepetidos(Ids(Insertar(ds, d)))
  {
    if !IdAusente(ds, d.id) {
      var i :| 0 <= i < |ds| && ds[i].id == d.id;
      assert IdAusente(ds[..i], d.id);
      InsertarExistente(ds, d, i);
    }
  }

  /** The list written to the file: `[p.to_dict() for p in productos.values()]`. */
  function Serializar(ds: seq<Datos>): (r: seq<Dict>)
    ensures |r| == |ds| && forall i :: 0 <= i < |ds| ==> r[i] == DatosADict(ds[i])
  {
    seq(|ds|, i requires 0 <= i < |ds| => DatosADict(ds[i]))
  }

  /** The `for` loop of `cargar_datos` on values, for an entry reader
      `leer`: each entry is read and inserted in turn; the first entry that
      fails is the error of the whole list. */
  function CargarCon(l: seq<Dict>, leer: Dict -> Result<Datos, ErrorDict>): Result<seq<Datos>, ErrorDict> {
    if l == [] then Ok([])
    else
      match CargarCon(l[..|l| - 1], leer)
      case Err(e) => Err(e)
      case Ok(previos) =>
        match leer(l[|l| - 1])
        case Err(e) => Err(e)
        case Ok(d) => Ok(Insertar(previos, d))
  }

  /** The loop as `cargar_datos` runs it: each entry is read with
      `from_dict`. */
  function CargarLista(l: seq<Dict>): Result<seq<Datos>, ErrorDict> {
    CargarCon(l, DictADatos)
  }

  lemma CargarConPaso(l: seq<Dict>, leer: Dict -> Result<Datos, ErrorDict>, i: nat)
    requires i < |l| && CargarCon(l[..i], leer).Ok? && leer(l[i]).Ok?
    ensures CargarCon(l[..i + 1], leer) == Ok(Insertar(CargarCon(l[..i], leer).value, leer(l[i]).value))
  {
    assert l[..i + 1][..i] == l[..i];
  }

  /** One more entry read successfully: it is inserted into what the
      previous entries gave. */
  lemma CargarListaPaso(l: seq<Dict>, i: nat)
    requires i < |l| && CargarLista(l[..i]).Ok? && DictADatos(l[i]).Ok?
    ensures CargarLista(l[..i + 1]) == Ok(Insertar(CargarLista(l[..i]).value, DictADatos(l[i]).value))
  {
    CargarConPaso(l, DictADatos, i);
  }

  lemma {:induction false} CargarConFallaSii(l: seq<Dict>, leer: Dict -> Result<Datos, ErrorDict>)
    ensures CargarCon(l, leer).Err? <==> exists i :: 0 <= i < |l| && leer(l[i]).Err?
  {
    if l != [] {
      var n := |l| - 1;
      CargarConFallaSii(l[..n], leer);
      assert forall i :: 0 <= i < n ==> l[..n][i] == l[i];
      if exists i :: 0 <= i < |l| && leer(l[i]).Err? {
        var i :| 0 <= i < |l| && leer(l[i]).Err?;
        if i < n {
          assert leer(l[..n][i]).Err?;
        }
      }
    }
  }

  /** The list loads without error exactly when every entry passes
      `from_dict`: one bad entry is enough to fail the whole load. */
  lemma CargarListaFallaSii(l: seq<Dict>)
    ensures CargarLista(l).Err? <==> exists i :: 0 <= i < |l| && DictADatos(l[i]).Err?
  {
    CargarConFallaSii(l, DictADatos);
  }

  /** Before a product of a list with distinct ids come products with
      distinct ids, none of them with its id. */
  lemma PrefijoSinRepetidos(ds: seq<Datos>, n: nat)
    requires n < |ds| && SinRepetidos(Ids(ds))
    ensures SinRepetidos(Ids(ds[..n])) && IdAusente(ds[..n], ds[n].id)
  {
    assert forall i :: 0 <= i < n ==> Ids(ds[..n])[i] == Ids(ds)[i];
    forall i | 0 <= i < n ensures ds[..n][i].id != ds[n].id {
      assert Ids(ds)[i] != Ids(ds)[n];
    }
  }

  /** A list whose entries read as the products `ds`, whose ids are
      distinct, loads as `ds`, in order. */
  lemma {:induction false} CargarConLeidos(l: seq<Dict>, leer: Dict -> Result<Datos, ErrorDict>, ds: seq<Datos>)
    requires |l| == |ds| && forall i :: 0 <= i < |l| ==> leer(l[i]) == Ok(ds[i])
    requires SinRepetidos(Ids(ds))
    ensures CargarCon(l, leer) == Ok(ds)
  {
    if ds != [] {
      var n := |ds| - 1;
      var previos := ds[..n];
      PrefijoSinRepetidos(ds, n);
      assert CargarCon(l[..n], leer) == Ok(previos) by {
        assert forall i :: 0 <= i < n ==> l[..n][i] == l[i] && previos[i] == ds[i];
        CargarConLeidos(l[..n], leer, previos);
      }
      assert CargarCon(l, leer) == Ok(Insertar(previos, ds[n])) by {
        CargarConPaso(l, leer, n);
        assert l[..n + 1] == l;
      }
      assert previos + [ds[n]] == ds;
    }
  }

  /** The catalog `cargar_datos` leaves, or None when it leaves the catalog as
      it was (no file). A file that cannot be decoded, or any entry that
      fails `from_dict`, empties the catalog; a missing 'productos' entry
      reads as an empty list. */
  function Cargar(a: Archivo): (r: Option<seq<Datos>>)
    ensures r.None? <==> a.Ausente?
  {
    match a
    case Ausente => None
    case Ilegible => Some([])
    case Documento(None) => Some([])
    case Documento(Some(l)) =>
      match CargarLista(l)
      case Ok(ds) => Some(ds)
      case Err(_) => Some([])
  }

  /** Loading the file is all or nothing: when some entry fails `from_dict`
      the loaded catalog is empty, whatever the other entries hold. */
  lemma CargarTodoONada(l: seq<Dict>, i: nat)
    requires i < |l| && DictADatos(l[i]).Err?
    ensures Cargar(Documento(Some(l))) == Some([])
  {
    CargarListaFallaSii(l);
  }

  /** Reading back what was written reproduces the catalog, in order. */
  lemma CargarSerializar(ds: seq<Datos>)
    requires SinRepetidos(Ids(ds))
    ensures CargarLista(Serializar(ds)) == Ok(ds)
  {
    forall i | 0 <= i < |ds| ensures DictADatos(Serializar(ds)[i]) == Ok(ds[i]) {
      RoundTripDict(ds[i]);
    }
    CargarConLeidos(Serializar(ds), DictADatos, ds);
  }

  /** The persistence round trip: a catalog saved to the file is loaded back
      with the same products, values and order. */
  lemma GuardarCargar(ds: seq<Datos>)
    requires SinRepetidos(Ids(ds))
    ensures Cargar(Documento(Some(Serializar(ds)))) == Some(ds)
  {
    CargarSerializar(ds);
  }

  /** Two entries with the same id: the later one's values win, the earlier
      one's place is kept. */
  lemma CargarDuplicado(a: Dict, b: Dict)
    requires DictADatos(a).Ok? && DictADatos(b).Ok?
    requires DictADatos(a).value.id == DictADatos(b).value.id
    ensures Cargar(Documento(Some([a, b]))) == Some([DictADatos(b).value])
  {
    var da, db := DictADatos(a).value, DictADatos(b).value;
    var l := [a, b];
    assert l[..0] == [] && l[..2] == l;
    CargarListaPaso(l, 0);
    assert CargarLista(l[..1]) == Ok([da]);
    CargarListaPaso(l, 1);
    assert CargarLista(l) == Ok(Insertar([da], db));
    assert Insertar([da], db) == [db] + [da][1..];
    assert [db] + [da][1..] == [db];
  }

  // ---------------------------------------------------------------------
  // Aggregates on values
  // ---------------------------------------------------------------------

  /** `sum(p.calcular_valor_total() for p in ...)`. */
  function ValorInventario(ds: seq<Datos>): real {
    if ds == [] then 0.0 else ValorInventario(ds[..|ds| - 1]) + ValorTotal(ds[|ds| - 1])
  }

  lemma {:induction false} ValorInventarioConcat(a: seq<Datos>, b: seq<Datos>)
    ensures ValorInventario(a + b) == ValorInventario(a) + ValorInventario(b)
    decreases |b|
  {
    if b != [] {
      var n := |b| - 1;
      assert (a + b)[..|a + b| - 1] == a + b[..n];
      assert (a + b)[|a + b| - 1] == b[n];
      ValorInventarioConcat(a, b[..n]);
    } else {
      assert a + b == a;
    }
  }

  /** With no negative price or quantity the total is not negative. */
  lemma {:induction false} ValorInventarioNoNegativo(ds: seq<Datos>)
    requires forall i :: 0 <= i < |ds| ==> ds[i].precio >= 0.0 && ds[i].cantidad >= 0
    ensures ValorInventario(ds) >= 0.0
  {
    if ds != [] {
      var n := |ds| - 1;
      assert forall i :: 0 <= i < n ==> ds[..n][i] == ds[i];
      ValorInventarioNoNegativo(ds[..n]);
      assert ValorTotal(ds[n]) >= 0.0;
    }
  }

  /** Replacing one product's values changes the total by exactly the
      difference of that product's stock value. */
  lemma ValorInventarioReemplazo(ds: seq<Datos>, i: nat, d: Datos)
    requires i < |ds|
    ensures ValorInventario(ds[i := d]) == ValorInventario(ds) - ValorTotal(ds[i]) + ValorTotal(d)
  {
    assert ds == ds[..i] + [ds[i]] + ds[i + 1..];
    assert ds[i := d] == ds[..i] + [d] + ds[i + 1..];
    ValorInventarioConcat(ds[..i] + [ds[i]], ds[i + 1..]);
    ValorInventarioConcat(ds[..i] + [d], ds[i + 1..]);
    assert (ds[..i] + [d])[..i] == ds[..i];
    assert (ds[..i] + [ds[i]])[..i] == ds[..i];
  }

  function Precios(ds: seq<Datos>): (r: seq<real>)
    ensures |r| == |ds| && forall i :: 0 <= i < |ds| ==> r[i] == ds[i].precio
  {
    seq(|ds|, i requires 0 <= i < |ds| => ds[i].precio)
  }

  /** Position `k` holds a largest value, and every value before it is
      strictly smaller. */
  predicate EsPrimerMaximo(xs: seq<real>, k: nat) {
    && k < |xs|
    && (forall j :: 0 <= j < |xs| ==> xs[j] <= xs[k])
    && (forall j :: 0 <= j < k ==> xs[j] < xs[k])
  }

  /** Position `k` holds a smallest value, and every value before it is
      strictly larger. */
  predicate EsPrimerMinimo(xs: seq<real>, k: nat) {
    && k < |xs|
    && (forall j :: 0 <= j < |xs| ==> xs[k] <= xs[j])
    && (forall j :: 0 <= j < k ==> xs[k] < xs[j])
  }

  /** Index `max(..., key=precio)` returns: scanning left to right, the
      current best is replaced only by a strictly greater price, so the
      result is the first of the maximal prices. */
  function PrimerMaximo(xs: seq<real>): (k: nat)
    requires |xs| > 0
    ensures EsPrimerMaximo(xs, k)
  {
    if |xs| == 1 then 0
    else
      var k := PrimerMaximo(xs[..|xs| - 1]);
      assert forall j :: 0 <= j < |xs| - 1 ==> xs[..|xs| - 1][j] == xs[j];
      if xs[|xs| - 1] > xs[k] then |xs| - 1 else k
  }

  /** Index `min(..., key=precio)` returns: the first of the minimal prices. */
  function PrimerMinimo(xs: seq<real>): (k: nat)
    requires |xs| > 0
    ensures EsPrimerMinimo(xs, k)
  {
    if |xs| == 1 then 0
    else
      var k := PrimerMinimo(xs[..|xs| - 1]);
      assert forall j :: 0 <= j < |xs| - 1 ==> xs[..|xs| - 1][j] == xs[j];
      if xs[|xs| - 1] < xs[k] then |xs| - 1 else k
  }

  /** The categories present in the catalog. */
  function Categorias(ds: seq<Datos>): (r: set<string>)
    ensures forall c :: c in r <==> exists i :: 0 <= i < |ds| && ds[i].categoria == c
  {
    set i | 0 <= i < |ds| :: ds[i].categoria
  }

  /** The prices of one category, in insertion order. */
  function PreciosDeCategoria(ds: seq<Datos>, c: string): seq<real> {
    if ds == [] then []
    else PreciosDeCategoria(ds[..|ds| - 1], c) + (if ds[|ds| - 1].categoria == c then [ds[|ds| - 1].precio] else [])
  }

  /** A category that is present has at least one price. */
  lemma {:induction false} PreciosDeCategoriaNoVacios(ds: seq<Datos>, c: string)
    requires c in Categorias(ds)
    ensures |PreciosDeCategoria(ds, c)| > 0
  {
    var n := |ds| - 1;
    if ds[n].categoria != c {
      var i :| 0 <= i < |ds| && ds[i].categoria == c;
      assert ds[..n][i] == ds[i];
      PreciosDeCategoriaNoVacios(ds[..n], c);
    }
  }

  function Media(xs: seq<real>): real
    requires |xs| > 0
  {
    Suma(xs) / |xs| as real
  }

  /** The mean lies between the smallest and the largest of the values. */
  lemma {:induction false} MediaAcotada(xs: seq<real>)
    requires |xs| > 0
    ensures xs[PrimerMinimo(xs)] <= Media(xs) <= xs[PrimerMaximo(xs)]
  {
    var lo, hi := xs[PrimerMinimo(xs)], xs[PrimerMaximo(xs)];
    SumaAcotada(xs, lo, hi);
    CocienteAcotado(Suma(xs), |xs| as real, lo, hi);
  }

  lemma CocienteAcotado(s: real, n: real, lo: real, hi: real)
    requires n > 0.0 && lo * n <= s <= hi * n
    ensures lo <= s / n <= hi
  {
    assert s / n - lo == (s - lo * n) / n;
    assert hi - s / n == (hi * n - s) / n;
  }

  lemma {:induction false} SumaAcotada(xs: seq<real>, lo: real, hi: real)
    requires forall i :: 0 <= i < |xs| ==> lo <= xs[i] <= hi
    ensures lo * |xs| as real <= Suma(xs) <= hi * |xs| as real
  {
    if xs != [] {
      var n := |xs| - 1;
      assert forall i :: 0 <= i < n ==> xs[..n][i] == xs[i];
      SumaAcotada(xs[..n], lo, hi);
      assert Suma(xs) == Suma(xs[..n]) + xs[n];
      SumarAcotado(Suma(xs[..n]), xs[n], n as real, lo, hi);
      assert |xs| as real == n as real + 1.0;
    }
  }

  /** Adding one value within [lo, hi] to a total of `m` such values. */
  lemma SumarAcotado(s: real, x: real, m: real, lo: real, hi: real)
    requires lo * m <= s <= hi * m && lo <= x <= hi
    ensures lo * (m + 1.0) <= s + x <= hi * (m + 1.0)
  {
    assert lo * (m + 1.0) == lo * m + lo;
    assert hi * (m + 1.0) == hi * m + hi;
  }

  /** The first loop of `calcular_promedio_precios_por_categoria` after `i`
      products: one list of prices per category seen so far. */
  ghost predicate Agrupado(grupos: map<string, seq<real>>, ds: seq<Datos>) {
    && grupos.Keys == Categorias(ds)
    && forall c :: c in grupos ==> grupos[c] == PreciosDeCategoria(ds, c)
  }

  /** A dictionary whose keys are listed once each in `orden`, and whose
      entries are keyed by their own id. */
  ghost predicate Indexado(c: map<string, Datos>, orden: seq<string>) {
    && SinRepetidos(orden)
    && (forall k :: k in c <==> k in orden)
    && (forall k :: k in c ==> c[k].id == k)
  }

  /** Assigning a known id in such a dictionary: the values in order are
      those of Insertar. */
  lemma InsertarEnOrdenExistente(c: map<string, Datos>, orden: seq<string>, d: Datos)
    requires Indexado(c, orden) && d.id in c
    ensures EnOrden(c[d.id := d], orden) == Insertar(EnOrden(c, orden), d)
  {
    var ds := EnOrden(c, orden);
    var i := Posicion(orden, d.id);
    assert IdAusente(ds[..i], d.id) by {
      forall j | 0 <= j < i ensures ds[..i][j].id != d.id {
        assert ds[j].id == orden[j];
      }
    }
    InsertarExistente(ds, d, i);
    EnOrdenCambiaUno(c, orden, d.id, d);
  }

  /** Assigning a new id: it is appended, and the values in order are those
      of Insertar. */
  lemma InsertarEnOrdenNuevo(c: map<string, Datos>, orden: seq<string>, d: Datos)
    requires Indexado(c, orden) && d.id !in c
    ensures EnOrden(c[d.id := d], orden + [d.id]) == EnOrden(c, orden) + [d]
    ensures EnOrden(c[d.id := d], orden + [d.id]) == Insertar(EnOrden(c, orden), d)
  {
    var ds := EnOrden(c, orden);
    assert IdAusente(ds, d.id) by {
      forall j | 0 <= j < |ds| ensures ds[j].id != d.id {
        assert ds[j].id == orden[j];
      }
    }
    assert EnOrden(c[d.id := d], orden + [d.id]) == ds + [d];
  }

  // ---------------------------------------------------------------------
  // The catalog object
  // ---------------------------------------------------------------------

  /** Consistency of the id map with its insertion order. */
  ghost predicate Coherente(productos: map<string, Producto>, orden: seq<string>) {
    && SinRepetidos(orden)
    && (forall k :: k in productos <==> k in orden)
    && (forall k :: k in productos ==> productos[k].id == k)
  }

  /** The states of the objects of an id map. */
  function Estados(m: map<string, Producto>): (c: map<string, Datos>)
    reads m.Values
    ensures c.Keys == m.Keys
  {
    map k | k in m :: m[k].Estado()
  }

  /** The states are those of the objects: a change elsewhere leaves them. */
  twostate lemma EstadosSinCambio(m: map<string, Producto>)
    requires unchanged(m.Values)
    ensures Estados(m) == old(Estados(m))
  {
  }

  lemma EstadosAsignar(m: map<string, Producto>, p: Producto)
    ensures Estados(m[p.id := p]) == Estados(m)[p.id := p.Estado()]
  {
  }

  lemma CoherenteAsignar(m: map<string, Producto>, orden: seq<string>, p: Producto)
    requires Coherente(m, orden)
    ensures Coherente(m[p.id := p], if p.id in m then orden else orden + [p.id])
  {
  }

  lemma IndexadoEstados(m: map<string, Producto>, orden: seq<string>)
    requires Coherente(m, orden)
    ensures Indexado(Estados(m), orden)
  {
  }

  /** The products of `ds` other than the one with this id, in order. */
  function SinProducto(ds: seq<Datos>, id: string): (r: seq<Datos>)
    ensures forall i :: 0 <= i < |r| ==> r[i].id != id
  {
    if ds == [] then []
    else if ds[0].id == id then SinProducto(ds[1..], id)
    else [ds[0]] + SinProducto(ds[1..], id)
  }

  /** Deleting a key from such a dictionary and from its order: the values
      in order lose exactly that product. */
  lemma {:induction false} EnOrdenQuitar(c: map<string, Datos>, orden: seq<string>, id: string)
    requires forall k :: k in orden ==> k in c && c[k].id == k
    ensures EnOrden(c - {id}, Quitar(orden, id)) == SinProducto(EnOrden(c, orden), id)
  {
    if orden != [] {
      EnOrdenQuitar(c, orden[1..], id);
      assert EnOrden(c, orden)[1..] == EnOrden(c, orden[1..]);
      if orden[0] != id {
        assert EnOrden(c - {id}, Quitar(orden, id))[1..] == EnOrden(c - {id}, Quitar(orden[1..], id));
      }
    }
  }

  /** Changing the entry of a known id: the values in order change at that
      id's position and nowhere else. */
  lemma EnOrdenCambiaUno(c: map<string, Datos>, orden: seq<string>, id: string, d: Datos)
    requires Indexado(c, orden) && id in c
    ensures EnOrden(c[id := d], orden) == EnOrden(c, orden)[Posicion(orden, id) := d]
  {
    var i := Posicion(orden, id);
    var antes, despues := EnOrden(c, orden), EnOrden(c[id := d], orden);
    forall j | 0 <= j < |orden| ensures despues[j] == antes[i := d][j] {
      if j != i {
        assert orden[j] != orden[i];
      }
    }
    assert |despues| == |antes[i := d]|;
  }

  lemma CoherenteQuitar(m: map<string, Producto>, orden: seq<string>, id: string)
    requires Coherente(m, orden)
    ensures Coherente(m - {id}, Quitar(orden, id))
  {
  }

  lemma EstadosQuitar(m: map<string, Producto>, id: string)
    ensures Estados(m - {id}) == Estados(m) - {id}
  {
  }

  /** Every object other than the one under `id` still has the state
      recorded in `c0`: the states differ from `c0` under that id only. */
  lemma EstadosCambiaUno(m: map<string, Producto>, c0: map<string, Datos>, id: string)
    requires m.Keys == c0.Keys && id in m
    requires forall k :: k in m && k != id ==> m[k].Estado() == c0[k]
    ensures Estados(m) == c0[id := m[id].Estado()]
  {
  }

  /** In a consistent catalog, distinct ids hold distinct objects. */
  lemma ObjetosDistintos(m: map<string, Producto>, orden: seq<string>, id: string)
    requires Coherente(m, orden) && id in m
    ensures forall k :: k in m && k != id ==> m[k] != m[id]
  {
  }

  /** In a consistent catalog the dictionary has one entry per id of the
      order. */
  lemma CantidadEsLongitud(m: map<string, Producto>, orden: seq<string>)
    requires Coherente(m, orden)
    ensures |m| == |orden|
  {
    CardinalSinRepetidos(orden);
    assert m.Keys == set k | k in orden;
  }

  /** One turn of the grouping loop: after appending product `i`'s price to
      its category's list, the lists are those of the first `i + 1`
      products. */
  lemma AgruparUno(grupos: map<string, seq<real>>, ds: seq<Datos>, i: nat)
    requires i < |ds| && Agrupado(grupos, ds[..i])
    ensures var c := ds[i].categoria;
      var previos := if c in grupos then grupos[c] else [];
      Agrupado(grupos[c := previos + [ds[i].precio]], ds[..i + 1])
  {
    var c := ds[i].categoria;
    var ds' := ds[..i + 1];
    assert ds'[..i] == ds[..i];
    assert ds'[i] == ds[i];
    forall e | e != c && e in grupos ensures grupos[e] == PreciosDeCategoria(ds', e) {
    }
    assert Categorias(ds') == Categorias(ds[..i]) + {c} by {
      forall e ensures e in Categorias(ds') <==> e in Categorias(ds[..i]) + {c} {
        if e in Categorias(ds') && e != c {
          var j :| 0 <= j < |ds'| && ds'[j].categoria == e;
          assert j < i && ds[..i][j] == ds'[j];
        }
        if e in Categorias(ds[..i]) {
          var j :| 0 <= j < i && ds[..i][j].categoria == e;
          assert ds'[j] == ds[..i][j];
        }
      }
    }
    if c !in grupos {
      assert PreciosDeCategoria(ds[..i], c) == [] by {
        PreciosDeCategoriaAusente(ds[..i], c);
      }
    }
  }

  /** A category that is absent has no prices. */
  lemma {:induction false} PreciosDeCategoriaAusente(ds: seq<Datos>, c: string)
    requires c !in Categorias(ds)
    ensures PreciosDeCategoria(ds, c) == []
  {
    if ds != [] {
      var n := |ds| - 1;
      assert Categorias(ds[..n]) <= Categorias(ds) by {
        forall e | e in Categorias(ds[..n]) ensures e in Categorias(ds) {
          var j :| 0 <= j < n && ds[..n][j].categoria == e;
          assert ds[j] == ds[..n][j];
        }
      }
      PreciosDeCategoriaAusente(ds[..n], c);
    }
  }

  class Inventario {
    /** `self.productos`, a Python dict: the map, and its keys in insertion order. */
    var productos: map<string, Producto>
    var orden: seq<string>
    /** The content of the backing JSON file. */
    var archivo: Archivo

    ghost predicate Valid()
      reads this`productos, this`orden
    {
      Coherente(productos, orden)
    }

    /** Each product's current state, by id. */
    function Contenido(): (c: map<string, Datos>)
      reads this`productos, productos.Values
      ensures c.Keys == productos.Keys
    {
      Estados(productos)
    }

    /** The products' states in insertion order: the catalog's value. */
    function Valores(): (ds: seq<Datos>)
      requires Valid()
      reads this`productos, this`orden, productos.Values
      ensures |ds| == |orden|
      ensures SinRepetidos(Ids(ds))
    {
      var ds := EnOrden(Estados(productos), orden);
      assert forall i :: 0 <= i < |ds| ==> Ids(ds)[i] == orden[i];
      ds
    }

    /** `obtener_todos_productos`: every product object, in insertion order,
        each once. */
    function ObtenerTodosProductos(): (r: seq<Producto>)
      requires Valid()
      reads this`productos, this`orden
      ensures |r| == |orden|
      ensures forall i :: 0 <= i < |orden| ==> orden[i] in productos && r[i] == productos[orden[i]] && r[i].id == orden[i]
      ensures SinRepetidos(r)
    {
      EnOrden(productos, orden)
    }

    /** A fresh catalog over the given file, loaded as `__init__` does:
        empty, then `cargar_datos`. */
    constructor (archivo: Archivo)
      ensures Valid()
      ensures this.archivo == archivo
      ensures Valores() == match Cargar(archivo) case Some(ds) => ds case None => []
    {
      this.productos := map[];
      this.orden := [];
      this.archivo := archivo;
      new;
      CargarDatos();
    }

    /** `guardar_datos`: the file now holds every product's dictionary, in
        insertion order; the catalog is unchanged. */
    method GuardarDatos()
      requires Valid()
      modifies this`archivo
      ensures Valid() && Valores() == old(Valores())
      ensures archivo == Documento(Some(Serializar(Valores())))
    {
      archivo := Documento(Some(Serializar(Valores())));
    }

    /** The file holds the catalog: loading it back gives the current
        products, values and order. */
    lemma ArchivoReproduce()
      requires Valid() && archivo == Documento(Some(Serializar(Valores())))
      ensures Cargar(archivo) == Some(Valores())
    {
      GuardarCargar(Valores());
    }

    /** `obtener_producto`: the product stored under the id, if any. */
    function ObtenerProducto(id: string): (r: Option<Producto>)
      requires Valid()
      reads this`productos, this`orden
      ensures r.Some? <==> id in orden
      ensures r.Some? ==> r.value == productos[id] && r.value.id == id
    {
      if id in productos then Some(productos[id]) else None
    }

    /** `agregar_producto`: refused, with nothing changed and nothing saved,
        when the id is already present; otherwise the product is appended
        under its id and the catalog is saved. */
    method AgregarProducto(p: Producto) returns (ok: bool)
      requires Valid()
      modifies this`productos, this`orden, this`archivo
      ensures Valid()
      ensures ok <==> p.id !in old(productos)
      ensures !ok ==> productos == old(productos) && orden == old(orden) && archivo == old(archivo)
      ensures ok ==> productos == old(productos)[p.id := p] && orden == old(orden) + [p.id]
      ensures ok ==> Valores() == old(Valores()) + [p.Estado()]
      ensures ok ==> archivo == Documento(Some(Serializar(Valores())))
    {
      if p.id in productos {
        return false;
      }
      Anadir(p);
      GuardarDatos();
      return true;
    }

    /** `eliminar_producto`: refused, with nothing changed, when the id is
        absent; otherwise exactly that entry is removed (the others keep
        their order) and the catalog is saved. */
    method EliminarProducto(id: string) returns (ok: bool)
      requires Valid()
      modifies this`productos, this`orden, this`archivo
      ensures Valid()
      ensures ok <==> id in old(productos)
      ensures !ok ==> productos == old(productos) && orden == old(orden) && archivo == old(archivo)
      ensures ok ==> productos == old(productos) - {id} && orden == Quitar(old(orden), id)
      ensures ok ==> Valores() == SinProducto(old(Valores()), id)
      ensures ok ==> archivo == Documento(Some(Serializar(Valores())))
    {
      if id !in productos {
        return false;
      }
      Borrar(id);
      GuardarDatos();
      return true;
    }

    /** `del self.productos[id]`: the entry leaves the map and the order. */
    method Borrar(id: string)
      requires Valid()
      modifies this`productos, this`orden
      ensures Valid()
      ensures productos == old(productos) - {id} && orden == Quitar(old(orden), id)
      ensures Valores() == SinProducto(old(Valores()), id)
    {
      IndexadoEstados(productos, orden);
      EnOrdenQuitar(Estados(productos), orden, id);
      EstadosQuitar(productos, id);
      CoherenteQuitar(productos, orden, id);
      productos, orden := productos - {id}, Quitar(orden, id);
      EstadosSinCambio(productos);
    }

    /** `actualizar_stock`: refused, with nothing changed, when the id is
        absent; otherwise exactly that product's quantity (and timestamp)
        changes, at its place in the order, and the catalog is saved. */
    method ActualizarStock(id: string, nuevaCantidad: int, ahora: Instante) returns (ok: bool)
      requires Valid()
      modifies this`archivo, productos.Values
      ensures Valid()
      ensures ok <==> id in productos
      ensures !ok ==> archivo == old(archivo) && Valores() == old(Valores())
      ensures ok ==> Valores() == old(Valores())[Posicion(orden, id) :=
        old(Valores())[Posicion(orden, id)].(cantidad := nuevaCantidad, fechaActualizacion := ahora)]
      ensures ok ==> archivo == Documento(Some(Serializar(Valores())))
    {
      var producto := ObtenerProducto(id);
      if producto.None? {
        return false;
      }
      CambiarStock(producto.value, nuevaCantidad, ahora);
      GuardarDatos();
      return true;
    }

    /** `producto.actualizar_stock(n)` on a product of the catalog, seen from
        the catalog: its values change at that product's position only. */
    method CambiarStock(p: Producto, nuevaCantidad: int, ahora: Instante)
      requires Valid() && p.id in productos && productos[p.id] == p
      modifies p
      ensures Valid()
      ensures Valores() == old(Valores())[Posicion(orden, p.id) :=
        old(Valores())[Posicion(orden, p.id)].(cantidad := nuevaCantidad, fechaActualizacion := ahora)]
    {
      ghost var c0 := Estados(productos);
      IndexadoEstados(productos, orden);
      ObjetosDistintos(productos, orden, p.id);
      p.ActualizarStock(nuevaCantidad, ahora);
      EstadosCambiaUno(productos, c0, p.id);
      EnOrdenCambiaUno(c0, orden, p.id, p.Estado());
    }

    /** `actualizar_precio`: refused, with nothing changed, when the id is
        absent; otherwise exactly that product's price (and timestamp)
        changes, at its place in the order, and the catalog is saved. */
    method ActualizarPrecio(id: string, nuevoPrecio: real, ahora: Instante) returns (ok: bool)
      requires Valid()
      modifies this`archivo, productos.Values
      ensures Valid()
      ensures ok <==> id in productos
      ensures !ok ==> archivo == old(archivo) && Valores() == old(Valores())
      ensures ok ==> Valores() == old(Valores())[Posicion(orden, id) :=
        old(Valores())[Posicion(orden, id)].(precio := nuevoPrecio, fechaActualizacion := ahora)]
      ensures ok ==> archivo == Documento(Some(Serializar(Valores())))
    {
      var producto := ObtenerProducto(id);
      if producto.None? {
        return false;
      }
      CambiarPrecio(producto.value, nuevoPrecio, ahora);
      GuardarDatos();
      return true;
    }

    /** `producto.actualizar_precio(x)` on a product of the catalog, seen
        from the catalog: its values change at that product's position only. */
    method CambiarPrecio(p: Producto, nuevoPrecio: real, ahora: Instante)
      requires Valid() && p.id in productos && productos[p.id] == p
      modifies p
      ensures Valid()
      ensures Valores() == old(Valores())[Posicion(orden, p.id) :=
        old(Valores())[Posicion(orden, p.id)].(precio := nuevoPrecio, fechaActualizacion := ahora)]
    {
      ghost var c0 := Estados(productos);
      IndexadoEstados(productos, orden);
      ObjetosDistintos(productos, orden, p.id);
      p.ActualizarPrecio(nuevoPrecio, ahora);
      EstadosCambiaUno(productos, c0, p.id);
      EnOrdenCambiaUno(c0, orden, p.id, p.Estado());
    }

    /** `nombre.lower() in producto.nombre.lower()` (ASCII case folding). */
    static predicate NombreCoincide(p: Producto, consulta: string) {
      Contiene(Minusculas(p.nombre), Minusculas(consulta))
    }

    /** `categoria.lower() in producto.categoria.lower()`. */
    static predicate CategoriaCoincide(p: Producto, consulta: string) {
      Contiene(Minusculas(p.categoria), Minusculas(consulta))
    }

    /** The objects in insertion order carry the catalog's values. */
    lemma TodosSonValores()
      requires Valid()
      ensures |ObtenerTodosProductos()| == |Valores()|
      ensures forall j :: 0 <= j < |Valores()| ==> ObtenerTodosProductos()[j].Estado() == Valores()[j]
    {
    }

    /** Every product of the dictionary is among `obtener_todos_productos`. */
    lemma TodosContiene()
      requires Valid()
      ensures forall k :: k in productos ==> productos[k] in ObtenerTodosProductos()
    {
      var todos := ObtenerTodosProductos();
      forall k | k in productos ensures productos[k] in todos {
        assert todos[Posicion(orden, k)] == productos[k];
      }
    }

    /** `buscar_por_nombre`: exactly the products whose name contains the
        query, ignoring case, in insertion order: a subsequence of
        `obtener_todos_productos`. */
    function BuscarPorNombre(consulta: string): (r: seq<Producto>)
      requires Valid()
      reads this`productos, this`orden
      ensures EsSubsecuencia(r, ObtenerTodosProductos())
      ensures SinRepetidos(r)
      ensures forall i :: 0 <= i < |r| ==> r[i] in productos.Values && NombreCoincide(r[i], consulta)
      ensures forall k :: k in productos && NombreCoincide(productos[k], consulta) ==> productos[k] in r
    {
      var todos := ObtenerTodosProductos();
      var r := Filtrar(todos, p => NombreCoincide(p, consulta));
      TodosContiene();
      r
    }

    /** `buscar_por_categoria`: exactly the products whose category contains
        the query, ignoring case, in insertion order. */
    function BuscarPorCategoria(consulta: string): (r: seq<Producto>)
      requires Valid()
      reads this`productos, this`orden
      ensures EsSubsecuencia(r, ObtenerTodosProductos())
      ensures SinRepetidos(r)
      ensures forall i :: 0 <= i < |r| ==> r[i] in productos.Values && CategoriaCoincide(r[i], consulta)
      ensures forall k :: k in productos && CategoriaCoincide(productos[k], consulta) ==> productos[k] in r
    {
      var todos := ObtenerTodosProductos();
      var r := Filtrar(todos, p => CategoriaCoincide(p, consulta));
      TodosContiene();
      r
    }

    /** The name search ignores case in the query too: searching for the
        lower-cased query finds the same products. */
    lemma BuscarPorNombreIgnoraMayusculas(consulta: string)
      requires Valid()
      ensures BuscarPorNombre(consulta) == BuscarPorNombre(Minusculas(consulta))
    {
      MinusculasIdempotente(consulta);
      var todos := ObtenerTodosProductos();
      FiltrarExtensional(todos, p => NombreCoincide(p, consulta), p => NombreCoincide(p, Minusculas(consulta)));
    }

    /** The empty query matches every name: the search returns the whole
        catalog, in order. */
    lemma BuscarPorNombreVacio()
      requires Valid()
      ensures BuscarPorNombre("") == ObtenerTodosProductos()
    {
      var todos := ObtenerTodosProductos();
      forall i | 0 <= i < |todos| ensures NombreCoincide(todos[i], "") {
        ContieneVacio(Minusculas(todos[i].nombre));
      }
      FiltrarTodos(todos, p => NombreCoincide(p, ""));
    }

    /** The category search ignores case in the query too. */
    lemma BuscarPorCategoriaIgnoraMayusculas(consulta: string)
      requires Valid()
      ensures BuscarPorCategoria(consulta) == BuscarPorCategoria(Minusculas(consulta))
    {
      MinusculasIdempotente(consulta);
      var todos := ObtenerTodosProductos();
      FiltrarExtensional(todos, p => CategoriaCoincide(p, consulta), p => CategoriaCoincide(p, Minusculas(consulta)));
    }

    /** The empty query matches every category. */
    lemma BuscarPorCategoriaVacio()
      requires Valid()
      ensures BuscarPorCategoria("") == ObtenerTodosProductos()
    {
      var todos := ObtenerTodosProductos();
      forall i | 0 <= i < |todos| ensures CategoriaCoincide(todos[i], "") {
        ContieneVacio(Minusculas(todos[i].categoria));
      }
      FiltrarTodos(todos, p => CategoriaCoincide(p, ""));
    }

    /** `productos_bajo_stock(umbral)`: exactly the products whose quantity
        is strictly below the threshold, in insertion order. */
    function ProductosBajoStock(umbral: int := 10): (r: seq<Producto>)
      requires Valid()
      reads this`productos, this`orden, productos.Values
      ensures EsSubsecuencia(r, ObtenerTodosProductos())
      ensures forall i :: 0 <= i < |r| ==> r[i] in productos.Values && r[i].cantidad < umbral
      ensures forall k :: k in productos && productos[k].cantidad < umbral ==> productos[k] in r
    {
      var todos := ObtenerTodosProductos();
      var c := Contenido();
      var r := Filtrar(todos, (p: Producto) => p.id in c && c[p.id].cantidad < umbral);
      TodosContiene();
      r
    }

    /** `calcular_valor_total_inventario` (and its two duplicates): the sum of
        every product's stock value. */
    function ValorTotalInventario(): (r: real)
      requires Valid()
      reads this`productos, this`orden, productos.Values
      ensures orden == [] ==> r == 0.0
    {
      ValorInventario(Valores())
    }

    /** `obtener_producto_mas_caro`: None exactly for an empty catalog;
        otherwise a product at some position whose price is at least every
        other price and strictly above the prices before it (the first of
        the most expensive, as `max` returns). */
    function ObtenerProductoMasCaro(): (r: Option<Producto>)
      requires Valid()
      reads this`productos, this`orden, productos.Values
      ensures r.None? <==> |productos| == 0
      ensures r.Some? ==>
        exists i :: 0 <= i < |orden| && r.value == productos[orden[i]] && EsPrimerMaximo(Precios(Valores()), i)
    {
      CantidadEsLongitud(productos, orden);
      if orden == [] then None
      else
        var ds := Valores();
        var i := PrimerMaximo(Precios(ds));
        Some(productos[orden[i]])
    }

    /** `obtener_producto_mas_barato`: None exactly for an empty catalog;
        otherwise the first of the cheapest products. */
    function ObtenerProductoMasBarato(): (r: Option<Producto>)
      requires Valid()
      reads this`productos, this`orden, productos.Values
      ensures r.None? <==> |productos| == 0
      ensures r.Some? ==>
        exists i :: 0 <= i < |orden| && r.value == productos[orden[i]] && EsPrimerMinimo(Precios(Valores()), i)
    {
      CantidadEsLongitud(productos, orden);
      if orden == [] then None
      else
        var ds := Valores();
        var i := PrimerMinimo(Precios(ds));
        Some(productos[orden[i]])
    }

    /** `len(self.productos)`, which the four counters
        `obtener_total_productos_version1`/`_version2`, `get_cantidad_productos`
        and `contar_productos_inventario` all return: also the length of the
        insertion order. */
    function CantidadProductos(): (n: nat)
      requires Valid()
      reads this`productos, this`orden
      ensures n == |orden|
      ensures n == 0 <==> productos == map[]
    {
      CantidadEsLongitud(productos, orden);
      |productos|
    }

    /** `calcular_promedio_precios_por_categoria`: one entry per category
        present, the mean of that category's prices (never over an empty
        group). The catalog is not changed. */
    method CalcularPromedioPreciosPorCategoria() returns (promedios: map<string, real>)
      requires Valid()
      ensures promedios.Keys == Categorias(Valores())
      ensures forall c :: c in promedios ==>
        (|PreciosDeCategoria(Valores(), c)| > 0 && promedios[c] == Media(PreciosDeCategoria(Valores(), c)))
    {
      ghost var ds := Valores();
      var categorias := AgruparPrecios();
      assert Agrupado(categorias, ds);
      forall c | c in categorias ensures |categorias[c]| > 0 {
        PreciosDeCategoriaNoVacios(ds, c);
      }
      promedios := Promediar(categorias);
    }

    /** The first loop of `calcular_promedio_precios_por_categoria`: the
        prices of each category, in insertion order. */
    method AgruparPrecios() returns (categorias: map<string, seq<real>>)
      requires Valid()
      ensures Agrupado(categorias, Valores())
    {
      var todos := ObtenerTodosProductos();
      TodosSonValores();
      categorias := AgruparObjetos(todos, Valores());
    }

    /** The grouping loop over the product objects `todos`, whose values
        are `ds`. */
    static method AgruparObjetos(todos: seq<Producto>, ghost ds: seq<Datos>) returns (categorias: map<string, seq<real>>)
      requires |todos| == |ds| && forall j :: 0 <= j < |ds| ==> todos[j].Estado() == ds[j]
      ensures Agrupado(categorias, ds)
    {
      categorias := map[];
      var i := 0;
      while i < |todos|
        invariant 0 <= i <= |todos|
        invariant Agrupado(categorias, ds[..i])
      {
        var producto := todos[i];
        var categoria, precio := producto.categoria, producto.precio;
        assert ds[i] == producto.Estado();
        AgruparUno(categorias, ds, i);
        // a category seen for the first time starts with an empty list
        var previos := if categoria in categorias then categorias[categoria] else [];
        categorias := categorias[categoria := previos + [precio]];
        i := i + 1;
      }
      assert ds[..|todos|] == ds;
    }

    /** The second loop: `sum(precios) / len(precios)` for each category. */
    static method Promediar(categorias: map<string, seq<real>>) returns (promedios: map<string, real>)
      requires forall c :: c in categorias ==> |categorias[c]| > 0
      ensures promedios.Keys == categorias.Keys
      ensures forall c :: c in promedios ==> promedios[c] == Media(categorias[c])
    {
      promedios := map[];
      var pendientes := categorias.Keys;
      while pendientes != {}
        invariant pendientes <= categorias.Keys
        invariant promedios.Keys == categorias.Keys - pendientes
        invariant forall c :: c in promedios ==> promedios[c] == Media(categorias[c])
        decreases pendientes
      {
        var c :| c in pendientes;
        promedios := promedios[c := Suma(categorias[c]) / |categorias[c]| as real];
        pendientes := pendientes - {c};
      }
    }

    /** `self.productos[p.id] = p`: a new id is appended to the order, a known
        id keeps its place and takes the new object. */
    method Asignar(p: Producto)
      requires Valid()
      modifies this`productos, this`orden
      ensures Valid()
      ensures productos == old(productos)[p.id := p]
      ensures orden == if p.id in old(productos) then old(orden) else old(orden) + [p.id]
      ensures Valores() == Insertar(old(Valores()), p.Estado())
    {
      if p.id in productos {
        Reemplazar(p);
      } else {
        Anadir(p);
      }
    }

    /** `self.productos[p.id] = p` for an id not in the catalog. */
    method Anadir(p: Producto)
      requires Valid() && p.id !in productos
      modifies this`productos, this`orden
      ensures Valid()
      ensures productos == old(productos)[p.id := p] && orden == old(orden) + [p.id]
      ensures Valores() == old(Valores()) + [p.Estado()]
      ensures Valores() == Insertar(old(Valores()), p.Estado())
    {
      ghost var ds0 := Valores();
      IndexadoEstados(productos, orden);
      InsertarEnOrdenNuevo(Estados(productos), orden, p.Estado());
      EstadosAsignar(productos, p);
      CoherenteAsignar(productos, orden, p);
      ghost var c1 := Estados(productos[p.id := p]);
      assert EnOrden(c1, orden + [p.id]) == ds0 + [p.Estado()];
      productos, orden := productos[p.id := p], orden + [p.id];
      EstadosSinCambio(productos);
    }

    /** `self.productos[p.id] = p` for an id already in the catalog. */
    method Reemplazar(p: Producto)
      requires Valid() && p.id in productos
      modifies this`productos
      ensures Valid()
      ensures productos == old(productos)[p.id := p]
      ensures Valores() == Insertar(old(Valores()), p.Estado())
    {
      ghost var ds0 := Valores();
      IndexadoEstados(productos, orden);
      InsertarEnOrdenExistente(Estados(productos), orden, p.Estado());
      EstadosAsignar(productos, p);
      CoherenteAsignar(productos, orden, p);
      ghost var c1 := Estados(productos[p.id := p]);
      assert EnOrden(c1, orden) == Insertar(ds0, p.Estado());
      productos := productos[p.id := p];
      EstadosSinCambio(productos);
    }

    /** One turn of `cargar_datos`' loop: `Producto.from_dict` on the entry,
        then `self.productos[p.id] = p`; a failing entry changes nothing. */
    method LeerEntrada(m: Dict) returns (r: Result<Producto, ErrorDict>)
      requires Valid()
      modifies this`productos, this`orden
      ensures Valid()
      ensures r.Ok? <==> DictADatos(m).Ok?
      ensures r.Err? ==> productos == old(productos) && orden == old(orden)
      ensures r.Ok? ==> fresh(r.value) && r.value.Estado() == DictADatos(m).value
      ensures r.Ok? ==> productos == old(productos)[r.value.id := r.value]
      ensures r.Ok? ==> Valores() == Insertar(old(Valores()), r.value.Estado())
    {
      ghost var m0 := productos;
      r := Producto.FromDict(m);
      if r.Ok? {
        EstadosSinCambio(m0);
        Asignar(r.value);
      }
    }

    /** `cargar_datos`: with no file the catalog is left as it is; otherwise
        it is rebuilt from the file (entry by entry, a repeated id taking the
        later values) or emptied when the file cannot be decoded or an entry
        fails `from_dict`. The file is not written. */
    method CargarDatos()
      requires Valid()
      modifies this
      ensures Valid()
      ensures archivo == old(archivo)
      ensures Cargar(archivo).None? ==> productos == old(productos) && orden == old(orden)
      ensures Cargar(archivo).Some? ==> Valores() == Cargar(archivo).value
      ensures Cargar(archivo).Some? ==> forall k :: k in productos ==> fresh(productos[k])
    {
      if archivo.Ausente? {
        return;
      }
      productos := map[];
      orden := [];
      if archivo.Ilegible? {
        return;
      }
      var lista := if archivo.productos.Some? then archivo.productos.value else [];
      CargarEntradas(lista);
    }

    /** The loop of `cargar_datos` over the file's entries, from an empty
        catalog: the entries loaded in turn, or the empty catalog when one of
        them fails `from_dict`. */
    method CargarEntradas(lista: seq<Dict>)
      requires Valid() && productos == map[] && orden == []
      modifies this`productos, this`orden
      ensures Valid()
      ensures CargarLista(lista).Ok? ==> Valores() == CargarLista(lista).value
      ensures CargarLista(lista).Err? ==> productos == map[] && orden == []
      ensures forall k :: k in productos ==> fresh(productos[k])
    {
      var i := 0;
      ghost var cargados: seq<Datos> := [];
      assert CargarLista(lista[..0]) == Ok([]) by {
        assert lista[..0] == [];
      }
      while i < |lista|
        invariant 0 <= i <= |lista|
        invariant Valid()
        invariant CargarLista(lista[..i]) == Ok(cargados)
        invariant Valores() == cargados
        invariant forall k :: k in productos ==> fresh(productos[k])
      {
        var leido := LeerEntrada(lista[i]);
        if leido.Err? {
          // the exception leaves the loop; the handler empties the catalog
          productos := map[];
          orden := [];
          assert DictADatos(lista[i]).Err?;
          CargarListaFallaSii(lista);
          return;
        }
        var p := leido.value;
        assert DictADatos(lista[i]) == Ok(p.Estado());
        CargarListaPaso(lista, i);
        cargados := Insertar(cargados, p.Estado());
        i := i + 1;
      }
      assert lista[..|lista|] == lista;
    }
  }
}
