/** One product of the inventory (`producto.py`): its observable state, the
    dictionary form written to and read from the JSON file, and the
    `Producto` object whose stock and price are updated in place. */
module ProductoModelo {
  import opened Wrappers

  /** A timestamp, represented by its ISO-8601 text (what `isoformat` writes
      and `fromisoformat` reads). The clock is not modelled: every operation
      that stamps a time receives it as the parameter `ahora`. */
  type Instante = string

  /** A JSON scalar as it appears in a product dictionary. */
  datatype Valor = Texto(s: string) | Numero(r: real) | Entero(n: int)

  /** A product dictionary: the output of `to_dict`, the input of `from_dict`. */
  type Dict = map<string, Valor>

  /** The six keys of a product dictionary, in the order `from_dict` reads them. */
  const CLAVES: seq<string> := ["id", "nombre", "categoria", "precio", "cantidad", "fecha_actualizacion"]

  /** The observable state of a product: its six attributes. */
  datatype Datos = Datos(
    id: string,
    nombre: string,
    categoria: string,
    precio: real,
    cantidad: int,
    fechaActualizacion: Instante)

  /** Value of a product's stock: price times quantity. */
  function ValorTotal(d: Datos): real {
    d.precio * d.cantidad as real
  }

  /** Why `from_dict` rejects a dictionary: a missing key (Python's
      `KeyError`) or a value of the wrong JSON type. */
  datatype ErrorDict = ClaveFaltante(clave: string) | TipoInvalido(clave: string)

  /** The JSON types `from_dict` accepts under each key: a number for the
      price, an integer for the quantity, text for the rest. */
  predicate TipoAdmitido(clave: string, v: Valor) {
    if clave == "precio" then v.Numero? || v.Entero?
    else if clave == "cantidad" then v.Entero?
    else v.Texto?
  }

  /** `to_dict` on a product's state. */
  function DatosADict(d: Datos): (m: Dict)
    ensures m.Keys == set k | k in CLAVES
    ensures forall k :: k in m ==> TipoAdmitido(k, m[k])
  {
    map[
      "id" := Texto(d.id),
      "nombre" := Texto(d.nombre),
      "categoria" := Texto(d.categoria),
      "precio" := Numero(d.precio),
      "cantidad" := Entero(d.cantidad),
      "fecha_actualizacion" := Texto(d.fechaActualizacion)]
  }

  function LeerTexto(m: Dict, clave: string): Result<string, ErrorDict> {
    if clave !in m then Err(ClaveFaltante(clave))
    else if m[clave].Texto? then Ok(m[clave].s)
    else Err(TipoInvalido(clave))
  }

  function LeerPrecio(m: Dict): Result<real, ErrorDict> {
    if "precio" !in m then Err(ClaveFaltante("precio"))
    else match m["precio"]
      case Numero(r) => Ok(r)
      case Entero(n) => Ok(n as real)
      case Texto(_) => Err(TipoInvalido("precio"))
  }

  function LeerEntero(m: Dict, clave: string): Result<int, ErrorDict> {
    if clave !in m then Err(ClaveFaltante(clave))
    else if m[clave].Entero? then Ok(m[clave].n)
    else Err(TipoInvalido(clave))
  }

  /** The number a JSON value denotes, if it is one. */
  function ComoReal(v: Valor): Option<real> {
    match v
    case Numero(r) => Some(r)
    case Entero(n) => Some(n as real)
    case Texto(_) => None
  }

  /** `from_dict`'s reading of a dictionary: the keys are read in the order of
      CLAVES and the first one missing (or ill-typed) is the error. */
  function DictADatos(m: Dict): (r: Result<Datos, ErrorDict>)
    ensures r.Ok? ==> forall k :: k in CLAVES ==> k in m
    ensures r.Err? && r.error.ClaveFaltante? ==> r.error.clave in CLAVES && r.error.clave !in m
  {
    var id :- LeerTexto(m, "id");
    var nombre :- LeerTexto(m, "nombre");
    var categoria :- LeerTexto(m, "categoria");
    var precio :- LeerPrecio(m);
    var cantidad :- LeerEntero(m, "cantidad");
    var fecha :- LeerTexto(m, "fecha_actualizacion");
    Ok(Datos(id, nombre, categoria, precio, cantidad, fecha))
  }

  /** `from_dict` succeeds exactly when all six keys are present with
      admitted types; a reported missing key is one of the six and is indeed
      missing. */
  lemma DictADatosSii(m: Dict)
    ensures DictADatos(m).Ok? <==> forall k :: k in CLAVES ==> k in m && TipoAdmitido(k, m[k])
    ensures DictADatos(m).Err? && DictADatos(m).error.ClaveFaltante? ==>
      DictADatos(m).error.clave in CLAVES && DictADatos(m).error.clave !in m
  {
  }

  /** On success every attribute is the one stored in the dictionary, the
      timestamp included (not the current time). */
  lemma DictADatosCampos(m: Dict)
    requires DictADatos(m).Ok?
    ensures var d := DictADatos(m).value;
      && m["id"] == Texto(d.id)
      && m["nombre"] == Texto(d.nombre)
      && m["categoria"] == Texto(d.categoria)
      && ComoReal(m["precio"]) == Some(d.precio)
      && m["cantidad"] == Entero(d.cantidad)
      && m["fecha_actualizacion"] == Texto(d.fechaActualizacion)
  {
  }

  /** Round trip: reading back what `to_dict` wrote gives the same six
      attributes, the stored timestamp included. */
  lemma RoundTripDict(d: Datos)
    ensures DictADatos(DatosADict(d)) == Ok(d)
  {
  }

  /** Any of the six keys missing makes `from_dict` fail with that kind of
      error. */
  lemma ClaveFaltanteFalla(m: Dict, k: string)
    requires k in CLAVES && k !in m
    ensures DictADatos(m).Err?
  {
    DictADatosSii(m);
  }

  /** A fraction between 0 and 1 of a non-negative amount lies between
      nothing and the whole amount. */
  lemma FraccionAcotada(x: real, f: real)
    requires 0.0 <= f <= 1.0
    ensures x >= 0.0 ==> 0.0 <= x * f <= x
  {
    if x >= 0.0 {
      assert x - x * f == x * (1.0 - f);
      assert x * (1.0 - f) >= 0.0;
      assert x * f >= 0.0;
    }
  }

  /** The error `calcular_descuento_seguro` raises (Python's `ValueError`). */
  datatype ErrorValor = PorcentajeFueraDeRango

  /** What `procesar_datos_producto_optimizado` returns (the
      `fecha_procesamiento` entry, a reading of the clock, is not modelled). */
  datatype Procesado = Procesado(productoId: string, valorTotal: real, parametrosAplicados: Dict)

  class Producto {
    const id: string
    const nombre: string
    const categoria: string
    var precio: real
    var cantidad: int
    var fechaActualizacion: Instante

    /** The product's six attributes as a value. */
    function Estado(): Datos
      reads this
    {
      Datos(id, nombre, categoria, precio, cantidad, fechaActualizacion)
    }

    /** `Producto(id, nombre, categoria, precio, cantidad)`, stamped `ahora`. */
    constructor (id: string, nombre: string, categoria: string, precio: real, cantidad: int, ahora: Instante)
      ensures Estado() == Datos(id, nombre, categoria, precio, cantidad, ahora)
    {
      this.id := id;
      this.nombre := nombre;
      this.categoria := categoria;
      this.precio := precio;
      this.cantidad := cantidad;
      this.fechaActualizacion := ahora;
    }

    /** `actualizar_stock`: replaces the quantity and re-stamps the product;
        nothing else changes. Any integer is accepted. */
    method ActualizarStock(nuevaCantidad: int, ahora: Instante)
      modifies this
      ensures Estado() == old(Estado()).(cantidad := nuevaCantidad, fechaActualizacion := ahora)
    {
      cantidad := nuevaCantidad;
      fechaActualizacion := ahora;
    }

    /** `actualizar_precio`: replaces the price and re-stamps the product;
        nothing else changes. Any number is accepted. */
    method ActualizarPrecio(nuevoPrecio: real, ahora: Instante)
      modifies this
      ensures Estado() == old(Estado()).(precio := nuevoPrecio, fechaActualizacion := ahora)
    {
      precio := nuevoPrecio;
      fechaActualizacion := ahora;
    }

    /** `calcular_valor_total`: the value of the stock, zero when the stock is
        zero and never negative for a non-negative price and quantity. */
    function CalcularValorTotal(): (r: real)
      reads this
      ensures r == ValorTotal(Estado())
      ensures cantidad == 0 ==> r == 0.0
      ensures precio >= 0.0 && cantidad >= 0 ==> r >= 0.0
    {
      precio * cantidad as real
    }

    /** `to_dict`: a dictionary with exactly the six keys, from which
        `from_dict` recovers exactly this product's state. */
    function ToDict(): (m: Dict)
      reads this
      ensures m.Keys == set k | k in CLAVES
      ensures DictADatos(m) == Ok(Estado())
    {
      RoundTripDict(Estado());
      DatosADict(Estado())
    }

    /** `from_dict`: a new product with the dictionary's six attributes (the
        stored timestamp, not the current time), or the error of the first
        missing or ill-typed key. */
    static method FromDict(m: Dict) returns (r: Result<Producto, ErrorDict>)
      ensures r.Ok? <==> DictADatos(m).Ok?
      ensures r.Ok? ==> fresh(r.value) && r.value.Estado() == DictADatos(m).value
      ensures r.Err? ==> r.error == DictADatos(m).error
    {
      var datos := DictADatos(m);
      if datos.Err? {
        return Err(datos.error);
      }
      var d := datos.value;
      var p := new Producto(d.id, d.nombre, d.categoria, d.precio, d.cantidad, d.fechaActualizacion);
      return Ok(p);
    }

    /** `calcular_descuento_seguro`: fails exactly when the percentage lies
        outside [0, 100]; otherwise the price minus that percentage of it (the
        full price at 0, nothing at 100, between the two for a non-negative
        price). The product is not changed. */
    function CalcularDescuentoSeguro(porcentaje: real): (r: Result<real, ErrorValor>)
      reads this
      ensures r.Err? <==> porcentaje < 0.0 || porcentaje > 100.0
      ensures r.Ok? ==> r.value == precio - precio * porcentaje / 100.0
      ensures porcentaje == 0.0 ==> r == Ok(precio)
      ensures porcentaje == 100.0 ==> r == Ok(0.0)
      ensures r.Ok? && precio >= 0.0 ==> 0.0 <= r.value <= precio
    {
      if !(0.0 <= porcentaje <= 100.0) then Err(PorcentajeFueraDeRango)
      else
        var factorDescuento := (100.0 - porcentaje) / 100.0;
        assert precio * factorDescuento == precio - precio * porcentaje / 100.0;
        FraccionAcotada(precio, factorDescuento);
        Ok(precio * factorDescuento)
    }

    /** `procesar_datos_producto_optimizado`: the product's id, the value of
        its stock and the parameters, handed back unchanged. */
    function ProcesarDatosProducto(parametros: Dict): (r: Procesado)
      reads this
      ensures r.productoId == id
      ensures r.valorTotal == ValorTotal(Estado())
      ensures r.parametrosAplicados == parametros
    {
      Procesado(id, CalcularValorTotal(), parametros)
    }
  }
}
