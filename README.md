# QA_InventoryManagement — a verified model of the inventory core

This project models, in Dafny, the core of a small Python inventory system:

- **Products** (`producto.py`). A product has an id, a name, a category, a price, a quantity and the time of its last update. Updating the stock or the price overwrites that field in place and re-stamps the product. A product converts to and from the dictionary stored in the JSON file. It also computes its stock value and a discounted price that is checked against the valid range.
- **The catalog** (`inventario.py`). This is an insertion-ordered dictionary from product id to product object. It offers add, remove, lookup, stock and price updates, case-insensitive search by name and category, the low-stock list, the total value, the most expensive and cheapest products, and average prices per category. After every successful change the whole catalog is written to its JSON file. On start-up the catalog is rebuilt from that file.
- **The security configuration** (`config_seguridad.py`). This covers the settings table, the input validator, the input sanitiser (control characters removed, text truncated, ordered HTML escaping), and salted hashing with its verification.
- **The security audit's bookkeeping** (`security_audit.py`). This covers the findings the pattern detectors append, the line number each finding reports, the permission test on sensitive files, and the severity summary and recommendations of the report.

The models are organised by source file:

| Dafny file | Module | Source file |
|---|---|---|
| `producto.dfy` | `ProductoModelo` | `producto.py` |
| `inventario.dfy` | `InventarioModelo` | `inventario.py` |
| `config_seguridad.dfy` | `ConfigSeguridad` | `config_seguridad.py` |
| `security_audit.dfy` | `AuditoriaSeguridad` | `security_audit.py` |

`wrappers.dfy`, `secuencias.dfy` and `cadenas.dfy` hold shared helpers:

- Option and Result;
- filtering in order, subsequences and counts;
- ASCII lower-casing, substring search and `str.split`.

How each part is modelled:

- **Mutable objects are classes.**
  - `Producto` has `var` fields for price, quantity and timestamp.
  - `Inventario` holds a map from id to `Producto` object, the ids in insertion order and the content of its backing file.
  - `Auditor` holds the three lists it appends to or replaces.

  Every state-changing method states the whole new state. Each `Inventario` operation is tied to `Valores()`, the products' states in insertion order, and the catalog's properties are proved on that value.
- **The system clock is a parameter.** The current time is the argument `ahora`, and a timestamp is its ISO text.
- **The hash is a parameter.** It is any function into hexadecimal text.
- **Regular-expression matches are given.** Each detector receives the start offset and matched text of every match it would iterate over.
- **File modes are given.** They are an input of the permission check.

## Model

| member | source | states |
|---|---|---|
| ProductoModelo.Producto.constructor | producto.py:17-33 | the new product has exactly the given attributes and is stamped with the given time |
| ProductoModelo.Producto.ActualizarStock | producto.py:35-43 | the quantity becomes the new one, the timestamp becomes `ahora`, nothing else changes |
| ProductoModelo.Producto.ActualizarPrecio | producto.py:45-53 | the price becomes the new one, the timestamp becomes `ahora`, nothing else changes |
| ProductoModelo.Producto.CalcularValorTotal | producto.py:55-62 | price times quantity: zero for an empty stock, never negative for a non-negative price and quantity |
| ProductoModelo.DatosADict | producto.py:65-79 | the dictionary has exactly the six keys, each holding a value of the JSON type that `from_dict` reads back |
| ProductoModelo.Producto.ToDict | producto.py:65-79 | the dictionary has the six keys, and `from_dict` reads back exactly this product's state |
| ProductoModelo.RoundTripDict | producto.py:65-100 | `from_dict(to_dict(d))` gives back `d`, the stored timestamp included |
| ProductoModelo.DictADatos | producto.py:92-99 | a successful read found all six keys; a reported missing key is one of the six and really is missing |
| ProductoModelo.DictADatosSii | producto.py:81-100 | reading a dictionary succeeds exactly when all six keys are present with admitted types; a reported missing key really is missing |
| ProductoModelo.DictADatosCampos | producto.py:92-99 | on success every attribute is the one stored under its key, and the timestamp is the stored one rather than the current time |
| ProductoModelo.ClaveFaltanteFalla | producto.py:92-99 | a dictionary missing any of the six keys is rejected |
| ProductoModelo.Producto.FromDict | producto.py:81-100 | it returns a fresh product whose state is the dictionary's, or the error of the first missing or ill-typed key |
| ProductoModelo.Producto.CalcularDescuentoSeguro | producto.py:122-139 | it fails exactly outside [0, 100]; otherwise it gives price minus that percentage: the full price at 0, zero at 100, and within [0, price] for a non-negative price |
| ProductoModelo.Producto.ProcesarDatosProducto | producto.py:141-163 | the result holds the product's id, its stock value and the parameters unchanged |
| InventarioModelo.Inventario.constructor | inventario.py:16-25 | the catalog starts empty and is then loaded from its file; without a file it stays empty |
| InventarioModelo.Inventario.Valores | inventario.py:142-149 | one state per entry, in insertion order, with no id repeated |
| InventarioModelo.Inventario.ObtenerTodosProductos | inventario.py:142-149 | every product object in insertion order, each once, under its own id |
| InventarioModelo.Inventario.AgregarProducto | inventario.py:30-45 | refused with nothing changed exactly when the id is present; otherwise the product is appended at the end and the file holds the new catalog |
| InventarioModelo.Inventario.EliminarProducto | inventario.py:47-62 | refused with nothing changed exactly when the id is absent; otherwise only that entry goes, the rest keep their order, and the file is saved |
| InventarioModelo.Inventario.Borrar | inventario.py:60 | `del` removes the entry from the map and from the order; the remaining states are the old ones minus that product |
| InventarioModelo.Inventario.ObtenerProducto | inventario.py:64-74 | it returns the stored object exactly when the id is present, and None otherwise |
| InventarioModelo.Inventario.ActualizarStock | inventario.py:76-93 | refused with nothing changed exactly when the id is absent; otherwise only that product's quantity and timestamp change, at its place in the order, and the file is saved |
| InventarioModelo.Inventario.CambiarStock | inventario.py:91 | the update through the stored object changes only that product's state inside the catalog |
| InventarioModelo.Inventario.ActualizarPrecio | inventario.py:95-112 | like the stock update, for the price |
| InventarioModelo.Inventario.CambiarPrecio | inventario.py:110 | the update through the stored object changes only that product's price and timestamp inside the catalog |
| InventarioModelo.Inventario.BuscarPorNombre | inventario.py:114-126 | exactly the products whose lower-cased name contains the lower-cased query, in insertion order, with no repeats |
| InventarioModelo.Inventario.BuscarPorNombreIgnoraMayusculas | inventario.py:124-126 | searching for the lower-cased query gives the same result |
| InventarioModelo.Inventario.BuscarPorNombreVacio | inventario.py:124-126 | the empty query returns the whole catalog |
| InventarioModelo.Inventario.BuscarPorCategoria | inventario.py:128-140 | exactly the products whose lower-cased category contains the lower-cased query, in insertion order |
| InventarioModelo.Inventario.BuscarPorCategoriaIgnoraMayusculas | inventario.py:138-140 | searching for the lower-cased query gives the same result |
| InventarioModelo.Inventario.BuscarPorCategoriaVacio | inventario.py:138-140 | the empty query returns the whole catalog |
| InventarioModelo.Inventario.ProductosBajoStock | inventario.py:151-162 | exactly the products whose quantity is strictly below the threshold (10 when none is given), in insertion order |
| InventarioModelo.Inventario.ValorTotalInventario | inventario.py:164-171 | zero for an empty catalog (the sum itself is `ValorInventario`) |
| InventarioModelo.ValorInventarioConcat | inventario.py:171 | the total of two lists of products is the sum of their totals |
| InventarioModelo.ValorInventarioReemplazo | inventario.py:171 | changing one product changes the total by exactly the difference in that product's value |
| InventarioModelo.ValorInventarioNoNegativo | inventario.py:171 | with no negative price or quantity the total is not negative |
| InventarioModelo.Inventario.ObtenerProductoMasCaro | inventario.py:173-183 | None exactly for an empty catalog; otherwise the first product in insertion order whose price no other exceeds |
| InventarioModelo.Inventario.ObtenerProductoMasBarato | inventario.py:185-195 | None exactly for an empty catalog; otherwise the first product whose price no other undercuts |
| InventarioModelo.PrimerMaximo | inventario.py:183 | the index of the first maximum of a non-empty list of prices (what `max` returns) |
| InventarioModelo.PrimerMinimo | inventario.py:195 | the index of the first minimum (what `min` returns) |
| InventarioModelo.Inventario.CalcularPromedioPreciosPorCategoria | inventario.py:197-215 | one entry per category present, holding the mean of that category's prices; no group is ever empty |
| InventarioModelo.Inventario.AgruparPrecios | inventario.py:204-209 | after the first loop every category maps to its products' prices in insertion order, and absent categories have no entry |
| InventarioModelo.Inventario.AgruparObjetos | inventario.py:204-209 | the grouping loop over the product objects groups their prices by category, in order, as their states give them |
| InventarioModelo.Inventario.Promediar | inventario.py:211-213 | after the second loop every category maps to `sum / len` of its prices |
| InventarioModelo.MediaAcotada | inventario.py:213 | a mean lies between the smallest and the largest price |
| InventarioModelo.PreciosDeCategoriaNoVacios | inventario.py:206-209 | a category that gets a group has at least one price in it |
| InventarioModelo.Inventario.GuardarDatos | inventario.py:288-297 | the file holds every product's dictionary in insertion order; the catalog is unchanged |
| InventarioModelo.Inventario.ArchivoReproduce | inventario.py:288-317 | a saved catalog loads back with the same products in the same order |
| InventarioModelo.GuardarCargar | inventario.py:288-317 | writing a list of product states and loading it back gives the same list |
| InventarioModelo.CargarSerializar | inventario.py:311-313 | the load loop over written dictionaries rebuilds the list of states in order |
| InventarioModelo.CargarConLeidos | inventario.py:311-313 | when the entries read to the states of a list with distinct ids, the load loop gives exactly that list, whatever the reader |
| InventarioModelo.Inventario.CargarDatos | inventario.py:299-317 | with no file nothing changes; an undecodable file or any bad entry empties the catalog; otherwise each entry is read and stored under its id in turn |
| InventarioModelo.Inventario.CargarEntradas | inventario.py:310-317 | from an empty catalog, the loop stores every entry in turn and ends with the loaded list of states, or leaves the catalog empty when an entry fails |
| InventarioModelo.Inventario.LeerEntrada | inventario.py:312-313 | one loop step: `from_dict`, then store the product under its id; an error changes nothing |
| InventarioModelo.Inventario.Asignar | inventario.py:313 | dictionary assignment: a new id is appended to the order, and a known id keeps its place and takes the new object |
| InventarioModelo.Cargar | inventario.py:299-317 | the catalog is left as it was exactly when the file does not exist; otherwise there is a loaded catalog, empty when the file cannot be decoded or an entry fails |
| InventarioModelo.CargarListaFallaSii | inventario.py:311-317 | loading fails exactly when some entry fails `from_dict` |
| InventarioModelo.CargarTodoONada | inventario.py:311-317 | one bad entry makes the loaded catalog empty, whatever the other entries hold |
| InventarioModelo.CargarDuplicado | inventario.py:311-313 | of two entries with the same id, the later one's values win |
| InventarioModelo.Insertar | inventario.py:313 | a new id goes at the end |
| InventarioModelo.InsertarExistente | inventario.py:313 | a known id keeps its place and takes the new values, and nothing else moves |
| InventarioModelo.InsertarSinRepetidos | inventario.py:313 | inserting never repeats an id |
| InventarioModelo.Inventario.CantidadProductos | inventario.py:407-421 | the size of the catalog, zero exactly when it is empty |
| ConfigSeguridad.CargarConfiguraciones | config_seguridad.py:24-59 | the defaults table, with `max_input_length` set to the given value |
| ConfigSeguridad.ConfiguracionSeguridad.constructor | config_seguridad.py:20-39 | the settings are the loaded table, so the length limit is the given one, 1000 when none is given |
| ConfigSeguridad.ConfiguracionSeguridad.ObtenerConfiguracion | config_seguridad.py:175-186 | the stored value when the key is present, otherwise the given default, which is None when none is given |
| ConfigSeguridad.ConfiguracionSeguridad.ValidarEntradaSegura | config_seguridad.py:115-138 | true exactly when the entry is within the length limit and contains none of the eleven dangerous characters |
| ConfigSeguridad.ConfiguracionSeguridad.SanitizarEntrada | config_seguridad.py:140-173 | control characters are removed, the text is cut to the limit, the five escapes are applied in order; the result has no control character and none of `< > " '` |
| ConfigSeguridad.SinControl | config_seguridad.py:154 | only characters with code point 32 or above remain, in order; a text with none below 32 is unchanged |
| ConfigSeguridad.Cortar | config_seguridad.py:157-159 | Python's `s[:n]` for any integer `n`: for a non-negative `n` a prefix of length min(n, len) |
| ConfigSeguridad.Reemplazar | config_seguridad.py:170-171 | `replace` introduces only characters of the replacement, removes the pattern when the replacement lacks it, and is the identity when the pattern is absent |
| ConfigSeguridad.AplicarConserva | config_seguridad.py:170-171 | a character property that the input and every replacement satisfy also holds after the loop |
| ConfigSeguridad.AplicarElimina | config_seguridad.py:162-171 | a character is gone after the loop when neither its own escape nor any later one writes it back |
| ConfigSeguridad.AplicarIdentidad | config_seguridad.py:170-171 | a text with none of the table's characters passes through unchanged |
| ConfigSeguridad.Sanitizado | config_seguridad.py:154-171 | control characters removed, then the text cut to the limit, then the five escapes applied in order; its properties are the `Sanitizado*` lemmas below |
| ConfigSeguridad.SanitizadoSinControl | config_seguridad.py:154-173 | the sanitised text has no control character |
| ConfigSeguridad.SanitizadoSinEtiquetas | config_seguridad.py:162-173 | the sanitised text contains none of `<`, `>`, `"`, `'` |
| ConfigSeguridad.TruncaAntesDeEscapar | config_seguridad.py:157-171 | the text that is escaped is a prefix of the cleaned input and, for a non-negative limit, within the limit |
| ConfigSeguridad.SanitizadoLimpio | config_seguridad.py:154-171 | an input with no control characters, none of `< > " ' &`, and within the limit comes back unchanged |
| ConfigSeguridad.ValidaNoSeAltera | config_seguridad.py:129-171 | an input the validator accepts and that has no control characters is left unchanged by the sanitiser |
| ConfigSeguridad.DobleEscape | config_seguridad.py:162-171 | `<` becomes `&amp;lt;`, and with a limit of 1 the output is longer than the limit |
| ConfigSeguridad.HashSeguro | config_seguridad.py:73-94 | the digest of text plus salt, a colon, then the salt; with a colon-free salt, splitting at `:` gives back the digest and the salt |
| ConfigSeguridad.VerificarHash | config_seguridad.py:96-113 | a stored text that does not split at `:` into exactly two pieces is refused; otherwise it is accepted exactly when its first piece is the digest of the text plus the second piece, the stored salt |
| ConfigSeguridad.VerificarHashSeguro | config_seguridad.py:96-113 | a hash made with a colon-free salt verifies against its own text |
| ConfigSeguridad.VerificarOtroTexto | config_seguridad.py:96-113 | another text verifies exactly when its digest with that salt is the same |
| ConfigSeguridad.VerificarHashMalFormado | config_seguridad.py:107-113 | a stored hash without exactly one colon never verifies (the `ValueError` path) |
| ConfigSeguridad.VerificarHashSii | config_seguridad.py:96-113 | verification accepts exactly the outputs of `hash_seguro` for that text with some colon-free salt |
| Cadenas.Partes | config_seguridad.py:108 | `split` gives one more piece than there are separators, none containing the separator |
| Cadenas.UnirPartes | config_seguridad.py:108 | joining the pieces with the separator gives the text back |
| Cadenas.PartesDeDos | config_seguridad.py:108-110 | splitting `a:b` with colon-free pieces gives exactly `[a, b]` |
| Cadenas.Minusculas | inventario.py:124-126 | lower-casing keeps the length and lower-cases each character |
| Cadenas.MinusculasIdempotente | inventario.py:124-126 | lower-casing twice is lower-casing once |
| Cadenas.ContieneSiiAparece | inventario.py:126 | `q in s` holds exactly when some slice of `s` equals `q` |
| Secuencias.Filtrar | inventario.py:124-126 | a comprehension with a condition keeps exactly the elements that meet it, in order, with no new repeats |
| AuditoriaSeguridad.LineaDe | security_audit.py:102 | the reported line is 1 plus the newlines before the match, so it is at least 1 |
| AuditoriaSeguridad.LineaEsPieza | security_audit.py:102 | the line is the number of pieces the text before the match splits into at newlines |
| AuditoriaSeguridad.LineaUno | security_audit.py:118 | a match with no newline before it is on line 1 |
| AuditoriaSeguridad.LineaMonotona | security_audit.py:138 | a later match is as many lines further as there are newlines between the two |
| AuditoriaSeguridad.Auditor.constructor | security_audit.py:24-28 | the three lists start empty |
| AuditoriaSeguridad.Auditor.Buscar | security_audit.py:91-222 | a detector keeps the earlier findings and appends one finding per match, in match order |
| AuditoriaSeguridad.Hallazgos | security_audit.py:96-104 | one finding per match |
| AuditoriaSeguridad.HallazgosCampos | security_audit.py:133-140 | each appended finding has the detector's fixed type and severity, the file, the matched text and the match's line, which is at least 1 |
| AuditoriaSeguridad.PermisosInseguros | security_audit.py:279-281 | the `oct(mode)[-3:] in ['666', '777']` test; a mode below 0o100 never passes it |
| AuditoriaSeguridad.PermisosInsegurosSii | security_audit.py:279-281 | the `oct(mode)[-3:] in ['666', '777']` test holds exactly when `mode & 0o777` is 0o666 or 0o777 |
| AuditoriaSeguridad.OctalUltimo | security_audit.py:279 | the octal digits of a number are never empty and end with the digit of the number modulo 8 |
| AuditoriaSeguridad.PermisosTresDigitos | security_audit.py:279 | for a mode of at least 0o100, `oct(mode)[-3:]` is the three low octal digits of the mode |
| AuditoriaSeguridad.PermisosCortos | security_audit.py:279 | for a mode below 0o100, `oct(mode)[-3:]` begins with the `0` or `o` of the prefix, so it is never `666` or `777` |
| AuditoriaSeguridad.Auditor.VerificarPermisos | security_audit.py:269-288 | one `INSECURE_PERMISSIONS` finding per file whose permissions test insecure, appended in order after the earlier findings |
| AuditoriaSeguridad.HallazgosDeArchivo | security_audit.py:281-288 | one file gives one finding exactly when its permissions test insecure, and no finding otherwise |
| AuditoriaSeguridad.HallazgosPermisos | security_audit.py:276-288 | there are never more permission findings than files |
| AuditoriaSeguridad.HallazgosPermisosCampos | security_audit.py:282-288 | every permission finding has type `INSECURE_PERMISSIONS`, severity `MEDIA`, line 0 and no matched code |
| AuditoriaSeguridad.HallazgosPermisosVacios | security_audit.py:269-288 | there is no permission finding exactly when no file has insecure permissions |
| AuditoriaSeguridad.ContarSeveridad | security_audit.py:293-296 | a severity count never exceeds the number of findings |
| AuditoriaSeguridad.ContarSeveridadExtremos | security_audit.py:293-296 | a severity counts zero exactly when no finding has it, and counts every finding exactly when all have it |
| AuditoriaSeguridad.SumaSeveridades | security_audit.py:293-303 | the four counts add up to at most the total, and to exactly the total when every finding has one of the four severities |
| AuditoriaSeguridad.ContarConcatenar | security_audit.py:293-296 | appending findings adds their counts |
| AuditoriaSeguridad.ResumenDe | security_audit.py:302-309 | the total is the number of findings and the file count is the number of analysed files |
| AuditoriaSeguridad.UnaCritica | security_audit.py:293-303 | a single critical finding gives `criticas == 1` and zero for the other severities |
| AuditoriaSeguridad.ReporteDe | security_audit.py:301-315 | the report holds the summary, the findings, exactly the ten fixed recommendations and the analysed files |
| AuditoriaSeguridad.Auditor.GenerarRecomendaciones | security_audit.py:317-330 | the list is replaced by the ten fixed recommendations, not extended |
| AuditoriaSeguridad.Auditor.GenerarReporte | security_audit.py:290-315 | the report depends only on the findings and analysed files, which are left unchanged, so generating it twice gives the same report |

## Left out

- File I/O is not modelled: `open`, `json.dump`, `json.load` and `os.path.exists` in `inventario.py`. The backing file is the `archivo` field, which holds what the file contains; `Ausente` stands for a missing file and `Ilegible` for one `json.load` cannot decode.
- Dictionary entries in the file that are not JSON objects are not modelled. In the source they raise `TypeError`, which `cargar_datos` does not catch.
- A file whose top level is not a JSON object is not modelled, and neither is a `productos` value that is not a list. The `Archivo` type only holds a missing file, an undecodable one, or a list of dictionaries. In the source (inventario.py:311-313):
  - a top level that is not an object makes `datos.get` raise `AttributeError`, which is not caught;
  - an empty text or an empty object under `productos` gives a loop that runs zero times, so the catalog loads empty with no exception;
  - `null`, a number, or a non-empty text or object makes the iteration or `from_dict` raise `TypeError`, which is not caught.
- InventarioModelo.Inventario.CargarDatos and ProductoModelo.Producto.FromDict: the model checks JSON types strictly, where the source does not.
  - The model rejects a value of the wrong JSON type under any key with `TipoInvalido`. When the catalog loads, that empties it, the way `cargar_datos` treats a `ValueError`.
  - In the source, the constructor stores whatever value `id`, `nombre`, `categoria`, `precio` and `cantidad` hold (producto.py:92-98).
  - A non-text `fecha_actualizacion` makes `datetime.fromisoformat` raise `TypeError` (producto.py:99). `cargar_datos` does not catch that (inventario.py:315), so the source stops with the exception where the model empties the catalog.
  - The model accepts any timestamp text. `fromisoformat` raises `ValueError` on text that is not ISO-8601, which empties the catalog in the source.
- The clock is not modelled: `datetime.now()` and `isoformat`. Every time stamp is given as the `ahora` parameter. The `fecha_procesamiento` entry of `procesar_datos_producto_optimizado` is left out.
- Floating point is not modelled: prices and averages are exact reals. Rounding and `:.2f` formatting are not modelled.
- Cadenas.Minusculas: covers only ASCII `A`–`Z`, not Unicode `str.lower`.
- The string reports are left out because they only format text for display: `generar_reporte_stock_bajo`, `generar_reporte_valor_inventario`, `generar_estadisticas` (inventario.py:217-286), and `__str__`/`__repr__` (producto.py:102-120).
- Dead code is left out: `funcion_muy_larga_y_mal_nombrada_que_hace_muchas_cosas_diferentes_y_es_dificil_de_mantener` (inventario.py:339-405), and the unused locals in `__init__` (inventario.py:26-28).
- Duplicate methods are each represented by one member:
  - `calcular_valor_total_inventario_duplicado` and `_otro` (inventario.py:320-336) compute the same sum as `ValorTotalInventario`;
  - the four product counters (inventario.py:407-421) are `CantidadProductos`.
- The path of the data file is not modelled (`archivo_datos` in inventario.py): the file's content is a field of the catalog.
- Environment variables are not modelled (`os.getenv` in config_seguridad.py:31-59). `max_input_length` is a constructor parameter; every other setting has its default value. Parsing those values from text is not modelled.
- `obtener_clave_segura` and the random salt of `hash_seguro` are left out, because `secrets.token_hex` is random (config_seguridad.py:61-71, 85). `HashSeguro` always receives its salt.
- The real SHA-256 is not modelled. The digest is a function parameter whose results are hexadecimal text; collisions are neither assumed nor excluded.
- The module-level `config_seguridad` instance is left out (config_seguridad.py:189).
- The non-string branches of `validar_entrada_segura` and `sanitizar_entrada` are left out because the model is typed: inputs are always texts.
- ProductoModelo.Producto.ProcesarDatosProducto: the `TypeError` raised for an argument that is not a dictionary is left out (producto.py:152-153), because the parameter is always a `Dict`.
- AuditoriaSeguridad.ReporteDe: the report holds values, not the auditor's live lists (security_audit.py:310-312). In the source, the report shares `self.vulnerabilidades`, `self.recomendaciones` and `self.archivos_analizados`, so later appends to the auditor also show up in a report made earlier. The model's report holds the values at the time it was made.
- In `security_audit.py`, matching regular expressions with `re.finditer` is not modelled. Each detector receives its matches, concatenated in the order of its patterns.
- In `security_audit.py`, the seven `_buscar_*` methods are one `Buscar` method, parameterised by the detector. Type, severity and description come from the detector.
- In `security_audit.py`, finding files with `Path.glob`, reading them and `Path.stat` are not modelled. `VerificarPermisos` receives the sensitive files and their modes.
- The `ERROR_ANALISIS` path of `_analizar_archivo_python`, which handles a read failure, is left out.
- Auditing orchestration is left out: `ejecutar_auditoria_completa`, `_analizar_archivos_python`, `_verificar_configuraciones` (which depends only on `os.path.exists`), and `_analizar_dependencias` (which runs the `safety` tool through `subprocess`).
- Console output is left out, and so are `guardar_reporte`, which writes JSON, and `main`.
- InventarioModelo.Inventario.ValorTotalInventario: its own contract only covers the empty catalog. The sum is `ValorInventario(Valores())`, whose properties are the `ValorInventario*` lemmas.
- InventarioModelo.Inventario.Promediar: the model visits the categories in an unspecified order rather than dictionary order. The result is a map, so the order does not affect it.
