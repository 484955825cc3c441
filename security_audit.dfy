/** The bookkeeping of the security audit (`security_audit.py`): the findings
    the pattern detectors append, the line number each finding reports, the
    permission test on sensitive files, and the summary and recommendations
    of the report. Pattern matching itself is not modelled: each detector
    receives the matches (start offset and matched text) it would iterate
    over. */
module AuditoriaSeguridad {
  import opened Wrappers
  import opened Cadenas
  import opened Secuencias

  /** One finding: a dictionary with `tipo`, `archivo`, `severidad`,
      `descripcion`, `linea` and, for pattern findings, `codigo`. */
  datatype Vulnerabilidad = Vulnerabilidad(
    tipo: string,
    archivo: string,
    severidad: string,
    descripcion: string,
    linea: int,
    codigo: Option<string>)

  /** One match of a detector's pattern: where it starts and what it matched
      (`match.start()` and `match.group()`). */
  datatype Coincidencia = Coincidencia(inicio: nat, texto: string)

  /** The seven `_buscar_*` detectors. */
  datatype Detector = OsSystem | EvalExec | PathTraversal | Secretos | CriptoDebil | SqlInjection | Xss

  /** The `tipo` each detector writes. */
  function Tipo(d: Detector): string {
    match d
    case OsSystem => "COMMAND_INJECTION"
    case EvalExec => "CODE_INJECTION"
    case PathTraversal => "PATH_TRAVERSAL"
    case Secretos => "HARDCODED_SECRET"
    case CriptoDebil => "WEAK_CRYPTO"
    case SqlInjection => "SQL_INJECTION"
    case Xss => "XSS"
  }

  /** The `severidad` each detector writes. */
  function Severidad(d: Detector): string {
    match d
    case OsSystem => "CRITICA"
    case EvalExec => "CRITICA"
    case PathTraversal => "ALTA"
    case Secretos => "ALTA"
    case CriptoDebil => "MEDIA"
    case SqlInjection => "ALTA"
    case Xss => "ALTA"
  }

  /** The `descripcion` each detector writes; two of them quote the matched
      text. */
  function Descripcion(d: Detector, codigo: string): string {
    match d
    case OsSystem => "Uso inseguro de os.system() - riesgo de inyección de comandos"
    case EvalExec => "Uso de " + codigo + " - riesgo de inyección de código"
    case PathTraversal => "Posible vulnerabilidad de path traversal"
    case Secretos => "Posible secreto hardcodeado en el código"
    case CriptoDebil => "Uso de criptografía débil: " + codigo
    case SqlInjection => "Posible vulnerabilidad de SQL injection"
    case Xss => "Posible vulnerabilidad de XSS"
  }

  /** `contenido[:inicio].count('\n') + 1`: the line of the text on which
      offset `inicio` lies (Python's slice stops at the end of the text). */
  function LineaDe(contenido: string, inicio: nat): (linea: int)
    ensures linea >= 1
  {
    var antes := if inicio <= |contenido| then contenido[..inicio] else contenido;
    Apariciones(antes, '\n') + 1
  }

  /** The line number is the number of pieces the text before the match
      splits into at newlines: the match lies on that line. */
  lemma LineaEsPieza(contenido: string, inicio: nat)
    requires inicio <= |contenido|
    ensures LineaDe(contenido, inicio) == |Partes(contenido[..inicio], '\n')|
  {
  }

  /** A match without a newline before it is on line 1. */
  lemma LineaUno(contenido: string, inicio: nat)
    requires inicio <= |contenido| && '\n' !in contenido[..inicio]
    ensures LineaDe(contenido, inicio) == 1
  {
    PartesSinSeparador(contenido[..inicio], '\n');
  }

  /** A later match is never on an earlier line, and it is exactly as many
      lines further as there are newlines between the two. */
  lemma LineaMonotona(contenido: string, a: nat, b: nat)
    requires a <= b <= |contenido|
    ensures LineaDe(contenido, b) == LineaDe(contenido, a) + Apariciones(contenido[a..b], '\n')
    ensures LineaDe(contenido, a) <= LineaDe(contenido, b)
  {
    assert contenido[..b] == contenido[..a] + contenido[a..b];
    AparicionesConcatenar(contenido[..a], contenido[a..b], '\n');
  }

  /** The finding a detector appends for one match. */
  function Hallazgo(d: Detector, archivo: string, contenido: string, m: Coincidencia): Vulnerabilidad {
    Vulnerabilidad(Tipo(d), archivo, Severidad(d), Descripcion(d, m.texto), LineaDe(contenido, m.inicio), Some(m.texto))
  }

  /** The findings a detector appends for its matches: one per match, in
      match order, each with the detector's fixed type and severity, the
      match's line and the matched text. */
  function Hallazgos(d: Detector, archivo: string, contenido: string, ms: seq<Coincidencia>): (r: seq<Vulnerabilidad>)
    ensures |r| == |ms|
  {
    if ms == [] then [] else Hallazgos(d, archivo, contenido, ms[..|ms| - 1]) + [Hallazgo(d, archivo, contenido, ms[|ms| - 1])]
  }

  /** One more match is one more finding, at the end. */
  lemma HallazgosPaso(d: Detector, archivo: string, contenido: string, ms: seq<Coincidencia>, i: nat)
    requires i < |ms|
    ensures Hallazgos(d, archivo, contenido, ms[..i + 1]) == Hallazgos(d, archivo, contenido, ms[..i]) + [Hallazgo(d, archivo, contenido, ms[i])]
  {
    assert ms[..i + 1][..i] == ms[..i];
  }

  /** Each appended finding carries the detector's fixed type and
      severity, the file, the line of its match (at least 1) and the matched
      text. */
  lemma {:induction false} HallazgosCampos(d: Detector, archivo: string, contenido: string, ms: seq<Coincidencia>)
    ensures var r := Hallazgos(d, archivo, contenido, ms);
      forall i :: 0 <= i < |r| ==>
        && r[i].tipo == Tipo(d) && r[i].severidad == Severidad(d) && r[i].archivo == archivo
        && r[i].linea == LineaDe(contenido, ms[i].inicio) && r[i].linea >= 1
        && r[i].codigo == Some(ms[i].texto)
  {
    if ms != [] {
      var previas := ms[..|ms| - 1];
      HallazgosCampos(d, archivo, contenido, previas);
      assert forall i :: 0 <= i < |previas| ==> previas[i] == ms[i];
    }
  }

  /** `oct(n)` without its `0o` prefix: the base-8 digits of `n`. */
  function Octal(n: nat): string
    decreases n
  {
    if n < 8 then [DigitoOctal(n)] else Octal(n / 8) + [DigitoOctal(n % 8)]
  }

  /** `oct(n)` has at least one digit and ends with the digit of `n % 8`. */
  lemma OctalUltimo(n: nat)
    ensures var o := Octal(n); |o| >= 1 && o[|o| - 1] == DigitoOctal(n % 8)
  {
  }

  function DigitoOctal(d: nat): char
    requires d < 8
  {
    ('0' as int + d) as char
  }

  /** Python's `s[-3:]`. */
  function UltimosTres(s: string): string {
    if |s| <= 3 then s else s[|s| - 3..]
  }

  /** `oct(st_mode)[-3:]`: the permission digits `_verificar_permisos`
      compares. */
  function Permisos(modo: nat): string {
    UltimosTres("0o" + Octal(modo))
  }

  /** The test of `_verificar_permisos`: the last three octal digits read
      `666` or `777`. A mode below 0o100 never passes it, because its last
      three characters take in part of the `0o` prefix. */
  predicate PermisosInseguros(modo: nat)
    ensures PermisosInseguros(modo) ==> modo >= 64
  {
    assert modo < 64 ==> Permisos(modo)[0] == '0' || Permisos(modo)[0] == 'o' by {
      if modo < 64 {
        PermisosCortos(modo);
      }
    }
    Permisos(modo) == "666" || Permisos(modo) == "777"
  }

  /** The base-8 digits of `n` end with those of `n / 64`, then `n / 8`,
      then `n`, each taken modulo 8. */
  lemma OctalTresUltimos(n: nat)
    requires n >= 64
    ensures var o := Octal(n);
      |o| >= 3 && o[|o| - 3..] == [DigitoOctal(n / 64 % 8), DigitoOctal(n / 8 % 8), DigitoOctal(n % 8)]
  {
    assert n / 8 / 8 == n / 64;
    OctalUltimo(n / 64);
    var o1 := Octal(n / 8);
    assert Octal(n) == o1 + [DigitoOctal(n % 8)];
    assert o1 == Octal(n / 64) + [DigitoOctal(n / 8 % 8)];
  }

  /** Division by 8, 64 and 512 read off a decomposition `n == d * q + r`. */
  lemma DividirOcho(n: int, q: int, r: int)
    requires 0 <= r < 8 && n == 8 * q + r
    ensures n / 8 == q && n % 8 == r
  {
  }

  lemma DividirQuinientos(n: int, q: int, r: int)
    requires 0 <= r < 512 && n == 512 * q + r
    ensures n % 512 == r
  {
  }

  /** Writing the permission bits of `n`, `n % 512`, from its last three
      base-8 digits. */
  lemma TresDigitos(n: nat)
    ensures n % 512 == 64 * (n / 64 % 8) + 8 * (n / 8 % 8) + n % 8
  {
    var q, r := n / 64, n % 64;
    var b, c := r / 8, r % 8;
    var a, e := q % 8, q / 8;
    DividirOcho(r, b, c);
    DividirOcho(n, 8 * q + b, c);
    DividirOcho(n / 8, q, b);
    DividirOcho(q, e, a);
    DividirQuinientos(n, e, 64 * a + r);
  }

  /** From 0o100 on, the permission text is the last three base-8 digits. */
  lemma PermisosTresDigitos(modo: nat)
    requires modo >= 64
    ensures Permisos(modo) == [DigitoOctal(modo / 64 % 8), DigitoOctal(modo / 8 % 8), DigitoOctal(modo % 8)]
  {
    OctalTresUltimos(modo);
    var o := "0o" + Octal(modo);
    assert o[|o| - 3..] == Octal(modo)[|Octal(modo)| - 3..];
  }

  /** Below 0o100 the permission text still holds the `o` of the prefix, so
      it is neither `666` nor `777`. */
  lemma PermisosCortos(modo: nat)
    requires modo < 64
    ensures Permisos(modo)[0] == '0' || Permisos(modo)[0] == 'o'
  {
    OctalUltimo(modo);
    assert |Octal(modo)| <= 2;
  }

  /** A digit is `6` or `7` exactly for those values. */
  lemma DigitoSeisSiete(d: nat)
    requires d < 8
    ensures DigitoOctal(d) == '6' <==> d == 6
    ensures DigitoOctal(d) == '7' <==> d == 7
  {
  }

  /** A file is flagged exactly when its permission bits (`st_mode & 0o777`)
      are 0o666 or 0o777. */
  lemma PermisosInsegurosSii(modo: nat)
    ensures PermisosInseguros(modo) <==> modo % 512 == 438 || modo % 512 == 511
  {
    TresDigitos(modo);
    if modo >= 64 {
      PermisosTresDigitos(modo);
      DigitoSeisSiete(modo / 64 % 8);
      DigitoSeisSiete(modo / 8 % 8);
      DigitoSeisSiete(modo % 8);
    } else {
      PermisosCortos(modo);
    }
  }

  /** The finding `_verificar_permisos` appends for an insecure file. */
  function HallazgoPermisos(archivo: string, modo: nat): Vulnerabilidad {
    Vulnerabilidad("INSECURE_PERMISSIONS", archivo, "MEDIA", "Permisos inseguros: " + Permisos(modo), 0, None)
  }

  /** What one sensitive file, with its mode, contributes: its finding when
      its permissions are insecure, nothing otherwise. */
  function HallazgosDeArchivo(a: (string, nat)): (r: seq<Vulnerabilidad>)
    ensures |r| <= 1
    ensures r != [] <==> PermisosInseguros(a.1)
  {
    if PermisosInseguros(a.1) then [HallazgoPermisos(a.0, a.1)] else []
  }

  /** The findings for a list of sensitive files and their modes: each
      file's contribution, in order, so at most one per file. */
  function HallazgosPermisos(archivos: seq<(string, nat)>): (r: seq<Vulnerabilidad>)
    ensures |r| <= |archivos|
  {
    AplanarAcotado(archivos, HallazgosDeArchivo);
    Aplanar(archivos, HallazgosDeArchivo)
  }

  /** The shape of every permission finding: type `INSECURE_PERMISSIONS`,
      severity `MEDIA`, line 0 and no code excerpt. */
  predicate DePermisos(v: Vulnerabilidad) {
    v.tipo == "INSECURE_PERMISSIONS" && v.severidad == "MEDIA" && v.linea == 0 && v.codigo == None
  }

  /** Every permission finding has that shape. */
  lemma HallazgosPermisosCampos(archivos: seq<(string, nat)>)
    ensures var r := HallazgosPermisos(archivos); forall i :: 0 <= i < |r| ==> DePermisos(r[i])
  {
    AplanarTodos(archivos, HallazgosDeArchivo, DePermisos);
  }

  /** There is no permission finding exactly when no file has insecure
      permissions. */
  lemma HallazgosPermisosVacios(archivos: seq<(string, nat)>)
    ensures HallazgosPermisos(archivos) == [] <==> forall i :: 0 <= i < |archivos| ==> !PermisosInseguros(archivos[i].1)
  {
    AplanarVacio(archivos, HallazgosDeArchivo);
  }

  /** `len([v for v in vulnerabilidades if v['severidad'] == severidad])`. */
  function ContarSeveridad(vs: seq<Vulnerabilidad>, severidad: string): (n: nat)
    ensures n <= |vs|
  {
    if vs == [] then 0
    else ContarSeveridad(vs[..|vs| - 1], severidad) + if vs[|vs| - 1].severidad == severidad then 1 else 0
  }

  /** A severity counts zero exactly when no finding has it, and counts every
      finding exactly when all of them have it. */
  lemma {:induction false} ContarSeveridadExtremos(vs: seq<Vulnerabilidad>, severidad: string)
    ensures ContarSeveridad(vs, severidad) == 0 <==> forall i :: 0 <= i < |vs| ==> vs[i].severidad != severidad
    ensures ContarSeveridad(vs, severidad) == |vs| <==> forall i :: 0 <= i < |vs| ==> vs[i].severidad == severidad
  {
    if vs != [] {
      var previos := vs[..|vs| - 1];
      assert forall i :: 0 <= i < |previos| ==> previos[i] == vs[i];
      ContarSeveridadExtremos(previos, severidad);
    }
  }

  /** One of the four severities the summary counts. */
  predicate SeveridadContada(s: string) {
    s == "CRITICA" || s == "ALTA" || s == "MEDIA" || s == "BAJA"
  }

  /** The four counts never add up to more than the total, and they add up to
      it exactly when every finding has one of the four severities. */
  lemma {:induction false} SumaSeveridades(vs: seq<Vulnerabilidad>)
    ensures ContarSeveridad(vs, "CRITICA") + ContarSeveridad(vs, "ALTA") + ContarSeveridad(vs, "MEDIA") + ContarSeveridad(vs, "BAJA") <= |vs|
    ensures ContarSeveridad(vs, "CRITICA") + ContarSeveridad(vs, "ALTA") + ContarSeveridad(vs, "MEDIA") + ContarSeveridad(vs, "BAJA") == |vs|
      <==> forall i :: 0 <= i < |vs| ==> SeveridadContada(vs[i].severidad)
  {
    if vs != [] {
      var previos := vs[..|vs| - 1];
      SumaSeveridades(previos);
      assert forall i :: 0 <= i < |previos| ==> previos[i] == vs[i];
    }
  }

  /** Appending findings adds their counts. */
  lemma {:induction false} ContarConcatenar(a: seq<Vulnerabilidad>, b: seq<Vulnerabilidad>, severidad: string)
    ensures ContarSeveridad(a + b, severidad) == ContarSeveridad(a, severidad) + ContarSeveridad(b, severidad)
    decreases |b|
  {
    if b != [] {
      assert (a + b)[..|a + b| - 1] == a + b[..|b| - 1];
      assert (a + b)[|a + b| - 1] == b[|b| - 1];
      ContarConcatenar(a, b[..|b| - 1], severidad);
    } else {
      assert a + b == a;
    }
  }

  /** The `resumen` part of the report. */
  datatype Resumen = Resumen(
    totalVulnerabilidades: nat,
    criticas: nat,
    altas: nat,
    medias: nat,
    bajas: nat,
    archivosAnalizados: nat)

  /** The report: the summary plus the three lists themselves. */
  datatype Reporte = Reporte(
    resumen: Resumen,
    vulnerabilidades: seq<Vulnerabilidad>,
    recomendaciones: seq<string>,
    archivosAnalizados: seq<string>)

  /** The summary of a list of findings and of analysed files. */
  function ResumenDe(vs: seq<Vulnerabilidad>, archivos: seq<string>): (r: Resumen)
    ensures r.totalVulnerabilidades == |vs| && r.archivosAnalizados == |archivos|
    ensures r.criticas + r.altas + r.medias + r.bajas <= r.totalVulnerabilidades
  {
    SumaSeveridades(vs);
    Resumen(|vs|, ContarSeveridad(vs, "CRITICA"), ContarSeveridad(vs, "ALTA"),
      ContarSeveridad(vs, "MEDIA"), ContarSeveridad(vs, "BAJA"), |archivos|)
  }

  /** A single critical finding is counted once as critical and nowhere
      else. */
  lemma UnaCritica(v: Vulnerabilidad)
    requires v.severidad == "CRITICA"
    ensures var r := ResumenDe([v], []);
      r.totalVulnerabilidades == 1 && r.criticas == 1 && r.altas == 0 && r.medias == 0 && r.bajas == 0
  {
    assert [v][..0] == [];
  }

  /** The ten fixed recommendations of `_generar_recomendaciones`. */
  const RECOMENDACIONES: seq<string> := [
    "Implementar validación y sanitización de todas las entradas de usuario",
    "Usar subprocess en lugar de os.system() para ejecutar comandos",
    "Implementar logging de seguridad para monitorear actividades sospechosas",
    "Usar variables de entorno para secretos en lugar de hardcodearlos",
    "Implementar autenticación y autorización si el sistema será multiusuario",
    "Usar HTTPS si el sistema será accesible por red",
    "Implementar backup y recuperación de datos",
    "Realizar auditorías de seguridad regulares",
    "Mantener dependencias actualizadas",
    "Implementar rate limiting para prevenir ataques de fuerza bruta"]

  /** The report `_generar_reporte` returns for given findings and analysed
      files: it does not depend on any earlier recommendations. */
  function ReporteDe(vs: seq<Vulnerabilidad>, archivos: seq<string>): (r: Reporte)
    ensures r.resumen == ResumenDe(vs, archivos)
    ensures r.vulnerabilidades == vs && r.archivosAnalizados == archivos
    ensures r.recomendaciones == RECOMENDACIONES
  {
    Reporte(ResumenDe(vs, archivos), vs, RECOMENDACIONES, archivos)
  }

  /** The auditor: the findings, the recommendations and the analysed files,
      all lists that its methods update in place. */
  class Auditor {
    var vulnerabilidades: seq<Vulnerabilidad>
    var recomendaciones: seq<string>
    var archivosAnalizados: seq<string>

    /** `AuditoriaSeguridad()`: the three lists start empty. */
    constructor ()
      ensures vulnerabilidades == [] && recomendaciones == [] && archivosAnalizados == []
    {
      vulnerabilidades := [];
      recomendaciones := [];
      archivosAnalizados := [];
    }

    /** A `_buscar_*` detector over one file: the earlier findings stay as
        they were and one finding per match is appended, in match order. */
    method Buscar(d: Detector, archivo: string, contenido: string, coincidencias: seq<Coincidencia>)
      modifies this`vulnerabilidades
      ensures vulnerabilidades == old(vulnerabilidades) + Hallazgos(d, archivo, contenido, coincidencias)
    {
      var i := 0;
      while i < |coincidencias|
        invariant 0 <= i <= |coincidencias|
        invariant vulnerabilidades == old(vulnerabilidades) + Hallazgos(d, archivo, contenido, coincidencias[..i])
      {
        var m := coincidencias[i];
        HallazgosPaso(d, archivo, contenido, coincidencias, i);
        vulnerabilidades := vulnerabilidades + [Hallazgo(d, archivo, contenido, m)];
        i := i + 1;
      }
      assert coincidencias[..i] == coincidencias;
    }

    /** `_verificar_permisos` over the sensitive files found and their
        modes: one `INSECURE_PERMISSIONS` finding per file whose last three
        octal digits are 666 or 777, appended in order. */
    method VerificarPermisos(archivos: seq<(string, nat)>)
      modifies this`vulnerabilidades
      ensures vulnerabilidades == old(vulnerabilidades) + HallazgosPermisos(archivos)
    {
      var i := 0;
      while i < |archivos|
        invariant 0 <= i <= |archivos|
        invariant vulnerabilidades == old(vulnerabilidades) + HallazgosPermisos(archivos[..i])
      {
        var (archivo, modo) := archivos[i];
        AplanarPaso(archivos, HallazgosDeArchivo, i);
        if PermisosInseguros(modo) {
          vulnerabilidades := vulnerabilidades + [HallazgoPermisos(archivo, modo)];
        }
        i := i + 1;
      }
      assert archivos[..i] == archivos;
    }

    /** `_generar_recomendaciones`: the list is replaced, not extended, by
        the ten fixed recommendations. */
    method GenerarRecomendaciones()
      modifies this`recomendaciones
      ensures recomendaciones == RECOMENDACIONES
    {
      recomendaciones := RECOMENDACIONES;
    }

    /** `_generar_reporte`: the counts by severity over the current findings,
        the fresh recommendations and the three lists; the findings and the
        analysed files are left as they were, so generating the report twice
        gives the same report. */
    method GenerarReporte() returns (reporte: Reporte)
      modifies this`recomendaciones
      ensures recomendaciones == RECOMENDACIONES
      ensures reporte == ReporteDe(vulnerabilidades, archivosAnalizados)
    {
      var criticas := ContarSeveridad(vulnerabilidades, "CRITICA");
      var altas := ContarSeveridad(vulnerabilidades, "ALTA");
      var medias := ContarSeveridad(vulnerabilidades, "MEDIA");
      var bajas := ContarSeveridad(vulnerabilidades, "BAJA");
      GenerarRecomendaciones();
      var resumen := Resumen(|vulnerabilidades|, criticas, altas, medias, bajas, |archivosAnalizados|);
      reporte := Reporte(resumen, vulnerabilidades, recomendaciones, archivosAnalizados);
    }
  }
}
