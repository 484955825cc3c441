/** The security configuration (`config_seguridad.py`): the table of settings,
    the input validator and sanitiser, and salted hashing with its check.
    The hash function itself (SHA-256 in the source) is a parameter: every
    property below holds for any function that returns hexadecimal text. */
module ConfigSeguridad {
  import opened Wrappers
  import opened Secuencias
  import opened Cadenas

  /** A setting's value: the source stores integers, texts, a list of texts
      (the allowed extensions) and booleans. */
  datatype ValorConfig = Entero(n: int) | Texto(s: string) | Lista(elementos: seq<string>) | Logico(b: bool)

  /** The settings as `_cargar_configuraciones` builds them when no
      environment variable is set, except `max_input_length`, which is given
      (its default is 1000). */
  function CargarConfiguraciones(maxInputLength: int): (c: map<string, ValorConfig>)
    ensures "max_input_length" in c && c["max_input_length"] == Entero(maxInputLength)
  {
    map[
      "max_file_size" := Entero(10485760),
      "allowed_extensions" := Lista(["json", "txt"]),
      "upload_folder" := Texto("uploads"),
      "secure_folder" := Texto("secure_data"),
      "max_input_length" := Entero(maxInputLength),
      "min_password_length" := Entero(8),
      "session_timeout" := Entero(3600),
      "log_level" := Texto("INFO"),
      "log_file" := Texto("inventario.log"),
      "error_log_file" := Texto("errors.log"),
      "security_log_file" := Texto("security.log"),
      "backup_enabled" := Logico(true),
      "backup_interval" := Entero(86400),
      "backup_retention_days" := Entero(30),
      "backup_folder" := Texto("backups"),
      "monitoring_enabled" := Logico(true),
      "alert_email" := Texto("admin@empresa.com"),
      "alert_threshold" := Entero(5)]
  }

  /** The characters `validar_entrada_segura` rejects, in the order it tries
      them. */
  const PELIGROSOS: seq<char> := ['<', '>', '"', '\'', '&', ';', '(', ')', '|', '`', '$']

  /** The escape table of `sanitizar_entrada`, in the order it is applied:
      `&` comes last, so the ampersands the first four escapes write are
      escaped again. */
  const ESCAPES: seq<(char, string)> := [('<', "&lt;"), ('>', "&gt;"), ('"', "&quot;"), ('\'', "&#x27;"), ('&', "&amp;")]

  /** A character `sanitizar_entrada` keeps: code point 32 or above. */
  predicate Imprimible(c: char) {
    c as int >= 32
  }

  /** Characters with code points below 32 removed, order kept. */
  function SinControl(s: string): (r: string)
    ensures forall i :: 0 <= i < |r| ==> Imprimible(r[i])
    ensures forall i :: 0 <= i < |s| && Imprimible(s[i]) ==> s[i] in r
    ensures forall c :: c in r ==> c in s
    ensures (forall i :: 0 <= i < |s| ==> Imprimible(s[i])) ==> r == s
  {
    FiltrarTodos(s, Imprimible);
    Filtrar(s, Imprimible)
  }

  /** Python's `s[:n]`: the first `n` characters, or for a negative `n` all
      but the last `-n` (nothing when there are fewer). */
  function Cortar(s: string, n: int): (r: string)
    ensures |r| <= |s| && r == s[..|r|]
    ensures n >= 0 ==> |r| == if n <= |s| then n else |s|
    ensures n < 0 ==> |r| == if |s| + n >= 0 then |s| + n else 0
  {
    if n >= 0 then (if n <= |s| then s[..n] else s)
    else if |s| + n >= 0 then s[..|s| + n]
    else []
  }

  /** `s.replace(c, e)` for a one-character pattern: every occurrence of `c`
      becomes `e`. */
  function Reemplazar(s: string, c: char, e: string): (r: string)
    ensures forall x :: x in r ==> (x in s && x != c) || x in e
    ensures forall x :: x in s && x != c ==> x in r
    ensures c !in s ==> r == s
  {
    if s == [] then []
    else
      var resto := Reemplazar(s[1..], c, e);
      assert forall x :: x in s && x != s[0] ==> x in s[1..];
      (if s[0] == c then e else [s[0]]) + resto
  }

  /** The replacements of a table applied one after the other, first entry
      first: the `for ... in caracteres_especiales.items()` loop. */
  function Aplicar(s: string, tabla: seq<(char, string)>): string {
    if tabla == [] then s
    else
      var ultimo := tabla[|tabla| - 1];
      Reemplazar(Aplicar(s, tabla[..|tabla| - 1]), ultimo.0, ultimo.1)
  }

  /** What `sanitizar_entrada` returns: control characters removed, then
      the text cut to `maxLength`, then escaped. */
  function Sanitizado(entrada: string, maxLength: int): string {
    var limpia := SinControl(entrada);
    var cortada := if |limpia| > maxLength then Cortar(limpia, maxLength) else limpia;
    Aplicar(cortada, ESCAPES)
  }

  /** One more entry of the table is one more replacement. */
  lemma AplicarPaso(s: string, tabla: seq<(char, string)>, k: nat)
    requires k < |tabla|
    ensures Aplicar(s, tabla[..k + 1]) == Reemplazar(Aplicar(s, tabla[..k]), tabla[k].0, tabla[k].1)
  {
    assert tabla[..k + 1][..k] == tabla[..k];
  }

  /** A property of characters that the text and every replacement text
      satisfy also holds of every character after the replacements. */
  lemma {:induction false} AplicarConserva(s: string, tabla: seq<(char, string)>, p: char -> bool)
    requires forall c :: c in s ==> p(c)
    requires forall k, c :: 0 <= k < |tabla| && c in tabla[k].1 ==> p(c)
    ensures forall c :: c in Aplicar(s, tabla) ==> p(c)
  {
    if tabla != [] {
      AplicarConserva(s, tabla[..|tabla| - 1], p);
    }
  }

  /** The character an entry replaces is absent from the result when no
      later entry (itself included) writes it back. */
  lemma {:induction false} AplicarElimina(s: string, tabla: seq<(char, string)>, k: nat)
    requires k < |tabla|
    requires forall m :: k <= m < |tabla| ==> tabla[k].0 !in tabla[m].1
    ensures tabla[k].0 !in Aplicar(s, tabla)
  {
    var previa := tabla[..|tabla| - 1];
    if k < |tabla| - 1 {
      AplicarElimina(s, previa, k);
    }
  }

  /** A text containing none of the characters a table replaces passes
      through it unchanged. */
  lemma {:induction false} AplicarIdentidad(s: string, tabla: seq<(char, string)>)
    requires forall k :: 0 <= k < |tabla| ==> tabla[k].0 !in s
    ensures Aplicar(s, tabla) == s
  {
    if tabla != [] {
      AplicarIdentidad(s, tabla[..|tabla| - 1]);
    }
  }

  /** The sanitised text has no control characters. */
  lemma SanitizadoSinControl(entrada: string, maxLength: int)
    ensures forall c :: c in Sanitizado(entrada, maxLength) ==> Imprimible(c)
  {
    var limpia := SinControl(entrada);
    var cortada := if |limpia| > maxLength then Cortar(limpia, maxLength) else limpia;
    assert forall c :: c in cortada ==> c in limpia;
    assert forall c :: c in limpia ==> Imprimible(c);
    AplicarConserva(cortada, ESCAPES, Imprimible);
  }

  /** The sanitised text contains none of `<`, `>`, `"`, `'` (an `&` may
      remain: it is written by the escapes themselves). */
  lemma SanitizadoSinEtiquetas(entrada: string, maxLength: int)
    ensures var r := Sanitizado(entrada, maxLength);
      '<' !in r && '>' !in r && '"' !in r && '\'' !in r
  {
    var limpia := SinControl(entrada);
    var cortada := if |limpia| > maxLength then Cortar(limpia, maxLength) else limpia;
    forall k | 0 <= k < 4
      ensures ESCAPES[k].0 !in Aplicar(cortada, ESCAPES)
    {
      AplicarElimina(cortada, ESCAPES, k);
    }
    assert ESCAPES[0].0 == '<' && ESCAPES[1].0 == '>' && ESCAPES[2].0 == '"' && ESCAPES[3].0 == '\'';
  }

  /** Truncation comes before escaping: the text that is escaped is a prefix
      of the cleaned input and, for a non-negative limit, no longer than the
      limit; the escaped result itself is not bounded. */
  lemma TruncaAntesDeEscapar(entrada: string, maxLength: int)
    ensures
      var limpia := SinControl(entrada);
      exists cortada ::
        && |cortada| <= |limpia| && cortada == limpia[..|cortada|]
        && (maxLength >= 0 ==> |cortada| <= maxLength)
        && Sanitizado(entrada, maxLength) == Aplicar(cortada, ESCAPES)
  {
    var limpia := SinControl(entrada);
    var cortada := if |limpia| > maxLength then Cortar(limpia, maxLength) else limpia;
    assert cortada == limpia[..|cortada|];
  }

  /** An input without control characters, without any of `< > " ' &` and
      within the limit comes back unchanged. */
  lemma SanitizadoLimpio(entrada: string, maxLength: int)
    requires forall i :: 0 <= i < |entrada| ==> Imprimible(entrada[i])
    requires forall k :: 0 <= k < |ESCAPES| ==> ESCAPES[k].0 !in entrada
    requires |entrada| <= maxLength
    ensures Sanitizado(entrada, maxLength) == entrada
  {
    assert SinControl(entrada) == entrada;
    AplicarIdentidad(entrada, ESCAPES);
  }

  /** A one-character text that the first entry replaces becomes that
      entry's text, when no later entry replaces a character of it. */
  lemma {:induction false} AplicarUnCaracter(c: char, tabla: seq<(char, string)>)
    requires |tabla| >= 1 && tabla[0].0 == c
    requires forall k :: 1 <= k < |tabla| ==> tabla[k].0 !in tabla[0].1
    ensures Aplicar([c], tabla) == tabla[0].1
  {
    var n := |tabla| - 1;
    if n == 0 {
      assert tabla[..0] == [];
      assert [c][1..] == [];
      assert Reemplazar([c], c, tabla[0].1) == tabla[0].1 + Reemplazar([], c, tabla[0].1);
    } else {
      assert Aplicar([c], tabla[..n]) == tabla[0].1 by {
        assert forall k :: 1 <= k < n ==> tabla[..n][k] == tabla[k];
        AplicarUnCaracter(c, tabla[..n]);
      }
      assert tabla[n].0 !in tabla[0].1;
    }
  }

  /** The first four escapes turn `<` into `&lt;`: only the first one
      applies, and the other three leave `&lt;` alone. */
  lemma EscaparMenorSinAmp()
    ensures Aplicar("<", ESCAPES[..4]) == "&lt;"
  {
    var tabla := ESCAPES[..4];
    assert tabla[0] == ('<', "&lt;");
    assert forall k :: 1 <= k < |tabla| ==> tabla[k].0 in ">\"\'";
    AplicarUnCaracter('<', tabla);
    assert "<" == ['<'];
  }

  lemma ReemplazarAmp()
    ensures Reemplazar("&lt;", '&', "&amp;") == "&amp;lt;"
  {
    assert Reemplazar("lt;", '&', "&amp;") == "lt;";
    assert "&lt;"[0] == '&' && "&lt;"[1..] == "lt;";
    assert Reemplazar("&lt;", '&', "&amp;") == "&amp;" + Reemplazar("lt;", '&', "&amp;");
  }

  /** What the validator accepts, the sanitiser leaves alone when it has
      no control characters: the five escaped characters are the first five
      dangerous ones. */
  lemma ValidaNoSeAltera(entrada: string, maxLength: int)
    requires |entrada| <= maxLength
    requires forall k :: 0 <= k < |PELIGROSOS| ==> PELIGROSOS[k] !in entrada
    requires forall i :: 0 <= i < |entrada| ==> Imprimible(entrada[i])
    ensures Sanitizado(entrada, maxLength) == entrada
  {
    forall k | 0 <= k < |ESCAPES|
      ensures ESCAPES[k].0 !in entrada
    {
      assert ESCAPES[k].0 == PELIGROSOS[k];
    }
    SanitizadoLimpio(entrada, maxLength);
  }

  /** The escape table turns `<` into `&amp;lt;`. */
  lemma EscaparMenor()
    ensures Aplicar("<", ESCAPES) == "&amp;lt;"
  {
    EscaparMenorSinAmp();
    ReemplazarAmp();
    assert ESCAPES[..|ESCAPES| - 1] == ESCAPES[..4];
  }

  /** `<` is escaped twice, to `&amp;lt;`, because `&` is replaced after
      it; and the output may exceed the limit the input was cut to. */
  lemma DobleEscape()
    ensures Sanitizado("<", 1000) == "&amp;lt;"
    ensures Sanitizado("<", 1) == "&amp;lt;" && |Sanitizado("<", 1)| > 1
  {
    assert Imprimible("<"[0]);
    var limpia := SinControl("<");
    assert limpia == "<";
    EscaparMenor();
  }

  /** Hexadecimal text: what `hexdigest` returns. It never contains `:`. */
  type Hexadecimal = s: string | forall c :: c in s ==> c in "0123456789abcdef"

  /** `hash_seguro` with a given salt: the digest of text plus salt, a colon,
      then the salt. When the salt has no colon, splitting the result at
      `:` gives back the digest and the salt. */
  function HashSeguro(h: string -> Hexadecimal, texto: string, salt: string): (r: string)
    ensures ':' !in salt ==> Partes(r, ':') == [h(texto + salt), salt]
  {
    var digest := h(texto + salt);
    assert ':' !in digest;
    var r := digest + ":" + salt;
    assert ':' !in salt ==> Partes(r, ':') == [digest, salt] by {
      if ':' !in salt {
        PartesDeDos(digest, salt, ':');
      }
    }
    r
  }

  /** `verificar_hash`: the stored text must split at `:` into exactly two
      pieces (otherwise Python's unpacking raises `ValueError` and the answer
      is false); the text is hashed again with the stored salt and the two
      digests are compared. */
  function VerificarHash(h: string -> Hexadecimal, texto: string, hashVerificar: string): (r: bool)
    ensures |Partes(hashVerificar, ':')| != 2 ==> !r
    ensures |Partes(hashVerificar, ':')| == 2 ==>
      (r <==> Partes(hashVerificar, ':')[0] == h(texto + Partes(hashVerificar, ':')[1]))
  {
    var partes := Partes(hashVerificar, ':');
    if |partes| != 2 then false
    else
      var hashCalculado := HashSeguro(h, texto, partes[1]);
      var partesCalculadas := Partes(hashCalculado, ':');
      if |partesCalculadas| != 2 then false
      else partes[0] == partesCalculadas[0]
  }

  /** Round trip: a hash made with a colon-free salt verifies against the
      text it was made from. */
  lemma VerificarHashSeguro(h: string -> Hexadecimal, texto: string, salt: string)
    requires ':' !in salt
    ensures VerificarHash(h, texto, HashSeguro(h, texto, salt))
  {
  }

  /** Another text verifies exactly when its digest with the same salt is
      the same (a collision for SHA-256). */
  lemma VerificarOtroTexto(h: string -> Hexadecimal, texto: string, otro: string, salt: string)
    requires ':' !in salt
    ensures VerificarHash(h, otro, HashSeguro(h, texto, salt)) <==> h(otro + salt) == h(texto + salt)
  {
  }

  /** A stored hash with no colon or with more than one never verifies. */
  lemma VerificarHashMalFormado(h: string -> Hexadecimal, texto: string, hashVerificar: string)
    requires Apariciones(hashVerificar, ':') != 1
    ensures !VerificarHash(h, texto, hashVerificar)
  {
  }

  /** `verificar_hash` accepts exactly the outputs of `hash_seguro` for that
      text with some colon-free salt. */
  lemma VerificarHashSii(h: string -> Hexadecimal, texto: string, hashVerificar: string)
    ensures VerificarHash(h, texto, hashVerificar) <==>
      exists salt :: ':' !in salt && hashVerificar == HashSeguro(h, texto, salt)
  {
    if VerificarHash(h, texto, hashVerificar) {
      var partes := Partes(hashVerificar, ':');
      UnirPartes(hashVerificar, ':');
      assert partes[1..] == [partes[1]];
      assert hashVerificar == partes[0] + [':'] + partes[1];
      assert hashVerificar == HashSeguro(h, texto, partes[1]);
    }
    if exists salt :: ':' !in salt && hashVerificar == HashSeguro(h, texto, salt) {
      var salt :| ':' !in salt && hashVerificar == HashSeguro(h, texto, salt);
      VerificarHashSeguro(h, texto, salt);
    }
  }

  /** The security configuration: a table of settings built once and only
      read afterwards. */
  class ConfiguracionSeguridad {
    const configuraciones: map<string, ValorConfig>

    /** The limit on input length is present and an integer. */
    predicate Valid() {
      "max_input_length" in configuraciones && configuraciones["max_input_length"].Entero?
    }

    /** `ConfiguracionSeguridad()` with `MAX_INPUT_LENGTH` read as
        `maxInputLength` (1000 when the variable is unset) and every other
        setting at its default. */
    constructor (maxInputLength: int := 1000)
      ensures configuraciones == CargarConfiguraciones(maxInputLength)
      ensures Valid() && MaxInputLength() == maxInputLength
    {
      configuraciones := CargarConfiguraciones(maxInputLength);
    }

    /** `configuraciones['max_input_length']`. */
    function MaxInputLength(): int
      requires Valid()
    {
      configuraciones["max_input_length"].n
    }

    /** `obtener_configuracion(clave, valor_default)`: the stored setting
        when the key is present, the given default otherwise. */
    function ObtenerConfiguracion(clave: string, valorDefault: Option<ValorConfig> := None): (r: Option<ValorConfig>)
      ensures clave in configuraciones ==> r == Some(configuraciones[clave])
      ensures clave !in configuraciones ==> r == valorDefault
    {
      if clave in configuraciones then Some(configuraciones[clave]) else valorDefault
    }

    /** `validar_entrada_segura`: true exactly when the entry is within the
        length limit and contains none of the eleven dangerous characters. */
    method ValidarEntradaSegura(entrada: string) returns (r: bool)
      requires Valid()
      ensures r <==> |entrada| <= MaxInputLength() && forall k :: 0 <= k < |PELIGROSOS| ==> PELIGROSOS[k] !in entrada
    {
      if |entrada| > MaxInputLength() {
        return false;
      }
      var i := 0;
      while i < |PELIGROSOS|
        invariant 0 <= i <= |PELIGROSOS|
        invariant forall k :: 0 <= k < i ==> PELIGROSOS[k] !in entrada
      {
        if PELIGROSOS[i] in entrada {
          return false;
        }
        i := i + 1;
      }
      return true;
    }

    /** `sanitizar_entrada`: control characters removed, the text cut to the
        length limit, then the five escapes applied in table order. The
        result has no control character and none of `< > " '`. */
    method SanitizarEntrada(entrada: string) returns (r: string)
      requires Valid()
      ensures r == Sanitizado(entrada, MaxInputLength())
      ensures forall c :: c in r ==> Imprimible(c)
      ensures '<' !in r && '>' !in r && '"' !in r && '\'' !in r
    {
      var entradaSanitizada := SinControl(entrada);
      var maxLength := MaxInputLength();
      if |entradaSanitizada| > maxLength {
        entradaSanitizada := Cortar(entradaSanitizada, maxLength);
      }
      ghost var cortada := entradaSanitizada;
      var i := 0;
      while i < |ESCAPES|
        invariant 0 <= i <= |ESCAPES|
        invariant entradaSanitizada == Aplicar(cortada, ESCAPES[..i])
      {
        var (caracter, escape) := ESCAPES[i];
        AplicarPaso(cortada, ESCAPES, i);
        entradaSanitizada := Reemplazar(entradaSanitizada, caracter, escape);
        i := i + 1;
      }
      assert ESCAPES[..i] == ESCAPES;
      r := entradaSanitizada;
      SanitizadoSinControl(entrada, maxLength);
      SanitizadoSinEtiquetas(entrada, maxLength);
    }
  }
}
