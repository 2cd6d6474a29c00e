/** File names and the local backup directory: `os.path.splitext` and
    `os.path.join` on POSIX paths, the deduplicated submission name built by
    `nombre_unico`, and the directory itself as a map from path to bytes. */
module Rutas {
  import opened Comun

  /** `s.rfind(c)`: the index of the last occurrence of `c` in `s`, or -1. */
  function UltimoIndice(s: string, c: char): (r: int)
    ensures -1 <= r < |s|
    ensures r >= 0 ==> s[r] == c
    ensures forall j :: r < j < |s| ==> s[j] != c
    decreases |s|
  {
    if s == [] then -1
    else if s[|s| - 1] == c then |s| - 1
    else UltimoIndice(s[..|s| - 1], c)
  }

  /** The last occurrence is the only index with the three properties above. */
  lemma UltimoIndiceUnico(s: string, c: char, r: int)
    requires -1 <= r < |s|
    requires r >= 0 ==> s[r] == c
    requires forall j :: r < j < |s| ==> s[j] != c
    ensures UltimoIndice(s, c) == r
  {
  }

  /** Appending characters other than `c` does not move the last `c`. */
  lemma UltimoIndiceSinSufijo(a: string, b: string, c: char)
    requires forall j :: 0 <= j < |b| ==> b[j] != c
    ensures UltimoIndice(a + b, c) == UltimoIndice(a, c)
  {
    var u := UltimoIndice(a, c);
    var s := a + b;
    forall j | u < j < |s|
      ensures s[j] != c
    {
      if j >= |a| {
        assert s[j] == b[j - |a|];
      }
    }
    UltimoIndiceUnico(s, c, u);
  }

  predicate SoloPuntos(s: string) {
    forall i :: 0 <= i < |s| ==> s[i] == '.'
  }

  /** Where `os.path.splitext(p)` cuts `p`: at the last dot of the last path
      component, unless every character before that dot in the component is a
      dot (".bashrc" has no extension); `|p|` when there is no extension. */
  function InicioExtension(p: string): (k: nat)
    ensures k <= |p|
    ensures k < |p| ==> p[k] == '.'
    ensures forall i :: k < i < |p| ==> p[i] != '.' && p[i] != '/'
  {
    var barra := UltimoIndice(p, '/');
    var punto := UltimoIndice(p, '.');
    if punto > barra && !SoloPuntos(p[barra + 1..punto]) then punto else |p|
  }

  /** `os.path.splitext(p)`: the base and the extension, which is empty or a dot
      followed by characters that are neither dots nor slashes. */
  function SepararExtension(p: string): (r: (string, string))
    ensures r.0 + r.1 == p
    ensures r.1 != [] ==> r.1[0] == '.'
    ensures forall i :: 1 <= i < |r.1| ==> r.1[i] != '.'
    ensures forall i :: 0 <= i < |r.1| ==> r.1[i] != '/'
  {
    var k := InicioExtension(p);
    (p[..k], p[k..])
  }

  /** The characters that cannot occur in a token: a token never introduces a
      new extension or a new path component. */
  predicate SinSeparadores(t: string) {
    forall i :: 0 <= i < |t| ==> t[i] != '.' && t[i] != '/'
  }

  /** `uuid.uuid4().hex`: 32 lower-case hexadecimal digits. */
  predicate TokenHex(t: string) {
    |t| == 32 && forall i :: 0 <= i < |t| ==> ('0' <= t[i] <= '9' || 'a' <= t[i] <= 'f')
  }

  /** `nombre_unico(nombre)` with the random token passed in: the base name, an
      underscore, the token, then the original extension. */
  function NombreUnico(nombre: string, token: string): (r: string)
    ensures |r| == |nombre| + 1 + |token|
  {
    var partes := SepararExtension(nombre);
    partes.0 + "_" + token + partes.1
  }

  /** The submitted name is the original name with `_` and the token inserted
      where the extension starts: taking them out gives the original back. */
  lemma NombreUnicoInserta(nombre: string, token: string)
    ensures var r, k := NombreUnico(nombre, token), |SepararExtension(nombre).0|;
            && r[k] == '_' && r[k + 1..k + 1 + |token|] == token
            && r[..k] + r[k + 1 + |token|..] == nombre
  {
    var partes := SepararExtension(nombre);
    var r, k := NombreUnico(nombre, token), |partes.0|;
    assert r[..k] == partes.0;
    assert r[k + 1 + |token|..] == partes.1;
  }

  /** Appending characters that are neither dots nor slashes to a name without
      extension leaves it without extension. */
  lemma SinExtensionTrasSufijo(nombre: string, medio: string)
    requires InicioExtension(nombre) == |nombre|
    requires SinSeparadores(medio)
    ensures InicioExtension(nombre + medio) == |nombre + medio|
  {
    var r := nombre + medio;
    var barra := UltimoIndice(nombre, '/');
    var punto := UltimoIndice(nombre, '.');
    UltimoIndiceSinSufijo(nombre, medio, '/');
    UltimoIndiceSinSufijo(nombre, medio, '.');
    if punto > barra {
      assert r[barra + 1..punto] == nombre[barra + 1..punto];
    }
  }

  /** What splitting `base + ext` at `|base|` says about the extension: a dot
      followed by neither dots nor slashes, and no slash after the base. */
  lemma ExtensionOriginal(base: string, ext: string)
    requires InicioExtension(base + ext) == |base| < |base + ext|
    ensures ext[0] == '.'
    ensures forall j :: 0 <= j < |ext| ==> ext[j] != '/'
    ensures forall j :: 0 < j < |ext| ==> ext[j] != '.'
    ensures UltimoIndice(base + ext, '/') == UltimoIndice(base, '/') < |base|
  {
    var nombre := base + ext;
    forall j | 0 <= j < |ext|
      ensures ext[j] != '/' && (j > 0 ==> ext[j] != '.')
    {
      assert ext[j] == nombre[|base| + j];
    }
    UltimoIndiceSinSufijo(base, ext, '/');
  }

  /** Inserting anything before an extension leaves its dot the last one. */
  lemma PuntoTrasInsertar(base: string, medio: string, ext: string)
    requires ext != [] && ext[0] == '.'
    requires forall j :: 0 < j < |ext| ==> ext[j] != '.'
    ensures UltimoIndice(base + medio + ext, '.') == |base| + |medio|
  {
    var r := base + medio + ext;
    var q := |base| + |medio|;
    assert r[q] == '.';
    forall j | q < j < |r|
      ensures r[j] != '.'
    {
      assert r[j] == ext[j - q];
    }
    UltimoIndiceUnico(r, '.', q);
  }

  /** Inserting `_` and characters other than slashes before a tail without
      slashes leaves the last slash where it was. */
  lemma BarraTrasInsertar(base: string, medio: string, ext: string)
    requires |medio| > 0 && medio[0] == '_' && SinSeparadores(medio[1..])
    requires forall j :: 0 <= j < |ext| ==> ext[j] != '/'
    ensures UltimoIndice(base + medio + ext, '/') == UltimoIndice(base, '/')
  {
    forall j | 0 <= j < |medio + ext|
      ensures (medio + ext)[j] != '/'
    {
      if j >= |medio| {
        assert (medio + ext)[j] == ext[j - |medio|];
      } else if j > 0 {
        assert medio[j] == medio[1..][j - 1];
      }
    }
    assert base + medio + ext == base + (medio + ext);
    UltimoIndiceSinSufijo(base, medio + ext, '/');
  }

  /** The extension starts at the last dot `k` when some character between
      the last slash and that dot is not a dot. */
  lemma InicioEn(p: string, k: nat, w: nat)
    requires UltimoIndice(p, '.') == k
    requires UltimoIndice(p, '/') < w < k && p[w] != '.'
    ensures InicioExtension(p) == k
  {
    var barra := UltimoIndice(p, '/');
    assert p[barra + 1..k][w - barra - 1] == p[w];
  }

  /** An extension is only cut off when something other than dots precedes
      the last dot in the last component. */
  lemma NoSoloPuntos(p: string)
    requires InicioExtension(p) < |p|
    ensures exists w :: UltimoIndice(p, '/') < w < UltimoIndice(p, '.') && p[w] != '.'
  {
    var barra, punto := UltimoIndice(p, '/'), UltimoIndice(p, '.');
    assert punto > barra && !SoloPuntos(p[barra + 1..punto]);
    var q := p[barra + 1..punto];
    var i :| 0 <= i < |q| && q[i] != '.';
    assert p[barra + 1 + i] == q[i];
  }

  /** Where `os.path.splitext` cuts: a non-empty extension starts at the last
      dot, after the last slash; a name whose last dot is not in its last
      component has none; and a last component is cut at its last dot exactly
      when something other than dots precedes that dot in it (".bashrc" has no
      extension). */
  lemma SepararEnUltimoPunto(p: string)
    ensures var r := SepararExtension(p);
            && (r.1 != [] ==> UltimoIndice(p, '/') < |r.0| == UltimoIndice(p, '.'))
            && (UltimoIndice(p, '.') <= UltimoIndice(p, '/') ==> r.1 == [])
    ensures forall w :: UltimoIndice(p, '/') < w < UltimoIndice(p, '.') && p[w] != '.' ==>
              |SepararExtension(p).0| == UltimoIndice(p, '.')
    ensures SepararExtension(p).1 != [] ==>
              exists w :: UltimoIndice(p, '/') < w < UltimoIndice(p, '.') && p[w] != '.'
  {
    if SepararExtension(p).1 != [] {
      NoSoloPuntos(p);
    }
    forall w | UltimoIndice(p, '/') < w < UltimoIndice(p, '.') && p[w] != '.'
      ensures |SepararExtension(p).0| == UltimoIndice(p, '.')
    {
      InicioEn(p, UltimoIndice(p, '.'), w);
    }
  }

  /** Inserting `_` and characters that are neither dots nor slashes just before
      the extension leaves the extension where it was. */
  lemma ExtensionTrasInsertar(base: string, medio: string, ext: string)
    requires InicioExtension(base + ext) == |base| < |base + ext|
    requires |medio| > 0 && medio[0] == '_' && SinSeparadores(medio[1..])
    ensures InicioExtension(base + medio + ext) == |base| + |medio|
  {
    ExtensionOriginal(base, ext);
    PuntoTrasInsertar(base, medio, ext);
    BarraTrasInsertar(base, medio, ext);
    var r := base + medio + ext;
    assert r[|base|] == '_';
    InicioEn(r, |base| + |medio|, |base|);
  }

  /** The submitted name keeps the original extension: splitting it again gives
      the original base followed by `_` and the token, and the original
      extension. */
  lemma NombreUnicoConservaExtension(nombre: string, token: string)
    requires SinSeparadores(token)
    ensures SepararExtension(NombreUnico(nombre, token))
            == (SepararExtension(nombre).0 + "_" + token, SepararExtension(nombre).1)
  {
    var k := InicioExtension(nombre);
    var base, ext := nombre[..k], nombre[k..];
    var medio := "_" + token;
    var r := NombreUnico(nombre, token);
    var q := |base| + |medio|;
    assert r == base + medio + ext;
    assert medio[1..] == token;
    if k == |nombre| {
      assert SinSeparadores(medio) by {
        forall j | 0 <= j < |medio|
          ensures medio[j] != '.' && medio[j] != '/'
        {
          if j > 0 { assert medio[j] == token[j - 1]; }
        }
      }
      assert base == nombre && ext == [];
      SinExtensionTrasSufijo(nombre, medio);
      assert r == nombre + medio;
    } else {
      assert nombre == base + ext;
      ExtensionTrasInsertar(base, medio, ext);
    }
    assert InicioExtension(r) == q;
    assert r[..q] == base + medio;
    assert r[q..] == ext;
  }

  /** Fresh tokens give distinct submitted names, whatever the original names:
      two uploads never share a submitted name, so they never collide on disk or
      at the remote boundary. */
  lemma NombreUnicoInyectivo(n1: string, t1: string, n2: string, t2: string)
    requires TokenHex(t1) && TokenHex(t2)
    requires t1 != t2
    ensures NombreUnico(n1, t1) != NombreUnico(n2, t2)
  {
    NombreUnicoConservaExtension(n1, t1);
    NombreUnicoConservaExtension(n2, t2);
    var a := SepararExtension(n1).0 + "_" + t1;
    var b := SepararExtension(n2).0 + "_" + t2;
    assert a[|a| - 32..] == t1;
    assert b[|b| - 32..] == t2;
    assert NombreUnico(n1, t1) == NombreUnico(n2, t2) ==> a == b;
  }

  /** The directory that holds the local backups. */
  const DirRespaldo: string := "uploads"

  /** `os.path.join(a, b)` on POSIX: an absolute `b` replaces `a`. */
  function Unir(a: string, b: string): string {
    if |b| > 0 && b[0] == '/' then b
    else if a == [] || a[|a| - 1] == '/' then a + b
    else a + "/" + b
  }

  /** `os.path.join(UPLOAD_DIR, nombre_envio)`: where a submitted name is backed up. */
  function RutaRespaldo(nombre: string): (r: string)
    ensures r != []
    ensures |nombre| <= |r| && r[|r| - |nombre|..] == nombre
    ensures |nombre| > 0 && nombre[0] == '/' ==> r == nombre
    ensures !(|nombre| > 0 && nombre[0] == '/') ==> r == DirRespaldo + "/" + nombre
  {
    Unir(DirRespaldo, nombre)
  }

  /** Distinct submitted names are backed up at distinct paths. */
  lemma RutaRespaldoInyectiva(n1: string, n2: string)
    requires n1 != n2
    ensures RutaRespaldo(n1) != RutaRespaldo(n2)
  {
    var r1, r2 := RutaRespaldo(n1), RutaRespaldo(n2);
    var abs1, abs2 := |n1| > 0 && n1[0] == '/', |n2| > 0 && n2[0] == '/';
    if abs1 && !abs2 {
      assert r2[0] == 'u';
    } else if !abs1 && abs2 {
      assert r1[0] == 'u';
    } else if !abs1 && !abs2 {
      assert r1 == "uploads/" + n1 && r2 == "uploads/" + n2;
      assert r1[8..] == n1 && r2[8..] == n2;
    }
  }

  /** The local backup directory: the files that exist, by path, with their bytes. */
  class Disco {
    var archivos: map<string, seq<byte>>

    constructor (iniciales: map<string, seq<byte>>)
      ensures archivos == iniciales
    {
      archivos := iniciales;
    }

    /** `open(ruta, "wb").write(datos)`: creates or replaces the file. */
    method Escribir(ruta: string, datos: seq<byte>)
      modifies this
      ensures archivos == old(archivos)[ruta := datos]
    {
      archivos := archivos[ruta := datos];
    }
  }
}
