/** The upload pass of the "Subir PDFs" page: a batch is created, then every
    selected file is attempted in order and recorded as one document, then the
    batch gets its aggregate status and its "OK=ok/total" comment.

    Effects are parameters: the uuid of each file is `tokens[i]`, the responses
    of the POSTs are `red` (consumed in order, one per POST actually sent), and
    the backup directory is a `Disco`. */
module Subida {
  import opened Comun
  import opened Numeros
  import opened Rutas
  import opened Api
  import opened Cargas

  /** A selected file: its name and its bytes (`archivo.size` is their number). */
  datatype Archivo = Archivo(nombre: string, contenido: seq<byte>)

  const ErrVacio: string := "PDF vacío"

  /** What attempting one file produces: its document, the POST it sent (if
      any) and the backup it wrote (if any). */
  datatype Paso = Paso(doc: Documento, envio: Option<Envio>, respaldo: Option<(string, seq<byte>)>)

  /** The document of a non-empty file `a` once its submitted name `nombre`
      and, when `guardar` is set, its backup path are recorded. */
  function Preparado(a: Archivo, nombre: string, guardar: bool): Documento {
    DocInicial(a.nombre).(nombreEnviado := nombre, rutaLocal := if guardar then RutaRespaldo(nombre) else "")
  }

  /** One iteration of the upload loop for file `a`, whose submitted name is
      `nombre`, when the POST (if sent) is answered with `t`. An empty file is
      rejected before anything else; otherwise the name is recorded, the bytes
      are backed up when `guardar` is set, and the upload decides the status.
      The document keeps the file name and ends OK or ERROR; a non-empty file
      is backed up exactly when `guardar` is set, sent exactly when the batch
      id is set, and ends OK exactly when the upload succeeds. */
  function SubirArchivo(a: Archivo, nombre: string, guardar: bool, idCarga: string, t: Transporte): (r: Paso)
    ensures r.doc.nombreOriginal == a.nombre
    ensures r.doc.estado == Ok || r.doc.estado == ErrorDoc
    ensures |a.contenido| == 0 ==>
              r.doc == Rechazado(DocInicial(a.nombre), ErrVacio) && r.envio == None && r.respaldo == None
    ensures |a.contenido| > 0 ==> r.doc.nombreEnviado == nombre
    ensures r.doc.rutaLocal != "" <==> guardar && |a.contenido| > 0
    ensures r.doc.rutaLocal != "" ==> r.doc.rutaLocal == RutaRespaldo(nombre)
    ensures r.respaldo.Some? <==> r.doc.rutaLocal != ""
    ensures r.respaldo.Some? ==> r.respaldo.value == (r.doc.rutaLocal, a.contenido)
    ensures r.envio.Some? <==> |a.contenido| > 0 && idCarga != ""
    ensures r.envio.Some? ==> r.envio.value == Envio(nombre, a.contenido, idCarga)
    ensures r.doc.estado == Ok <==> |a.contenido| > 0 && SubirPdf(idCarga, t).Exito?
    ensures |a.contenido| > 0 ==>
              var d0 := Preparado(a, nombre, guardar);
              r.doc == match SubirPdf(idCarga, t)
                       case Exito(n) => Aceptado(d0, n)
                       case Fallo(m) => Rechazado(d0, m)
  {
    var inicial := DocInicial(a.nombre);
    if |a.contenido| == 0 then Paso(Rechazado(inicial, ErrVacio), None, None)
    else
      var ruta := if guardar then RutaRespaldo(nombre) else "";
      var doc := Preparado(a, nombre, guardar);
      var envio := if idCarga == "" then None else Some(Envio(nombre, a.contenido, idCarga));
      var respaldo := if guardar then Some((ruta, a.contenido)) else None;
      match SubirPdf(idCarga, t)
      case Exito(n) => Paso(Aceptado(doc, n), envio, respaldo)
      case Fallo(m) => Paso(Rechazado(doc, m), envio, respaldo)
  }

  /** How many POSTs the first files cause: one per non-empty file, none at all
      when the batch id is empty. */
  function Enviados(archivos: seq<Archivo>, idCarga: string): (n: nat)
    ensures n <= |archivos|
    decreases |archivos|
  {
    if archivos == [] then 0
    else
      var u := |archivos| - 1;
      Enviados(archivos[..u], idCarga) + (if idCarga != "" && |archivos[u].contenido| > 0 then 1 else 0)
  }

  /** The backup directory after an optional write. */
  function Escribir(disco: map<string, seq<byte>>, respaldo: Option<(string, seq<byte>)>): map<string, seq<byte>> {
    match respaldo
    case None => disco
    case Some(w) => disco[w.0 := w.1]
  }

  /** The body of the upload loop as a function of the file, its uuid and the
      response to its POST. */
  function PasoDe(guardar: bool, idCarga: string): (Archivo, string, Transporte) -> Paso {
    (a: Archivo, token: string, t: Transporte) => SubirArchivo(a, NombreUnico(a.nombre, token), guardar, idCarga, t)
  }

  /** The step `paso` of every file in order: file `i` with uuid `tokens[i]`,
      its POST (if any) answered by the response that follows those of the
      POSTs the earlier files sent. */
  function Recorrer(paso: (Archivo, string, Transporte) -> Paso, archivos: seq<Archivo>, tokens: seq<string>,
                    idCarga: string, red: seq<Transporte>): (ps: seq<Paso>)
    requires |tokens| == |archivos| <= |red|
    ensures |ps| == |archivos|
    decreases |archivos|
  {
    if archivos == [] then []
    else
      var n := |archivos| - 1;
      Recorrer(paso, archivos[..n], tokens[..n], idCarga, red)
        + [paso(archivos[n], tokens[n], red[Enviados(archivos[..n], idCarga)])]
  }

  lemma {:induction false} RecorrerEn(paso: (Archivo, string, Transporte) -> Paso, archivos: seq<Archivo>,
                                      tokens: seq<string>, idCarga: string, red: seq<Transporte>, i: nat)
    requires |tokens| == |archivos| <= |red| && i < |archivos|
    ensures Recorrer(paso, archivos, tokens, idCarga, red)[i]
            == paso(archivos[i], tokens[i], red[Enviados(archivos[..i], idCarga)])
    decreases |archivos|
  {
    var n := |archivos| - 1;
    if i < n {
      assert archivos[..n][..i] == archivos[..i];
      RecorrerEn(paso, archivos[..n], tokens[..n], idCarga, red, i);
    }
  }

  /** The steps of a pass. */
  function Pasos(archivos: seq<Archivo>, tokens: seq<string>, guardar: bool, idCarga: string,
                 red: seq<Transporte>): (ps: seq<Paso>)
    requires |tokens| == |archivos| <= |red|
    ensures |ps| == |archivos|
  {
    Recorrer(PasoDe(guardar, idCarga), archivos, tokens, idCarga, red)
  }

  /** Step `i` is file `i` under the name from `tokens[i]`, answered by the
      response after the ones the earlier files consumed. */
  lemma PasosEn(archivos: seq<Archivo>, tokens: seq<string>, guardar: bool, idCarga: string,
                red: seq<Transporte>, i: nat)
    requires |tokens| == |archivos| <= |red| && i < |archivos|
    ensures Pasos(archivos, tokens, guardar, idCarga, red)[i]
            == SubirArchivo(archivos[i], NombreUnico(archivos[i].nombre, tokens[i]), guardar, idCarga,
                            red[Enviados(archivos[..i], idCarga)])
  {
    RecorrerEn(PasoDe(guardar, idCarga), archivos, tokens, idCarga, red, i);
  }

  /** The line a failed file adds to the error list shown after the pass. */
  function LineaError(d: Documento): seq<string> {
    if d.estado == ErrorDoc then [d.nombreOriginal + ": " + d.error] else []
  }

  /** What a pass has produced so far: the documents registered, the error
      lines, the POSTs sent and the backup directory. */
  datatype Pasada = Pasada(docs: seq<Documento>, errores: seq<string>, envios: seq<Envio>,
                           disco: map<string, seq<byte>>)

  /** The effect of one more step on what the pass has produced. */
  function Avanzar(a: Pasada, p: Paso): Pasada {
    Pasada(a.docs + [p.doc], a.errores + LineaError(p.doc), a.envios + Lista(p.envio), Escribir(a.disco, p.respaldo))
  }

  /** The steps in order, starting from no documents and the directory `disco`. */
  function Plegar(disco: map<string, seq<byte>>, ps: seq<Paso>): (a: Pasada)
    ensures |a.docs| == |ps|
    decreases |ps|
  {
    if ps == [] then Pasada([], [], [], disco)
    else Avanzar(Plegar(disco, ps[..|ps| - 1]), ps[|ps| - 1])
  }

  lemma PlegarAgregar(disco: map<string, seq<byte>>, ps: seq<Paso>, i: nat)
    requires i < |ps|
    ensures Plegar(disco, ps[..i + 1]) == Avanzar(Plegar(disco, ps[..i]), ps[i])
  {
    assert ps[..i + 1][..i] == ps[..i];
  }

  /** Step `i` registers document `i`. */
  lemma {:induction false} PlegarDocs(disco: map<string, seq<byte>>, ps: seq<Paso>)
    ensures forall i :: 0 <= i < |ps| ==> Plegar(disco, ps).docs[i] == ps[i].doc
    decreases |ps|
  {
    if ps != [] {
      PlegarDocs(disco, ps[..|ps| - 1]);
    }
  }

  /** One error line per document that ended ERROR. */
  lemma {:induction false} PlegarErrores(disco: map<string, seq<byte>>, ps: seq<Paso>)
    ensures |Plegar(disco, ps).errores| == Cuenta(Plegar(disco, ps).docs, ErrorDoc)
    decreases |ps|
  {
    if ps != [] {
      var n := |ps| - 1;
      PlegarErrores(disco, ps[..n]);
      CuentaAgregar(Plegar(disco, ps[..n]).docs, ps[n].doc, ErrorDoc);
    }
  }

  /** A file written by some step and not overwritten by a later one holds
      that step's bytes at the end. */
  lemma {:induction false} PlegarConserva(disco: map<string, seq<byte>>, ps: seq<Paso>, i: nat)
    requires i < |ps| && ps[i].respaldo.Some?
    requires forall j :: i < j < |ps| && ps[j].respaldo.Some? ==> ps[j].respaldo.value.0 != ps[i].respaldo.value.0
    ensures ps[i].respaldo.value.0 in Plegar(disco, ps).disco
    ensures Plegar(disco, ps).disco[ps[i].respaldo.value.0] == ps[i].respaldo.value.1
    decreases |ps|
  {
    var n := |ps| - 1;
    if i < n {
      PlegarConserva(disco, ps[..n], i);
    }
  }

  /** The upload loop over `archivos`, file `i` with uuid `tokens[i]`, the
      POST responses taken from `red` in order, the backups written over
      `disco`. */
  function Subidas(archivos: seq<Archivo>, tokens: seq<string>, guardar: bool, idCarga: string,
                   red: seq<Transporte>, disco: map<string, seq<byte>>): (a: Pasada)
    requires |tokens| == |archivos| <= |red|
    ensures |a.docs| == |archivos|
  {
    Plegar(disco, Pasos(archivos, tokens, guardar, idCarga, red))
  }

  /** One POST per non-empty file when the batch id is set: steps that send
      exactly then send `Enviados` POSTs in all. */
  lemma {:induction false} EnviosCuenta(disco: map<string, seq<byte>>, ps: seq<Paso>, archivos: seq<Archivo>,
                                        idCarga: string)
    requires |ps| == |archivos|
    requires forall i :: 0 <= i < |ps| ==> (ps[i].envio.Some? <==> idCarga != "" && |archivos[i].contenido| > 0)
    ensures |Plegar(disco, ps).envios| == Enviados(archivos, idCarga)
    decreases |ps|
  {
    if ps != [] {
      var n := |ps| - 1;
      EnviosCuenta(disco, ps[..n], archivos[..n], idCarga);
    }
  }

  /** The pass sends one POST per non-empty file when the batch id is set, and
      none otherwise, and shows one error line per failed file. */
  lemma SubidasEnviados(archivos: seq<Archivo>, tokens: seq<string>, guardar: bool, idCarga: string,
                        red: seq<Transporte>, disco: map<string, seq<byte>>)
    requires |tokens| == |archivos| <= |red|
    ensures var a := Subidas(archivos, tokens, guardar, idCarga, red, disco);
            && |a.envios| == Enviados(archivos, idCarga)
            && |a.errores| == Cuenta(a.docs, ErrorDoc)
  {
    var ps := Pasos(archivos, tokens, guardar, idCarga, red);
    forall i | 0 <= i < |ps|
      ensures ps[i].envio.Some? <==> idCarga != "" && |archivos[i].contenido| > 0
    {
      PasosEn(archivos, tokens, guardar, idCarga, red, i);
    }
    EnviosCuenta(disco, ps, archivos, idCarga);
    PlegarErrores(disco, ps);
  }

  /** The per-file promises of the upload loop about the document of file `a`,
      submitted as `nombre`: it keeps the file name and is never left PENDIENTE;
      an empty file is rejected as "PDF vacío" with no submitted name and no
      backup path; a non-empty one carries its submitted name, and a backup
      path is recorded exactly for the non-empty files when backups are on. */
  predicate DocDeArchivo(d: Documento, a: Archivo, nombre: string, guardar: bool) {
    && d.nombreOriginal == a.nombre
    && (d.estado == Ok || d.estado == ErrorDoc)
    && (|a.contenido| == 0 ==>
          d.estado == ErrorDoc && d.error == ErrVacio && d.nombreEnviado == "" && d.rutaLocal == "")
    && (|a.contenido| > 0 ==> d.nombreEnviado == nombre)
    && (d.rutaLocal != "" <==> guardar && |a.contenido| > 0)
  }

  /** The pass registers one document per file, in input order, each as
      `DocDeArchivo` says; the OK and ERROR counts add up to the number of
      files. */
  lemma SubidasPorArchivo(archivos: seq<Archivo>, tokens: seq<string>, guardar: bool, idCarga: string,
                          red: seq<Transporte>, disco: map<string, seq<byte>>)
    requires |tokens| == |archivos| <= |red|
    ensures var a := Subidas(archivos, tokens, guardar, idCarga, red, disco);
            forall i :: 0 <= i < |archivos| ==>
              DocDeArchivo(a.docs[i], archivos[i], NombreUnico(archivos[i].nombre, tokens[i]), guardar)
    ensures var a := Subidas(archivos, tokens, guardar, idCarga, red, disco);
            Cuenta(a.docs, Ok) + Cuenta(a.docs, ErrorDoc) == |archivos|
  {
    var a := Subidas(archivos, tokens, guardar, idCarga, red, disco);
    var ps := Pasos(archivos, tokens, guardar, idCarga, red);
    PlegarDocs(disco, ps);
    forall i | 0 <= i < |archivos|
      ensures DocDeArchivo(a.docs[i], archivos[i], NombreUnico(archivos[i].nombre, tokens[i]), guardar)
    {
      PasosEn(archivos, tokens, guardar, idCarga, red, i);
    }
    CuentaTotal(a.docs);
  }

  /** With distinct submitted names, the backup directory after the pass holds
      every backed-up file's bytes at the path its document records. */
  lemma SubidasRespaldo(archivos: seq<Archivo>, tokens: seq<string>, guardar: bool, idCarga: string,
                        red: seq<Transporte>, disco: map<string, seq<byte>>, i: nat)
    requires |tokens| == |archivos| <= |red|
    requires forall k :: 0 <= k < |tokens| ==> TokenHex(tokens[k])
    requires forall k, l :: 0 <= k < l < |tokens| ==> tokens[k] != tokens[l]
    requires i < |archivos| && guardar && |archivos[i].contenido| > 0
    ensures var a := Subidas(archivos, tokens, guardar, idCarga, red, disco);
            && a.docs[i].rutaLocal == RutaRespaldo(NombreUnico(archivos[i].nombre, tokens[i]))
            && a.docs[i].rutaLocal in a.disco && a.disco[a.docs[i].rutaLocal] == archivos[i].contenido
  {
    var ps := Pasos(archivos, tokens, guardar, idCarga, red);
    PlegarDocs(disco, ps);
    PasosEn(archivos, tokens, guardar, idCarga, red, i);
    forall j | i < j < |ps| && ps[j].respaldo.Some?
      ensures ps[j].respaldo.value.0 != ps[i].respaldo.value.0
    {
      PasosEn(archivos, tokens, guardar, idCarga, red, j);
      NombreUnicoInyectivo(archivos[i].nombre, tokens[i], archivos[j].nombre, tokens[j]);
      RutaRespaldoInyectiva(NombreUnico(archivos[i].nombre, tokens[i]), NombreUnico(archivos[j].nombre, tokens[j]));
    }
    PlegarConserva(disco, ps, i);
  }

  /** The aggregate status and comment set at the end of the pass, from
      whether some file failed, the OK count and the number of files. */
  function Cierre(fallo: bool, ok: nat, total: nat): (r: (EstadoCarga, string))
    ensures r.0 == ErrorCarga <==> fallo
    ensures r.0 == ErrorCarga || r.0 == Completado
  {
    if fallo then (ErrorCarga, "Errores en carga. OK=" + Decimal(ok) + "/" + Decimal(total))
    else (Completado, "Carga completada correctamente. OK=" + Decimal(ok) + "/" + Decimal(total))
  }

  /** The comment alone determines the closing: equal comments mean the same
      status, the same OK count and the same number of files. */
  lemma CierreDetermina(b1: bool, ok1: nat, t1: nat, b2: bool, ok2: nat, t2: nat)
    requires Cierre(b1, ok1, t1).1 == Cierre(b2, ok2, t2).1
    ensures b1 == b2 && ok1 == ok2 && t1 == t2
  {
    var e, c := "Errores en carga. OK=", "Carga completada correctamente. OK=";
    var f1, f2 := Decimal(ok1) + "/" + Decimal(t1), Decimal(ok2) + "/" + Decimal(t2);
    FraccionTras(e, ok1, t1);
    FraccionTras(c, ok1, t1);
    FraccionTras(e, ok2, t2);
    FraccionTras(c, ok2, t2);
    assert e[0] == 'E' && c[0] == 'C';
    PrefijosDistintos(e, c, f1, f2, 0);
    PrefijosDistintos(c, e, f1, f2, 0);
    if b1 {
      FraccionInyectiva(e, ok1, t1, ok2, t2);
    } else {
      FraccionInyectiva(c, ok1, t1, ok2, t2);
    }
  }

  /** The closing of a pass over `docs`. */
  function CierreCarga(docs: seq<Documento>): (r: (EstadoCarga, string))
    ensures r.0 == ErrorCarga <==> Cuenta(docs, ErrorDoc) > 0
    ensures r.0 == ErrorCarga || r.0 == Completado
  {
    Cierre(Cuenta(docs, ErrorDoc) > 0, Cuenta(docs, Ok), |docs|)
  }

  /** Two passes whose comments agree had as many OK documents and as many
      documents as each other, and their batches got the same status. */
  lemma {:induction false} CierreCargaDetermina(d1: seq<Documento>, d2: seq<Documento>)
    requires CierreCarga(d1).1 == CierreCarga(d2).1
    ensures CierreCarga(d1).0 == CierreCarga(d2).0
    ensures Cuenta(d1, Ok) == Cuenta(d2, Ok) && |d1| == |d2|
  {
    var b1, ok1, t1 := Cuenta(d1, ErrorDoc) > 0, Cuenta(d1, Ok), |d1|;
    var b2, ok2, t2 := Cuenta(d2, ErrorDoc) > 0, Cuenta(d2, Ok), |d2|;
    assert CierreCarga(d1) == Cierre(b1, ok1, t1);
    assert CierreCarga(d2) == Cierre(b2, ok2, t2);
    CierreDetermina(b1, ok1, t1, b2, ok2, t2);
  }

  /** Once every document ended OK or ERROR, the batch ends ERROR exactly when
      some document failed and COMPLETADO exactly when all went through. */
  lemma CierreCargaEstado(docs: seq<Documento>)
    requires forall i :: 0 <= i < |docs| ==> docs[i].estado == Ok || docs[i].estado == ErrorDoc
    ensures CierreCarga(docs).0 == ErrorCarga <==> exists i :: 0 <= i < |docs| && docs[i].estado == ErrorDoc
    ensures CierreCarga(docs).0 == Completado <==> forall i :: 0 <= i < |docs| ==> docs[i].estado == Ok
  {
    CuentaPositiva(docs, ErrorDoc);
  }

  /** Step `i` of a pass is file `i` attempted under its submitted name, its
      POST answered by the response after those the earlier files consumed; it
      sends a POST exactly when the file is non-empty and the batch id is set. */
  lemma PasoSiguiente(archivos: seq<Archivo>, tokens: seq<string>, guardar: bool, idCarga: string,
                      red: seq<Transporte>, i: nat, k: nat)
    requires |tokens| == |archivos| <= |red| && i < |archivos|
    requires k == Enviados(archivos[..i], idCarga)
    ensures var t := red[k];
            var p := SubirArchivo(archivos[i], NombreUnico(archivos[i].nombre, tokens[i]), guardar, idCarga, t);
            && Pasos(archivos, tokens, guardar, idCarga, red)[i] == p
            && Enviados(archivos[..i + 1], idCarga)
               == Enviados(archivos[..i], idCarga) + |Lista(p.envio)|
  {
    var t := red[k];
    var p := SubirArchivo(archivos[i], NombreUnico(archivos[i].nombre, tokens[i]), guardar, idCarga, t);
    assert Pasos(archivos, tokens, guardar, idCarga, red)[i] == p by {
      PasosEn(archivos, tokens, guardar, idCarga, red, i);
    }
    var envia := if idCarga != "" && |archivos[i].contenido| > 0 then 1 else 0;
    assert Enviados(archivos[..i + 1], idCarga) == Enviados(archivos[..i], idCarga) + envia by {
      assert archivos[..i + 1][..i] == archivos[..i];
      assert archivos[..i + 1][i] == archivos[i];
    }
    assert |Lista(p.envio)| == envia;
  }

  /** The body of the upload loop for one file, whose uuid is `token`: builds
      its document, writes the backup and sends the POST (answered by `t`) as
      `SubirArchivo` says, updates the OK count `ok0` or the error lines
      `errores0`, and appends the document to the batch. */
  method SubirArchivoEn(reg: Registro, disco: Disco, idCarga: string, archivo: Archivo, token: string,
                        guardar: bool, t: Transporte, ok0: nat, errores0: seq<string>)
    returns (doc: Documento, envio: Option<Envio>, ok: nat, errores: seq<string>)
    modifies reg`documentos, disco
    ensures var p := SubirArchivo(archivo, NombreUnico(archivo.nombre, token), guardar, idCarga, t);
            && doc == p.doc && envio == p.envio
            && disco.archivos == Escribir(old(disco.archivos), p.respaldo)
            && reg.documentos == old(reg.documentos)[idCarga := DocumentosEn(old(reg.documentos), idCarga) + [doc]]
            && ok == ok0 + (if doc.estado == Ok then 1 else 0)
            && errores == errores0 + LineaError(doc)
  {
    ghost var p := SubirArchivo(archivo, NombreUnico(archivo.nombre, token), guardar, idCarga, t);
    ok, errores := ok0, errores0;
    doc := DocInicial(archivo.nombre);
    envio := None;
    if |archivo.contenido| == 0 {
      doc := Rechazado(doc, ErrVacio);
      errores := errores + [archivo.nombre + ": " + ErrVacio];
      assert doc == p.doc && envio == p.envio && p.respaldo == None;
    } else {
      var nombreEnvio := NombreUnico(archivo.nombre, token);
      doc := doc.(nombreEnviado := nombreEnvio);
      if guardar {
        var ruta := RutaRespaldo(nombreEnvio);
        disco.Escribir(ruta, archivo.contenido);
        doc := doc.(rutaLocal := ruta);
      }
      assert disco.archivos == Escribir(old(disco.archivos), p.respaldo);
      if idCarga != "" {
        envio := Some(Envio(nombreEnvio, archivo.contenido, idCarga));
      }
      assert envio == p.envio;
      assert doc == Preparado(archivo, nombreEnvio, guardar);
      var r := SubirPdf(idCarga, t);
      match r
      case Exito(n) =>
        doc := Aceptado(doc, n);
        ok := ok + 1;
      case Fallo(m) =>
        doc := Rechazado(doc, m);
        errores := errores + [archivo.nombre + ": " + m];
    }
    reg.RegistrarDocumento(idCarga, doc);
  }

  /** One turn of the upload loop, stated over what the pass has produced
      so far: `hecho` is the fold of the first `i` steps over the directory
      `d0`, and the registry holds the batch's `previos` documents followed by
      the ones registered by the pass. Attempting file `i` extends all of it
      by step `i`. */
  method SubirSiguiente(reg: Registro, disco: Disco, idCarga: string, archivos: seq<Archivo>, guardar: bool,
                        tokens: seq<string>, red: seq<Transporte>, i: nat, ok0: nat, errores0: seq<string>,
                        envios0: seq<Envio>, ghost m0: map<string, seq<Documento>>,
                        ghost d0: map<string, seq<byte>>, ghost previos: seq<Documento>, ghost hecho0: Pasada)
    returns (ok: nat, errores: seq<string>, envios: seq<Envio>, ghost hecho: Pasada)
    requires |tokens| == |archivos| <= |red| && i < |archivos|
    requires hecho0 == Plegar(d0, Pasos(archivos, tokens, guardar, idCarga, red)[..i])
    requires errores0 == hecho0.errores && envios0 == hecho0.envios && disco.archivos == hecho0.disco
    requires |envios0| == Enviados(archivos[..i], idCarga)
    requires reg.documentos == m0[idCarga := previos + hecho0.docs]
    requires ok0 == Cuenta(hecho0.docs, Ok)
    modifies reg`documentos, disco
    ensures hecho == Plegar(d0, Pasos(archivos, tokens, guardar, idCarga, red)[..i + 1])
    ensures errores == hecho.errores && envios == hecho.envios && disco.archivos == hecho.disco
    ensures |envios| == Enviados(archivos[..i + 1], idCarga)
    ensures reg.documentos == m0[idCarga := previos + hecho.docs]
    ensures ok == Cuenta(hecho.docs, Ok)
  {
    ghost var ps := Pasos(archivos, tokens, guardar, idCarga, red);
    PasoSiguiente(archivos, tokens, guardar, idCarga, red, i, |envios0|);
    PlegarAgregar(d0, ps, i);
    var doc, envio;
    doc, envio, ok, errores := SubirArchivoEn(reg, disco, idCarga, archivos[i], tokens[i], guardar, red[|envios0|],
                                              ok0, errores0);
    envios := envios0 + Lista(envio);
    CuentaAgregar(hecho0.docs, doc, Ok);
    Asociar(previos, hecho0.docs, [doc]);
    RegistrarTras(m0, idCarga, previos + hecho0.docs, doc);
    hecho := Avanzar(hecho0, ps[i]);
  }

  /** The upload loop: each file is attempted in order and its document
      appended to the batch. Returns the OK count, the error lines shown to the
      user and the POSTs sent. */
  method SubirArchivos(reg: Registro, disco: Disco, idCarga: string, archivos: seq<Archivo>, guardar: bool,
                       tokens: seq<string>, red: seq<Transporte>)
    returns (ok: nat, errores: seq<string>, envios: seq<Envio>)
    requires |tokens| == |archivos| <= |red|
    requires idCarga in reg.documentos
    modifies reg`documentos, disco
    ensures var a := Subidas(archivos, tokens, guardar, idCarga, red, old(disco.archivos));
            && reg.documentos == old(reg.documentos)[idCarga := old(reg.documentos)[idCarga] + a.docs]
            && disco.archivos == a.disco
            && envios == a.envios
            && ok == Cuenta(a.docs, Ok)
            && errores == a.errores
  {
    ghost var previos := reg.documentos[idCarga];
    ghost var ps := Pasos(archivos, tokens, guardar, idCarga, red);
    ghost var hecho := Pasada([], [], [], disco.archivos);
    ok, errores, envios := 0, [], [];
    var i := 0;
    assert ps[..0] == [];
    assert previos + hecho.docs == previos;
    ReescribirMapa(reg.documentos, idCarga);
    while i < |archivos|
      invariant 0 <= i <= |archivos|
      invariant hecho == Plegar(old(disco.archivos), ps[..i])
      invariant errores == hecho.errores && envios == hecho.envios && disco.archivos == hecho.disco
      invariant |envios| == Enviados(archivos[..i], idCarga)
      invariant reg.documentos == old(reg.documentos)[idCarga := previos + hecho.docs]
      invariant ok == Cuenta(hecho.docs, Ok)
    {
      ok, errores, envios, hecho := SubirSiguiente(reg, disco, idCarga, archivos, guardar, tokens, red, i, ok,
                                                   errores, envios, old(reg.documentos), old(disco.archivos),
                                                   previos, hecho);
      i := i + 1;
    }
    assert ps[..|ps|] == ps;
  }

  /** One pass for a batch that already exists: the upload loop, then the
      batch's status and comment are set from the OK count and whether any
      file failed. */
  method ProcesarArchivos(reg: Registro, disco: Disco, idCarga: string, archivos: seq<Archivo>, guardar: bool,
                          tokens: seq<string>, red: seq<Transporte>)
    returns (ok: nat, errores: seq<string>, envios: seq<Envio>)
    requires |tokens| == |archivos| <= |red|
    requires idCarga in reg.documentos
    modifies reg, disco
    ensures var a := Subidas(archivos, tokens, guardar, idCarga, red, old(disco.archivos));
            && reg.documentos == old(reg.documentos)[idCarga := old(reg.documentos)[idCarga] + a.docs]
            && disco.archivos == a.disco
            && envios == a.envios
            && ok == Cuenta(a.docs, Ok)
            && errores == a.errores
            && reg.cargas == ActualizarPrimera(old(reg.cargas), idCarga, CierreCarga(a.docs).0, CierreCarga(a.docs).1)
  {
    ok, errores, envios := SubirArchivos(reg, disco, idCarga, archivos, guardar, tokens, red);
    SubidasEnviados(archivos, tokens, guardar, idCarga, red, old(disco.archivos));
    var total := |archivos|;
    if |errores| > 0 {
      reg.ActualizarCarga(idCarga, ErrorCarga, "Errores en carga. OK=" + Decimal(ok) + "/" + Decimal(total));
    } else {
      reg.ActualizarCarga(idCarga, Completado,
                          "Carga completada correctamente. OK=" + Decimal(ok) + "/" + Decimal(total));
    }
  }

  /** "Iniciar carga": with at least one file selected, creates the batch under
      the current id and runs the pass; the new batch ends first in the list
      with its aggregate status, and holds exactly one document per file, in
      input order. With no file selected nothing happens. */
  method IniciarCarga(reg: Registro, disco: Disco, idCarga: string, fecha: string, archivos: seq<Archivo>,
                      guardar: bool, tokens: seq<string>, red: seq<Transporte>)
    returns (envios: seq<Envio>)
    requires |tokens| == |archivos| <= |red|
    modifies reg, disco
    ensures |archivos| == 0 ==>
              && reg.cargas == old(reg.cargas) && reg.documentos == old(reg.documentos)
              && disco.archivos == old(disco.archivos) && envios == []
    ensures |archivos| > 0 ==>
              var a := Subidas(archivos, tokens, guardar, idCarga, red, old(disco.archivos));
              && reg.cargas == [Carga(idCarga, fecha, CierreCarga(a.docs).0, CierreCarga(a.docs).1)] + old(reg.cargas)
              && reg.documentos == old(reg.documentos)[idCarga := a.docs]
              && disco.archivos == a.disco
              && envios == a.envios
  {
    envios := [];
    if |archivos| > 0 {
      ghost var a := Subidas(archivos, tokens, guardar, idCarga, red, disco.archivos);
      ghost var anteriores := reg.cargas;
      ghost var documentos := reg.documentos;
      var cargaId := reg.CrearCarga(idCarga, fecha);
      var ok, errores;
      ok, errores, envios := ProcesarArchivos(reg, disco, cargaId, archivos, guardar, tokens, red);
      ActualizarPrimeraCabeza(Carga(idCarga, fecha, EnProceso, "Carga iniciada"), anteriores,
                              CierreCarga(a.docs).0, CierreCarga(a.docs).1);
      assert [] + a.docs == a.docs;
      assert reg.documentos == documentos[idCarga := []][idCarga := [] + a.docs];
      ActualizarMapa(documentos, idCarga, [], a.docs);
    }
  }

  /** A batch of three files whose second one is empty, the other two
      accepted: the documents end OK, ERROR "PDF vacío" and OK, the second
      file's POST slot goes to the third file, and the batch ends ERROR with
      "OK=2/3". */
  lemma CargaConVacio(archivos: seq<Archivo>, tokens: seq<string>, guardar: bool, idCarga: string,
                      red: seq<Transporte>, disco: map<string, seq<byte>>)
    requires |archivos| == |tokens| == 3 && |red| >= 3
    requires |archivos[0].contenido| > 0 && archivos[1].contenido == [] && |archivos[2].contenido| > 0
    requires idCarga != ""
    requires forall k :: 0 <= k < 2 ==> SubirPdf(idCarga, red[k]).Exito?
    ensures var a := Subidas(archivos, tokens, guardar, idCarga, red, disco);
            && a.docs[0].estado == Ok && a.docs[2].estado == Ok
            && a.docs[1] == Rechazado(DocInicial(archivos[1].nombre), ErrVacio)
            && |a.envios| == 2
            && CierreCarga(a.docs) == (ErrorCarga, "Errores en carga. OK=2/3")
  {
    var a := Subidas(archivos, tokens, guardar, idCarga, red, disco);
    var ps := Pasos(archivos, tokens, guardar, idCarga, red);
    assert a.docs[0] == ps[0].doc && a.docs[1] == ps[1].doc && a.docs[2] == ps[2].doc by {
      PlegarDocs(disco, ps);
    }
    assert ps[0].doc.estado == Ok by {
      PasosEn(archivos, tokens, guardar, idCarga, red, 0);
    }
    assert ps[1].doc == Rechazado(DocInicial(archivos[1].nombre), ErrVacio) by {
      PasosEn(archivos, tokens, guardar, idCarga, red, 1);
    }
    assert ps[2].doc.estado == Ok by {
      assert Enviados(archivos[..2], idCarga) == 1 by {
        assert archivos[..2][..1] == archivos[..1] && archivos[..1][..0] == [];
      }
      PasosEn(archivos, tokens, guardar, idCarga, red, 2);
    }
    assert |a.envios| == 2 by {
      SubidasEnviados(archivos, tokens, guardar, idCarga, red, disco);
      EnviadosTres(archivos, idCarga);
    }
    CuentaTres(a.docs);
  }

  /** The counts and the closing of a list of three documents. */
  lemma CuentaTres(docs: seq<Documento>)
    requires |docs| == 3 && docs[0].estado == Ok && docs[1].estado == ErrorDoc && docs[2].estado == Ok
    ensures Cuenta(docs, Ok) == 2 && Cuenta(docs, ErrorDoc) == 1
    ensures CierreCarga(docs) == (ErrorCarga, "Errores en carga. OK=2/3")
  {
    assert Decimal(2) == "2" && Decimal(3) == "3";
    var c := "Errores en carga. OK=" + Decimal(2) + "/" + Decimal(3);
    assert c == "Errores en carga. OK=2/3";
    assert docs[..1][..0] == [];
    assert Cuenta(docs[..1], Ok) == 1 && Cuenta(docs[..1], ErrorDoc) == 0;
    assert docs[..2][..1] == docs[..1];
    assert Cuenta(docs[..2], Ok) == 1 && Cuenta(docs[..2], ErrorDoc) == 1;
    assert docs[..2] == docs[..|docs| - 1];
    assert CierreCarga(docs).1 == c;
  }

  lemma EnviadosTres(archivos: seq<Archivo>, idCarga: string)
    requires |archivos| == 3 && idCarga != ""
    requires |archivos[0].contenido| > 0 && archivos[1].contenido == [] && |archivos[2].contenido| > 0
    ensures Enviados(archivos[..1], idCarga) == 1
    ensures Enviados(archivos[..2], idCarga) == 1
    ensures Enviados(archivos, idCarga) == 2
  {
    assert archivos[..1][..0] == [];
    assert Enviados(archivos[..1], idCarga) == 1;
    assert archivos[..2][..1] == archivos[..1];
    assert Enviados(archivos[..2], idCarga) == 1;
    assert archivos[..2] == archivos[..|archivos| - 1];
  }
}
