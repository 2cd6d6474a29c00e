/** "Reintentar carga": every document of a batch that ended ERROR is sent
    again from its local backup, under the name it was first submitted with and
    with the same batch id, and is updated in place in the batch's list.

    The responses of the POSTs are `red`, consumed in order, one per POST
    actually sent; the backup directory is only read. */
module Reintento {
  import opened Comun
  import opened Numeros
  import opened Rutas
  import opened Api
  import opened Cargas
  import opened Subida

  const ErrSinRespaldo: string := "No existe respaldo local para reintentar (habilita 'Guardar respaldo local')"
  const SinDocumentos: string := "No hay documentos asociados para reintentar"
  const SinFallidos: string := "No hay documentos en ERROR para reintentar"
  const Reintentando: string := "Reintentando carga"

  /** What retrying one document produces: the updated document and the POST
      it sent (if any). */
  datatype Reintento = Reintento(doc: Documento, envio: Option<Envio>)

  /** One iteration of the retry loop for document `d` when the POST (if sent)
      is answered with `t`. Without a recorded backup path, or when nothing
      exists at that path, the document fails with `ErrSinRespaldo`; otherwise
      the backed-up bytes are uploaded again under `d.nombreEnviado`. The
      document keeps its names and backup path and ends OK or ERROR; it is sent
      exactly when the backup exists and the batch id is set, and ends OK
      exactly when the upload succeeds. */
  function ReintentarDocumento(d: Documento, idCarga: string, disco: map<string, seq<byte>>, t: Transporte)
    : (r: Reintento)
    ensures r.doc.nombreOriginal == d.nombreOriginal
    ensures r.doc.nombreEnviado == d.nombreEnviado
    ensures r.doc.rutaLocal == d.rutaLocal
    ensures r.doc.estado == Ok || r.doc.estado == ErrorDoc
    ensures d.rutaLocal == "" || d.rutaLocal !in disco ==>
              r.doc == Rechazado(d, ErrSinRespaldo) && r.envio == None
    ensures r.envio.Some? <==> d.rutaLocal != "" && d.rutaLocal in disco && idCarga != ""
    ensures r.envio.Some? ==> r.envio.value == Envio(d.nombreEnviado, disco[d.rutaLocal], idCarga)
    ensures r.doc.estado == Ok <==> d.rutaLocal != "" && d.rutaLocal in disco && SubirPdf(idCarga, t).Exito?
    ensures r.doc.estado == Ok ==> r.doc.error == ""
    ensures d.rutaLocal != "" && d.rutaLocal in disco ==>
              r.doc == match SubirPdf(idCarga, t)
                       case Exito(n) => Aceptado(d, n)
                       case Fallo(m) => Rechazado(d, m)
  {
    if d.rutaLocal == "" || d.rutaLocal !in disco then Reintento(Rechazado(d, ErrSinRespaldo), None)
    else
      var contenido := disco[d.rutaLocal];
      var envio := if idCarga == "" then None else Some(Envio(d.nombreEnviado, contenido, idCarga));
      match SubirPdf(idCarga, t)
      case Exito(n) => Reintento(Aceptado(d, n), envio)
      case Fallo(m) => Reintento(Rechazado(d, m), envio)
  }

  /** The positions of the documents that ended ERROR, in list order: the
      documents the retry attempts. */
  function Fallidos(docs: seq<Documento>): (idx: seq<nat>)
    ensures |idx| <= |docs|
    ensures forall k :: 0 <= k < |idx| ==> idx[k] < |docs| && docs[idx[k]].estado == ErrorDoc
    decreases |docs|
  {
    if docs == [] then []
    else
      var n := |docs| - 1;
      Fallidos(docs[..n]) + (if docs[n].estado == ErrorDoc then [n] else [])
  }

  /** The positions come in increasing order, so no document is attempted twice. */
  lemma {:induction false} FallidosCrecientes(docs: seq<Documento>)
    ensures forall k, l :: 0 <= k < l < |Fallidos(docs)| ==> Fallidos(docs)[k] < Fallidos(docs)[l]
    decreases |docs|
  {
    if docs != [] {
      FallidosCrecientes(docs[..|docs| - 1]);
    }
  }

  /** There are as many attempts as ERROR documents. */
  lemma {:induction false} FallidosCuenta(docs: seq<Documento>)
    ensures |Fallidos(docs)| == Cuenta(docs, ErrorDoc)
    decreases |docs|
  {
    if docs != [] {
      FallidosCuenta(docs[..|docs| - 1]);
    }
  }

  /** Every ERROR document is attempted. */
  lemma {:induction false} FallidosCompletos(docs: seq<Documento>, j: nat)
    requires j < |docs| && docs[j].estado == ErrorDoc
    ensures j in Fallidos(docs)
    decreases |docs|
  {
    var n := |docs| - 1;
    if j < n {
      assert docs[..n][j] == docs[j];
      FallidosCompletos(docs[..n], j);
      var k :| 0 <= k < |Fallidos(docs[..n])| && Fallidos(docs[..n])[k] == j;
      assert Fallidos(docs)[k] == j;
    } else {
      assert Fallidos(docs)[|Fallidos(docs)| - 1] == j;
    }
  }

  /** The body of the retry loop as a function of the document and the
      response to its POST. */
  function PasoReintento(idCarga: string, disco: map<string, seq<byte>>): (Documento, Transporte) -> Reintento {
    (d: Documento, t: Transporte) => ReintentarDocumento(d, idCarga, disco, t)
  }

  /** What the counts of the retry loop rely on from its body: every attempt
      ends OK or ERROR and keeps the document's names and backup path. */
  ghost predicate Termina(paso: (Documento, Transporte) -> Reintento) {
    forall d: Documento, t: Transporte ::
      && (paso(d, t).doc.estado == Ok || paso(d, t).doc.estado == ErrorDoc)
      && paso(d, t).doc.nombreOriginal == d.nombreOriginal
      && paso(d, t).doc.nombreEnviado == d.nombreEnviado
      && paso(d, t).doc.rutaLocal == d.rutaLocal
  }

  lemma PasoReintentoTermina(idCarga: string, disco: map<string, seq<byte>>)
    ensures Termina(PasoReintento(idCarga, disco))
  {
  }

  /** What the retry loop has produced so far: the batch's list with the
      attempted documents updated, the OK count, the error lines and the POSTs
      sent. */
  datatype Repaso = Repaso(docs: seq<Documento>, ok: nat, errores: seq<string>, envios: seq<Envio>)

  /** The effect of the attempt `p` at position `j` on what the loop has
      produced. */
  function Seguir(a: Repaso, j: nat, p: Reintento): Repaso
    requires j < |a.docs|
  {
    Repaso(a.docs[j := p.doc], a.ok + (if p.doc.estado == Ok then 1 else 0), a.errores + LineaError(p.doc),
           a.envios + Lista(p.envio))
  }

  /** The retry loop with body `paso` over the positions `idx` of `docs`: each
      document is retried as it stands when its turn comes and replaced by the
      result; the POSTs are answered by `red` in order. */
  function Repasar(paso: (Documento, Transporte) -> Reintento, docs: seq<Documento>, idx: seq<nat>,
                   red: seq<Transporte>): (r: Repaso)
    requires forall k :: 0 <= k < |idx| ==> idx[k] < |docs|
    requires |idx| <= |red|
    ensures |r.docs| == |docs|
    ensures |r.envios| <= |idx|
    decreases |idx|
  {
    if idx == [] then Repaso(docs, 0, [], [])
    else
      var n := |idx| - 1;
      var a := Repasar(paso, docs, idx[..n], red);
      Seguir(a, idx[n], paso(a.docs[idx[n]], red[|a.envios|]))
  }

  lemma RepasarAgregar(paso: (Documento, Transporte) -> Reintento, docs: seq<Documento>, idx: seq<nat>,
                       red: seq<Transporte>, i: nat)
    requires forall k :: 0 <= k < |idx| ==> idx[k] < |docs|
    requires |idx| <= |red| && i < |idx|
    ensures var a := Repasar(paso, docs, idx[..i], red);
            Repasar(paso, docs, idx[..i + 1], red) == Seguir(a, idx[i], paso(a.docs[idx[i]], red[|a.envios|]))
  {
    assert idx[..i + 1][..i] == idx[..i];
  }

  /** Every attempt ends OK or ERROR: the OK count and the error lines add up
      to the number of attempts. */
  lemma {:induction false} RepasarCuenta(paso: (Documento, Transporte) -> Reintento, docs: seq<Documento>,
                                         idx: seq<nat>, red: seq<Transporte>)
    requires Termina(paso)
    requires forall k :: 0 <= k < |idx| ==> idx[k] < |docs|
    requires |idx| <= |red|
    ensures var r := Repasar(paso, docs, idx, red);
            r.ok + |r.errores| == |idx|
    decreases |idx|
  {
    if idx != [] {
      RepasarCuenta(paso, docs, idx[..|idx| - 1], red);
    }
  }

  /** A document that is not attempted is left exactly as it was. */
  lemma {:induction false} RepasarIntacto(paso: (Documento, Transporte) -> Reintento, docs: seq<Documento>,
                                          idx: seq<nat>, red: seq<Transporte>, j: nat)
    requires forall k :: 0 <= k < |idx| ==> idx[k] < |docs|
    requires |idx| <= |red| && j < |docs| && j !in idx
    ensures Repasar(paso, docs, idx, red).docs[j] == docs[j]
    decreases |idx|
  {
    if idx != [] {
      var n := |idx| - 1;
      assert j !in idx[..n];
      RepasarIntacto(paso, docs, idx[..n], red, j);
    }
  }

  /** No document loses its names or its backup path. */
  lemma {:induction false} RepasarConservaNombres(paso: (Documento, Transporte) -> Reintento,
                                                  docs: seq<Documento>, idx: seq<nat>, red: seq<Transporte>, j: nat)
    requires Termina(paso)
    requires forall k :: 0 <= k < |idx| ==> idx[k] < |docs|
    requires |idx| <= |red| && j < |docs|
    ensures var d := Repasar(paso, docs, idx, red).docs[j];
            && d.nombreOriginal == docs[j].nombreOriginal
            && d.nombreEnviado == docs[j].nombreEnviado
            && d.rutaLocal == docs[j].rutaLocal
    decreases |idx|
  {
    if idx != [] {
      RepasarConservaNombres(paso, docs, idx[..|idx| - 1], red, j);
    }
  }

  /** An attempted document ends OK or ERROR. */
  lemma {:induction false} RepasarIntentado(paso: (Documento, Transporte) -> Reintento, docs: seq<Documento>,
                                            idx: seq<nat>, red: seq<Transporte>, k: nat)
    requires Termina(paso)
    requires forall k :: 0 <= k < |idx| ==> idx[k] < |docs|
    requires |idx| <= |red| && k < |idx|
    ensures var r := Repasar(paso, docs, idx, red);
            r.docs[idx[k]].estado == Ok || r.docs[idx[k]].estado == ErrorDoc
    decreases |idx|
  {
    var n := |idx| - 1;
    var a := Repasar(paso, docs, idx[..n], red);
    var p := paso(a.docs[idx[n]], red[|a.envios|]);
    var r := Seguir(a, idx[n], p);
    assert Repasar(paso, docs, idx, red) == r;
    if k < n && idx[k] != idx[n] {
      assert a.docs[idx[k]].estado == Ok || a.docs[idx[k]].estado == ErrorDoc by {
        assert idx[..n][k] == idx[k];
        RepasarIntentado(paso, docs, idx[..n], red, k);
      }
      assert r.docs[idx[k]] == a.docs[idx[k]];
    } else {
      assert r.docs[idx[k]] == p.doc;
    }
  }

  /** Replacing one document moves a count by what was there and what
      replaces it. */
  lemma {:induction false} CuentaReemplazar(docs: seq<Documento>, j: nat, d: Documento, e: EstadoDoc)
    requires j < |docs|
    ensures Cuenta(docs[j := d], e) + (if docs[j].estado == e then 1 else 0)
            == Cuenta(docs, e) + (if d.estado == e then 1 else 0)
    decreases |docs|
  {
    var n := |docs| - 1;
    assert docs[j := d][..n] == if j < n then docs[..n][j := d] else docs[..n];
    if j < n {
      CuentaReemplazar(docs[..n], j, d, e);
    }
  }

  /** Attempting distinct ERROR documents: each attempt that fails again leaves
      an error line, so the number of ERROR documents drops by the attempts and
      rises by the error lines. */
  lemma {:induction false} RepasarCuentaErrores(paso: (Documento, Transporte) -> Reintento, docs: seq<Documento>,
                                                idx: seq<nat>, red: seq<Transporte>)
    requires forall k :: 0 <= k < |idx| ==> idx[k] < |docs| && docs[idx[k]].estado == ErrorDoc
    requires forall k, l :: 0 <= k < l < |idx| ==> idx[k] != idx[l]
    requires |idx| <= |red|
    ensures var r := Repasar(paso, docs, idx, red);
            Cuenta(r.docs, ErrorDoc) + |idx| == Cuenta(docs, ErrorDoc) + |r.errores|
    decreases |idx|
  {
    if idx != [] {
      var n := |idx| - 1;
      var a := Repasar(paso, docs, idx[..n], red);
      var d := paso(a.docs[idx[n]], red[|a.envios|]).doc;
      assert Cuenta(a.docs, ErrorDoc) + n == Cuenta(docs, ErrorDoc) + |a.errores| by {
        RepasarCuentaErrores(paso, docs, idx[..n], red);
      }
      assert a.docs[idx[n]].estado == ErrorDoc by {
        assert idx[n] !in idx[..n];
        RepasarIntacto(paso, docs, idx[..n], red, idx[n]);
      }
      CuentaReemplazar(a.docs, idx[n], d, ErrorDoc);
    }
  }

  /** Attempting distinct ERROR documents: each attempt that goes through adds
      one OK document and one to the OK count. */
  lemma {:induction false} RepasarCuentaOk(paso: (Documento, Transporte) -> Reintento, docs: seq<Documento>,
                                           idx: seq<nat>, red: seq<Transporte>)
    requires forall k :: 0 <= k < |idx| ==> idx[k] < |docs| && docs[idx[k]].estado == ErrorDoc
    requires forall k, l :: 0 <= k < l < |idx| ==> idx[k] != idx[l]
    requires |idx| <= |red|
    ensures var r := Repasar(paso, docs, idx, red);
            Cuenta(r.docs, Ok) == Cuenta(docs, Ok) + r.ok
    decreases |idx|
  {
    if idx != [] {
      var n := |idx| - 1;
      var a := Repasar(paso, docs, idx[..n], red);
      var d := paso(a.docs[idx[n]], red[|a.envios|]).doc;
      assert Cuenta(a.docs, Ok) == Cuenta(docs, Ok) + a.ok by {
        RepasarCuentaOk(paso, docs, idx[..n], red);
      }
      assert a.docs[idx[n]].estado == ErrorDoc by {
        assert idx[n] !in idx[..n];
        RepasarIntacto(paso, docs, idx[..n], red, idx[n]);
      }
      CuentaReemplazar(a.docs, idx[n], d, Ok);
    }
  }

  /** The status and comment the batch gets after retrying `total` documents. */
  function CierreReintento(ok: nat, errores: seq<string>, total: nat): (r: (EstadoCarga, string))
    ensures r.0 == ErrorCarga <==> |errores| > 0
    ensures r.0 == ErrorCarga || r.0 == Completado
  {
    if |errores| > 0 then (ErrorCarga, "Reintento con errores. OK=" + Decimal(ok) + "/" + Decimal(total))
    else (Completado, "Reintento exitoso. OK=" + Decimal(ok) + "/" + Decimal(total))
  }

  /** The retry comment alone determines the closing: equal comments mean the
      same status, the same OK count and the same number of documents retried. */
  lemma CierreReintentoDetermina(ok1: nat, e1: seq<string>, t1: nat, ok2: nat, e2: seq<string>, t2: nat)
    requires CierreReintento(ok1, e1, t1).1 == CierreReintento(ok2, e2, t2).1
    ensures CierreReintento(ok1, e1, t1).0 == CierreReintento(ok2, e2, t2).0
    ensures ok1 == ok2 && t1 == t2
  {
    var e, c := "Reintento con errores. OK=", "Reintento exitoso. OK=";
    var f1, f2 := Decimal(ok1) + "/" + Decimal(t1), Decimal(ok2) + "/" + Decimal(t2);
    FraccionTras(e, ok1, t1);
    FraccionTras(c, ok1, t1);
    FraccionTras(e, ok2, t2);
    FraccionTras(c, ok2, t2);
    assert e[10] == 'c' && c[10] == 'e';
    PrefijosDistintos(e, c, f1, f2, 10);
    PrefijosDistintos(c, e, f1, f2, 10);
    if |e1| > 0 {
      FraccionInyectiva(e, ok1, t1, ok2, t2);
    } else {
      FraccionInyectiva(c, ok1, t1, ok2, t2);
    }
  }

  /** Retrying the ERROR documents of a batch whose documents all ended OK or
      ERROR leaves every document OK or ERROR. */
  lemma RepasarFallidosTermina(docs: seq<Documento>, idCarga: string, disco: map<string, seq<byte>>,
                               red: seq<Transporte>, j: nat)
    requires forall j :: 0 <= j < |docs| ==> docs[j].estado == Ok || docs[j].estado == ErrorDoc
    requires |Fallidos(docs)| <= |red| && j < |docs|
    ensures var r := Repasar(PasoReintento(idCarga, disco), docs, Fallidos(docs), red);
            r.docs[j].estado == Ok || r.docs[j].estado == ErrorDoc
  {
    var paso := PasoReintento(idCarga, disco);
    var idx := Fallidos(docs);
    if j in idx {
      PasoReintentoTermina(idCarga, disco);
      var k :| 0 <= k < |idx| && idx[k] == j;
      RepasarIntentado(paso, docs, idx, red, k);
    } else {
      RepasarIntacto(paso, docs, idx, red, j);
    }
  }

  /** Retrying every ERROR document of a batch whose documents all ended OK or
      ERROR: the batch ends COMPLETADO exactly when all its documents are now
      OK and ERROR exactly when some document still failed; the OK count and
      the error lines cover every attempt; documents that were OK are left as
      they were. */
  lemma RepasarFallidos(docs: seq<Documento>, idCarga: string, disco: map<string, seq<byte>>,
                        red: seq<Transporte>)
    requires forall j :: 0 <= j < |docs| ==> docs[j].estado == Ok || docs[j].estado == ErrorDoc
    requires |Fallidos(docs)| <= |red|
    ensures var idx := Fallidos(docs);
            var r := Repasar(PasoReintento(idCarga, disco), docs, idx, red);
            var cierre := CierreReintento(r.ok, r.errores, |idx|);
            && r.ok + |r.errores| == |idx|
            && (cierre.0 == Completado <==> forall j :: 0 <= j < |docs| ==> r.docs[j].estado == Ok)
            && (cierre.0 == ErrorCarga <==> exists j :: 0 <= j < |docs| && r.docs[j].estado == ErrorDoc)
            && (forall j :: 0 <= j < |docs| && docs[j].estado == Ok ==> r.docs[j] == docs[j])
  {
    var paso := PasoReintento(idCarga, disco);
    var idx := Fallidos(docs);
    var r := Repasar(paso, docs, idx, red);
    PasoReintentoTermina(idCarga, disco);
    RepasarCuenta(paso, docs, idx, red);
    FallidosCuenta(docs);
    FallidosCrecientes(docs);
    RepasarCuentaErrores(paso, docs, idx, red);
    CuentaPositiva(r.docs, ErrorDoc);
    forall j | 0 <= j < |docs|
      ensures r.docs[j].estado == Ok || r.docs[j].estado == ErrorDoc
    {
      RepasarFallidosTermina(docs, idCarga, disco, red, j);
    }
    forall j | 0 <= j < |docs| && docs[j].estado == Ok
      ensures r.docs[j] == docs[j]
    {
      RepasarIntacto(paso, docs, idx, red, j);
    }
  }

  /** The body of the retry loop for position `j` of the batch's list: retries
      the document there as `ReintentarDocumento` says (its POST answered by
      `t`), updates it in place, and updates the OK count `ok0` or the error
      lines `errores0`. */
  method ReintentarEn(reg: Registro, disco: Disco, idCarga: string, j: nat, t: Transporte, ok0: nat,
                      errores0: seq<string>)
    returns (envio: Option<Envio>, ok: nat, errores: seq<string>)
    requires idCarga in reg.documentos && j < |reg.documentos[idCarga]|
    modifies reg`documentos
    ensures var docs := old(reg.documentos)[idCarga];
            var p := ReintentarDocumento(docs[j], idCarga, disco.archivos, t);
            && reg.documentos == old(reg.documentos)[idCarga := docs[j := p.doc]]
            && envio == p.envio
            && ok == ok0 + (if p.doc.estado == Ok then 1 else 0)
            && errores == errores0 + LineaError(p.doc)
  {
    ok, errores := ok0, errores0;
    envio := None;
    var d := reg.documentos[idCarga][j];
    if d.rutaLocal == "" || d.rutaLocal !in disco.archivos {
      d := Rechazado(d, ErrSinRespaldo);
      errores := errores + [d.nombreOriginal + ": " + ErrSinRespaldo];
    } else {
      var contenido := disco.archivos[d.rutaLocal];
      if idCarga != "" {
        envio := Some(Envio(d.nombreEnviado, contenido, idCarga));
      }
      var r := SubirPdf(idCarga, t);
      match r
      case Exito(n) =>
        d := Aceptado(d, n);
        ok := ok + 1;
      case Fallo(m) =>
        d := Rechazado(d, m);
        errores := errores + [d.nombreOriginal + ": " + m];
    }
    reg.documentos := reg.documentos[idCarga := reg.documentos[idCarga][j := d]];
  }

  /** One turn of the retry loop, stated over what the loop has produced so
      far: the registry holds the list of `hecho0` under the batch id, and the
      document at position `j` is retried with its POST answered by `t`. */
  method ReintentarSiguiente(reg: Registro, disco: Disco, idCarga: string, j: nat, t: Transporte,
                             ok0: nat, errores0: seq<string>, envios0: seq<Envio>,
                             ghost m0: map<string, seq<Documento>>, ghost hecho0: Repaso)
    returns (ok: nat, errores: seq<string>, envios: seq<Envio>, ghost hecho: Repaso)
    requires j < |hecho0.docs|
    requires ok0 == hecho0.ok && errores0 == hecho0.errores && envios0 == hecho0.envios
    requires reg.documentos == m0[idCarga := hecho0.docs]
    modifies reg`documentos
    ensures hecho == Seguir(hecho0, j, ReintentarDocumento(hecho0.docs[j], idCarga, disco.archivos, t))
    ensures ok == hecho.ok && errores == hecho.errores && envios == hecho.envios
    ensures reg.documentos == m0[idCarga := hecho.docs]
  {
    var envio;
    envio, ok, errores := ReintentarEn(reg, disco, idCarga, j, t, ok0, errores0);
    envios := envios0 + Lista(envio);
    hecho := Seguir(hecho0, j, ReintentarDocumento(hecho0.docs[j], idCarga, disco.archivos, t));
    ActualizarMapa(m0, idCarga, hecho0.docs, hecho.docs);
  }

  /** `reintentar_carga(carga_id)`. A batch without documents is marked ERROR
      and one without ERROR documents COMPLETADO, with nothing sent. Otherwise
      the batch is marked in progress, every ERROR document is retried and
      updated in place, and the batch gets its status from whether any retry
      failed, with the comment "OK=ok/total" over the documents retried. */
  method ReintentarCarga(reg: Registro, disco: Disco, idCarga: string, red: seq<Transporte>)
    returns (ok: nat, errores: seq<string>, envios: seq<Envio>)
    requires |DocumentosEn(reg.documentos, idCarga)| <= |red|
    modifies reg
    ensures var docs := DocumentosEn(old(reg.documentos), idCarga);
            var idx := Fallidos(docs);
            && (docs == [] ==>
                  && reg.cargas == ActualizarPrimera(old(reg.cargas), idCarga, ErrorCarga, SinDocumentos)
                  && reg.documentos == old(reg.documentos) && ok == 0 && errores == [] && envios == [])
            && (docs != [] && idx == [] ==>
                  && reg.cargas == ActualizarPrimera(old(reg.cargas), idCarga, Completado, SinFallidos)
                  && reg.documentos == old(reg.documentos) && ok == 0 && errores == [] && envios == [])
            && (idx != [] ==>
                  var r := Repasar(PasoReintento(idCarga, disco.archivos), docs, idx, red);
                  && reg.documentos == old(reg.documentos)[idCarga := r.docs]
                  && ok == r.ok && errores == r.errores && envios == r.envios
                  && reg.cargas == ActualizarPrimera(old(reg.cargas), idCarga, CierreReintento(ok, errores, |idx|).0,
                                                     CierreReintento(ok, errores, |idx|).1))
  {
    ok, errores, envios := 0, [], [];
    var docs := reg.DocumentosDeCarga(idCarga);
    if |docs| == 0 {
      reg.ActualizarCarga(idCarga, ErrorCarga, SinDocumentos);
      return;
    }
    var fallidos := Fallidos(docs);
    if |fallidos| == 0 {
      reg.ActualizarCarga(idCarga, Completado, SinFallidos);
      return;
    }
    ghost var cargas0 := reg.cargas;
    reg.ActualizarCarga(idCarga, EnProceso, Reintentando);
    ghost var m0 := reg.documentos;
    ghost var hecho := Repaso(docs, 0, [], []);
    var total := |fallidos|;
    assert fallidos[..0] == [];
    ReescribirMapa(m0, idCarga);
    var i := 0;
    while i < total
      invariant 0 <= i <= total
      invariant hecho == Repasar(PasoReintento(idCarga, disco.archivos), docs, fallidos[..i], red)
      invariant ok == hecho.ok && errores == hecho.errores && envios == hecho.envios
      invariant reg.documentos == m0[idCarga := hecho.docs]
      invariant reg.cargas == ActualizarPrimera(cargas0, idCarga, EnProceso, Reintentando)
    {
      RepasarAgregar(PasoReintento(idCarga, disco.archivos), docs, fallidos, red, i);
      ok, errores, envios, hecho := ReintentarSiguiente(reg, disco, idCarga, fallidos[i], red[|envios|], ok,
                                                        errores, envios, m0, hecho);
      i := i + 1;
    }
    assert fallidos[..total] == fallidos;
    var cierre := CierreReintento(ok, errores, total);
    reg.ActualizarCarga(idCarga, cierre.0, cierre.1);
    ActualizarPrimeraSobrescribe(cargas0, idCarga, EnProceso, Reintentando, cierre.0, cierre.1);
  }

  /** Upload then retry: right after a pass that backed up file `i` and sent it
      with a batch id, retrying its document sends the same bytes under the same
      submitted name with the same batch id as the first attempt did. */
  lemma ReintentoReenvia(archivos: seq<Archivo>, tokens: seq<string>, guardar: bool, idCarga: string,
                         red: seq<Transporte>, disco: map<string, seq<byte>>, i: nat, t: Transporte)
    requires |tokens| == |archivos| <= |red|
    requires forall k :: 0 <= k < |tokens| ==> TokenHex(tokens[k])
    requires forall k, l :: 0 <= k < l < |tokens| ==> tokens[k] != tokens[l]
    requires i < |archivos| && guardar && |archivos[i].contenido| > 0 && idCarga != ""
    ensures var a := Subidas(archivos, tokens, guardar, idCarga, red, disco);
            var primero := Pasos(archivos, tokens, guardar, idCarga, red)[i].envio;
            && primero == Some(Envio(NombreUnico(archivos[i].nombre, tokens[i]), archivos[i].contenido, idCarga))
            && ReintentarDocumento(a.docs[i], idCarga, a.disco, t).envio == primero
  {
    var a := Subidas(archivos, tokens, guardar, idCarga, red, disco);
    var ps := Pasos(archivos, tokens, guardar, idCarga, red);
    SubidasRespaldo(archivos, tokens, guardar, idCarga, red, disco, i);
    PlegarDocs(disco, ps);
    PasosEn(archivos, tokens, guardar, idCarga, red, i);
  }

  /** The ERROR positions of a list whose middle document alone failed. */
  lemma FallidosTres(docs: seq<Documento>)
    requires |docs| == 3 && docs[0].estado == Ok && docs[1].estado == ErrorDoc && docs[2].estado == Ok
    ensures Fallidos(docs) == [1]
  {
    assert docs[..1][..0] == [];
    assert Fallidos(docs[..1]) == [];
    assert docs[..2][..1] == docs[..1];
    assert Fallidos(docs[..2]) == [1];
    assert docs[..2] == docs[..|docs| - 1];
  }

  /** Retrying a batch whose middle document alone failed, with no backup
      path: only that document is attempted, nothing is sent, it stays ERROR
      with the "no backup" message, the other two are untouched, and the batch
      ends ERROR with "OK=0/1". */
  lemma ReintentoSinRespaldo(docs: seq<Documento>, idCarga: string, disco: map<string, seq<byte>>,
                             red: seq<Transporte>)
    requires |docs| == 3 && |red| >= 3
    requires docs[0].estado == Ok && docs[1].estado == ErrorDoc && docs[2].estado == Ok
    requires docs[1].rutaLocal == ""
    ensures var idx := Fallidos(docs);
            var r := Repasar(PasoReintento(idCarga, disco), docs, idx, red);
            && idx == [1]
            && r.docs == docs[1 := Rechazado(docs[1], ErrSinRespaldo)]
            && r.envios == []
            && CierreReintento(r.ok, r.errores, |idx|) == (ErrorCarga, "Reintento con errores. OK=0/1")
  {
    FallidosTres(docs);
    var paso := PasoReintento(idCarga, disco);
    var r := Repasar(paso, docs, [1], red);
    assert [1][..0] == [];
    assert r == Seguir(Repaso(docs, 0, [], []), 1, paso(docs[1], red[0]));
    assert Decimal(0) == "0" && Decimal(1) == "1";
    var c := "Reintento con errores. OK=" + Decimal(0) + "/" + Decimal(1);
    assert c == "Reintento con errores. OK=0/1";
  }

  /** The batch of `CargaConVacio` retried: the empty file's document was never
      backed up, so the retry leaves the batch as the scenario above says. */
  lemma ReintentoConVacio(archivos: seq<Archivo>, tokens: seq<string>, guardar: bool, idCarga: string,
                          red: seq<Transporte>, disco: map<string, seq<byte>>, red2: seq<Transporte>,
                          disco2: map<string, seq<byte>>)
    requires |archivos| == |tokens| == 3 && |red| >= 3 && |red2| >= 3
    requires |archivos[0].contenido| > 0 && archivos[1].contenido == [] && |archivos[2].contenido| > 0
    requires idCarga != ""
    requires forall k :: 0 <= k < 2 ==> SubirPdf(idCarga, red[k]).Exito?
    ensures var a := Subidas(archivos, tokens, guardar, idCarga, red, disco);
            var r := Repasar(PasoReintento(idCarga, disco2), a.docs, Fallidos(a.docs), red2);
            && r.docs == a.docs[1 := Rechazado(DocInicial(archivos[1].nombre), ErrSinRespaldo)]
            && r.envios == []
            && CierreReintento(r.ok, r.errores, |Fallidos(a.docs)|) == (ErrorCarga, "Reintento con errores. OK=0/1")
  {
    var a := Subidas(archivos, tokens, guardar, idCarga, red, disco);
    CargaConVacio(archivos, tokens, guardar, idCarga, red, disco);
    ReintentoSinRespaldo(a.docs, idCarga, disco2, red2);
  }
}
