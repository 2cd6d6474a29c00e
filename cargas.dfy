/** The in-memory batch ("carga") registry of the dashboard session: the
    newest-first list of batch records and, per batch id, the list of document
    records, with the four operations `crear_carga`, `actualizar_carga`,
    `registrar_documento` and `documentos_de_carga`. */
module Cargas {
  import opened Api

  /** The `estado` of a batch: "EN_PROCESO", "COMPLETADO" or "ERROR". */
  datatype EstadoCarga = EnProceso | Completado | ErrorCarga

  /** The `estado` of a document: "PENDIENTE", "OK" or "ERROR". */
  datatype EstadoDoc = Pendiente | Ok | ErrorDoc

  /** A batch record `{id, fecha, estado, comentario}`. */
  datatype Carga = Carga(id: string, fecha: string, estado: EstadoCarga, comentario: string)

  /** A document record. The three handle fields hold whatever the backend sent
      when it was truthy, and "" otherwise. */
  datatype Documento = Documento(
    nombreOriginal: string,
    nombreEnviado: string,
    rutaLocal: string,
    estado: EstadoDoc,
    error: string,
    container: Json,
    blobName: Json,
    blobUrl: Json)

  /** The record a file starts from before it is attempted. */
  function DocInicial(nombre: string): (r: Documento)
    ensures r.nombreOriginal == nombre && r.estado == Pendiente
    ensures r.nombreEnviado == "" && r.rutaLocal == "" && r.error == ""
    ensures r.container == JStr("") && r.blobName == JStr("") && r.blobUrl == JStr("")
  {
    Documento(nombre, "", "", Pendiente, "", JStr(""), JStr(""), JStr(""))
  }

  /** A document whose submission returned `n`: status OK, no error, and the
      handles `n.get(campo) or ""`. */
  function Aceptado(d: Documento, n: Normalizado): (r: Documento)
    ensures r.estado == Ok && r.error == ""
    ensures r.container == (if Verdadero(n.container) then n.container else JStr(""))
    ensures r.blobName == (if Verdadero(n.blobName) then n.blobName else JStr(""))
    ensures r.blobUrl == (if Verdadero(n.blobUrl) then n.blobUrl else JStr(""))
    ensures r.(estado := d.estado, error := d.error, container := d.container, blobName := d.blobName,
               blobUrl := d.blobUrl) == d
  {
    d.(estado := Ok, error := "", container := OVacio(n.container), blobName := OVacio(n.blobName),
       blobUrl := OVacio(n.blobUrl))
  }

  /** A document whose attempt raised with message `m`: status ERROR, error `m`,
      every other field as it was. */
  function Rechazado(d: Documento, m: string): (r: Documento)
    ensures r.estado == ErrorDoc && r.error == m
    ensures r.(estado := d.estado, error := d.error) == d
  {
    d.(estado := ErrorDoc, error := m)
  }

  /** `actualizar_carga` on a list of batches: the first batch whose id matches
      gets the new status and comment; every other batch is left as it was. */
  function ActualizarPrimera(cs: seq<Carga>, id: string, estado: EstadoCarga, comentario: string): (r: seq<Carga>)
    ensures |r| == |cs|
    ensures forall i :: 0 <= i < |cs| ==> r[i].id == cs[i].id && r[i].fecha == cs[i].fecha
    ensures forall i :: 0 <= i < |cs| ==>
              r[i] == cs[i] || (cs[i].id == id && r[i] == cs[i].(estado := estado, comentario := comentario))
    ensures forall i, j :: 0 <= i < j < |cs| && r[i] != cs[i] ==> r[j] == cs[j]
    decreases |cs|
  {
    if cs == [] then []
    else if cs[0].id == id then [cs[0].(estado := estado, comentario := comentario)] + cs[1..]
    else [cs[0]] + ActualizarPrimera(cs[1..], id, estado, comentario)
  }

  /** No batch with that id: nothing changes. */
  lemma {:induction false} ActualizarPrimeraSinCoincidencia(cs: seq<Carga>, id: string, estado: EstadoCarga,
                                                            comentario: string)
    requires forall i :: 0 <= i < |cs| ==> cs[i].id != id
    ensures ActualizarPrimera(cs, id, estado, comentario) == cs
    decreases |cs|
  {
    if cs != [] {
      ActualizarPrimeraSinCoincidencia(cs[1..], id, estado, comentario);
    }
  }

  /** `k` is the first batch with that id: exactly `cs[k]` changes, and only its
      status and comment. */
  lemma {:induction false} ActualizarPrimeraCoincidencia(cs: seq<Carga>, id: string, estado: EstadoCarga,
                                                         comentario: string, k: nat)
    requires k < |cs| && cs[k].id == id
    requires forall i :: 0 <= i < k ==> cs[i].id != id
    ensures ActualizarPrimera(cs, id, estado, comentario) == cs[k := cs[k].(estado := estado, comentario := comentario)]
    decreases k
  {
    if k > 0 {
      ActualizarPrimeraCoincidencia(cs[1..], id, estado, comentario, k - 1);
      assert cs[1..][k - 1 := cs[k].(estado := estado, comentario := comentario)]
             == cs[k := cs[k].(estado := estado, comentario := comentario)][1..];
    }
  }

  /** A second update of the same id overwrites the first one entirely: only the
      last status and comment survive. */
  lemma {:induction false} ActualizarPrimeraSobrescribe(cs: seq<Carga>, id: string, e1: EstadoCarga, c1: string,
                                                        e2: EstadoCarga, c2: string)
    ensures ActualizarPrimera(ActualizarPrimera(cs, id, e1, c1), id, e2, c2) == ActualizarPrimera(cs, id, e2, c2)
    decreases |cs|
  {
    if cs != [] && cs[0].id != id {
      ActualizarPrimeraSobrescribe(cs[1..], id, e1, c1, e2, c2);
    }
  }

  /** Updating a batch that was just put first changes only that batch. */
  lemma ActualizarPrimeraCabeza(c: Carga, cs: seq<Carga>, estado: EstadoCarga, comentario: string)
    ensures ActualizarPrimera([c] + cs, c.id, estado, comentario)
            == [c.(estado := estado, comentario := comentario)] + cs
  {
    assert ([c] + cs)[1..] == cs;
  }

  /** How many documents have status `e`. */
  function Cuenta(docs: seq<Documento>, e: EstadoDoc): (n: nat)
    ensures n <= |docs|
    decreases |docs|
  {
    if docs == [] then 0
    else Cuenta(docs[..|docs| - 1], e) + (if docs[|docs| - 1].estado == e then 1 else 0)
  }

  lemma CuentaAgregar(docs: seq<Documento>, d: Documento, e: EstadoDoc)
    ensures Cuenta(docs + [d], e) == Cuenta(docs, e) + (if d.estado == e then 1 else 0)
  {
    assert (docs + [d])[..|docs|] == docs;
  }

  /** The count is positive exactly when some document has that status. */
  lemma {:induction false} CuentaPositiva(docs: seq<Documento>, e: EstadoDoc)
    ensures Cuenta(docs, e) > 0 <==> exists i :: 0 <= i < |docs| && docs[i].estado == e
    decreases |docs|
  {
    if docs != [] {
      var n := |docs| - 1;
      CuentaPositiva(docs[..n], e);
      if docs[n].estado != e && Cuenta(docs, e) == 0 {
        forall i | 0 <= i < |docs|
          ensures docs[i].estado != e
        {
          if i < n { assert docs[..n][i] == docs[i]; }
        }
      }
      if Cuenta(docs[..n], e) > 0 {
        var i :| 0 <= i < n && docs[..n][i].estado == e;
        assert docs[i].estado == e;
      }
    }
  }

  /** When every document ended OK or ERROR, the two counts add up to the total. */
  lemma {:induction false} CuentaTotal(docs: seq<Documento>)
    requires forall i :: 0 <= i < |docs| ==> docs[i].estado == Ok || docs[i].estado == ErrorDoc
    ensures Cuenta(docs, Ok) + Cuenta(docs, ErrorDoc) == |docs|
    decreases |docs|
  {
    if docs != [] {
      var n := |docs| - 1;
      assert forall i :: 0 <= i < n ==> docs[..n][i] == docs[i];
      CuentaTotal(docs[..n]);
    }
  }

  /** The documents recorded under `id` in `m`, or none when the id is unknown. */
  function DocumentosEn(m: map<string, seq<Documento>>, id: string): (r: seq<Documento>)
    ensures id !in m ==> r == []
    ensures id in m ==> r == m[id]
  {
    if id in m then m[id] else []
  }

  /** Registering into a list that was just set extends that list. */
  lemma RegistrarTras(m: map<string, seq<Documento>>, id: string, docs: seq<Documento>, doc: Documento)
    ensures m[id := docs][id := DocumentosEn(m[id := docs], id) + [doc]] == m[id := docs + [doc]]
  {
  }

  /** The session state of the dashboard that this core uses:
      `st.session_state.cargas` and `st.session_state.documentos`. */
  class Registro {
    /** Newest first. */
    var cargas: seq<Carga>
    /** Documents of each batch, in the order they were registered. */
    var documentos: map<string, seq<Documento>>

    constructor ()
      ensures cargas == [] && documentos == map[]
    {
      cargas := [];
      documentos := map[];
    }

    /** `documentos_de_carga(carga_id)`: the batch's documents, or none when the
        id is unknown. */
    function DocumentosDeCarga(id: string): (r: seq<Documento>)
      reads this
      ensures id !in documentos ==> r == []
      ensures id in documentos ==> r == documentos[id]
    {
      DocumentosEn(documentos, id)
    }

    /** `crear_carga(carga_id)` at time `fecha`: the new batch goes first, in
        progress, and its document list starts empty (an earlier list under the
        same id is discarded). */
    method CrearCarga(id: string, fecha: string) returns (r: string)
      modifies this
      ensures r == id
      ensures cargas == [Carga(id, fecha, EnProceso, "Carga iniciada")] + old(cargas)
      ensures documentos == old(documentos)[id := []]
    {
      cargas := [Carga(id, fecha, EnProceso, "Carga iniciada")] + cargas;
      documentos := documentos[id := []];
      r := id;
    }

    /** `actualizar_carga(carga_id, estado, comentario)`: scans the batches in
        order and updates the first one with that id, if any. */
    method ActualizarCarga(id: string, estado: EstadoCarga, comentario: string)
      modifies this`cargas
      ensures cargas == ActualizarPrimera(old(cargas), id, estado, comentario)
    {
      var i := 0;
      while i < |cargas|
        invariant 0 <= i <= |cargas|
        invariant cargas == old(cargas)
        invariant forall j :: 0 <= j < i ==> cargas[j].id != id
      {
        if cargas[i].id == id {
          ActualizarPrimeraCoincidencia(cargas, id, estado, comentario, i);
          cargas := cargas[i := cargas[i].(estado := estado, comentario := comentario)];
          return;
        }
        i := i + 1;
      }
      ActualizarPrimeraSinCoincidencia(cargas, id, estado, comentario);
    }

    /** `registrar_documento(carga_id, doc)`: appends to the batch's list,
        creating the list when the id has none. */
    method RegistrarDocumento(id: string, doc: Documento)
      modifies this`documentos
      ensures documentos == old(documentos)[id := DocumentosEn(old(documentos), id) + [doc]]
    {
      documentos := documentos[id := DocumentosDeCarga(id) + [doc]];
    }
  }
}
