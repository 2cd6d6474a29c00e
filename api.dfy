/** The boundary to the remote ingestion service, as far as the dashboard
    interprets it: the JSON body of a successful upload, its normalisation into
    the three handles the dashboard keeps (`_normalizar_respuesta_upload`), and
    the checks `subir_pdf_a_api` makes before and after the POST. The POST itself
    is not modelled: its outcome is a `Transporte` value supplied by the caller. */
module Api {
  import opened Comun
  import opened Numeros

  /** A JSON value as Python's `json` module decodes it (numbers: ints only). */
  datatype Json =
    | JNull
    | JBool(b: bool)
    | JNum(n: int)
    | JStr(s: string)
    | JArr(items: seq<Json>)
    | JObj(campos: map<string, Json>)

  /** Python truthiness of the decoded value. */
  predicate Verdadero(j: Json) {
    match j
    case JNull => false
    case JBool(b) => b
    case JNum(n) => n != 0
    case JStr(s) => s != []
    case JArr(a) => a != []
    case JObj(m) => m != map[]
  }

  /** Python's `a or b`. */
  function O(a: Json, b: Json): Json {
    if Verdadero(a) then a else b
  }

  /** `dict.get(clave)`: the value, or `None` when the key is absent. */
  function Campo(m: map<string, Json>, clave: string): Json {
    if clave in m then m[clave] else JNull
  }

  function NombreTipo(j: Json): string {
    match j
    case JNull => "NoneType"
    case JBool(_) => "bool"
    case JNum(_) => "int"
    case JStr(_) => "str"
    case JArr(_) => "list"
    case JObj(_) => "dict"
  }

  /** The text of the `AttributeError` raised by `.get` on a value that is not a dict. */
  function ErrorGet(j: Json): string {
    "'" + NombreTipo(j) + "' object has no attribute 'get'"
  }

  /** The result of `_normalizar_respuesta_upload`: the fields the dashboard reads,
      plus the `mongo` part and the raw body. */
  datatype Normalizado = Normalizado(container: Json, blobName: Json, blobUrl: Json, mongo: Json, raw: Json)

  /** `_normalizar_respuesta_upload(api_json)`. The backend answers
      `{"blob": {"container", "blob_name", "url"}, "mongo": ...}`; missing parts
      read as `None`, and a part that is neither a dict nor falsy makes `.get`
      raise. A falsy body normalises to four `None`s; a normalised body keeps
      the raw body and its `mongo` part. */
  function NormalizarRespuesta(api: Json): (r: Resultado<Normalizado>)
    ensures r.Exito? ==> r.valor.raw == api
    ensures !Verdadero(api) ==> r == Exito(Normalizado(JNull, JNull, JNull, JNull, api))
    ensures Verdadero(api) && !api.JObj? ==> r == Fallo(ErrorGet(api))
    ensures api.JObj? && r.Exito? ==> r.valor.mongo == Campo(api.campos, "mongo")
  {
    var raiz := O(api, JObj(map[]));
    if !raiz.JObj? then Fallo(ErrorGet(raiz))
    else
      var blob := O(Campo(raiz.campos, "blob"), JObj(map[]));
      if !blob.JObj? then Fallo(ErrorGet(blob))
      else
        Exito(Normalizado(Campo(blob.campos, "container"), Campo(blob.campos, "blob_name"),
                          Campo(blob.campos, "url"), Campo(raiz.campos, "mongo"), api))
  }

  /** The body the backend documents for a stored PDF. */
  function RespuestaBackend(container: string, blobName: string, url: string, mongo: Json): Json {
    JObj(map["blob" := JObj(map["container" := JStr(container), "blob_name" := JStr(blobName), "url" := JStr(url)]),
             "mongo" := mongo])
  }

  /** Normalising the documented body gives back the three handles it was built from. */
  lemma NormalizarRespuestaBackend(container: string, blobName: string, url: string, mongo: Json)
    ensures NormalizarRespuesta(RespuestaBackend(container, blobName, url, mongo))
            == Exito(Normalizado(JStr(container), JStr(blobName), JStr(url), mongo,
                                 RespuestaBackend(container, blobName, url, mongo)))
  {
    var api := RespuestaBackend(container, blobName, url, mongo);
    assert "blob" in api.campos;
    var blob := Campo(api.campos, "blob");
    assert "container" in blob.campos;
  }

  /** The value stored in a document's handle field: `r.get(campo) or ""`. */
  function OVacio(j: Json): Json {
    O(j, JStr(""))
  }

  /** What the POST of `subir_pdf_a_api` yields: `requests` raised (a connection
      error, the 120-second timeout) with a message, or the server answered. */
  datatype Transporte =
    | Caida(mensaje: string)
    | Respuesta(status: nat, texto: string, cuerpo: Json)

  const ErrIdVacio: string := "id_carga vacío: no se puede enviar el PDF"

  predicate StatusExito(status: nat) {
    status == 200 || status == 201
  }

  /** `subir_pdf_a_api(file_bytes, filename, id_carga)` once the network has
      answered `t`: an empty batch id raises before anything is sent; a transport
      failure or a status other than 200/201 raises; otherwise the body is
      normalised. So the upload succeeds exactly when the server answers 200 or
      201 with a body that normalises. */
  function SubirPdf(idCarga: string, t: Transporte): (r: Resultado<Normalizado>)
    ensures idCarga == "" ==> r == Fallo(ErrIdVacio)
    ensures r.Exito? <==>
              idCarga != "" && t.Respuesta? && StatusExito(t.status) && NormalizarRespuesta(t.cuerpo).Exito?
    ensures r.Exito? ==> r.valor.raw == t.cuerpo
    ensures idCarga != "" && t.Respuesta? && !StatusExito(t.status) ==>
              r == Fallo("HTTP " + Decimal(t.status) + ": " + t.texto)
    ensures idCarga != "" && t.Respuesta? && StatusExito(t.status) ==> r == NormalizarRespuesta(t.cuerpo)
    ensures idCarga != "" && t.Caida? ==> r == Fallo(t.mensaje)
  {
    if idCarga == "" then Fallo(ErrIdVacio)
    else
      match t
      case Caida(m) => Fallo(m)
      case Respuesta(status, texto, cuerpo) =>
        if !StatusExito(status) then Fallo("HTTP " + Decimal(status) + ": " + texto)
        else NormalizarRespuesta(cuerpo)
  }

  /** What the dashboard sends in one POST: the file under its submitted name,
      with the batch id. */
  datatype Envio = Envio(nombre: string, contenido: seq<byte>, idCarga: string)
}
