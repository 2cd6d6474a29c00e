# Dashboard de Cargas PDF: batch registry, upload pass and retry

This project models the core of the PDF upload dashboard (`app.py`). It covers four parts:

- **The batch registry.** The dashboard session keeps two collections:
  - a newest-first list of batch ("carga") records `{id, fecha, estado, comentario}`;
  - for each batch id, the list of its document records.

  Four operations work on them: `crear_carga`, `actualizar_carga`, `registrar_documento` and `documentos_de_carga`.
- **The upload pass ("Iniciar carga").** It creates the batch, then tries each selected file in order:
  - an empty file fails as "PDF vacío";
  - any other file gets a unique submitted name (`nombre_unico`) and is optionally backed up under `uploads/`;
  - the file is sent with the batch id and recorded as OK or ERROR.

  At the end the batch gets its aggregate status and an `OK=ok/total` comment.
- **The retry (`reintentar_carga`).** It picks only the ERROR documents of a batch. Each one is resent from its local backup under its existing submitted name and the same batch id, and is updated in place. The batch status is then recomputed over the documents retried.
- **Two helpers:**
  - `nombre_unico`: split off the extension, then append `_<uuid hex>`;
  - `_normalizar_respuesta_upload`: turns the backend JSON into the `container`, `blob_name` and `blob_url` handles.

Modules:

- `Comun`: bytes, options, and results of steps that may raise.
- `Numeros`: `str(n)` for counts.
- `Rutas`: `os.path.splitext`, `os.path.join`, `nombre_unico`, and the backup directory as a class `Disco`.
- `Api`: the JSON body, its normalisation, and the id guard and status check of `subir_pdf_a_api`.
- `Cargas`: the records, and the registry as a class `Registro` whose methods update its fields.
- `Subida`: the upload pass.
- `Reintento`: the retry.

Each loop is an imperative method. It is proved against a specification function that folds one step function over its input:

- `Subidas` for the upload pass;
- `Repasar` over `Fallidos` for the retry.

Lemmas then state what the source promises about those functions.

External effects are parameters:

- The uuid of file `i` is `tokens[i]`.
- The timestamp is `fecha`.
- The answers to the POSTs are a sequence `red` of `Transporte` values. It is consumed in order, one answer per POST actually sent.
- The backup directory is a map from path to bytes.

## Model

| member | source | states |
|---|---|---|
| Numeros.LeerDecimalDeDecimal | app.py:332 | a count's numeral, as `str(n)` writes it into a status comment, reads back as the count |
| Numeros.FraccionInyectiva | app.py:332 | after a fixed prefix, the text `ok/total` determines both numbers |
| Rutas.SepararExtension | app.py:77 | `os.path.splitext`: base + extension is the name, and the extension is empty or a dot followed by no dots and no slashes |
| Rutas.SepararEnUltimoPunto | app.py:77 | `os.path.splitext` cuts at the last dot after the last slash, never inside an earlier component, and there exactly when something other than dots precedes that dot in the last component (".bashrc" has no extension) |
| Rutas.NombreUnicoInserta | app.py:76-78 | the submitted name is the original name with `_` and the token inserted where the extension starts; taking them out gives the original back |
| Rutas.NombreUnicoConservaExtension | app.py:76-78 | splitting the submitted name again gives the original base followed by `_` and the token, and the original extension |
| Rutas.NombreUnicoInyectivo | app.py:76-78 | two different uuid hex tokens give different submitted names, whatever the original names |
| Rutas.RutaRespaldo | app.py:307 | the backup path ends with the submitted name: it is that name when absolute and `uploads/<name>` otherwise |
| Rutas.RutaRespaldoInyectiva | app.py:307 | different submitted names are backed up at different paths under the upload directory |
| Rutas.Disco.Escribir | app.py:308-309 | writing a backup creates or replaces exactly that path and leaves every other file as it was |
| Api.NormalizarRespuesta | app.py:89-104 | a falsy body gives four `None` handles; a truthy body that is not an object raises; a normalised result keeps the raw body and its `mongo` part |
| Api.NormalizarRespuestaBackend | app.py:89-104 | normalising the body the backend documents gives back the container, blob name and url it was built from |
| Api.SubirPdf | app.py:106-126 | an empty batch id raises before anything is sent; the upload succeeds iff the answer is 200 or 201 with a body that normalises; any other status raises `HTTP <status>: <text>`; on 200 or 201 the result is the normalised body; a failed POST raises its own message |
| Cargas.DocInicial | app.py:287-296 | a file's record starts PENDIENTE under its original name, with no submitted name, no backup path, no error and the three handles "" |
| Cargas.Aceptado | app.py:183-187 | an accepted document is OK with no error and the handles `r.get(campo) or ""`; every other field is as it was |
| Cargas.Rechazado | app.py:192-193 | a rejected document is ERROR with the exception's message; every other field is as it was |
| Cargas.ActualizarPrimera | app.py:138-143 | the update keeps every batch's id and date, and changes at most one batch, one with the id, in its status and comment only |
| Cargas.ActualizarPrimeraCoincidencia | app.py:138-143 | when batch `k` is the first with the id, the update changes exactly batch `k`, and only its status and comment |
| Cargas.ActualizarPrimeraSinCoincidencia | app.py:138-143 | an update of an id no batch has changes nothing |
| Cargas.ActualizarPrimeraSobrescribe | app.py:138-143 | a second update of the same batch overwrites the first: only the last status and comment survive |
| Cargas.CuentaPositiva | app.py:331 | the count of documents with a status is positive iff some document has that status |
| Cargas.CuentaTotal | app.py:315-325 | when every document ended OK or ERROR, the OK and ERROR counts add up to the number of documents |
| Cargas.Registro.CrearCarga | app.py:128-136 | the new batch goes first, in progress with "Carga iniciada", earlier batches keep their order, and the batch's document list becomes empty |
| Cargas.Registro.ActualizarCarga | app.py:138-143 | the scan over the batches leaves the list as `ActualizarPrimera` says: only the first batch with the id is changed |
| Cargas.Registro.RegistrarDocumento | app.py:145-146 | the document is appended at the end of the batch's list, which is created when absent; every other batch's list is unchanged |
| Cargas.Registro.DocumentosDeCarga | app.py:148-149 | an unknown batch id has no documents; a known one has exactly its registered list |
| Subida.SubirArchivo | app.py:286-325 | one file: the document keeps the file name and ends OK or ERROR; an empty file fails with "PDF vacío", nothing sent and nothing backed up; otherwise it is backed up iff backups are on, sent iff the batch id is set, and OK iff the upload succeeds |
| Subida.PasosEn | app.py:286-313 | step `i` of the pass is file `i` under the name from its own uuid, answered by the response that follows those consumed by earlier files |
| Subida.SubidasPorArchivo | app.py:286-327 | the pass registers one document per file, in input order; each keeps its file name and ends OK or ERROR; an empty file fails with "PDF vacío" and no submitted name or backup path; a backup path is recorded iff backups are on and the file is non-empty; OK + ERROR = number of files |
| Subida.SubidasEnviados | app.py:299-325 | the pass sends one POST per non-empty file when the batch id is set and none otherwise, and shows one error line per failed file |
| Subida.SubidasRespaldo | app.py:303-310 | with distinct uuids, every backed-up file's bytes are in the directory after the pass, at the path its document records |
| Subida.Cierre | app.py:331-336 | the closing status is ERROR iff some file failed and COMPLETADO otherwise |
| Subida.CierreDetermina | app.py:331-336 | the closing comment alone determines whether some file failed, the OK count and the number of files |
| Subida.CierreCarga | app.py:331-336 | the batch ends ERROR iff some document of the pass is ERROR, and COMPLETADO otherwise |
| Subida.CierreCargaEstado | app.py:331-336 | after the pass, the batch ends ERROR iff some document failed and COMPLETADO iff every document is OK |
| Subida.CierreCargaDetermina | app.py:331-336 | two passes whose comments agree had the same status, as many OK documents and as many documents |
| Subida.CargaConVacio | app.py:286-336 | three files whose second one is empty and whose two POSTs succeed: the documents end OK, ERROR "PDF vacío" and OK, two POSTs are sent, and the batch ends ERROR with "Errores en carga. OK=2/3" |
| Subida.SubirArchivoEn | app.py:287-327 | the loop body for one file does what `SubirArchivo` specifies to the registry and the backup directory, and updates the OK count or the error lines |
| Subida.SubirArchivos | app.py:286-329 | the loop appends exactly the documents of `Subidas` to the batch, leaves the directory and the POSTs as it specifies, and returns the OK count and the error lines |
| Subida.ProcesarArchivos | app.py:286-336 | the loop, then the batch's status and comment are set by `CierreCarga` from the OK count and whether any file failed |
| Subida.IniciarCarga | app.py:278-336 | with files selected, the batch is created first in the list and ends with its aggregate status, holding exactly the pass's documents; with no file selected nothing changes |
| Reintento.ReintentarDocumento | app.py:172-194 | a retried document keeps its names and backup path and ends OK or ERROR; without an existing backup it fails with the "no backup" message and nothing is sent; otherwise the backed-up bytes are sent under the existing submitted name iff the batch id is set, and it ends OK iff that upload succeeds |
| Reintento.Fallidos | app.py:158 | the documents attempted are positions in the list whose documents are ERROR, never more than the list holds |
| Reintento.FallidosCuenta | app.py:158 | there are as many retry attempts as ERROR documents |
| Reintento.FallidosCompletos | app.py:158 | every ERROR document is attempted |
| Reintento.FallidosCrecientes | app.py:158 | attempts follow list order and no document is attempted twice |
| Reintento.RepasarCuenta | app.py:167-194 | the OK count and the error lines add up to the number of documents retried |
| Reintento.RepasarIntacto | app.py:158-199 | a document that is not retried is left exactly as it was |
| Reintento.RepasarConservaNombres | app.py:171-194 | no document loses its original name, submitted name or backup path |
| Reintento.RepasarCuentaErrores | app.py:171-199 | the number of ERROR documents drops by the attempts and rises by the error lines |
| Reintento.RepasarCuentaOk | app.py:171-199 | the number of OK documents rises by exactly the OK count |
| Reintento.RepasarFallidos | app.py:158-204 | after a retry, the batch ends COMPLETADO iff every document is now OK and ERROR iff some document still failed; OK + error lines = documents retried; documents that were OK are unchanged |
| Reintento.CierreReintento | app.py:199-204 | the retry's closing status is ERROR iff some retried document failed again, and COMPLETADO otherwise |
| Reintento.CierreReintentoDetermina | app.py:199-204 | the retry comment alone determines the status, the OK count and the number of documents retried |
| Reintento.ReintentarEn | app.py:172-194 | the loop body retries the document at its position as `ReintentarDocumento` specifies, updates it in place, and updates the OK count or the error lines |
| Reintento.ReintentarCarga | app.py:151-204 | no documents: ERROR "No hay documentos asociados para reintentar", nothing sent; no ERROR documents: COMPLETADO "No hay documentos en ERROR para reintentar", nothing sent; otherwise the ERROR documents are retried in place as `Repasar` specifies, and the batch gets `CierreReintento` over the documents retried |
| Reintento.ReintentoSinRespaldo | app.py:158-204 | retrying a batch whose middle document alone failed and has no backup path: only that document is attempted, nothing is sent, it stays ERROR with the "no backup" message, the others are untouched, and the batch ends ERROR with "Reintento con errores. OK=0/1" |
| Reintento.ReintentoConVacio | app.py:151-204 | retrying the three-file batch above changes only the empty file's document, to ERROR with the "no backup" message, sends nothing and ends ERROR with "OK=0/1" |
| Reintento.ReintentoReenvia | app.py:181 | after a pass that backed up and sent a file, retrying its document sends the same bytes under the same submitted name with the same batch id as the first attempt |

## Left out

- The Streamlit UI is not modelled because it has no stateable behaviour. This covers page setup, columns, buttons, progress bars and `time.sleep`, `st.rerun`, the uploader key, the messages shown with `st.error`/`st.info`, and logout.
- The login and role gate is a static credential lookup tied to UI widgets, so it is not modelled.
- The HTTP POST of `subir_pdf_a_api` is not modelled. Its answer is a `Transporte` value taken from `red`. A non-JSON body on a 2xx answer makes `resp.json()` raise, and that case is folded into `Caida` with the exception's text.
- `obtener_id_carga` and the refresh of the current id after a pass (app.py:339-345) are plain HTTP and session bookkeeping. The batch id is a parameter.
- `uuid.uuid4()` and `datetime.now()` are nondeterministic and become the `tokens` and `fecha` parameters. `TokenHex` states the form of a uuid hex where a lemma needs it.
- Paths follow POSIX `posixpath`: only `/` separates components in `os.path.splitext` and `os.path.join`. The Windows `ntpath` rules are not modelled: there `\` also separates components and `join` inserts `\`.
- Disk effects are reduced to the backup directory as a map from path to bytes. Write failures, `os.makedirs` and directories themselves are not modelled.
- JSON numbers are integers only, because floating point is not modelled.
- Python's sharing of document dicts is not modelled. Documents are values, and the retry replaces the document at its position in the batch's list, which has the same observable effect.
- Subida.SubirArchivos, Subida.ProcesarArchivos, Subida.IniciarCarga: they require at least as many answers in `red` as files. This bound is what the oracle needs, not a demand the source makes.
- Reintento.ReintentarCarga: it requires at least as many answers in `red` as documents, for the same reason.
- Subida.SubirArchivos, Subida.ProcesarArchivos: they require the batch's document list to exist. In the source, `crear_carga` has just created it.
- Subida.CierreCargaEstado: it states the status, not the comment text. What the text says is stated by `Subida.CierreCargaDetermina`: equal comments mean the same status, OK count and total.
- The retry does not treat an empty backup file as missing: `app.py` only checks that the path is set and exists. An empty backup is resent like any other, and the model follows the code.
- The retry comment's `OK=ok/total` counts only the documents retried, not the whole batch. The model follows the code.
