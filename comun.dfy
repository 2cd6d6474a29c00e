/** Shared vocabulary of the dashboard model: optional values, the outcome of a
    step that may raise (the failure carries the text of the exception), and
    bytes. */
module Comun {
  newtype byte = x: int | 0 <= x < 256

  datatype Option<+T> = None | Some(value: T)

  /** `Exito(v)` is a normal return; `Fallo(m)` is an exception whose `str(e)` is `m`. */
  datatype Resultado<+T> = Exito(valor: T) | Fallo(mensaje: string)

  /** The elements of an optional value, as a sequence of length 0 or 1. */
  function Lista<T>(o: Option<T>): (s: seq<T>)
    ensures |s| <= 1
    ensures o.None? <==> s == []
    ensures o.Some? ==> s == [o.value]
  {
    match o
    case None => []
    case Some(v) => [v]
  }

  /** A second update of the same key replaces the first. */
  lemma ActualizarMapa<K, V>(m: map<K, V>, k: K, x: V, y: V)
    ensures m[k := x][k := y] == m[k := y]
  {
  }

  /** Writing back the value a key already has changes nothing. */
  lemma ReescribirMapa<K, V>(m: map<K, V>, k: K)
    requires k in m
    ensures m[k := m[k]] == m
  {
  }

  lemma Asociar<T>(a: seq<T>, b: seq<T>, c: seq<T>)
    ensures (a + b) + c == a + (b + c)
  {
  }
}
