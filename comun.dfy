/** Values shared by the environment, the sensor readers and the action
    builders: wheel actions, image and floor positions, observations, and the
    numeric helpers (numpy's clip, Python's int() on a float). */
module Comun {

  datatype Option<T> = None | Some(value: T)

  datatype Result<T, E> = Ok(value: T) | Err(error: E)

  /** An action as the environment's `step` receives it:
      `accion = [avance_recto, gire_derecha]`. */
  datatype Accion = Accion(avanceRecto: real, gireDerecha: real)

  /** Velocity change of the left wheel: `dx = avance_recto + gire_derecha`. */
  function DeltaIzquierda(a: Accion): real { a.avanceRecto + a.gireDerecha }

  /** Velocity change of the right wheel: `dy = avance_recto - gire_derecha`. */
  function DeltaDerecha(a: Accion): real { a.avanceRecto - a.gireDerecha }

  /** Blob position in the image (percent of the frame), -1 when not seen. */
  datatype XY = XY(x: int, y: int)

  /** A position on the simulator's floor plane (x and z world coordinates). */
  datatype XZ = XZ(x: real, z: real)

  /** A 3-D simulator position, as `getObjectLocation(..)['position']` gives it. */
  datatype Posicion3 = Posicion3(x: real, y: real, z: real)

  /** The observation dictionary `_get_observacion` builds. */
  datatype Observacion = Observacion(blobXY: XY, ir: seq<int>, tamanoBlob: int, velocidad: (real, real))

  /** The wheel command passed to `moveWheels(left, right)`. */
  datatype Ruedas = Ruedas(izquierda: real, derecha: real)

  /** `np.clip(v, lo, hi)` for a scalar and `lo <= hi`. */
  function Clip(v: real, lo: real, hi: real): (r: real)
    requires lo <= hi
    ensures lo <= r <= hi
    ensures lo <= v <= hi ==> r == v
    ensures v < lo ==> r == lo
    ensures v > hi ==> r == hi
  {
    if v < lo then lo else if v > hi then hi else v
  }

  /** The same clip on integers, as `np.clip(x_norm, 0, 100)` applies it:
      `Clip` on the integers' real values, which is again an integer. */
  function ClipInt(v: int, lo: int, hi: int): (r: int)
    requires lo <= hi
    ensures lo <= r <= hi
    ensures lo <= v <= hi ==> r == v
    ensures v < lo ==> r == lo
    ensures v > hi ==> r == hi
  {
    Clip(v as real, lo as real, hi as real).Floor
  }

  /** Python's `int(f)` on a float: truncation toward zero. */
  function Trunc(f: real): (r: int)
    ensures f >= 0.0 ==> r as real <= f < r as real + 1.0
    ensures f < 0.0 ==> r as real - 1.0 < f <= r as real
  {
    if f >= 0.0 then f.Floor else -((-f).Floor)
  }

  /** An episode history: the three lists line up, and each episode holds
      at least one reward and one more position of each kind than rewards
      (the reset's position comes first). */
  ghost predicate HistorialCoherente(recompensas: seq<seq<real>>, objetos: seq<seq<XZ>>, robots: seq<seq<XZ>>)
  {
    && |objetos| == |recompensas|
    && |robots| == |recompensas|
    && (forall i :: 0 <= i < |recompensas| ==>
          |recompensas[i]| > 0
          && |objetos[i]| == |recompensas[i]| + 1
          && |robots[i]| == |recompensas[i]| + 1)
  }

  /** Moving one more coherent episode into a history keeps it coherent. */
  lemma HistorialCoherenteUnoMas(recompensas: seq<seq<real>>, objetos: seq<seq<XZ>>, robots: seq<seq<XZ>>,
                                 r: seq<real>, o: seq<XZ>, b: seq<XZ>)
    requires HistorialCoherente(recompensas, objetos, robots)
    requires |r| > 0 && |o| == |r| + 1 && |b| == |r| + 1
    ensures HistorialCoherente(recompensas + [r], objetos + [o], robots + [b])
  {
  }

  function Abs(v: real): real { if v < 0.0 then -v else v }

  function AbsInt(v: int): int { if v < 0 then -v else v }

  function Max(a: real, b: real): real { if a < b then b else a }

  function Suma(s: seq<real>): real
  {
    if s == [] then 0.0 else Suma(s[..|s| - 1]) + s[|s| - 1]
  }
}
