/** The P3 sensor readers. In simulation they read the robot's blobs as in
    P1; in the real world the blob position and size come from the camera
    object sensor. That module also holds the floor positions, the guarded
    distance to the target and the random walk of the target objects. */
module RoboboApiP3 {
  import opened Comun
  import P1 = RoboboApiP1
  import SensorObjeto

  /** `_get_xy`: in the real world (-1, -1) without a frame and the
      detector's (x, y) otherwise; in simulation the first blob's position or
      (-1, -1). */
  function GetXY(mundoReal: bool, frame: Option<seq<SensorObjeto.Caja>>, objetivo: string, blobs: seq<P1.Blob>): (r: XY)
    ensures mundoReal && frame.None? ==> r == XY(-1, -1)
    ensures mundoReal && frame.Some? ==>
              r == XY(SensorObjeto.Deteccion(objetivo, frame).0, SensorObjeto.Deteccion(objetivo, frame).1)
    ensures !mundoReal ==> r == P1.GetXY(blobs)
  {
    if mundoReal then
      if frame.None? then XY(-1, -1)
      else
        var d := SensorObjeto.Deteccion(objetivo, frame);
        XY(d.0, d.1)
    else P1.GetXY(blobs)
  }

  /** In the real world a position is either the sentinel pair or inside the
      frame's [0, 100] square. */
  lemma GetXYMundoRealAcotado(frame: Option<seq<SensorObjeto.Caja>>, objetivo: string, blobs: seq<P1.Blob>)
    ensures var r := GetXY(true, frame, objetivo, blobs);
            r == XY(-1, -1) || (0 <= r.x <= 100 && 0 <= r.y <= 100)
  {
    SensorObjeto.DeteccionAcotada(objetivo, frame);
  }

  /** `_get_tamano_blob`: -1 without a frame (real world) or without blobs
      (simulation); otherwise the detector's area or the first blob's size. */
  function GetTamanoBlob(mundoReal: bool, frame: Option<seq<SensorObjeto.Caja>>, objetivo: string, blobs: seq<P1.Blob>): (r: int)
    ensures mundoReal && frame.None? ==> r == -1
    ensures mundoReal && frame.Some? ==> r == SensorObjeto.Deteccion(objetivo, frame).2
    ensures !mundoReal ==> r == P1.GetTamanoBlob(blobs)
  {
    if mundoReal then
      if frame.None? then -1 else SensorObjeto.Deteccion(objetivo, frame).2
    else P1.GetTamanoBlob(blobs)
  }

  /** `_get_object_xz`: (0, 0) in the real world or without objects; the
      first object's (x, z) otherwise. */
  function GetObjectXZ(mundoReal: bool, objetos: Option<seq<Posicion3>>): (r: XZ)
    ensures mundoReal ==> r == XZ(0.0, 0.0)
    ensures !mundoReal && (objetos.None? || objetos.value == []) ==> r == XZ(0.0, 0.0)
    ensures !mundoReal && objetos.Some? && objetos.value != [] ==> r == XZ(objetos.value[0].x, objetos.value[0].z)
  {
    if mundoReal then XZ(0.0, 0.0)
    else if objetos.Some? && |objetos.value| > 0 then XZ(objetos.value[0].x, objetos.value[0].z)
    else XZ(0.0, 0.0)
  }

  /** `_get_robot_xz`: (0, 0) in the real world, the robot's (x, z) otherwise. */
  function GetRobotXZ(mundoReal: bool, robot: Posicion3): (r: XZ)
    ensures mundoReal ==> r == XZ(0.0, 0.0)
    ensures !mundoReal ==> r == XZ(robot.x, robot.z)
  {
    if mundoReal then XZ(0.0, 0.0) else XZ(robot.x, robot.z)
  }

  const AreaReferencia: real := 5000.0
  const DistanciaReferencia: real := 1.0
  const DistanciaLejana: real := 100.0

  /** `_distancia_a_blob`, with `math.sqrt`/`np.sqrt` as the parameter
      `sqrt`. In the real world it estimates the distance from the detected
      area (re-reading the size through `_get_tamano_blob`) and answers 100
      when nothing of positive size is seen; in simulation it measures from
      the robot's (x, y) to the first object's (x, y) and answers 100 when
      there are no objects. */
  function DistanciaABlob(sqrt: real -> real, mundoReal: bool, frame: Option<seq<SensorObjeto.Caja>>, objetivo: string,
                          robot: Posicion3, objetos: Option<seq<Posicion3>>): (r: real)
    ensures mundoReal && GetTamanoBlob(true, frame, objetivo, []) <= 0 ==> r == DistanciaLejana
    ensures mundoReal && GetTamanoBlob(true, frame, objetivo, []) > 0 ==>
              r == DistanciaReferencia * sqrt(AreaReferencia / GetTamanoBlob(true, frame, objetivo, []) as real)
    ensures !mundoReal && (objetos.None? || objetos.value == []) ==> r == DistanciaLejana
    ensures !mundoReal && objetos.Some? && objetos.value != [] ==>
              r == sqrt(P1.Cuadrado(objetos.value[0].x - robot.x) + P1.Cuadrado(objetos.value[0].y - robot.y))
  {
    if mundoReal then
      var tamano := GetTamanoBlob(true, frame, objetivo, []);
      if tamano <= 0 then DistanciaLejana
      else DistanciaReferencia * sqrt(AreaReferencia / tamano as real)
    else if objetos.Some? && |objetos.value| > 0 then
      var o := objetos.value[0];
      sqrt(P1.Cuadrado(o.x - robot.x) + P1.Cuadrado(o.y - robot.y))
    else DistanciaLejana
  }

  /** In the real world, a missing frame or a frame with no box of the target
      class above zero confidence makes the distance 100, whatever the square
      root does. */
  lemma DistanciaLejanaSinDeteccion(sqrt: real -> real, frame: Option<seq<SensorObjeto.Caja>>, objetivo: string,
                                    robot: Posicion3, objetos: Option<seq<Posicion3>>)
    requires frame.None? || forall j :: 0 <= j < |frame.value| && SensorObjeto.EsObjetivo(frame.value[j], objetivo) ==> frame.value[j].confianza <= 0.0
    ensures DistanciaABlob(sqrt, true, frame, objetivo, robot, objetos) == DistanciaLejana
  {
    SensorObjeto.DeteccionSentinelaSiiSinCandidato(objetivo, frame);
  }

  /** The step `dx` holds once the first `n` objects are handled: `dx = -dx`
      whenever `random.random() > 0.5` fails, so the flips accumulate from
      object to object. `mantener[i]` is the draw for object i. */
  function Paso(mantener: seq<bool>, n: nat, d: real): real
    requires n <= |mantener|
  {
    if n == 0 then d
    else if mantener[n - 1] then Paso(mantener, n - 1, d)
    else -Paso(mantener, n - 1, d)
  }

  /** Flipping never changes the magnitude of the step. */
  lemma {:induction false} PasoConservaMagnitud(mantener: seq<bool>, n: nat, d: real)
    requires n <= |mantener|
    ensures Abs(Paso(mantener, n, d)) == Abs(d)
  {
    if n > 0 {
      PasoConservaMagnitud(mantener, n - 1, d);
    }
  }

  /** The position `setObjectLocation` receives for object `i`. */
  function Desplazado(o: Posicion3, mantenerX: seq<bool>, mantenerZ: seq<bool>, i: nat, dx: real, dz: real): Posicion3
    requires i < |mantenerX| && i < |mantenerZ|
  {
    Posicion3(o.x + Paso(mantenerX, i + 1, dx), o.y, o.z + Paso(mantenerZ, i + 1, dz))
  }

  /** Each move keeps the height and changes x and z by exactly |dx| and |dz|. */
  lemma DesplazadoConservaMagnitud(o: Posicion3, mantenerX: seq<bool>, mantenerZ: seq<bool>, i: nat, dx: real, dz: real)
    requires i < |mantenerX| && i < |mantenerZ|
    ensures var n := Desplazado(o, mantenerX, mantenerZ, i, dx, dz);
            n.y == o.y && Abs(n.x - o.x) == Abs(dx) && Abs(n.z - o.z) == Abs(dz)
  {
    PasoConservaMagnitud(mantenerX, i + 1, dx);
    PasoConservaMagnitud(mantenerZ, i + 1, dz);
  }

  /** `mover_blob_random_walk`: nothing in the real world or without
      objects; otherwise each object, in order, moves by the current dx in x
      and the current dz in z, keeping its height, where the signs of dx and
      dz are flipped or kept per object as `mantenerX`/`mantenerZ` say (the
      random draws). The result is the sequence of positions written to the
      simulator. */
  method MoverBlobRandomWalk(mundoReal: bool, objetos: Option<seq<Posicion3>>, dx: real, dz: real,
                             mantenerX: seq<bool>, mantenerZ: seq<bool>) returns (escritas: seq<Posicion3>)
    requires objetos.Some? ==> |mantenerX| == |objetos.value| && |mantenerZ| == |objetos.value|
    ensures mundoReal || objetos.None? || objetos.value == [] ==> escritas == []
    ensures !mundoReal && objetos.Some? ==>
              && |escritas| == |objetos.value|
              && forall i :: 0 <= i < |escritas| ==>
                   escritas[i] == Desplazado(objetos.value[i], mantenerX, mantenerZ, i, dx, dz)
    ensures !mundoReal && objetos.Some? ==>
              forall i :: 0 <= i < |escritas| ==>
                && escritas[i].y == objetos.value[i].y
                && Abs(escritas[i].x - objetos.value[i].x) == Abs(dx)
                && Abs(escritas[i].z - objetos.value[i].z) == Abs(dz)
  {
    escritas := [];
    if mundoReal {
      return;
    }
    if objetos.None? || |objetos.value| == 0 {
      return;
    }
    var lista := objetos.value;
    var pasoX, pasoZ := dx, dz;
    var i := 0;
    while i < |lista|
      invariant 0 <= i <= |lista|
      invariant |escritas| == i
      invariant pasoX == Paso(mantenerX, i, dx) && pasoZ == Paso(mantenerZ, i, dz)
      invariant forall j :: 0 <= j < i ==> escritas[j] == Desplazado(lista[j], mantenerX, mantenerZ, j, dx, dz)
    {
      var actual := lista[i];
      if !mantenerX[i] { pasoX := -pasoX; }
      if !mantenerZ[i] { pasoZ := -pasoZ; }
      escritas := escritas + [Posicion3(actual.x + pasoX, actual.y, actual.z + pasoZ)];
      i := i + 1;
    }
    forall j | 0 <= j < |escritas|
      ensures && escritas[j].y == lista[j].y
              && Abs(escritas[j].x - lista[j].x) == Abs(dx)
              && Abs(escritas[j].z - lista[j].z) == Abs(dz)
    {
      DesplazadoConservaMagnitud(lista[j], mantenerX, mantenerZ, j, dx, dz);
    }
  }
}
