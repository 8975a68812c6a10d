/** The P1 sensor readers: the robot's colour blobs and infrared sensors,
    reduced to the observation values with sentinels for missing readings,
    and the choice of the object whose distance to the robot is measured. */
module RoboboApiP1 {
  import opened Comun

  /** One colour blob, in the order `readAllColorBlobs()` iterates them. */
  datatype Blob = Blob(posx: int, posy: int, size: int)

  /** What `readAllIRSensor()` returns: the literal empty list, or a
      dictionary from sensor name to intensity. */
  datatype LecturaIR = ListaVacia | Diccionario(valores: map<string, int>)

  /** `irs["Front-C"]` or `irs["Back-C"]` on a dictionary without that key. */
  datatype ErrorIR = KeyError(clave: string)

  const FrenteC: string := "Front-C"
  const TraseroC: string := "Back-C"

  /** `_get_xy`: the first blob's position, or (-1, -1) without blobs. */
  function GetXY(blobs: seq<Blob>): (r: XY)
    ensures blobs == [] ==> r == XY(-1, -1)
    ensures blobs != [] ==> r == XY(blobs[0].posx, blobs[0].posy)
  {
    if blobs != [] then XY(blobs[0].posx, blobs[0].posy) else XY(-1, -1)
  }

  /** `_get_tamano_blob`: the first blob's size, or -1 without blobs. */
  function GetTamanoBlob(blobs: seq<Blob>): (r: int)
    ensures blobs == [] ==> r == -1
    ensures blobs != [] ==> r == blobs[0].size
  {
    if blobs != [] then blobs[0].size else -1
  }

  /** The two readers look at the same blob: either both report their sentinel
      or both describe `blobs[0]`. */
  lemma LectoresCoherentes(blobs: seq<Blob>)
    ensures (GetXY(blobs) == XY(-1, -1) && GetTamanoBlob(blobs) == -1)
         || (exists b :: b in blobs && GetXY(blobs) == XY(b.posx, b.posy) && GetTamanoBlob(blobs) == b.size)
  {
    if blobs != [] {
      assert blobs[0] in blobs;
    }
  }

  /** `_get_IR` as written: `irs != []` holds for every dictionary, so only
      the empty list gives [0, 0]; a dictionary without "Front-C" or
      "Back-C" (the empty one included) raises a KeyError. */
  function GetIR(irs: LecturaIR): (r: Result<seq<int>, ErrorIR>)
    ensures irs == ListaVacia ==> r == Ok([0, 0])
    ensures irs.Diccionario? && FrenteC in irs.valores && TraseroC in irs.valores ==>
              r == Ok([irs.valores[FrenteC], irs.valores[TraseroC]])
    ensures r.Err? <==> irs.Diccionario? && (FrenteC !in irs.valores || TraseroC !in irs.valores)
    ensures r.Ok? ==> |r.value| == 2
  {
    match irs
    case ListaVacia => Ok([0, 0])
    case Diccionario(m) =>
      if FrenteC !in m then Err(KeyError(FrenteC))
      else if TraseroC !in m then Err(KeyError(TraseroC))
      else Ok([m[FrenteC], m[TraseroC]])
  }

  /** The empty dictionary is not the empty list: it raises. */
  lemma DiccionarioVacioFalla()
    ensures GetIR(Diccionario(map[])) == Err(KeyError(FrenteC))
  {
  }

  /** `_get_IR` as evidently intended: an empty reading of either kind gives
      [0, 0]. It never fails, and agrees with the written reader wherever that
      one returns a value. A dictionary that lacks only one of the two keys
      also gives [0, 0] here; the code shows no intent for that case, and the
      contract leaves its value open beyond the length. */
  function GetIRCorregido(irs: LecturaIR): (r: seq<int>)
    ensures |r| == 2
    ensures GetIR(irs).Ok? ==> r == GetIR(irs).value
    ensures irs == ListaVacia || irs == Diccionario(map[]) ==> r == [0, 0]
  {
    match irs
    case ListaVacia => [0, 0]
    case Diccionario(m) =>
      if FrenteC in m && TraseroC in m then [m[FrenteC], m[TraseroC]] else [0, 0]
  }

  /** The object `_distancia_a_blob` measures against: the loop over the
      simulator's objects leaves the last one in `x_obj, y_obj`; with no
      objects (or `None`) the position stays (0, 0). */
  function ObjetoMedido(objetos: Option<seq<Posicion3>>): (p: (real, real))
  {
    if objetos.Some? && |objetos.value| > 0
    then (objetos.value[|objetos.value| - 1].x, objetos.value[|objetos.value| - 1].y)
    else (0.0, 0.0)
  }

  function Cuadrado(v: real): real { v * v }

  /** `_distancia_a_blob` up to the final square root: the loop reassigns the
      object position once per object, and the squared distance from the
      robot's (x, y) is taken after it. */
  method DistanciaCuadradaABlob(robot: Posicion3, objetos: Option<seq<Posicion3>>) returns (d2: real)
    ensures d2 == Cuadrado(ObjetoMedido(objetos).0 - robot.x) + Cuadrado(ObjetoMedido(objetos).1 - robot.y)
    ensures objetos.Some? && |objetos.value| > 0 ==>
              var ultimo := objetos.value[|objetos.value| - 1];
              d2 == Cuadrado(ultimo.x - robot.x) + Cuadrado(ultimo.y - robot.y)
    ensures (objetos.None? || objetos.value == []) ==> d2 == Cuadrado(robot.x) + Cuadrado(robot.y)
  {
    var xObj, yObj := 0.0, 0.0;
    var xRob, yRob := robot.x, robot.y;
    if objetos.Some? && |objetos.value| > 0 {
      var lista := objetos.value;
      var i := 0;
      while i < |lista|
        invariant 0 <= i <= |lista|
        invariant i == 0 ==> xObj == 0.0 && yObj == 0.0
        invariant i > 0 ==> xObj == lista[i - 1].x && yObj == lista[i - 1].y
      {
        xObj, yObj := lista[i].x, lista[i].y;
        i := i + 1;
      }
    }
    d2 := Cuadrado(xObj - xRob) + Cuadrado(yObj - yRob);
  }
}
