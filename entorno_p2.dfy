/** The P2 environment: a staircase reward over the blob position, the blob
    size and the front/back infrared readings, and the step/reset cycle that
    keeps a persistent wheel velocity, a 1-based step counter and the
    per-episode and historical lists of rewards and floor positions. */
module EntornoP2 {
  import opened Comun

  const VelocidadMin: real := -15.0
  const VelocidadMax: real := 15.0

  // ---------------------------------------------------------------------
  // Reward (`_get_recompensa`)
  // ---------------------------------------------------------------------

  /** Centring term: 20 within 10 of the centre, 10 within 25, otherwise -5. */
  function TerminoCentrado(x: int): (r: int)
    ensures r == 20 <==> AbsInt(x - 50) < 10
    ensures r == 10 <==> 10 <= AbsInt(x - 50) < 25
    ensures r == -5 <==> AbsInt(x - 50) >= 25
  {
    var error := AbsInt(x - 50);
    if error < 10 then 20 else if error < 25 then 10 else -5
  }

  /** Front infrared term: 100 / 50 / 25 / 10 / 0 above 500 / 300 / 200 / 100. */
  function TerminoIR(delante: int): (r: int)
    ensures r == 100 <==> delante > 500
    ensures r == 50 <==> 300 < delante <= 500
    ensures r == 25 <==> 200 < delante <= 300
    ensures r == 10 <==> 100 < delante <= 200
    ensures r == 0 <==> delante <= 100
  {
    if delante > 500 then 100
    else if delante > 300 then 50
    else if delante > 200 then 25
    else if delante > 100 then 10
    else 0
  }

  /** Rear collision penalty. */
  function PenalizacionAtras(atras: int): (r: int)
    ensures r == -20 <==> atras > 100
    ensures r == 0 <==> atras <= 100
  {
    if atras > 100 then -20 else 0
  }

  /** Penalty for having lost the blob (x is the -1 sentinel). */
  function PenalizacionPerdido(x: int): (r: int)
    ensures r == -100 <==> x == -1
    ensures r == 0 <==> x != -1
  {
    if x == -1 then -100 else 0
  }

  /** Bonus for a centred blob with a strong front reading. */
  function Bonus(x: int, delante: int): (r: int)
    ensures r == 50 <==> AbsInt(x - 50) < 15 && delante > 300
    ensures r == 0 <==> !(AbsInt(x - 50) < 15 && delante > 300)
  {
    if AbsInt(x - 50) < 15 && delante > 300 then 50 else 0
  }

  /** The wall penalty the source accumulates from the four lateral sensors
      and the rear one; it is computed and then never added to the reward. */
  function PenalizacionParedes(ir: seq<int>): (r: real)
    requires |ir| >= 6
    ensures r >= 0.0
    ensures r == 0.0 <==> ir[1] <= 100 && ir[2] <= 100 && ir[3] <= 100 && ir[4] <= 100 && ir[5] <= 100
  {
    var atras, ll, l, rr, rd := ir[1], ir[2], ir[3], ir[4], ir[5];
    (if ll > 100 then (ll - 100) as real * 0.15 else 0.0)
    + (if l > 100 then (l - 100) as real * 0.25 else 0.0)
    + (if rr > 100 then (rr - 100) as real * 0.15 else 0.0)
    + (if rd > 100 then (rd - 100) as real * 0.25 else 0.0)
    + (if atras > 100 then (atras - 100) as real * 0.3 else 0.0)
  }

  /** The reward of one step, from the blob position, the blob size and the
      infrared vector stored in the environment. The source indexes
      `IR[2]..IR[5]`, so a vector shorter than 6 raises an IndexError. */
  function Recompensa(blobXY: XY, ir: seq<int>, tamanoBlob: int): real
    requires |ir| >= 6
  {
    var x, delante, atras := blobXY.x, ir[0], ir[1];
    // The source computes the wall penalty here and never adds it.
    var _ := PenalizacionParedes(ir);
    TerminoCentrado(x) as real
    + tamanoBlob as real * 0.1
    + TerminoIR(delante) as real
    + PenalizacionAtras(atras) as real
    + PenalizacionPerdido(x) as real
    + Bonus(x, delante) as real
  }

  /** Only the front and back readings matter: the lateral sensors
      `IR[2..5]` feed only the unused wall penalty. */
  lemma RecompensaIgnoraLaterales(blobXY: XY, ir1: seq<int>, ir2: seq<int>, tamanoBlob: int)
    requires |ir1| >= 6 && |ir2| >= 6
    requires ir1[0] == ir2[0] && ir1[1] == ir2[1]
    ensures Recompensa(blobXY, ir1, tamanoBlob) == Recompensa(blobXY, ir2, tamanoBlob)
  {
  }

  /** Two readings with different wall penalties and the same reward: the
      penalty is not part of the sum. */
  lemma ParedesNoSumadas()
    ensures PenalizacionParedes([0, 0, 300, 0, 0, 0]) == 30.0
    ensures Recompensa(XY(50, 50), [0, 0, 300, 0, 0, 0], 0) == Recompensa(XY(50, 50), [0, 0, 0, 0, 0, 0], 0)
  {
    assert PenalizacionParedes([0, 0, 300, 0, 0, 0]) == 200 as real * 0.15;
  }

  /** The reward lies between -125 and 170 plus a tenth of the blob size. */
  lemma {:induction false} RecompensaAcotada(blobXY: XY, ir: seq<int>, tamanoBlob: int)
    requires |ir| >= 6
    ensures -125.0 + tamanoBlob as real * 0.1 <= Recompensa(blobXY, ir, tamanoBlob)
    ensures Recompensa(blobXY, ir, tamanoBlob) <= 170.0 + tamanoBlob as real * 0.1
  {
    var x, delante := blobXY.x, ir[0];
    if x == -1 {
      assert AbsInt(x - 50) >= 25;
      assert Bonus(x, delante) == 0;
    }
    if AbsInt(x - 50) < 15 && delante > 300 {
      assert TerminoCentrado(x) <= 20 && TerminoIR(delante) <= 100 && PenalizacionPerdido(x) == 0;
    }
  }

  /** With the blob lost (x == -1) every reward carries the -100 penalty, the
      -5 centring value and no bonus. */
  lemma RecompensaPerdido(y: int, ir: seq<int>, tamanoBlob: int)
    requires |ir| >= 6
    ensures Recompensa(XY(-1, y), ir, tamanoBlob)
         == -105.0 + tamanoBlob as real * 0.1 + TerminoIR(ir[0]) as real + PenalizacionAtras(ir[1]) as real
  {
    assert AbsInt(-1 - 50) == 51;
  }

  /** Moving the blob closer to the centre never lowers the centring term. */
  lemma CentradoMonotono(x1: int, x2: int)
    requires AbsInt(x1 - 50) <= AbsInt(x2 - 50)
    ensures TerminoCentrado(x1) >= TerminoCentrado(x2)
  {
  }

  /** A stronger front reading never lowers the infrared term. */
  lemma IRMonotono(d1: int, d2: int)
    requires d1 <= d2
    ensures TerminoIR(d1) <= TerminoIR(d2)
  {
  }

  /** The bonus is paid only when both the centring term and the infrared
      term are in their good bands. */
  lemma BonusImplicaBuenosTerminos(x: int, delante: int)
    requires Bonus(x, delante) == 50
    ensures TerminoCentrado(x) >= 10 && TerminoIR(delante) >= 50
  {
  }

  // ---------------------------------------------------------------------
  // Termination rule
  // ---------------------------------------------------------------------

  /** `terminated` (and `truncated`, which is the same value) for a step
      that finds the counter at `contador`. */
  function Terminado(contador: int, pasosPorEpisodio: int): (t: bool)
  {
    contador == pasosPorEpisodio
  }

  // ---------------------------------------------------------------------
  // The environment
  // ---------------------------------------------------------------------

  /** What the robot and the simulator report after a reset or a step:
      `_get_xy`, `_get_IR`, `_get_tamano_blob`, `_get_object_xz` and
      `_get_robot_xz`. */
  datatype Lectura = Lectura(blobXY: XY, ir: seq<int>, tamanoBlob: int, objetoXZ: XZ, robotXZ: XZ)

  /** Ways a step raises instead of returning. */
  datatype Fallo =
    | SinReset    // `numero_de_pasos` is first assigned by `reset`
    | IRCorto     // `_get_recompensa` indexes `IR[5]`

  /** What a successful step returns (the info dictionary is a constant). */
  datatype Paso = Paso(obs: Observacion, recompensa: real, terminated: bool, truncated: bool)

  class Entorno {
    const pasosPorEpisodio: int
    /** `_velocidad`, a two-element buffer updated in place. */
    const velocidad: array<real>
    /** False until the first `reset` assigns `numero_de_pasos`. */
    var reiniciado: bool
    var numeroDePasos: int

    var blobXY: XY
    var ir: seq<int>
    var tamanoBlob: int

    var recompensasEpisodio: seq<real>
    var xyObjetoEpisodio: seq<XZ>
    var xyRobotEpisodio: seq<XZ>

    var historialRecompensas: seq<seq<real>>
    var historialXYObjeto: seq<seq<XZ>>
    var historialXYRobot: seq<seq<XZ>>

    /** The state every reset and step keeps: velocity within bounds, one
        position per reward plus the initial one, and a history made of
        non-empty episodes whose three lists line up. */
    ghost predicate Valid()
      reads this, velocidad
    {
      VelocidadValida() && ListasValidas()
    }

    ghost predicate VelocidadValida()
      reads velocidad
    {
      && velocidad.Length == 2
      && VelocidadMin <= velocidad[0] <= VelocidadMax
      && VelocidadMin <= velocidad[1] <= VelocidadMax
    }

    ghost predicate ListasValidas()
      reads this
    {
      && (reiniciado ==>
            |xyObjetoEpisodio| == |recompensasEpisodio| + 1
            && |xyRobotEpisodio| == |recompensasEpisodio| + 1)
      && (!reiniciado ==> recompensasEpisodio == [] && xyObjetoEpisodio == [] && xyRobotEpisodio == [])
      && HistorialCoherente(historialRecompensas, historialXYObjeto, historialXYRobot)
    }

    /** The source's `__init__` without the robot and simulator connections. */
    constructor (pasosPorEpisodio: int)
      ensures Valid() && fresh(velocidad)
      ensures this.pasosPorEpisodio == pasosPorEpisodio
      ensures velocidad[..] == [0.0, 0.0]
      ensures !reiniciado
      ensures blobXY == XY(-1, -1) && ir == [0, 0] && tamanoBlob == -1
      ensures recompensasEpisodio == [] && xyObjetoEpisodio == [] && xyRobotEpisodio == []
      ensures historialRecompensas == [] && historialXYObjeto == [] && historialXYRobot == []
    {
      this.pasosPorEpisodio := pasosPorEpisodio;
      var v := new real[2];
      v[0], v[1] := 0.0, 0.0;
      velocidad := v;
      reiniciado := false;
      numeroDePasos := 0;
      blobXY, ir, tamanoBlob := XY(-1, -1), [0, 0], -1;
      recompensasEpisodio, xyObjetoEpisodio, xyRobotEpisodio := [], [], [];
      historialRecompensas, historialXYObjeto, historialXYRobot := [], [], [];
    }

    function Observar(): (o: Observacion)
      reads this, velocidad
      requires velocidad.Length == 2
      ensures o.blobXY == blobXY && o.ir == ir && o.tamanoBlob == tamanoBlob
      ensures o.velocidad == (velocidad[0], velocidad[1])
    {
      Observacion(blobXY, ir, tamanoBlob, (velocidad[0], velocidad[1]))
    }

    /** Start a new episode: the previous episode's three lists move into the
        history only if it recorded a reward; the counter restarts at 1; the
        new readings are stored and the first floor positions recorded. The
        wheel velocity is left as it was. */
    method Reset(lectura: Lectura) returns (obs: Observacion)
      requires Valid()
      modifies this
      ensures Valid()
      ensures old(recompensasEpisodio) != [] ==>
                historialRecompensas == old(historialRecompensas) + [old(recompensasEpisodio)]
                && historialXYObjeto == old(historialXYObjeto) + [old(xyObjetoEpisodio)]
                && historialXYRobot == old(historialXYRobot) + [old(xyRobotEpisodio)]
      ensures old(recompensasEpisodio) == [] ==>
                historialRecompensas == old(historialRecompensas)
                && historialXYObjeto == old(historialXYObjeto)
                && historialXYRobot == old(historialXYRobot)
      ensures recompensasEpisodio == []
      ensures xyObjetoEpisodio == [lectura.objetoXZ] && xyRobotEpisodio == [lectura.robotXZ]
      ensures reiniciado && numeroDePasos == 1
      ensures blobXY == lectura.blobXY && ir == lectura.ir && tamanoBlob == lectura.tamanoBlob
      ensures velocidad[..] == old(velocidad[..])
      ensures obs == Observar()
    {
      Archiva();
      recompensasEpisodio, xyObjetoEpisodio, xyRobotEpisodio := [], [], [];
      numeroDePasos := 1;
      reiniciado := true;
      blobXY, ir, tamanoBlob := lectura.blobXY, lectura.ir, lectura.tamanoBlob;
      xyObjetoEpisodio := xyObjetoEpisodio + [lectura.objetoXZ];
      xyRobotEpisodio := xyRobotEpisodio + [lectura.robotXZ];
      obs := Observar();
    }

    /** The first part of a reset: the episode moves into the history only
        if it recorded a reward. */
    method Archiva()
      requires ListasValidas()
      modifies this
      ensures HistorialCoherente(historialRecompensas, historialXYObjeto, historialXYRobot)
      ensures old(recompensasEpisodio) != [] ==>
                historialRecompensas == old(historialRecompensas) + [old(recompensasEpisodio)]
                && historialXYObjeto == old(historialXYObjeto) + [old(xyObjetoEpisodio)]
                && historialXYRobot == old(historialXYRobot) + [old(xyRobotEpisodio)]
      ensures old(recompensasEpisodio) == [] ==>
                historialRecompensas == old(historialRecompensas)
                && historialXYObjeto == old(historialXYObjeto)
                && historialXYRobot == old(historialXYRobot)
    {
      if recompensasEpisodio != [] {
        HistorialCoherenteUnoMas(historialRecompensas, historialXYObjeto, historialXYRobot,
                                 recompensasEpisodio, xyObjetoEpisodio, xyRobotEpisodio);
        historialRecompensas := historialRecompensas + [recompensasEpisodio];
        historialXYObjeto := historialXYObjeto + [xyObjetoEpisodio];
        historialXYRobot := historialXYRobot + [xyRobotEpisodio];
      }
    }

    /** One step. The wheels receive the unclamped sums; the stored velocity
        is the clamped one. The termination flag compares the counter before
        it is incremented. The reward is computed from the readings stored
        before this step's new readings are taken; the new readings and
        positions are stored after it. With the default `verboso=False`, a
        step before any reset fails once the velocity is updated; a stored infrared vector shorter than 6 makes
        the reward fail after the counter is incremented. */
    method Step(accion: Accion, lectura: Lectura) returns (res: Result<Paso, Fallo>, ruedas: Ruedas)
      requires Valid()
      modifies this, velocidad
      ensures Valid()
      ensures ruedas == Ruedas(old(velocidad[0]) + DeltaIzquierda(accion), old(velocidad[1]) + DeltaDerecha(accion))
      ensures velocidad[0] == Clip(old(velocidad[0]) + DeltaIzquierda(accion), VelocidadMin, VelocidadMax)
      ensures velocidad[1] == Clip(old(velocidad[1]) + DeltaDerecha(accion), VelocidadMin, VelocidadMax)
      ensures historialRecompensas == old(historialRecompensas)
      ensures historialXYObjeto == old(historialXYObjeto) && historialXYRobot == old(historialXYRobot)
      ensures reiniciado == old(reiniciado)
      ensures !old(reiniciado) ==>
                res == Err(SinReset) && numeroDePasos == old(numeroDePasos)
      ensures old(reiniciado) ==> numeroDePasos == old(numeroDePasos) + 1
      ensures old(reiniciado) && |old(ir)| < 6 ==> res == Err(IRCorto)
      ensures res.Err? ==>
                recompensasEpisodio == old(recompensasEpisodio)
                && xyObjetoEpisodio == old(xyObjetoEpisodio) && xyRobotEpisodio == old(xyRobotEpisodio)
                && blobXY == old(blobXY) && ir == old(ir) && tamanoBlob == old(tamanoBlob)
      ensures old(reiniciado) && |old(ir)| >= 6 ==>
                && res.Ok?
                && res.value.terminated == Terminado(old(numeroDePasos), pasosPorEpisodio)
                && res.value.truncated == res.value.terminated
                && res.value.recompensa == Recompensa(old(blobXY), old(ir), old(tamanoBlob))
                && recompensasEpisodio == old(recompensasEpisodio) + [res.value.recompensa]
                && xyObjetoEpisodio == old(xyObjetoEpisodio) + [lectura.objetoXZ]
                && xyRobotEpisodio == old(xyRobotEpisodio) + [lectura.robotXZ]
                && blobXY == lectura.blobXY && ir == lectura.ir && tamanoBlob == lectura.tamanoBlob
                && res.value.obs == Observar()
    {
      ruedas := ActualizaVelocidad(accion);
      if !reiniciado {
        res := Err(SinReset);
        return;
      }
      var terminado := Terminado(numeroDePasos, pasosPorEpisodio);
      numeroDePasos := numeroDePasos + 1;
      if |ir| < 6 {
        res := Err(IRCorto);
        return;
      }
      var recompensa := Recompensa(blobXY, ir, tamanoBlob);
      Registra(recompensa, lectura);
      res := Ok(Paso(Observar(), recompensa, terminado, terminado));
    }

    /** The wheel part of a step: the command is the unclamped sum, the
        stored velocity the clamped one. */
    method ActualizaVelocidad(accion: Accion) returns (ruedas: Ruedas)
      requires VelocidadValida()
      modifies velocidad
      ensures VelocidadValida()
      ensures ruedas == Ruedas(old(velocidad[0]) + DeltaIzquierda(accion), old(velocidad[1]) + DeltaDerecha(accion))
      ensures velocidad[0] == Clip(old(velocidad[0]) + DeltaIzquierda(accion), VelocidadMin, VelocidadMax)
      ensures velocidad[1] == Clip(old(velocidad[1]) + DeltaDerecha(accion), VelocidadMin, VelocidadMax)
    {
      var dx := DeltaIzquierda(accion);
      var dy := DeltaDerecha(accion);
      ruedas := Ruedas(velocidad[0] + dx, velocidad[1] + dy);
      velocidad[0] := Clip(velocidad[0] + dx, VelocidadMin, VelocidadMax);
      velocidad[1] := Clip(velocidad[1] + dy, VelocidadMin, VelocidadMax);
    }

    /** The bookkeeping part of a successful step: one reward and one pair
        of positions appended, the new readings stored. */
    method Registra(recompensa: real, lectura: Lectura)
      requires ListasValidas() && reiniciado
      modifies this
      ensures ListasValidas()
      ensures recompensasEpisodio == old(recompensasEpisodio) + [recompensa]
      ensures xyObjetoEpisodio == old(xyObjetoEpisodio) + [lectura.objetoXZ]
      ensures xyRobotEpisodio == old(xyRobotEpisodio) + [lectura.robotXZ]
      ensures blobXY == lectura.blobXY && ir == lectura.ir && tamanoBlob == lectura.tamanoBlob
      ensures reiniciado == old(reiniciado) && numeroDePasos == old(numeroDePasos)
      ensures historialRecompensas == old(historialRecompensas)
      ensures historialXYObjeto == old(historialXYObjeto) && historialXYRobot == old(historialXYRobot)
    {
      recompensasEpisodio := recompensasEpisodio + [recompensa];
      blobXY, ir, tamanoBlob := lectura.blobXY, lectura.ir, lectura.tamanoBlob;
      xyObjetoEpisodio := xyObjetoEpisodio + [lectura.objetoXZ];
      xyRobotEpisodio := xyRobotEpisodio + [lectura.robotXZ];
    }
  }

  /** Two resets in a row add one episode to the history, not two: the second
      finds an empty reward list. */
  method DobleResetNoDuplica(e: Entorno, l1: Lectura, l2: Lectura)
    requires e.Valid()
    modifies e
    ensures e.Valid()
    ensures |e.historialRecompensas| == |old(e.historialRecompensas)| + (if old(e.recompensasEpisodio) != [] then 1 else 0)
  {
    var _ := e.Reset(l1);
    var _ := e.Reset(l2);
  }
}
