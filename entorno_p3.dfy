/** The P3 environment: the same step/reset cycle as in P2 with the wheel
    velocity bounded by [-2, 2], and a reward made of two Gaussian bumps
    (centring and distance), a rear infrared penalty and a size term.
    `math.exp` is a parameter of the environment: the model states facts about
    the reward that hold whatever that function is. */
module EntornoP3 {
  import opened Comun

  const VelocidadMin: real := -2.0
  const VelocidadMax: real := 2.0

  /** The reward weights and the distance scale of `__init__`. */
  datatype Pesos = Pesos(alpha1: real, alpha2: real, alpha3: real, alpha4: real, sigma: real)

  /** The rear infrared term `-alpha3 * max(0, atras - 58)`. */
  function TerminoAtras(alpha3: real, atras: int): (r: real)
    ensures atras <= 58 ==> r == 0.0
    ensures alpha3 >= 0.0 ==> r <= 0.0
    ensures atras > 58 && alpha3 > 0.0 ==> r < 0.0
  {
    -alpha3 * Max(0.0, (atras - 58) as real)
  }

  /** `_get_recompensa` with the distance `d` that `_distancia_a_blob`
      returns at that moment, for a non-zero `sigma`. */
  function Recompensa(exp: real -> real, p: Pesos, x: int, d: real, atras: int, tamanoBlob: int): real
    requires p.sigma != 0.0
  {
    p.alpha1 * exp(-(((x - 50) * (x - 50)) as real))
    + p.alpha2 * exp(-((d / p.sigma) * (d / p.sigma)))
    + TerminoAtras(p.alpha3, atras)
    + p.alpha4 * tamanoBlob as real
  }

  /** `_get_recompensa` when `d / sigma` is infinite: `math.exp(-inf)` is 0,
      so only the centring, rear and size terms remain. */
  function RecompensaSinDistancia(exp: real -> real, p: Pesos, x: int, atras: int, tamanoBlob: int): real
  {
    p.alpha1 * exp(-(((x - 50) * (x - 50)) as real))
    + TerminoAtras(p.alpha3, atras)
    + p.alpha4 * tamanoBlob as real
  }

  /** The rear reading enters the reward only through the rear term, for
      every choice of the exponential: the difference of two rewards that
      differ only in `atras` is the difference of their rear terms. */
  lemma RecompensaSoloAtrasDependeDeAtras(exp: real -> real, p: Pesos, x: int, d: real, atras1: int, atras2: int, tamanoBlob: int)
    requires p.sigma != 0.0
    ensures Recompensa(exp, p, x, d, atras1, tamanoBlob) - Recompensa(exp, p, x, d, atras2, tamanoBlob)
         == TerminoAtras(p.alpha3, atras1) - TerminoAtras(p.alpha3, atras2)
  {
  }

  /** With a non-negative weight, a closer rear obstacle never raises the
      reward; up to a reading of 58 it has no effect at all. */
  lemma {:induction false} RecompensaNoCreceConAtras(exp: real -> real, p: Pesos, x: int, d: real, atras1: int, atras2: int, tamanoBlob: int)
    requires p.sigma != 0.0 && p.alpha3 >= 0.0
    requires atras1 <= atras2
    ensures Recompensa(exp, p, x, d, atras2, tamanoBlob) <= Recompensa(exp, p, x, d, atras1, tamanoBlob)
    ensures atras2 <= 58 ==> Recompensa(exp, p, x, d, atras2, tamanoBlob) == Recompensa(exp, p, x, d, atras1, tamanoBlob)
  {
    RecompensaSoloAtrasDependeDeAtras(exp, p, x, d, atras2, atras1, tamanoBlob);
    assert Max(0.0, (atras1 - 58) as real) <= Max(0.0, (atras2 - 58) as real);
    assert p.alpha3 * Max(0.0, (atras1 - 58) as real) <= p.alpha3 * Max(0.0, (atras2 - 58) as real);
  }

  function Terminado(contador: int, pasosPorEpisodio: int): bool
  {
    contador == pasosPorEpisodio
  }

  /** What the robot and the simulator report after a reset or a step. The
      infrared pair is what `_get_IR` returns: [Front-C, Back-C]. */
  datatype Lectura = Lectura(blobXY: XY, ir: seq<int>, tamanoBlob: int, objetoXZ: XZ, robotXZ: XZ)

  ghost predicate LecturaBienFormada(l: Lectura) { |l.ir| == 2 }

  /** What `_distancia_a_blob` returns: a Python float (the literal 100.0,
      or `math.sqrt` in simulation) or a numpy float64 (`np.sqrt` of the
      detected area, in the real world). The two differ only when divided
      by a zero `sigma`: a Python float raises, a numpy float gives an
      infinity, or NaN when it is 0. */
  datatype Distancia = Flotante(valor: real) | Numpy(valor: real)

  datatype Fallo =
    | SinReset     // `numero_de_pasos` is first assigned by `reset`
    | SigmaCero    // a Python float `d / self.sigma` with `sigma == 0`
    | Indefinida   // a numpy `0.0 / 0`: the reward would be NaN

  /** The reward of a step, or the failure of `_get_recompensa`, for the
      readings `x`, `atras` and `tamanoBlob` held before the step. */
  function RecompensaPaso(exp: real -> real, p: Pesos, x: int, d: Distancia, atras: int, tamanoBlob: int): (r: Result<real, Fallo>)
    ensures p.sigma != 0.0 ==> r == Ok(Recompensa(exp, p, x, d.valor, atras, tamanoBlob))
    ensures p.sigma == 0.0 && d.Flotante? ==> r == Err(SigmaCero)
    ensures p.sigma == 0.0 && d.Numpy? && d.valor == 0.0 ==> r == Err(Indefinida)
    ensures p.sigma == 0.0 && d.Numpy? && d.valor != 0.0 ==> r == Ok(RecompensaSinDistancia(exp, p, x, atras, tamanoBlob))
  {
    if p.sigma != 0.0 then Ok(Recompensa(exp, p, x, d.valor, atras, tamanoBlob))
    else if d.Flotante? then Err(SigmaCero)
    else if d.valor == 0.0 then Err(Indefinida)
    else Ok(RecompensaSinDistancia(exp, p, x, atras, tamanoBlob))
  }

  datatype Paso = Paso(obs: Observacion, recompensa: real, terminated: bool, truncated: bool)

  class Entorno {
    const pasosPorEpisodio: int
    const pesos: Pesos
    /** `math.exp`, left uninterpreted. */
    const exp: real -> real
    const velocidad: array<real>
    var reiniciado: bool
    var numeroDePasos: int

    var blobXY: XY
    var ir: seq<int>
    var tamanoBlob: int

    var recompensasEpisodio: seq<real>
    var xyObjetoEpisodio: seq<XZ>
    var xyRobotEpisodio: seq<XZ>

    var historialRecompensas: seq<seq<real>>
    var historialXYObjeto: seq<seq<XZ>>
    var historialXYRobot: seq<seq<XZ>>

    /** The state every reset and step keeps: velocity within bounds, the
        infrared pair, one position per reward plus the initial one, and a
        history made of non-empty episodes whose three lists line up. */
    ghost predicate Valid()
      reads this, velocidad
    {
      VelocidadValida() && ListasValidas()
    }

    ghost predicate VelocidadValida()
      reads velocidad
    {
      && velocidad.Length == 2
      && VelocidadMin <= velocidad[0] <= VelocidadMax
      && VelocidadMin <= velocidad[1] <= VelocidadMax
    }

    ghost predicate ListasValidas()
      reads this
    {
      && |ir| == 2
      && (reiniciado ==>
            |xyObjetoEpisodio| == |recompensasEpisodio| + 1
            && |xyRobotEpisodio| == |recompensasEpisodio| + 1)
      && (!reiniciado ==> recompensasEpisodio == [] && xyObjetoEpisodio == [] && xyRobotEpisodio == [])
      && HistorialCoherente(historialRecompensas, historialXYObjeto, historialXYRobot)
    }

    /** `__init__` without the robot and simulator connections. */
    constructor (pasosPorEpisodio: int, pesos: Pesos, exp: real -> real)
      ensures Valid() && fresh(velocidad)
      ensures this.pasosPorEpisodio == pasosPorEpisodio && this.pesos == pesos && this.exp == exp
      ensures velocidad[..] == [0.0, 0.0]
      ensures !reiniciado
      ensures blobXY == XY(-1, -1) && ir == [0, 0] && tamanoBlob == -1
      ensures recompensasEpisodio == [] && xyObjetoEpisodio == [] && xyRobotEpisodio == []
      ensures historialRecompensas == [] && historialXYObjeto == [] && historialXYRobot == []
    {
      this.pasosPorEpisodio := pasosPorEpisodio;
      this.pesos := pesos;
      this.exp := exp;
      var v := new real[2];
      v[0], v[1] := 0.0, 0.0;
      velocidad := v;
      reiniciado := false;
      numeroDePasos := 0;
      blobXY, ir, tamanoBlob := XY(-1, -1), [0, 0], -1;
      recompensasEpisodio, xyObjetoEpisodio, xyRobotEpisodio := [], [], [];
      historialRecompensas, historialXYObjeto, historialXYRobot := [], [], [];
    }

    function Observar(): (o: Observacion)
      reads this, velocidad
      requires velocidad.Length == 2
      ensures o.blobXY == blobXY && o.ir == ir && o.tamanoBlob == tamanoBlob
      ensures o.velocidad == (velocidad[0], velocidad[1])
    {
      Observacion(blobXY, ir, tamanoBlob, (velocidad[0], velocidad[1]))
    }

    /** Start a new episode: flush the previous one into the history when it
        holds a reward, clear the three lists, restart the counter at 1,
        store the new readings and the first floor positions. */
    method Reset(lectura: Lectura) returns (obs: Observacion)
      requires Valid() && LecturaBienFormada(lectura)
      modifies this
      ensures Valid()
      ensures old(recompensasEpisodio) != [] ==>
                historialRecompensas == old(historialRecompensas) + [old(recompensasEpisodio)]
                && historialXYObjeto == old(historialXYObjeto) + [old(xyObjetoEpisodio)]
                && historialXYRobot == old(historialXYRobot) + [old(xyRobotEpisodio)]
      ensures old(recompensasEpisodio) == [] ==>
                historialRecompensas == old(historialRecompensas)
                && historialXYObjeto == old(historialXYObjeto)
                && historialXYRobot == old(historialXYRobot)
      ensures recompensasEpisodio == []
      ensures xyObjetoEpisodio == [lectura.objetoXZ] && xyRobotEpisodio == [lectura.robotXZ]
      ensures reiniciado && numeroDePasos == 1
      ensures blobXY == lectura.blobXY && ir == lectura.ir && tamanoBlob == lectura.tamanoBlob
      ensures velocidad[..] == old(velocidad[..])
      ensures obs == Observar()
    {
      Archiva();
      recompensasEpisodio, xyObjetoEpisodio, xyRobotEpisodio := [], [], [];
      numeroDePasos := 1;
      reiniciado := true;
      blobXY, ir, tamanoBlob := lectura.blobXY, lectura.ir, lectura.tamanoBlob;
      xyObjetoEpisodio := xyObjetoEpisodio + [lectura.objetoXZ];
      xyRobotEpisodio := xyRobotEpisodio + [lectura.robotXZ];
      obs := Observar();
    }

    /** The first part of a reset: the episode moves into the history only
        if it recorded a reward. */
    method Archiva()
      requires ListasValidas()
      modifies this
      ensures HistorialCoherente(historialRecompensas, historialXYObjeto, historialXYRobot)
      ensures old(recompensasEpisodio) != [] ==>
                historialRecompensas == old(historialRecompensas) + [old(recompensasEpisodio)]
                && historialXYObjeto == old(historialXYObjeto) + [old(xyObjetoEpisodio)]
                && historialXYRobot == old(historialXYRobot) + [old(xyRobotEpisodio)]
      ensures old(recompensasEpisodio) == [] ==>
                historialRecompensas == old(historialRecompensas)
                && historialXYObjeto == old(historialXYObjeto)
                && historialXYRobot == old(historialXYRobot)
    {
      if recompensasEpisodio != [] {
        HistorialCoherenteUnoMas(historialRecompensas, historialXYObjeto, historialXYRobot,
                                 recompensasEpisodio, xyObjetoEpisodio, xyRobotEpisodio);
        historialRecompensas := historialRecompensas + [recompensasEpisodio];
        historialXYObjeto := historialXYObjeto + [xyObjetoEpisodio];
        historialXYRobot := historialXYRobot + [xyRobotEpisodio];
      }
    }

    /** One step. `distancia` is what `_distancia_a_blob` reports when the
        reward is computed (after the move, before the new readings). The
        progress print reads the counter first, so a step before any reset
        fails before the wheels are commanded. Otherwise the wheels receive
        the unclamped sums (`ruedas`) and the stored velocity is clamped to
        [-2, 2]. */
    method Step(accion: Accion, distancia: Distancia, lectura: Lectura) returns (res: Result<Paso, Fallo>, ruedas: Option<Ruedas>)
      requires Valid() && LecturaBienFormada(lectura)
      modifies this, velocidad
      ensures Valid()
      ensures historialRecompensas == old(historialRecompensas)
      ensures historialXYObjeto == old(historialXYObjeto) && historialXYRobot == old(historialXYRobot)
      ensures reiniciado == old(reiniciado)
      ensures !old(reiniciado) ==>
                res == Err(SinReset) && ruedas == None && numeroDePasos == old(numeroDePasos)
                && velocidad[..] == old(velocidad[..])
      ensures old(reiniciado) ==>
                && ruedas == Some(Ruedas(old(velocidad[0]) + DeltaIzquierda(accion), old(velocidad[1]) + DeltaDerecha(accion)))
                && velocidad[0] == Clip(old(velocidad[0]) + DeltaIzquierda(accion), VelocidadMin, VelocidadMax)
                && velocidad[1] == Clip(old(velocidad[1]) + DeltaDerecha(accion), VelocidadMin, VelocidadMax)
                && numeroDePasos == old(numeroDePasos) + 1
      ensures old(reiniciado) && RecompensaPaso(exp, pesos, old(blobXY).x, distancia, old(ir)[1], old(tamanoBlob)).Err? ==>
                res == Err(RecompensaPaso(exp, pesos, old(blobXY).x, distancia, old(ir)[1], old(tamanoBlob)).error)
      ensures res.Err? ==>
                recompensasEpisodio == old(recompensasEpisodio)
                && xyObjetoEpisodio == old(xyObjetoEpisodio) && xyRobotEpisodio == old(xyRobotEpisodio)
                && blobXY == old(blobXY) && ir == old(ir) && tamanoBlob == old(tamanoBlob)
      ensures old(reiniciado) && RecompensaPaso(exp, pesos, old(blobXY).x, distancia, old(ir)[1], old(tamanoBlob)).Ok? ==>
                && res.Ok?
                && res.value.terminated == Terminado(old(numeroDePasos), pasosPorEpisodio)
                && res.value.truncated == res.value.terminated
                && res.value.recompensa == RecompensaPaso(exp, pesos, old(blobXY).x, distancia, old(ir)[1], old(tamanoBlob)).value
                && recompensasEpisodio == old(recompensasEpisodio) + [res.value.recompensa]
                && xyObjetoEpisodio == old(xyObjetoEpisodio) + [lectura.objetoXZ]
                && xyRobotEpisodio == old(xyRobotEpisodio) + [lectura.robotXZ]
                && blobXY == lectura.blobXY && ir == lectura.ir && tamanoBlob == lectura.tamanoBlob
                && res.value.obs == Observar()
    {
      if !reiniciado {
        res, ruedas := Err(SinReset), None;
        return;
      }
      var mando := ActualizaVelocidad(accion);
      ruedas := Some(mando);
      var terminado := Terminado(numeroDePasos, pasosPorEpisodio);
      numeroDePasos := numeroDePasos + 1;
      var recompensa := RecompensaPaso(exp, pesos, blobXY.x, distancia, ir[1], tamanoBlob);
      if recompensa.Err? {
        res := Err(recompensa.error);
        return;
      }
      Registra(recompensa.value, lectura);
      res := Ok(Paso(Observar(), recompensa.value, terminado, terminado));
    }

    /** The wheel part of a step: the command is the unclamped sum, the
        stored velocity the clamped one. */
    method ActualizaVelocidad(accion: Accion) returns (ruedas: Ruedas)
      requires VelocidadValida()
      modifies velocidad
      ensures VelocidadValida()
      ensures ruedas == Ruedas(old(velocidad[0]) + DeltaIzquierda(accion), old(velocidad[1]) + DeltaDerecha(accion))
      ensures velocidad[0] == Clip(old(velocidad[0]) + DeltaIzquierda(accion), VelocidadMin, VelocidadMax)
      ensures velocidad[1] == Clip(old(velocidad[1]) + DeltaDerecha(accion), VelocidadMin, VelocidadMax)
    {
      var dx := DeltaIzquierda(accion);
      var dy := DeltaDerecha(accion);
      ruedas := Ruedas(velocidad[0] + dx, velocidad[1] + dy);
      velocidad[0] := Clip(velocidad[0] + dx, VelocidadMin, VelocidadMax);
      velocidad[1] := Clip(velocidad[1] + dy, VelocidadMin, VelocidadMax);
    }

    /** The bookkeeping part of a successful step: one reward and one pair
        of positions appended, the new readings stored. */
    method Registra(recompensa: real, lectura: Lectura)
      requires ListasValidas() && reiniciado && LecturaBienFormada(lectura)
      modifies this
      ensures ListasValidas()
      ensures recompensasEpisodio == old(recompensasEpisodio) + [recompensa]
      ensures xyObjetoEpisodio == old(xyObjetoEpisodio) + [lectura.objetoXZ]
      ensures xyRobotEpisodio == old(xyRobotEpisodio) + [lectura.robotXZ]
      ensures blobXY == lectura.blobXY && ir == lectura.ir && tamanoBlob == lectura.tamanoBlob
      ensures reiniciado == old(reiniciado) && numeroDePasos == old(numeroDePasos)
      ensures historialRecompensas == old(historialRecompensas)
      ensures historialXYObjeto == old(historialXYObjeto) && historialXYRobot == old(historialXYRobot)
    {
      recompensasEpisodio := recompensasEpisodio + [recompensa];
      blobXY, ir, tamanoBlob := lectura.blobXY, lectura.ir, lectura.tamanoBlob;
      xyObjetoEpisodio := xyObjetoEpisodio + [lectura.objetoXZ];
      xyRobotEpisodio := xyRobotEpisodio + [lectura.robotXZ];
    }
  }

  /** The readings the environment holds before step `k` of an episode
      (0-based): the reset's, then those of the step before. */
  function Antes(inicial: Lectura, lecturas: seq<Lectura>, k: nat): Lectura
    requires k <= |lecturas|
  {
    if k == 0 then inicial else lecturas[k - 1]
  }

  /** The reward a step computes when the environment holds `l` and the
      distance is `d`. */
  function RecompensaCon(exp: real -> real, p: Pesos, l: Lectura, d: Distancia): real
    requires p.sigma != 0.0 && |l.ir| == 2
  {
    Recompensa(exp, p, l.blobXY.x, d.valor, l.ir[1], l.tamanoBlob)
  }

  /** A step of an episode with a non-zero scale: it succeeds, appends the
      reward of the readings held before it and stores the new ones. */
  method PasoDeEpisodio(e: Entorno, accion: Accion, d: Distancia, lectura: Lectura) returns (terminado: bool)
    requires e.Valid() && e.reiniciado && e.pesos.sigma != 0.0 && |lectura.ir| == 2
    modifies e, e.velocidad
    ensures e.Valid() && e.reiniciado && e.numeroDePasos == old(e.numeroDePasos) + 1
    ensures terminado == Terminado(old(e.numeroDePasos), e.pasosPorEpisodio)
    ensures e.recompensasEpisodio
         == old(e.recompensasEpisodio) + [Recompensa(e.exp, e.pesos, old(e.blobXY).x, d.valor, old(e.ir)[1], old(e.tamanoBlob))]
    ensures e.blobXY == lectura.blobXY && e.ir == lectura.ir && e.tamanoBlob == lectura.tamanoBlob
  {
    var res, _ := e.Step(accion, d, lectura);
    terminado := res.value.terminated;
  }

  /** A client: reset, then `pasosPorEpisodio` steps. Only the last step
      reports termination, each step adds one reward, and the reward of step
      k is computed from the readings the environment held before it (those
      of the reset for the first step, of step k-1 afterwards). */
  method Episodio(e: Entorno, inicial: Lectura, acciones: seq<Accion>, distancias: seq<Distancia>, lecturas: seq<Lectura>)
      returns (terminados: seq<bool>)
    requires e.Valid() && |inicial.ir| == 2
    requires e.pesos.sigma != 0.0 && e.pasosPorEpisodio >= 0
    requires |acciones| == |distancias| == |lecturas| == e.pasosPorEpisodio
    requires forall i :: 0 <= i < |lecturas| ==> |lecturas[i].ir| == 2
    modifies e, e.velocidad
    ensures e.Valid()
    ensures |terminados| == e.pasosPorEpisodio
    ensures forall k :: 0 <= k < |terminados| ==> (terminados[k] <==> k == e.pasosPorEpisodio - 1)
    ensures |e.recompensasEpisodio| == e.pasosPorEpisodio
    ensures forall k :: 0 <= k < |e.recompensasEpisodio| ==>
              |Antes(inicial, lecturas, k).ir| == 2
              && e.recompensasEpisodio[k] == RecompensaCon(e.exp, e.pesos, Antes(inicial, lecturas, k), distancias[k])
  {
    var _ := e.Reset(inicial);
    terminados := [];
    var k := 0;
    while k < e.pasosPorEpisodio
      invariant 0 <= k <= e.pasosPorEpisodio
      invariant e.Valid() && e.reiniciado && e.numeroDePasos == k + 1
      invariant |terminados| == k && |e.recompensasEpisodio| == k
      invariant forall j :: 0 <= j < k ==> (terminados[j] <==> j == e.pasosPorEpisodio - 1)
      invariant e.blobXY == Antes(inicial, lecturas, k).blobXY && e.ir == Antes(inicial, lecturas, k).ir
                && e.tamanoBlob == Antes(inicial, lecturas, k).tamanoBlob
      invariant forall j :: 0 <= j < k ==>
                  |Antes(inicial, lecturas, j).ir| == 2
                  && e.recompensasEpisodio[j] == RecompensaCon(e.exp, e.pesos, Antes(inicial, lecturas, j), distancias[j])
    {
      ghost var previas := e.recompensasEpisodio;
      ghost var antes := Antes(inicial, lecturas, k);
      assert |lecturas[k].ir| == 2;
      var terminado := PasoDeEpisodio(e, acciones[k], distancias[k], lecturas[k]);
      assert e.recompensasEpisodio == previas + [RecompensaCon(e.exp, e.pesos, antes, distancias[k])];
      assert Antes(inicial, lecturas, k + 1) == lecturas[k];
      terminados := terminados + [terminado];
      k := k + 1;
    }
  }
}
