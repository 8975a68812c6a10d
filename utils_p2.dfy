/** The helpers of the P2 training loop: the observation as the network's
    input vector, the fitness of one genome over one episode, and the choice
    of a file name that does not overwrite an earlier genome. */
module UtilsP2 {
  import opened Comun
  import EntornoP2

  // ---------------------------------------------------------------------
  // Observation vector
  // ---------------------------------------------------------------------

  /** `vectoriza_observacion`: blob position, the infrared values and the blob
      size, concatenated in that order; the wheel velocity is not part of it. */
  function VectorizaObservacion(o: Observacion): (v: seq<int>)
    ensures |v| == 2 + |o.ir| + 1
    ensures v[0] == o.blobXY.x && v[1] == o.blobXY.y && v[|v| - 1] == o.tamanoBlob
    ensures v[2..2 + |o.ir|] == o.ir
  {
    [o.blobXY.x, o.blobXY.y] + o.ir + [o.tamanoBlob]
  }

  /** Reading a vector back, given how many infrared values it holds. */
  function Devectoriza(v: seq<int>, nIR: nat): (r: Option<(XY, seq<int>, int)>)
    ensures r.Some? <==> |v| == 2 + nIR + 1
  {
    if |v| != 2 + nIR + 1 then None
    else Some((XY(v[0], v[1]), v[2..2 + nIR], v[|v| - 1]))
  }

  /** The vector loses nothing but the velocity: the readings come back. */
  lemma DevectorizaVectoriza(o: Observacion)
    ensures Devectoriza(VectorizaObservacion(o), |o.ir|) == Some((o.blobXY, o.ir, o.tamanoBlob))
  {
  }

  /** Two observations that differ only in the velocity give the same
      vector. */
  lemma VectorIgnoraVelocidad(o1: Observacion, o2: Observacion)
    requires o1.blobXY == o2.blobXY && o1.ir == o2.ir && o1.tamanoBlob == o2.tamanoBlob
    ensures VectorizaObservacion(o1) == VectorizaObservacion(o2)
  {
  }

  // ---------------------------------------------------------------------
  // Fitness of a genome
  // ---------------------------------------------------------------------

  /** The readings the environment holds before step `k` of the episode
      (0-based): the reset's readings, then those of the step before. */
  function Antes(inicial: EntornoP2.Lectura, lecturas: nat -> EntornoP2.Lectura, k: nat): EntornoP2.Lectura
  {
    if k == 0 then inicial else lecturas(k - 1)
  }

  /** The action for a network output: each component of `net.activate`,
      in [-1, 1], scaled by `velocidad_max`. */
  function Escala(salida: (real, real)): (a: Accion)
    ensures a.avanceRecto == salida.0 * EntornoP2.VelocidadMax
    ensures a.gireDerecha == salida.1 * EntornoP2.VelocidadMax
    ensures -1.0 <= salida.0 <= 1.0 && -1.0 <= salida.1 <= 1.0 ==>
              -15.0 <= a.avanceRecto <= 15.0 && -15.0 <= a.gireDerecha <= 15.0
  {
    Accion(salida.0 * EntornoP2.VelocidadMax, salida.1 * EntornoP2.VelocidadMax)
  }

  /** The action the network picks when the environment holds `l`: the
      observation's vector through the network, scaled. The velocity in the
      observation does not reach the vector (`VectorIgnoraVelocidad`), so the
      readings alone decide it and a zero velocity stands for any other. */
  function AccionPara(red: seq<int> -> (real, real), l: EntornoP2.Lectura): Accion
  {
    Escala(red(VectorizaObservacion(Observacion(l.blobXY, l.ir, l.tamanoBlob, (0.0, 0.0)))))
  }

  /** The number of steps an episode of `pasos` steps has. */
  function Pasos(pasos: int): nat { if pasos > 0 then pasos else 0 }

  lemma SumaUltimo(s: seq<real>, x: real)
    ensures Suma(s + [x]) == Suma(s) + x
  {
    assert (s + [x])[..|s|] == s;
  }

  /** The rewards and actions of the first steps are those of the readings
      held before each one. */
  ghost predicate RecompensasSiguen(rs: seq<real>, inicial: EntornoP2.Lectura, lecturas: nat -> EntornoP2.Lectura)
  {
    forall k :: 0 <= k < |rs| ==>
      var l := Antes(inicial, lecturas, k);
      |l.ir| >= 6 && rs[k] == EntornoP2.Recompensa(l.blobXY, l.ir, l.tamanoBlob)
  }

  ghost predicate AccionesSiguen(accs: seq<Accion>, red: seq<int> -> (real, real),
                                 inicial: EntornoP2.Lectura, lecturas: nat -> EntornoP2.Lectura)
  {
    forall k :: 0 <= k < |accs| ==> accs[k] == AccionPara(red, Antes(inicial, lecturas, k))
  }

  lemma SiguenUnPasoMas(rs: seq<real>, accs: seq<Accion>, red: seq<int> -> (real, real),
                        inicial: EntornoP2.Lectura, lecturas: nat -> EntornoP2.Lectura, x: real, a: Accion)
    requires |rs| == |accs|
    requires RecompensasSiguen(rs, inicial, lecturas) && AccionesSiguen(accs, red, inicial, lecturas)
    requires var l := Antes(inicial, lecturas, |rs|);
             |l.ir| >= 6 && x == EntornoP2.Recompensa(l.blobXY, l.ir, l.tamanoBlob) && a == AccionPara(red, l)
    ensures RecompensasSiguen(rs + [x], inicial, lecturas) && AccionesSiguen(accs + [a], red, inicial, lecturas)
  {
  }

  /** The velocity the environment stores after a step with action `a` from
      `v`: each component clipped to [-15, 15]. */
  function Acelera(v: (real, real), a: Accion): (real, real)
  {
    (Clip(v.0 + DeltaIzquierda(a), EntornoP2.VelocidadMin, EntornoP2.VelocidadMax),
     Clip(v.1 + DeltaDerecha(a), EntornoP2.VelocidadMin, EntornoP2.VelocidadMax))
  }

  /** The velocity after the actions `accs`, starting at `v`: the chain of
      clips. */
  function VelocidadTras(v: (real, real), accs: seq<Accion>): (real, real)
  {
    if accs == [] then v else Acelera(VelocidadTras(v, accs[..|accs| - 1]), accs[|accs| - 1])
  }

  lemma VelocidadTrasUnaMas(v: (real, real), accs: seq<Accion>, a: Accion)
    ensures VelocidadTras(v, accs + [a]) == Acelera(VelocidadTras(v, accs), a)
  {
    assert (accs + [a])[..|accs|] == accs;
  }

  /** The object positions an episode of `n` steps records: the reset's,
      then one per step. */
  function ObjetosTras(inicial: EntornoP2.Lectura, lecturas: nat -> EntornoP2.Lectura, n: nat): seq<XZ>
  {
    if n == 0 then [inicial.objetoXZ] else ObjetosTras(inicial, lecturas, n - 1) + [lecturas(n - 1).objetoXZ]
  }

  /** The robot positions an episode of `n` steps records. */
  function RobotsTras(inicial: EntornoP2.Lectura, lecturas: nat -> EntornoP2.Lectura, n: nat): seq<XZ>
  {
    if n == 0 then [inicial.robotXZ] else RobotsTras(inicial, lecturas, n - 1) + [lecturas(n - 1).robotXZ]
  }

  /** The environment's three history lists. */
  function Historial(e: EntornoP2.Entorno): (seq<seq<real>>, seq<seq<XZ>>, seq<seq<XZ>>)
    reads e
  {
    (e.historialRecompensas, e.historialXYObjeto, e.historialXYRobot)
  }

  /** The environment part of an episode in progress after the actions
      `accs`, from the velocity `v0` and the history `hist` the reset left:
      one reward per action, each that of the readings held before it, one
      object and one robot position per step after the reset's, the chain of
      clipped velocities, the history untouched, and the readings of step
      |accs| held (and shown in `obs`). */
  ghost predicate EnCurso(e: EntornoP2.Entorno, red: seq<int> -> (real, real),
                          inicial: EntornoP2.Lectura, lecturas: nat -> EntornoP2.Lectura, v0: (real, real),
                          hist: (seq<seq<real>>, seq<seq<XZ>>, seq<seq<XZ>>), obs: Observacion, accs: seq<Accion>)
    reads e, e.velocidad
  {
    && e.velocidad.Length == 2
    && e.Valid() && e.reiniciado
    && e.numeroDePasos == |accs| + 1
    && |e.recompensasEpisodio| == |accs|
    && (var l := Antes(inicial, lecturas, |accs|);
        obs.blobXY == e.blobXY == l.blobXY && obs.ir == e.ir == l.ir && obs.tamanoBlob == e.tamanoBlob == l.tamanoBlob)
    && RecompensasSiguen(e.recompensasEpisodio, inicial, lecturas)
    && AccionesSiguen(accs, red, inicial, lecturas)
    && Historial(e) == hist
    && e.xyObjetoEpisodio == ObjetosTras(inicial, lecturas, |accs|)
    && e.xyRobotEpisodio == RobotsTras(inicial, lecturas, |accs|)
    && (e.velocidad[0], e.velocidad[1]) == VelocidadTras(v0, accs)
  }

  /** The environment once a step fails after the actions `accs`: the
      rewards and positions are those of the steps before, the history is
      untouched, and the velocity has taken the failing step's action too. */
  ghost predicate Detenido(e: EntornoP2.Entorno, red: seq<int> -> (real, real),
                           inicial: EntornoP2.Lectura, lecturas: nat -> EntornoP2.Lectura, v0: (real, real),
                           hist: (seq<seq<real>>, seq<seq<XZ>>, seq<seq<XZ>>), accs: seq<Accion>)
    reads e, e.velocidad
  {
    && e.velocidad.Length == 2
    && e.Valid()
    && |e.recompensasEpisodio| == |accs|
    && RecompensasSiguen(e.recompensasEpisodio, inicial, lecturas)
    && AccionesSiguen(accs, red, inicial, lecturas)
    && Historial(e) == hist
    && e.xyObjetoEpisodio == ObjetosTras(inicial, lecturas, |accs|)
    && e.xyRobotEpisodio == RobotsTras(inicial, lecturas, |accs|)
    && (e.velocidad[0], e.velocidad[1]) == VelocidadTras(v0, accs + [AccionPara(red, Antes(inicial, lecturas, |accs|))])
  }

  /** A successful step keeps the episode in progress, one action further. */
  lemma EnCursoTrasPaso(e: EntornoP2.Entorno, red: seq<int> -> (real, real),
                        inicial: EntornoP2.Lectura, lecturas: nat -> EntornoP2.Lectura, v0: (real, real),
                        hist: (seq<seq<real>>, seq<seq<XZ>>, seq<seq<XZ>>), obs: Observacion,
                        accs: seq<Accion>, previas: seq<real>, x: real, accion: Accion,
                        objetos: seq<XZ>, robots: seq<XZ>)
    requires e.velocidad.Length == 2 && e.Valid() && e.reiniciado && e.numeroDePasos == |accs| + 2
    requires |previas| == |accs| && e.recompensasEpisodio == previas + [x]
    requires RecompensasSiguen(previas, inicial, lecturas) && AccionesSiguen(accs, red, inicial, lecturas)
    requires var l := Antes(inicial, lecturas, |accs|);
             |l.ir| >= 6 && x == EntornoP2.Recompensa(l.blobXY, l.ir, l.tamanoBlob) && accion == AccionPara(red, l)
    requires var l := lecturas(|accs|);
             obs.blobXY == e.blobXY == l.blobXY && obs.ir == e.ir == l.ir && obs.tamanoBlob == e.tamanoBlob == l.tamanoBlob
    requires Historial(e) == hist
    requires objetos == ObjetosTras(inicial, lecturas, |accs|) && robots == RobotsTras(inicial, lecturas, |accs|)
    requires e.xyObjetoEpisodio == objetos + [lecturas(|accs|).objetoXZ]
    requires e.xyRobotEpisodio == robots + [lecturas(|accs|).robotXZ]
    requires (e.velocidad[0], e.velocidad[1]) == Acelera(VelocidadTras(v0, accs), accion)
    ensures EnCurso(e, red, inicial, lecturas, v0, hist, obs, accs + [accion])
  {
    SiguenUnPasoMas(previas, accs, red, inicial, lecturas, x, accion);
    VelocidadTrasUnaMas(v0, accs, accion);
    assert Antes(inicial, lecturas, |accs| + 1) == lecturas(|accs|);
  }

  /** A failed step leaves the episode stopped after the actions before it. */
  lemma DetenidoTrasFallo(e: EntornoP2.Entorno, red: seq<int> -> (real, real),
                          inicial: EntornoP2.Lectura, lecturas: nat -> EntornoP2.Lectura, v0: (real, real),
                          hist: (seq<seq<real>>, seq<seq<XZ>>, seq<seq<XZ>>), accs: seq<Accion>, accion: Accion)
    requires e.velocidad.Length == 2 && e.Valid()
    requires |e.recompensasEpisodio| == |accs|
    requires RecompensasSiguen(e.recompensasEpisodio, inicial, lecturas) && AccionesSiguen(accs, red, inicial, lecturas)
    requires Historial(e) == hist
    requires e.xyObjetoEpisodio == ObjetosTras(inicial, lecturas, |accs|)
    requires e.xyRobotEpisodio == RobotsTras(inicial, lecturas, |accs|)
    requires accion == AccionPara(red, Antes(inicial, lecturas, |accs|))
    requires (e.velocidad[0], e.velocidad[1]) == Acelera(VelocidadTras(v0, accs), accion)
    ensures Detenido(e, red, inicial, lecturas, v0, hist, accs)
  {
    VelocidadTrasUnaMas(v0, accs, accion);
  }

  /** One pass of the loop of `evalua_genoma`: the network picks the action
      from the observation vector of the held readings and the environment
      steps with it. The step fails exactly when the held infrared vector is
      too short, having moved only the velocity; otherwise the episode is in
      progress after one more action, with the reward of the held readings
      appended. */
  method PasoEvaluacion(red: seq<int> -> (real, real), e: EntornoP2.Entorno, obs: Observacion,
                        inicial: EntornoP2.Lectura, lecturas: nat -> EntornoP2.Lectura, paso: nat,
                        ghost acciones: seq<Accion>, ghost v0: (real, real),
                        ghost hist: (seq<seq<real>>, seq<seq<XZ>>, seq<seq<XZ>>))
      returns (r: Result<EntornoP2.Paso, EntornoP2.Fallo>, accion: Accion)
    requires paso == |acciones| && EnCurso(e, red, inicial, lecturas, v0, hist, obs, acciones)
    modifies e, e.velocidad
    ensures accion == AccionPara(red, Antes(inicial, lecturas, paso))
    ensures r.Err? <==> |Antes(inicial, lecturas, paso).ir| < 6
    ensures r.Err? ==> r.error == EntornoP2.IRCorto && Detenido(e, red, inicial, lecturas, v0, hist, acciones)
    ensures r.Ok? ==>
              && EnCurso(e, red, inicial, lecturas, v0, hist, r.value.obs, acciones + [accion])
              && e.recompensasEpisodio == old(e.recompensasEpisodio) + [r.value.recompensa]
              && (r.value.terminated || r.value.truncated) == (paso + 1 == e.pasosPorEpisodio)
  {
    ghost var antes := Antes(inicial, lecturas, paso);
    ghost var previas := e.recompensasEpisodio;
    ghost var objetos, robots := e.xyObjetoEpisodio, e.xyRobotEpisodio;
    ghost var v := VelocidadTras(v0, acciones);
    accion := Escala(red(VectorizaObservacion(obs)));
    assert accion == AccionPara(red, antes);
    var ruedas;
    r, ruedas := e.Step(accion, lecturas(paso));
    assert (e.velocidad[0], e.velocidad[1]) == Acelera(v, accion);
    if r.Ok? {
      EnCursoTrasPaso(e, red, inicial, lecturas, v0, hist, r.value.obs, acciones, previas, r.value.recompensa, accion, objetos, robots);
    } else {
      DetenidoTrasFallo(e, red, inicial, lecturas, v0, hist, acciones, accion);
    }
  }

  /** `evalua_genoma`, with the network as the function `red` (the network's
      construction from the genome is not modelled) and the readings the
      environment takes at the reset and after each step as inputs. It
      resets, then steps until a step reports `terminated` or `truncated` or
      `pasos_por_episodio` steps are done, feeding each observation vector to
      the network. Both stopping criteria fall on the same step, so an
      episode of n > 0 steps runs all n. The fitness is the sum of the
      rewards of the steps taken, each computed from the readings held
      before that step. A step whose stored infrared vector is too short
      fails, and the failure propagates. The reset moves the previous
      episode into the history when it holds a reward; the loop leaves the
      history alone. */
  method EvaluaGenoma(red: seq<int> -> (real, real), e: EntornoP2.Entorno,
                      inicial: EntornoP2.Lectura, lecturas: nat -> EntornoP2.Lectura)
      returns (res: Result<real, EntornoP2.Fallo>, acciones: seq<Accion>)
    requires e.Valid()
    modifies e, e.velocidad
    ensures e.Valid()
    ensures old(e.recompensasEpisodio) != [] ==>
              e.historialRecompensas == old(e.historialRecompensas) + [old(e.recompensasEpisodio)]
              && e.historialXYObjeto == old(e.historialXYObjeto) + [old(e.xyObjetoEpisodio)]
              && e.historialXYRobot == old(e.historialXYRobot) + [old(e.xyRobotEpisodio)]
    ensures old(e.recompensasEpisodio) == [] ==>
              e.historialRecompensas == old(e.historialRecompensas)
              && e.historialXYObjeto == old(e.historialXYObjeto) && e.historialXYRobot == old(e.historialXYRobot)
    ensures res.Ok? <==> forall k :: 0 <= k < Pasos(e.pasosPorEpisodio) ==> |Antes(inicial, lecturas, k).ir| >= 6
    ensures res.Err? ==> res.error == EntornoP2.IRCorto
    ensures |acciones| == |e.recompensasEpisodio|
    ensures forall k :: 0 <= k < |acciones| ==> acciones[k] == AccionPara(red, Antes(inicial, lecturas, k))
    ensures forall k :: 0 <= k < |e.recompensasEpisodio| ==>
              var l := Antes(inicial, lecturas, k);
              |l.ir| >= 6 && e.recompensasEpisodio[k] == EntornoP2.Recompensa(l.blobXY, l.ir, l.tamanoBlob)
    ensures res.Ok? ==> |e.recompensasEpisodio| == Pasos(e.pasosPorEpisodio)
    ensures res.Ok? ==> res.value == Suma(e.recompensasEpisodio)
    ensures e.xyObjetoEpisodio == ObjetosTras(inicial, lecturas, |acciones|)
    ensures e.xyRobotEpisodio == RobotsTras(inicial, lecturas, |acciones|)
    ensures res.Ok? ==> (e.velocidad[0], e.velocidad[1]) == VelocidadTras((old(e.velocidad[0]), old(e.velocidad[1])), acciones)
    ensures res.Err? ==>
              (e.velocidad[0], e.velocidad[1])
              == VelocidadTras((old(e.velocidad[0]), old(e.velocidad[1])), acciones + [AccionPara(red, Antes(inicial, lecturas, |acciones|))])
  {
    var obs := e.Reset(inicial);
    res, acciones := Episodio(red, e, obs, inicial, lecturas);
  }

  /** The loop of `evalua_genoma`, from the state the reset leaves. */
  method Episodio(red: seq<int> -> (real, real), e: EntornoP2.Entorno, obs0: Observacion,
                  inicial: EntornoP2.Lectura, lecturas: nat -> EntornoP2.Lectura)
      returns (res: Result<real, EntornoP2.Fallo>, acciones: seq<Accion>)
    requires e.Valid() && e.reiniciado && e.numeroDePasos == 1 && e.recompensasEpisodio == []
    requires obs0.blobXY == e.blobXY == inicial.blobXY && obs0.ir == e.ir == inicial.ir
    requires obs0.tamanoBlob == e.tamanoBlob == inicial.tamanoBlob
    requires e.xyObjetoEpisodio == [inicial.objetoXZ] && e.xyRobotEpisodio == [inicial.robotXZ]
    modifies e, e.velocidad
    ensures e.Valid()
    ensures res.Ok? <==> forall k :: 0 <= k < Pasos(e.pasosPorEpisodio) ==> |Antes(inicial, lecturas, k).ir| >= 6
    ensures res.Err? ==> res.error == EntornoP2.IRCorto
    ensures |acciones| == |e.recompensasEpisodio|
    ensures RecompensasSiguen(e.recompensasEpisodio, inicial, lecturas)
    ensures AccionesSiguen(acciones, red, inicial, lecturas)
    ensures res.Ok? ==> |e.recompensasEpisodio| == Pasos(e.pasosPorEpisodio)
    ensures res.Ok? ==> res.value == Suma(e.recompensasEpisodio)
    ensures e.historialRecompensas == old(e.historialRecompensas)
    ensures e.historialXYObjeto == old(e.historialXYObjeto) && e.historialXYRobot == old(e.historialXYRobot)
    ensures e.xyObjetoEpisodio == ObjetosTras(inicial, lecturas, |acciones|)
    ensures e.xyRobotEpisodio == RobotsTras(inicial, lecturas, |acciones|)
    ensures res.Ok? ==> (e.velocidad[0], e.velocidad[1]) == VelocidadTras((old(e.velocidad[0]), old(e.velocidad[1])), acciones)
    ensures res.Err? ==>
              (e.velocidad[0], e.velocidad[1])
              == VelocidadTras((old(e.velocidad[0]), old(e.velocidad[1])), acciones + [AccionPara(red, Antes(inicial, lecturas, |acciones|))])
  {
    ghost var v0 := (e.velocidad[0], e.velocidad[1]);
    ghost var hist := Historial(e);
    var obs := obs0;
    var fitness := 0.0;
    var done := false;
    var paso := 0;
    acciones := [];
    assert EnCurso(e, red, inicial, lecturas, v0, hist, obs, acciones);
    while !done && paso < e.pasosPorEpisodio
      invariant 0 <= paso <= Pasos(e.pasosPorEpisodio) && paso == |acciones|
      invariant done <==> paso > 0 && paso == e.pasosPorEpisodio
      invariant EnCurso(e, red, inicial, lecturas, v0, hist, obs, acciones)
      invariant fitness == Suma(e.recompensasEpisodio)
      decreases e.pasosPorEpisodio - paso
    {
      ghost var previas := e.recompensasEpisodio;
      var r, accion := PasoEvaluacion(red, e, obs, inicial, lecturas, paso, acciones, v0, hist);
      if r.Err? {
        return Err(r.error), acciones;
      }
      acciones := acciones + [accion];
      SumaUltimo(previas, r.value.recompensa);
      obs := r.value.obs;
      fitness := fitness + r.value.recompensa;
      done := r.value.terminated || r.value.truncated;
      paso := paso + 1;
    }
    res := Ok(fitness);
  }

  // ---------------------------------------------------------------------
  // Choice of a file name
  // ---------------------------------------------------------------------

  function Digito(d: nat): (c: char)
    requires d < 10
    ensures '0' <= c <= '9'
  {
    (d + '0' as int) as char
  }

  /** `str(n)` for a natural number. */
  function Decimal(n: nat): (s: string)
    ensures |s| > 0
    ensures forall i :: 0 <= i < |s| ==> '0' <= s[i] <= '9'
  {
    if n < 10 then [Digito(n)] else Decimal(n / 10) + [Digito(n % 10)]
  }

  /** The value of a string of decimal digits. */
  function Valor(s: string): int
  {
    if s == [] then 0 else 10 * Valor(s[..|s| - 1]) + (s[|s| - 1] as int - '0' as int)
  }

  /** Reading the digits back gives the number. */
  lemma {:induction false} ValorDecimal(n: nat)
    ensures Valor(Decimal(n)) == n
  {
    if n >= 10 {
      ValorDecimal(n / 10);
      var s := Decimal(n);
      assert s[..|s| - 1] == Decimal(n / 10);
    }
  }

  /** Different numbers are written differently. */
  lemma DecimalInyectivo(j: nat, k: nat)
    ensures Decimal(j) == Decimal(k) ==> j == k
  {
    ValorDecimal(j);
    ValorDecimal(k);
  }

  /** The `k`-th alternative name, `f"{base}_{counter}{ext}"`. */
  function Candidato(base: string, k: nat, ext: string): string
  {
    base + "_" + Decimal(k) + ext
  }

  /** Alternatives for different counters differ, and none is the original
      name `base + ext`, which is shorter. */
  lemma CandidatosDistintos(base: string, ext: string, j: nat, k: nat)
    ensures Candidato(base, j, ext) != base + ext
    ensures Candidato(base, j, ext) == Candidato(base, k, ext) ==> j == k
  {
    var cj, ck := Candidato(base, j, ext), Candidato(base, k, ext);
    if |Decimal(j)| != |Decimal(k)| {
      assert |cj| != |ck|;
    } else if cj == ck {
      assert cj[|base| + 1..|base| + 1 + |Decimal(j)|] == Decimal(j);
      assert ck[|base| + 1..|base| + 1 + |Decimal(k)|] == Decimal(k);
      DecimalInyectivo(j, k);
    }
  }

  /** The name-choice loop of `guarda_genoma`, with the files that exist as
      the set `existentes` (the name is split as `base + ext`). The original
      name is kept when free; otherwise the counter runs from 2 and the first
      free alternative is taken, so every smaller counter names an existing
      file. The chosen name never exists. */
  method ElegirNombre(base: string, ext: string, existentes: set<string>) returns (nombre: string)
    ensures nombre !in existentes
    ensures base + ext !in existentes ==> nombre == base + ext
    ensures base + ext in existentes ==>
              exists k :: k >= 2 && nombre == Candidato(base, k, ext)
                && forall j :: 2 <= j < k ==> Candidato(base, j, ext) in existentes
  {
    var contador: nat := 2;
    nombre := base + ext;
    ghost var vistos: set<string> := {};
    while nombre in existentes
      invariant contador >= 2
      invariant contador == 2 ==> nombre == base + ext
      invariant contador > 2 ==> nombre == Candidato(base, contador - 1, ext) && base + ext in existentes
      invariant forall j :: 2 <= j < contador - 1 ==> Candidato(base, j, ext) in existentes
      invariant vistos <= existentes && nombre !in vistos
      invariant forall s :: s in vistos ==> s == base + ext || exists j :: 2 <= j < contador - 1 && s == Candidato(base, j, ext)
      decreases |existentes| - |vistos|
    {
      ghost var previos := vistos;
      vistos := vistos + {nombre};
      assert |vistos| == |previos| + 1;
      SubconjuntoAcotado(vistos, existentes);
      var siguiente := Candidato(base, contador, ext);
      CandidatosDistintos(base, ext, contador, contador);
      forall s | s in vistos
        ensures s != siguiente
      {
        if s != base + ext {
          var j :| 2 <= j < contador && s == Candidato(base, j, ext);
          CandidatosDistintos(base, ext, contador, j);
        }
      }
      nombre := siguiente;
      contador := contador + 1;
    }
  }

  lemma {:induction false} SubconjuntoAcotado(a: set<string>, b: set<string>)
    requires a <= b
    ensures |a| <= |b|
  {
    if a != {} {
      var x :| x in a;
      SubconjuntoAcotado(a - {x}, b - {x});
    }
  }
}
