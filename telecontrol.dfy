/** Tele-operation by gestures: the action builders that turn a wheel speed
    on the robot's 0..20 scale into an environment action on the [-2, 2]
    scale, and the mapping from a gesture label to one of those actions.
    The pose estimator that produces the keypoints is not modelled: the
    keypoints are the input of `Predict`. */
module Telecontrol {
  import opened Comun
  import Vision

  /** `factor_normalizacion`, which the source writes as 2.0 / 20.0. */
  const FactorNormalizacion: real := 0.1

  /** `velocidad or base`: a missing speed or a speed of 0 is falsy and falls
      back to the base speed. */
  function Efectiva(velocidad: Option<real>, base: real): (v: real)
    ensures velocidad.Some? && velocidad.value != 0.0 ==> v == velocidad.value
    ensures velocidad.None? || velocidad.value == 0.0 ==> v == base
  {
    if velocidad.Some? && velocidad.value != 0.0 then velocidad.value else base
  }

  /** The fields `__init__` sets and nothing changes afterwards. */
  datatype Modelo = Modelo(velocidadBase: real)

  /** `__init__`: the given base speed, or the configured one when the given
      one is missing or 0. */
  function Crear(velocidadBase: Option<real>, velocidadConfig: real): (m: Modelo)
    ensures velocidadBase.Some? && velocidadBase.value != 0.0 ==> m.velocidadBase == velocidadBase.value
    ensures velocidadBase.None? || velocidadBase.value == 0.0 ==> m.velocidadBase == velocidadConfig
  {
    Modelo(Efectiva(velocidadBase, velocidadConfig))
  }

  /** `_normalizar_velocidad`: the 0..20 robot scale onto the 0..2 action
      scale. */
  function Normalizar(vel: real): (r: real)
    ensures r == vel / 10.0
    ensures 0.0 <= vel <= 20.0 ==> 0.0 <= r <= 2.0
  {
    vel * FactorNormalizacion
  }

  /** `derecha`: the left wheel speeds up by the normalised speed, the right
      one keeps its speed. */
  function Derecha(m: Modelo, velocidad: Option<real>): (a: Accion)
    ensures DeltaIzquierda(a) == Efectiva(velocidad, m.velocidadBase) / 10.0
    ensures DeltaDerecha(a) == 0.0
  {
    var vel := Normalizar(Efectiva(velocidad, m.velocidadBase));
    Accion(vel / 2.0, vel / 2.0)
  }

  /** `izquierda`: the right wheel speeds up, the left one keeps its speed. */
  function Izquierda(m: Modelo, velocidad: Option<real>): (a: Accion)
    ensures DeltaIzquierda(a) == 0.0
    ensures DeltaDerecha(a) == Efectiva(velocidad, m.velocidadBase) / 10.0
  {
    var vel := Normalizar(Efectiva(velocidad, m.velocidadBase));
    Accion(vel / 2.0, -vel / 2.0)
  }

  /** `adelante`: both wheels speed up alike, with no turn. */
  function Adelante(m: Modelo, velocidad: Option<real>): (a: Accion)
    ensures DeltaIzquierda(a) == DeltaDerecha(a) == Efectiva(velocidad, m.velocidadBase) / 10.0
    ensures a.gireDerecha == 0.0
  {
    Accion(Normalizar(Efectiva(velocidad, m.velocidadBase)), 0.0)
  }

  /** `atras`: both wheels slow down alike, with no turn. */
  function Atras(m: Modelo, velocidad: Option<real>): (a: Accion)
    ensures DeltaIzquierda(a) == DeltaDerecha(a) == -Efectiva(velocidad, m.velocidadBase) / 10.0
    ensures a.gireDerecha == 0.0
  {
    Accion(-Normalizar(Efectiva(velocidad, m.velocidadBase)), 0.0)
  }

  /** `quieto`. */
  function Quieto(): Accion
  {
    Accion(0.0, 0.0)
  }

  /** `quieto` changes neither wheel. */
  lemma QuietoNoCambiaRuedas()
    ensures DeltaIzquierda(Quieto()) == 0.0 && DeltaDerecha(Quieto()) == 0.0
  {
  }

  /** An action whose two components and two wheel changes all lie within the
      environment's action box [-2, 2]. */
  predicate EnCaja(a: Accion)
  {
    && -2.0 <= a.avanceRecto <= 2.0 && -2.0 <= a.gireDerecha <= 2.0
    && -2.0 <= DeltaIzquierda(a) <= 2.0 && -2.0 <= DeltaDerecha(a) <= 2.0
  }

  /** For a speed on the robot's 0..20 scale every builder stays inside the
      action box. */
  lemma AccionesEnCaja(m: Modelo, velocidad: Option<real>)
    requires 0.0 <= Efectiva(velocidad, m.velocidadBase) <= 20.0
    ensures EnCaja(Derecha(m, velocidad)) && EnCaja(Izquierda(m, velocidad))
    ensures EnCaja(Adelante(m, velocidad)) && EnCaja(Atras(m, velocidad)) && EnCaja(Quieto())
  {
  }

  /** `p` occurs in `s` at position `i`. */
  predicate OcurreEn(p: string, s: string, i: int)
  {
    0 <= i && i + |p| <= |s| && s[i..i + |p|] == p
  }

  /** Python's `p in s` on two strings, read left to right: does `s` start
      with `p`, or does `p` occur in what follows the first character? */
  function EsSubcadena(p: string, s: string): (r: bool)
    ensures |p| > |s| ==> !r
    decreases |s|
  {
    if |p| > |s| then false
    else if s[..|p|] == p then true
    else EsSubcadena(p, s[1..])
  }

  /** The scan finds `p` exactly when `p` occurs somewhere in `s` (the empty
      string occurs everywhere). */
  lemma {:induction false} EsSubcadenaSii(p: string, s: string)
    ensures EsSubcadena(p, s) <==> exists i :: OcurreEn(p, s, i)
    decreases |s|
  {
    if |p| > |s| {
    } else if s[..|p|] == p {
      assert OcurreEn(p, s, 0);
    } else {
      EsSubcadenaSii(p, s[1..]);
      if EsSubcadena(p, s) {
        var i :| OcurreEn(p, s[1..], i);
        assert s[1..][i..i + |p|] == s[i + 1..i + 1 + |p|];
        assert OcurreEn(p, s, i + 1);
      }
      if exists i :: OcurreEn(p, s, i) {
        var i :| OcurreEn(p, s, i);
        assert i != 0;
        assert s[1..][i - 1..i - 1 + |p|] == s[i..i + |p|];
        assert OcurreEn(p, s[1..], i - 1);
      }
    }
  }

  /** The label dispatch at the end of `predict`. The last test is
      `posicion in ("BRAZOS EN CRUZ")`, and the parentheses make no tuple:
      it is a substring test on that string. A label no branch accepts gives
      no action. */
  function Despacha(m: Modelo, posicion: string): (r: Option<Accion>)
  {
    if posicion == "BRAZO DERECHO" then Some(Derecha(m, None))
    else if posicion == "BRAZO IZQUIERDO" then Some(Izquierda(m, None))
    else if posicion == "BRAZOS RELAJADOS" || posicion == "MANOS JUNTAS ARRIBA" then Some(Adelante(m, None))
    else if posicion == "MANOS JUNTAS PECHO" then Some(Atras(m, None))
    else if EsSubcadena(posicion, "BRAZOS EN CRUZ") then Some(Quieto())
    else None
  }

  /** The action each gesture is meant to trigger, as a table. */
  function AccionDeGesto(m: Modelo, g: Vision.Gesto): Option<Accion>
  {
    match g
    case BrazoDerecho => Some(Derecha(m, None))
    case BrazoIzquierdo => Some(Izquierda(m, None))
    case BrazosRelajados => Some(Adelante(m, None))
    case ManosJuntasArriba => Some(Adelante(m, None))
    case ManosJuntasPecho => Some(Atras(m, None))
    case BrazosEnCruz => Some(Quieto())
    case BrazosAbajo => None
    case SinBrazos => None
  }

  /** On the classifier's own labels the dispatch is the table: "SIN BRAZOS"
      and "BRAZOS ABAJO" give no action, the others their builder at the base
      speed. */
  lemma DespachaSigueLaTabla(m: Modelo, g: Vision.Gesto)
    ensures Despacha(m, Vision.Nombre(g)) == AccionDeGesto(m, g)
  {
    match g
    case BrazoDerecho =>
    case BrazoIzquierdo =>
    case BrazosRelajados =>
    case ManosJuntasArriba =>
    case ManosJuntasPecho =>
    case BrazosEnCruz =>
    case BrazosAbajo =>
      NoAparece("BRAZOS ABAJO", "BRAZOS EN CRUZ", 7);
    case SinBrazos =>
      NoAparece("SIN BRAZOS", "BRAZOS EN CRUZ", 0);
  }

  /** A piece that differs, at its position `k`, from every window of `s`
      does not occur in `s`. */
  lemma NoAparece(p: string, s: string, k: nat)
    requires k < |p|
    requires forall j :: k <= j && j - k + |p| <= |s| ==> s[j] != p[k]
    ensures !EsSubcadena(p, s)
  {
    EsSubcadenaSii(p, s);
  }

  /** A piece of `s` found at a known position is a substring of it. */
  lemma AparecePieza(p: string, s: string, i: nat)
    requires i + |p| <= |s| && s[i..i + |p|] == p
    ensures EsSubcadena(p, s)
  {
    EsSubcadenaSii(p, s);
    assert OcurreEn(p, s, i);
  }

  /** Because the last test is a substring test, pieces of "BRAZOS EN CRUZ"
      that are no label, the empty string among them, also stop the robot. */
  lemma SubcadenaDetiene(m: Modelo)
    ensures Despacha(m, "") == Some(Quieto())
    ensures Despacha(m, "BRAZOS") == Some(Quieto())
    ensures Despacha(m, "EN CRUZ") == Some(Quieto())
  {
    AparecePieza("", "BRAZOS EN CRUZ", 0);
    AparecePieza("BRAZOS", "BRAZOS EN CRUZ", 0);
    AparecePieza("EN CRUZ", "BRAZOS EN CRUZ", 7);
  }

  /** `predict` after the pose estimate: classify the keypoints, then
      dispatch on the label. */
  function Predict(m: Modelo, kp: seq<Vision.Punto>): (r: Option<Accion>)
  {
    Despacha(m, Vision.Nombre(Vision.DetectarPosicionBrazos(kp)))
  }

  /** No action exactly when no arm is seen or both arms are down; fewer
      than 11 keypoints give no action; and with both arms up the robot never
      turns. */
  lemma {:induction false} PredictSinAccion(m: Modelo, kp: seq<Vision.Punto>)
    ensures Predict(m, kp).None?
        <==> Vision.DetectarPosicionBrazos(kp) == Vision.SinBrazos
             || Vision.DetectarPosicionBrazos(kp) == Vision.BrazosAbajo
    ensures |kp| <= Vision.MunecaDer ==> Predict(m, kp) == None
  {
    DespachaSigueLaTabla(m, Vision.DetectarPosicionBrazos(kp));
  }

  /** With a wrist found and both arms up the action has no turn component:
      it is `adelante` or `quieto`. */
  lemma {:induction false} AmbosArribaNoGira(m: Modelo, kp: seq<Vision.Punto>)
    requires |kp| > Vision.MunecaDer
    requires Vision.Detectado(kp[Vision.MunecaIzq]) || Vision.Detectado(kp[Vision.MunecaDer])
    requires Vision.IzqArriba(kp) && Vision.DerArriba(kp)
    ensures Predict(m, kp) == Some(Adelante(m, None)) || Predict(m, kp) == Some(Quieto())
    ensures Predict(m, kp).Some? && Predict(m, kp).value.gireDerecha == 0.0
  {
    Vision.AmbosArriba(kp);
    DespachaSigueLaTabla(m, Vision.DetectarPosicionBrazos(kp));
  }
}
