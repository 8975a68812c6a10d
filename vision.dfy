/** The arm-gesture classifier: a priority-ordered decision list over the
    pose keypoints a pose estimator reports for one person. Only the
    shoulders (keypoints 5 and 6) and the wrists (keypoints 9 and 10) are
    looked at; coordinates are image pixels, y growing downward, and a
    keypoint the estimator did not find is reported at (0, 0). */
module Vision {
  import opened Comun

  /** One keypoint `[x, y]`. */
  datatype Punto = Punto(x: real, y: real)

  /** The eight outcomes of `detectar_posicion_brazos`. */
  datatype Gesto =
    | SinBrazos
    | ManosJuntasArriba
    | BrazosEnCruz
    | BrazosAbajo
    | BrazoDerecho
    | BrazoIzquierdo
    | ManosJuntasPecho
    | BrazosRelajados

  const Etiquetas: set<string> := {"SIN BRAZOS", "MANOS JUNTAS ARRIBA", "BRAZOS EN CRUZ", "BRAZOS ABAJO",
                                   "BRAZO DERECHO", "BRAZO IZQUIERDO", "MANOS JUNTAS PECHO", "BRAZOS RELAJADOS"}

  /** The label string the classifier returns for each outcome. */
  function Nombre(g: Gesto): (s: string)
    ensures s in Etiquetas
  {
    match g
    case SinBrazos => "SIN BRAZOS"
    case ManosJuntasArriba => "MANOS JUNTAS ARRIBA"
    case BrazosEnCruz => "BRAZOS EN CRUZ"
    case BrazosAbajo => "BRAZOS ABAJO"
    case BrazoDerecho => "BRAZO DERECHO"
    case BrazoIzquierdo => "BRAZO IZQUIERDO"
    case ManosJuntasPecho => "MANOS JUNTAS PECHO"
    case BrazosRelajados => "BRAZOS RELAJADOS"
  }

  /** Different outcomes carry different labels, so a label names exactly one
      outcome. */
  lemma NombreInyectivo(g: Gesto, h: Gesto)
    ensures Nombre(g) == Nombre(h) ==> g == h
  {
  }

  const HombroIzq: nat := 5
  const HombroDer: nat := 6
  const MunecaIzq: nat := 9
  const MunecaDer: nat := 10

  /** A keypoint counts as found when both coordinates are positive. */
  predicate Detectado(p: Punto) { p.x > 0.0 && p.y > 0.0 }

  /** The shoulder width that scales every threshold; 0 is replaced by 1. */
  function AnchoHombros(kp: seq<Punto>): (w: real)
    requires |kp| > MunecaDer
    ensures w > 0.0
    ensures kp[HombroDer].x != kp[HombroIzq].x ==> w == Abs(kp[HombroDer].x - kp[HombroIzq].x)
    ensures kp[HombroDer].x == kp[HombroIzq].x ==> w == 1.0
  {
    var w := Abs(kp[HombroDer].x - kp[HombroIzq].x);
    if w == 0.0 then 1.0 else w
  }

  /** The horizontal distance between the wrists. */
  function DistanciaMunecas(kp: seq<Punto>): real
    requires |kp| > MunecaDer
  {
    Abs(kp[MunecaDer].x - kp[MunecaIzq].x)
  }

  /** A wrist is up when it is more than half a shoulder width above its
      shoulder, and down when it is more than one shoulder width below it. */
  predicate IzqArriba(kp: seq<Punto>)
    requires |kp| > MunecaDer
  {
    kp[MunecaIzq].y < kp[HombroIzq].y - 0.5 * AnchoHombros(kp)
  }

  predicate DerArriba(kp: seq<Punto>)
    requires |kp| > MunecaDer
  {
    kp[MunecaDer].y < kp[HombroDer].y - 0.5 * AnchoHombros(kp)
  }

  predicate IzqAbajo(kp: seq<Punto>)
    requires |kp| > MunecaDer
  {
    kp[MunecaIzq].y > kp[HombroIzq].y + 1.0 * AnchoHombros(kp)
  }

  predicate DerAbajo(kp: seq<Punto>)
    requires |kp| > MunecaDer
  {
    kp[MunecaDer].y > kp[HombroDer].y + 1.0 * AnchoHombros(kp)
  }

  /** The hands are together at the chest: wrists close horizontally and at
      nearly the same height. */
  predicate JuntasPecho(kp: seq<Punto>)
    requires |kp| > MunecaDer
  {
    DistanciaMunecas(kp) < 0.3 * AnchoHombros(kp)
    && Abs(kp[MunecaIzq].y - kp[MunecaDer].y) < 0.2 * AnchoHombros(kp)
  }

  /** `detectar_posicion_brazos`. */
  function DetectarPosicionBrazos(kp: seq<Punto>): (g: Gesto)
    ensures |kp| <= MunecaDer ==> g == SinBrazos
  {
    if |kp| <= MunecaDer then SinBrazos
    else if !Detectado(kp[MunecaIzq]) && !Detectado(kp[MunecaDer]) then SinBrazos
    else
      var w := AnchoHombros(kp);
      if IzqArriba(kp) && DerArriba(kp) && DistanciaMunecas(kp) < 0.5 * w then ManosJuntasArriba
      else if IzqArriba(kp) && DerArriba(kp) && DistanciaMunecas(kp) > 1.5 * w then BrazosEnCruz
      else if IzqAbajo(kp) && DerAbajo(kp) then BrazosAbajo
      else if DerArriba(kp) && !IzqArriba(kp) then BrazoDerecho
      else if IzqArriba(kp) && !DerArriba(kp) then BrazoIzquierdo
      else if JuntasPecho(kp) then ManosJuntasPecho
      else BrazosRelajados
  }

  /** Every label is one of the eight fixed strings. */
  lemma EtiquetaFija(kp: seq<Punto>)
    ensures Nombre(DetectarPosicionBrazos(kp)) in Etiquetas
  {
  }

  /** "SIN BRAZOS" exactly when there are fewer than 11 keypoints or neither
      wrist was found. */
  lemma SinBrazosSii(kp: seq<Punto>)
    ensures DetectarPosicionBrazos(kp) == SinBrazos
        <==> |kp| <= MunecaDer || (!Detectado(kp[MunecaIzq]) && !Detectado(kp[MunecaDer]))
  {
  }

  /** A wrist cannot be up and down at once, since the shoulder width is
      positive. */
  lemma ArribaExcluyeAbajo(kp: seq<Punto>)
    requires |kp| > MunecaDer
    ensures IzqArriba(kp) ==> !IzqAbajo(kp)
    ensures DerArriba(kp) ==> !DerAbajo(kp)
  {
    assert AnchoHombros(kp) > 0.0;
  }

  /** "BRAZO DERECHO" exactly when a wrist was found and only the right arm is
      up; "BRAZO IZQUIERDO" symmetrically. The earlier rules never hide these:
      the two-arms-up rules need both arms up, and the arms-down rule cannot
      hold with an arm up. */
  lemma {:induction false} UnBrazoSii(kp: seq<Punto>)
    requires |kp| > MunecaDer
    ensures DetectarPosicionBrazos(kp) == BrazoDerecho
        <==> (Detectado(kp[MunecaIzq]) || Detectado(kp[MunecaDer])) && DerArriba(kp) && !IzqArriba(kp)
    ensures DetectarPosicionBrazos(kp) == BrazoIzquierdo
        <==> (Detectado(kp[MunecaIzq]) || Detectado(kp[MunecaDer])) && IzqArriba(kp) && !DerArriba(kp)
  {
    ArribaExcluyeAbajo(kp);
  }

  /** With both arms up the result is never a one-arm gesture: it is "MANOS
      JUNTAS ARRIBA" for close wrists, "BRAZOS EN CRUZ" for wide ones and
      "BRAZOS RELAJADOS" in between (too wide for "MANOS JUNTAS PECHO"). */
  lemma {:induction false} AmbosArriba(kp: seq<Punto>)
    requires |kp| > MunecaDer
    requires Detectado(kp[MunecaIzq]) || Detectado(kp[MunecaDer])
    requires IzqArriba(kp) && DerArriba(kp)
    ensures DetectarPosicionBrazos(kp) != BrazoDerecho && DetectarPosicionBrazos(kp) != BrazoIzquierdo
    ensures DistanciaMunecas(kp) < 0.5 * AnchoHombros(kp) ==> DetectarPosicionBrazos(kp) == ManosJuntasArriba
    ensures DistanciaMunecas(kp) > 1.5 * AnchoHombros(kp) ==> DetectarPosicionBrazos(kp) == BrazosEnCruz
    ensures 0.5 * AnchoHombros(kp) <= DistanciaMunecas(kp) <= 1.5 * AnchoHombros(kp)
            ==> DetectarPosicionBrazos(kp) == BrazosRelajados
  {
    ArribaExcluyeAbajo(kp);
    assert AnchoHombros(kp) > 0.0;
  }

  /** What each two-arm outcome means: the conditions of its rule and the
      failure of every rule before it. */
  lemma {:induction false} SignificadoDeDosBrazos(kp: seq<Punto>)
    requires |kp| > MunecaDer
    ensures DetectarPosicionBrazos(kp) == BrazosAbajo
        <==> (Detectado(kp[MunecaIzq]) || Detectado(kp[MunecaDer])) && IzqAbajo(kp) && DerAbajo(kp)
    ensures DetectarPosicionBrazos(kp) == ManosJuntasPecho
        <==> && (Detectado(kp[MunecaIzq]) || Detectado(kp[MunecaDer]))
             && !IzqArriba(kp) && !DerArriba(kp) && !(IzqAbajo(kp) && DerAbajo(kp))
             && JuntasPecho(kp)
    ensures DetectarPosicionBrazos(kp) == BrazosRelajados
        ==> && (Detectado(kp[MunecaIzq]) || Detectado(kp[MunecaDer]))
            && !(IzqAbajo(kp) && DerAbajo(kp))
            && (IzqArriba(kp) <==> DerArriba(kp))
            && (IzqArriba(kp) ==> 0.5 * AnchoHombros(kp) <= DistanciaMunecas(kp) <= 1.5 * AnchoHombros(kp))
            && (!IzqArriba(kp) ==> !JuntasPecho(kp))
  {
    ArribaExcluyeAbajo(kp);
    assert AnchoHombros(kp) > 0.0;
  }

  /** Only the shoulders and the wrists matter: two keypoint lists of at least
      11 points that agree on points 5, 6, 9 and 10 are classified alike,
      whatever the elbows or any later point say. */
  lemma {:induction false} SoloHombrosYMunecas(kp: seq<Punto>, otro: seq<Punto>)
    requires |kp| > MunecaDer && |otro| > MunecaDer
    requires kp[HombroIzq] == otro[HombroIzq] && kp[HombroDer] == otro[HombroDer]
    requires kp[MunecaIzq] == otro[MunecaIzq] && kp[MunecaDer] == otro[MunecaDer]
    ensures DetectarPosicionBrazos(kp) == DetectarPosicionBrazos(otro)
  {
    assert AnchoHombros(kp) == AnchoHombros(otro);
    assert DistanciaMunecas(kp) == DistanciaMunecas(otro);
  }

  /** A wrist that was not found sits at (0, 0), at the top of the image, and
      so reads as raised: here only the right wrist is found, raised, yet the
      outcome is "BRAZOS EN CRUZ" and not "BRAZO DERECHO". */
  lemma MunecaPerdidaCuentaComoArriba()
    ensures var kp := seq(11, i => if i == HombroIzq then Punto(300.0, 200.0)
                                   else if i == HombroDer then Punto(200.0, 200.0)
                                   else if i == MunecaDer then Punto(180.0, 100.0)
                                   else Punto(0.0, 0.0));
            && !Detectado(kp[MunecaIzq]) && Detectado(kp[MunecaDer]) && DerArriba(kp)
            && DetectarPosicionBrazos(kp) == BrazosEnCruz
  {
    var kp := seq(11, i => if i == HombroIzq then Punto(300.0, 200.0)
                           else if i == HombroDer then Punto(200.0, 200.0)
                           else if i == MunecaDer then Punto(180.0, 100.0)
                           else Punto(0.0, 0.0));
    assert AnchoHombros(kp) == 100.0;
  }
}
