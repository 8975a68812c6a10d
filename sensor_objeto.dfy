/** The camera object sensor: among the boxes a detector reports for a frame,
    pick the target-class box of highest confidence and turn it into a
    position normalised to [0, 100] and a pixel area. The detector itself is
    not modelled: its boxes are the input. */
module SensorObjeto {
  import opened Comun

  /** One detection: class name, confidence and corners `xyxy`. */
  datatype Caja = Caja(clase: string, confianza: real, x1: real, y1: real, x2: real, y2: real)

  const AnchoFrame: real := 640.0
  const AltoFrame: real := 480.0

  /** The sentinel for "nothing detected". */
  const NoDetectado: (int, int, int) := (-1, -1, -1)

  predicate EsObjetivo(c: Caja, objetivo: string) { c.clase == objetivo }

  /** The confidence a candidate has to beat: 0 before any pick. */
  function ConfianzaDe(cajas: seq<Caja>, mejor: Option<nat>): real
  {
    if mejor.Some? && mejor.value < |cajas| then cajas[mejor.value].confianza else 0.0
  }

  /** The index the loop `for box in boxes` ends with, over a prefix: the
      last box replaces the best so far when it is of the target class and
      strictly more confident. */
  function Mejor(cajas: seq<Caja>, objetivo: string): (m: Option<nat>)
    ensures m.Some? ==> m.value < |cajas|
  {
    if cajas == [] then None
    else
      var previo := Mejor(cajas[..|cajas| - 1], objetivo);
      var ultima := cajas[|cajas| - 1];
      if EsObjetivo(ultima, objetivo) && ultima.confianza > ConfianzaDe(cajas[..|cajas| - 1], previo)
      then Some(|cajas| - 1)
      else previo
  }

  /** What the running maximum means: the pick is a target box with positive
      confidence, no target box is more confident, every earlier target box is
      strictly less confident (ties go to the first), and there is no pick
      exactly when no target box has positive confidence. */
  lemma {:induction false} MejorEsElPrimerMaximo(cajas: seq<Caja>, objetivo: string)
    ensures var m := Mejor(cajas, objetivo);
      && (m.None? <==> forall j :: 0 <= j < |cajas| && EsObjetivo(cajas[j], objetivo) ==> cajas[j].confianza <= 0.0)
      && (m.Some? ==>
            && EsObjetivo(cajas[m.value], objetivo)
            && cajas[m.value].confianza > 0.0
            && (forall j :: 0 <= j < |cajas| && EsObjetivo(cajas[j], objetivo) ==> cajas[j].confianza <= cajas[m.value].confianza)
            && (forall j :: 0 <= j < m.value && EsObjetivo(cajas[j], objetivo) ==> cajas[j].confianza < cajas[m.value].confianza))
  {
    if cajas != [] {
      var n := |cajas| - 1;
      var previas := cajas[..n];
      MejorEsElPrimerMaximo(previas, objetivo);
      assert forall j :: 0 <= j < n ==> previas[j] == cajas[j];
    }
  }

  /** x, y and area for the chosen box: the centre as a percentage of the
      640 x 480 frame, truncated toward zero and clipped to [0, 100]; the area
      truncated and not clipped. */
  function Normaliza(c: Caja): (r: (int, int, int))
    ensures 0 <= r.0 <= 100 && 0 <= r.1 <= 100
    // inside the frame, x and y are the whole percent of the centre
    ensures 0.0 <= c.x1 + c.x2 <= 1280.0 ==> r.0 as real <= (c.x1 + c.x2) / 12.8 < r.0 as real + 1.0
    ensures 0.0 <= c.y1 + c.y2 <= 960.0 ==> r.1 as real <= (c.y1 + c.y2) / 9.6 < r.1 as real + 1.0
    // outside it they are clipped to the nearest edge
    ensures c.x1 + c.x2 < 0.0 ==> r.0 == 0
    ensures c.x1 + c.x2 > 1280.0 ==> r.0 == 100
    ensures c.y1 + c.y2 < 0.0 ==> r.1 == 0
    ensures c.y1 + c.y2 > 960.0 ==> r.1 == 100
    // the area is truncated toward zero, whatever its sign
    ensures var area := (c.x2 - c.x1) * (c.y2 - c.y1);
            (area >= 0.0 ==> r.2 as real <= area < r.2 as real + 1.0)
            && (area < 0.0 ==> r.2 as real - 1.0 < area <= r.2 as real)
  {
    var centroX := (c.x1 + c.x2) / 2.0;
    var centroY := (c.y1 + c.y2) / 2.0;
    var xNorm := Trunc(centroX / AnchoFrame * 100.0);
    var yNorm := Trunc(centroY / AltoFrame * 100.0);
    var tamano := Trunc((c.x2 - c.x1) * (c.y2 - c.y1));
    (ClipInt(xNorm, 0, 100), ClipInt(yNorm, 0, 100), tamano)
  }

  /** The area is not clipped: a box with inverted corners gives a negative
      size. */
  lemma TamanoPuedeSerNegativo()
    ensures Normaliza(Caja("cup", 0.9, 10.0, 0.0, 0.0, 20.0)).2 == -200
  {
    assert (0.0 - 10.0) * (20.0 - 0.0) == -200.0;
  }

  /** `detectar_objeto` as a function of the frame (`None`, or the boxes the
      detector reports for it). */
  function Deteccion(objetivo: string, frame: Option<seq<Caja>>): (r: (int, int, int))
  {
    if frame.None? || frame.value == [] then NoDetectado
    else
      var m := Mejor(frame.value, objetivo);
      if m.None? then NoDetectado else Normaliza(frame.value[m.value])
  }

  /** Either the sentinel or a position inside [0, 100] x [0, 100]. */
  lemma DeteccionAcotada(objetivo: string, frame: Option<seq<Caja>>)
    ensures var r := Deteccion(objetivo, frame);
            r == NoDetectado || (0 <= r.0 <= 100 && 0 <= r.1 <= 100)
  {
  }

  /** The sentinel comes back exactly when there is no frame or no box of
      the target class with positive confidence; otherwise the result is the
      normalised first box of maximal confidence. */
  lemma DeteccionSentinelaSiiSinCandidato(objetivo: string, frame: Option<seq<Caja>>)
    ensures Deteccion(objetivo, frame) == NoDetectado
        <==> frame.None? || forall j :: 0 <= j < |frame.value| && EsObjetivo(frame.value[j], objetivo) ==> frame.value[j].confianza <= 0.0
    ensures Deteccion(objetivo, frame) != NoDetectado ==>
              exists i :: 0 <= i < |frame.value|
                && EsObjetivo(frame.value[i], objetivo) && frame.value[i].confianza > 0.0
                && (forall j :: 0 <= j < |frame.value| && EsObjetivo(frame.value[j], objetivo) ==> frame.value[j].confianza <= frame.value[i].confianza)
                && (forall j :: 0 <= j < i && EsObjetivo(frame.value[j], objetivo) ==> frame.value[j].confianza < frame.value[i].confianza)
                && Deteccion(objetivo, frame) == Normaliza(frame.value[i])
  {
    if frame.Some? {
      MejorEsElPrimerMaximo(frame.value, objetivo);
    }
  }

  /** `detectar_objeto`: a loop that keeps the best target box seen so far,
      starting from confidence 0 and replacing it only on a strictly higher
      confidence. */
  method DetectarObjeto(objetivo: string, frame: Option<seq<Caja>>) returns (x: int, y: int, tamano: int)
    ensures (x, y, tamano) == Deteccion(objetivo, frame)
    ensures frame.None? ==> (x, y, tamano) == NoDetectado
    ensures frame.Some? && frame.value == [] ==> (x, y, tamano) == NoDetectado
  {
    if frame.None? {
      return -1, -1, -1;
    }
    var cajas := frame.value;
    if |cajas| == 0 {
      return -1, -1, -1;
    }
    var mejorDeteccion: Option<nat> := None;
    var mejorConfianza := 0.0;
    var i := 0;
    while i < |cajas|
      invariant 0 <= i <= |cajas|
      invariant mejorDeteccion == Mejor(cajas[..i], objetivo)
      invariant mejorConfianza == ConfianzaDe(cajas, mejorDeteccion)
      invariant mejorDeteccion.Some? ==> mejorDeteccion.value < i
    {
      var caja := cajas[i];
      assert cajas[..i + 1][..i] == cajas[..i];
      if caja.clase == objetivo && caja.confianza > mejorConfianza {
        mejorConfianza := caja.confianza;
        mejorDeteccion := Some(i);
      }
      i := i + 1;
    }
    assert cajas[..i] == cajas;
    if mejorDeteccion.None? {
      return -1, -1, -1;
    }
    x, y, tamano := Normaliza(cajas[mejorDeteccion.value]).0, Normaliza(cajas[mejorDeteccion.value]).1, Normaliza(cajas[mejorDeteccion.value]).2;
  }
}
