/**
 * The spaced-repetition scheduler of flashcards/utils.py: grade adjustment,
 * the SM-2 ease-factor update, the three per-phase interval rules, the phase
 * state machine, the per-review update of a card, and the choice of the next
 * card to review.
 *
 * Intervals are seconds. The clock is the parameter `now`.
 */
module Scheduler {
  import opened Wrappers
  import opened Models

  /** The two interval ladders, in seconds: 5 s, 25 s, 2 min, 10 min; 1, 3, 7 and 14 days. */
  const IntervalosFase1: seq<int> := [5, 25, 120, 600]
  const IntervalosFase2: seq<int> := [86400, 259200, 604800, 1209600]

  /** The interval a card gets on entering phase 3: 30 days. */
  const IntervaloEntradaFase3 := 2592000

  /** The SM-2 floor of the ease factor. */
  const EFMinimo: real := 1.3

  function Min(a: int, b: int): int { if a <= b then a else b }
  function Max(a: int, b: int): int { if a >= b then a else b }

  /** Python's `int()` on a float: truncation toward zero. */
  function Trunc(x: real): (r: int)
    ensures 0.0 <= x ==> 0 <= r && r as real <= x < r as real + 1.0
    ensures x < 0.0 ==> r <= 0 && r as real - 1.0 < x <= r as real
  {
    if x >= 0.0 then x.Floor else -((-x).Floor)
  }

  /** `list.index`: the first position holding `v`, or None where Python raises ValueError. */
  function IndexOf(s: seq<int>, v: int): (r: Option<nat>)
    ensures r.None? <==> v !in s
    ensures r.Some? ==> r.value < |s| && s[r.value] == v && v !in s[..r.value]
  {
    if |s| == 0 then None
    else if s[0] == v then Some(0)
    else match IndexOf(s[1..], v)
      case None => None
      case Some(i) =>
        assert s[..i + 1] == [s[0]] + s[1..][..i];
        Some(i + 1)
  }

  // ---------------------------------------------------------------------
  // Step 1: grade adjustment
  // ---------------------------------------------------------------------

  /**
   * The response-time penalty. The banded penalties are switched off in the
   * source, so the adjustment is zero whatever the time.
   */
  function AjusteTiempo(tiempoRespuesta: real): int
  {
    0
  }

  /** The grade clamped to 0..5 after the (zero) time adjustment. */
  function AjustarCalificacionPorTiempo(calificacionBase: int, tiempoRespuesta: real): (r: int)
    ensures 0 <= r <= 5
    ensures 0 <= calificacionBase <= 5 ==> r == calificacionBase
    ensures calificacionBase < 0 ==> r == 0
    ensures calificacionBase > 5 ==> r == 5
  {
    Max(0, Min(5, calificacionBase + AjusteTiempo(tiempoRespuesta)))
  }

  /** The response time never changes the adjusted grade: two answers with equal grades adjust equally. */
  lemma TiempoNoInfluye(calificacionBase: int, tiempo1: real, tiempo2: real)
    ensures AjustarCalificacionPorTiempo(calificacionBase, tiempo1) == AjustarCalificacionPorTiempo(calificacionBase, tiempo2)
  {
  }

  // ---------------------------------------------------------------------
  // Step 2: ease factor
  // ---------------------------------------------------------------------

  /** The SM-2 increment 0.1 - (5 - q) * (0.08 + (5 - q) * 0.02). */
  function IncrementoEF(q: int): real
  {
    0.1 - (5 - q) as real * (0.08 + (5 - q) as real * 0.02)
  }

  /** The SM-2 ease factor after grade `q`, never below 1.3. */
  function CalcularNuevoEF(efActual: real, q: int): (r: real)
    ensures r >= EFMinimo
    ensures r >= efActual + IncrementoEF(q)
    ensures r > EFMinimo ==> r == efActual + IncrementoEF(q)
    ensures q == 5 && efActual + 0.1 >= EFMinimo ==> r == efActual + 0.1
    ensures q == 4 && efActual >= EFMinimo ==> r == efActual
    ensures 0 <= q <= 3 && efActual > EFMinimo ==> r < efActual
  {
    var nuevo := efActual + IncrementoEF(q);
    if EFMinimo >= nuevo then EFMinimo else nuevo
  }

  /** Over the grades 0..5 a better grade never yields a smaller ease factor. */
  lemma NuevoEFMonotono(efActual: real, q1: int, q2: int)
    requires 0 <= q1 <= q2 <= 5
    ensures CalcularNuevoEF(efActual, q1) <= CalcularNuevoEF(efActual, q2)
  {
  }

  // ---------------------------------------------------------------------
  // Step 6: interval rules
  // ---------------------------------------------------------------------

  /**
   * Phase 1: a failure restarts the ladder; a success moves one step up from
   * the ladder value equal to the truncated interval (from the bottom when
   * none is), staying on the last value once there.
   */
  function CalcularSiguienteIntervaloFase1(intervaloActual: real, esCorrecto: bool): (r: int)
    ensures r in IntervalosFase1
    ensures !esCorrecto ==> r == IntervalosFase1[0]
    ensures esCorrecto && Trunc(intervaloActual) !in IntervalosFase1 ==> r == IntervalosFase1[1]
    ensures esCorrecto ==>
      forall i | 0 <= i < 3 && Trunc(intervaloActual) == IntervalosFase1[i] :: r == IntervalosFase1[i + 1]
    ensures esCorrecto && Trunc(intervaloActual) == IntervalosFase1[3] ==> r == IntervalosFase1[3]
  {
    if !esCorrecto then IntervalosFase1[0]
    else
      var indiceActual := match IndexOf(IntervalosFase1, Trunc(intervaloActual))
        case Some(i) => i
        case None => 0;
      IntervalosFase1[Min(indiceActual + 1, |IntervalosFase1| - 1)]
  }

  /**
   * Phase 2: None (the signal to go back to phase 1) for a grade below 3;
   * otherwise the bottom of the ladder when the truncated interval is not on
   * it, the next ladder value when it is, and interval times EF once the
   * ladder is exhausted.
   */
  function CalcularSiguienteIntervaloFase2(intervaloActual: real, ef: real, q: int): (r: Option<real>)
    ensures r.None? <==> q < 3
    ensures q >= 3 && Trunc(intervaloActual) !in IntervalosFase2 ==> r == Some(IntervalosFase2[0] as real)
    ensures q >= 3 ==>
      forall i | 0 <= i < 3 && Trunc(intervaloActual) == IntervalosFase2[i] ::
        r == Some(IntervalosFase2[i + 1] as real)
    ensures q >= 3 && Trunc(intervaloActual) == IntervalosFase2[3] ==> r == Some(intervaloActual * ef)
    ensures r.Some? && ef > 0.0 ==> r.value > 0.0
  {
    if q < 3 then None
    else match IndexOf(IntervalosFase2, Trunc(intervaloActual))
      case None => Some(IntervalosFase2[0] as real)
      case Some(i) =>
        if i < |IntervalosFase2| - 1 then Some(IntervalosFase2[i + 1] as real)
        else Some(intervaloActual * ef)
  }

  /** Phase 3: the interval grows by the ease factor, so by at least 30%. */
  function CalcularSiguienteIntervaloFase3(intervaloActual: real, ef: real): (r: real)
    ensures ef >= EFMinimo && intervaloActual >= 0.0 ==> r >= EFMinimo * intervaloActual
    ensures ef >= EFMinimo && intervaloActual > 0.0 ==> r > intervaloActual
  {
    intervaloActual * ef
  }

  // ---------------------------------------------------------------------
  // Step 5: phase transitions
  // ---------------------------------------------------------------------

  /**
   * The newest `n` entries of a history kept oldest first, newest first:
   * what `reviews.order_by('-fecha')[:n]` yields.
   */
  function UltimasReviews(reviews: seq<ReviewLog>, n: nat): (r: seq<ReviewLog>)
    ensures |r| == if |reviews| < n then |reviews| else n
    ensures forall k | 0 <= k < |r| :: r[k] == reviews[|reviews| - 1 - k]
  {
    if n == 0 || |reviews| == 0 then []
    else [reviews[|reviews| - 1]] + UltimasReviews(reviews[..|reviews| - 1], n - 1)
  }

  function SumaTiempos(reviews: seq<ReviewLog>): real
  {
    if |reviews| == 0 then 0.0 else reviews[0].tiempoRespuesta + SumaTiempos(reviews[1..])
  }

  /**
   * Phase 1 to 2: at least three correct answers in a row, the 10-minute
   * interval reached, and a mean response time under 4 s over the three
   * newest reviews (which must exist).
   */
  predicate VerificarPromocionFase1A2(contadorAciertos: int, intervaloActual: real, reviews: seq<ReviewLog>)
    ensures VerificarPromocionFase1A2(contadorAciertos, intervaloActual, reviews) ==>
      contadorAciertos >= 3 && intervaloActual >= 600.0 && |reviews| >= 3
  {
    && contadorAciertos >= 3
    && intervaloActual >= 600.0
    && var ultimas := UltimasReviews(reviews, 3);
       |ultimas| >= 3 && SumaTiempos(ultimas) / 3.0 < 4.0
  }

  /**
   * The 1-to-2 promotion holds exactly when all four conditions hold, read
   * directly off the end of the history: dropping any one of them blocks it.
   */
  lemma PromocionFase1A2Exacta(contadorAciertos: int, intervaloActual: real, reviews: seq<ReviewLog>)
    ensures VerificarPromocionFase1A2(contadorAciertos, intervaloActual, reviews) <==>
      && contadorAciertos >= 3
      && intervaloActual >= 600.0
      && |reviews| >= 3
      && var n := |reviews|;
         reviews[n - 1].tiempoRespuesta + reviews[n - 2].tiempoRespuesta + reviews[n - 3].tiempoRespuesta < 12.0
  {
    var ultimas := UltimasReviews(reviews, 3);
    if |reviews| >= 3 {
      var n := |reviews|;
      assert ultimas == [reviews[n - 1], reviews[n - 2], reviews[n - 3]];
      SumaTiemposTres(reviews[n - 1], reviews[n - 2], reviews[n - 3]);
    }
  }

  lemma SumaTiemposTres(a: ReviewLog, b: ReviewLog, c: ReviewLog)
    ensures SumaTiempos([a, b, c]) == a.tiempoRespuesta + b.tiempoRespuesta + c.tiempoRespuesta
  {
    var s := [a, b, c];
    assert s[1..] == [b, c] && s[1..][1..] == [c] && s[1..][1..][1..] == [];
    assert SumaTiempos([c]) == c.tiempoRespuesta;
    assert SumaTiempos([b, c]) == b.tiempoRespuesta + c.tiempoRespuesta;
  }

  /** Phase 2 to 3: at least three correct answers in a row at the top of the phase-2 ladder or beyond. */
  predicate VerificarPromocionFase2A3(contadorAciertos: int, intervaloActual: real)
    ensures VerificarPromocionFase2A3(contadorAciertos, intervaloActual) <==>
      contadorAciertos >= 3 && Trunc(intervaloActual) >= IntervalosFase2[3]
    ensures VerificarPromocionFase2A3(contadorAciertos, intervaloActual) ==>
      IndexOf(IntervalosFase2, Trunc(intervaloActual)).None? || Trunc(intervaloActual) == IntervalosFase2[3]
  {
    contadorAciertos >= 3 && intervaloActual >= IntervalosFase2[|IntervalosFase2| - 1] as real
  }

  /** Phase 2 to 1: a failed answer, or a hesitant one (grade 3) that took more than 10 s. */
  predicate RetrocesoFase2A1(q: int, tiempoRespuesta: real)
    ensures RetrocesoFase2A1(q, tiempoRespuesta) <==> q <= 2 || (q == 3 && tiempoRespuesta > 10.0)
    ensures q >= 4 ==> !RetrocesoFase2A1(q, tiempoRespuesta)
  {
    q < 3 || (q < 4 && tiempoRespuesta > 10.0)
  }

  /** The four phase changes, each with the interval and state it sets. */
  datatype Transicion = Fase1A2 | Fase2A1 | Fase2A3 | Fase3A2
  {
    function Desde(): int
    {
      match this
      case Fase1A2 => 1
      case Fase2A1 => 2
      case Fase2A3 => 2
      case Fase3A2 => 3
    }

    function Hacia(): int
    {
      match this
      case Fase1A2 => 2
      case Fase2A1 => 1
      case Fase2A3 => 3
      case Fase3A2 => 2
    }

    function IntervaloEntrada(): int
    {
      match this
      case Fase1A2 => IntervalosFase2[0]
      case Fase2A1 => IntervalosFase1[0]
      case Fase2A3 => IntervaloEntradaFase3
      case Fase3A2 => IntervalosFase2[0]
    }

    function EstadoEntrada(): Estado
    {
      match this
      case Fase1A2 => Consolidacion
      case Fase2A1 => Aprendizaje
      case Fase2A3 => Maduro
      case Fase3A2 => Consolidacion
    }
  }

  /**
   * The transition `aplicar_transicion_fase` fires, if any, for a card in
   * phase `fase` that has just been graded `q` in `tiempoRespuesta` seconds,
   * with streak `contadorAciertos` (already updated for this answer), its
   * interval before recomputation, and its history before this answer.
   */
  function TransicionFase(fase: int, q: int, tiempoRespuesta: real, contadorAciertos: int,
                          intervaloActual: real, reviews: seq<ReviewLog>): (t: Option<Transicion>)
    ensures t == Some(Fase1A2) <==> fase == 1 && VerificarPromocionFase1A2(contadorAciertos, intervaloActual, reviews)
    ensures t == Some(Fase2A1) <==> fase == 2 && RetrocesoFase2A1(q, tiempoRespuesta)
    ensures t == Some(Fase2A3) <==>
      fase == 2 && !RetrocesoFase2A1(q, tiempoRespuesta) && VerificarPromocionFase2A3(contadorAciertos, intervaloActual)
    ensures t == Some(Fase3A2) <==> fase == 3 && q < 3
    ensures t.Some? ==> t.value.Desde() == fase
  {
    if fase == 1 then
      if VerificarPromocionFase1A2(contadorAciertos, intervaloActual, reviews) then Some(Fase1A2) else None
    else if fase == 2 then
      if RetrocesoFase2A1(q, tiempoRespuesta) then Some(Fase2A1)
      else if VerificarPromocionFase2A3(contadorAciertos, intervaloActual) then Some(Fase2A3)
      else None
    else if fase == 3 then
      if q < 3 then Some(Fase3A2) else None
    else None
  }

  /** A transition moves one phase up or down and stays within phases 1..3. */
  lemma TransicionUnPaso(t: Transicion)
    ensures t.Hacia() == t.Desde() + 1 || t.Hacia() == t.Desde() - 1
    ensures 1 <= t.Desde() <= 3 && 1 <= t.Hacia() <= 3
    ensures t.IntervaloEntrada() > 0 && t.EstadoEntrada() != Nuevo
  {
  }

  /**
   * The phase-2 fallback of step 6 (None from the phase-2 rule) needs a grade
   * below 3, and such a grade already sends a phase-2 card back to phase 1.
   */
  lemma RetrocesoFase2InalcanzableEnPaso6(fase: int, q: int, tiempoRespuesta: real, contadorAciertos: int,
                                          intervaloActual: real, ef: real, reviews: seq<ReviewLog>)
    requires fase == 2 && CalcularSiguienteIntervaloFase2(intervaloActual, ef, q).None?
    ensures TransicionFase(fase, q, tiempoRespuesta, contadorAciertos, intervaloActual, reviews) == Some(Fase2A1)
  {
  }

  /**
   * aplicar_transicion_fase: at most one phase change, with its entry
   * interval and state and a reset streak; returns the phase it started in.
   */
  method AplicarTransicionFase(card: Card, q: int) returns (faseAnterior: int)
    modifies card`fase, card`estado, card`intervaloActual, card`contadorAciertos
    ensures faseAnterior == old(card.fase)
    ensures card.fase != faseAnterior <==>
      TransicionFase(old(card.fase), q, card.tiempoRespuesta, old(card.contadorAciertos),
                     old(card.intervaloActual), card.reviews).Some?
    ensures
      match TransicionFase(old(card.fase), q, card.tiempoRespuesta, old(card.contadorAciertos),
                           old(card.intervaloActual), card.reviews)
      case None =>
        && card.fase == old(card.fase) && card.estado == old(card.estado)
        && card.intervaloActual == old(card.intervaloActual)
        && card.contadorAciertos == old(card.contadorAciertos)
      case Some(t) =>
        && card.fase == t.Hacia() && card.estado == t.EstadoEntrada()
        && card.intervaloActual == t.IntervaloEntrada() as real
        && card.contadorAciertos == 0
    // a phase change lands in a known phase with a positive interval
    ensures card.fase != faseAnterior ==> card.HasKnownPhase() && card.intervaloActual > 0.0
  {
    faseAnterior := card.fase;
    if card.fase == 1 {
      if VerificarPromocionFase1A2(card.contadorAciertos, card.intervaloActual, card.reviews) {
        card.fase := 2;
        card.estado := Consolidacion;
        card.intervaloActual := IntervalosFase2[0] as real;
        card.contadorAciertos := 0;
      }
    } else if card.fase == 2 {
      if q < 3 || (q < 4 && card.tiempoRespuesta > 10.0) {
        card.fase := 1;
        card.estado := Aprendizaje;
        card.intervaloActual := IntervalosFase1[0] as real;
        card.contadorAciertos := 0;
      } else if VerificarPromocionFase2A3(card.contadorAciertos, card.intervaloActual) {
        card.fase := 3;
        card.estado := Maduro;
        card.intervaloActual := IntervaloEntradaFase3 as real;
        card.contadorAciertos := 0;
      }
    } else if card.fase == 3 {
      if q < 3 {
        card.fase := 2;
        card.estado := Consolidacion;
        card.intervaloActual := IntervalosFase2[0] as real;
        card.contadorAciertos := 0;
      }
    }
  }

  // ---------------------------------------------------------------------
  // The per-review update
  // ---------------------------------------------------------------------

  /**
   * What update_card leaves behind on `card`, against its state before the
   * call: the new state of every field the update touches, and the fields it
   * does not touch.
   */
  twostate predicate Revisada(card: Card, calificacionBase: int, tiempoRespuesta: real, now: real)
    reads card
  {
    && Calificada(card, calificacionBase, tiempoRespuesta, now)
    && Reprogramada(card)
    && Registrada(card, calificacionBase, tiempoRespuesta, now)
  }

  /** Steps 1 to 4: the adjusted grade, the ease factor, the streaks and the last-answer telemetry. */
  twostate predicate Calificada(card: Card, calificacionBase: int, tiempoRespuesta: real, now: real)
    reads card
  {
    && card.calificacionAjustada == AjustarCalificacionPorTiempo(calificacionBase, tiempoRespuesta)
    && card.tiempoRespuesta == tiempoRespuesta && card.ultimaRepeticion == Some(now)
    && card.EF == (if card.calificacionAjustada >= 3 then CalcularNuevoEF(old(card.EF), card.calificacionAjustada)
                   else old(card.EF))
    && (card.calificacionAjustada >= 4 ==> card.contadorFallos == 0)
    && (card.calificacionAjustada < 4 ==>
          card.contadorFallos == old(card.contadorFallos) + 1 && card.contadorAciertos == 0)
  }

  /**
   * Step 5, and steps 6 and 8 when no phase change happens: a phase change
   * fixes the entry interval and consumes the cycle; otherwise the interval
   * rule of the unchanged phase applies and a new card starts learning.
   */
  twostate predicate Reprogramada(card: Card)
    reads card
  {
    var q := card.calificacionAjustada;
    var aciertos := if q >= 4 then old(card.contadorAciertos) + 1 else 0;
    match TransicionFase(old(card.fase), q, card.tiempoRespuesta, aciertos, old(card.intervaloActual), old(card.reviews))
    case Some(t) =>
      && card.fase == t.Hacia() && card.estado == t.EstadoEntrada()
      && card.intervaloActual == t.IntervaloEntrada() as real
      && card.contadorAciertos == 0
    case None =>
      && card.fase == old(card.fase)
      && card.estado == (if old(card.estado) == Nuevo then Aprendizaje else old(card.estado))
      && card.contadorAciertos == aciertos
      && (card.fase == 1 ==>
            card.intervaloActual == CalcularSiguienteIntervaloFase1(old(card.intervaloActual), q >= 4) as real)
      && (card.fase == 2 ==>
            Some(card.intervaloActual) == CalcularSiguienteIntervaloFase2(old(card.intervaloActual), card.EF, q))
      && (card.fase == 3 ==>
            card.intervaloActual == CalcularSiguienteIntervaloFase3(old(card.intervaloActual), card.EF))
  }

  /**
   * Steps 7 and 10: the next review one interval from `now`, exactly one new
   * history entry, and the identity and text of the card left alone.
   */
  twostate predicate Registrada(card: Card, calificacionBase: int, tiempoRespuesta: real, now: real)
    reads card
  {
    && card.siguienteRepeticion == now + card.intervaloActual
    && card.reviews == old(card.reviews) +
         [ReviewLog(now, calificacionBase, tiempoRespuesta, card.calificacionAjustada, old(card.fase), card.fase)]
    && card.id == old(card.id) && card.usuario == old(card.usuario)
    && card.frente == old(card.frente) && card.reverso == old(card.reverso)
    && card.fechaCreacion == old(card.fechaCreacion)
  }

  /**
   * Steps 1 to 4 of update_card: adjusts the grade, updates the ease factor
   * for a grade of 3 or more, the streaks and the last-answer telemetry.
   */
  method CalificarRespuesta(card: Card, calificacionBase: int, tiempoRespuesta: real, now: real) returns (q: int)
    modifies card`EF, card`contadorAciertos, card`contadorFallos, card`tiempoRespuesta,
             card`calificacionAjustada, card`ultimaRepeticion
    ensures q == card.calificacionAjustada
    ensures Calificada(card, calificacionBase, tiempoRespuesta, now)
    ensures card.contadorAciertos == if q >= 4 then old(card.contadorAciertos) + 1 else 0
    ensures old(card.EF) >= EFMinimo || q >= 3 ==> card.EF >= EFMinimo
  {
    // 1. adjust the grade
    q := AjustarCalificacionPorTiempo(calificacionBase, tiempoRespuesta);
    // 2. ease factor, only for a grade of 3 or more
    if q >= 3 {
      card.EF := CalcularNuevoEF(card.EF, q);
    }
    // 3. streak counters
    if q >= 4 {
      card.contadorAciertos := card.contadorAciertos + 1;
      card.contadorFallos := 0;
    } else {
      card.contadorFallos := card.contadorFallos + 1;
      card.contadorAciertos := 0;
    }
    // 4. last-answer telemetry
    card.tiempoRespuesta := tiempoRespuesta;
    card.calificacionAjustada := q;
    card.ultimaRepeticion := Some(now);
  }

  /**
   * Steps 6 to 8 of update_card, for a card whose phase did not change: the
   * interval rule of its phase becomes the new interval, and a new card starts
   * learning. A phase-2 card for which the rule gives no interval (a grade
   * below 3) falls back to phase 1 at 5 seconds with its streak reset.
   */
  method AplicarReglaDeFase(card: Card, q: int)
    requires card.HasKnownPhase()
    modifies card`fase, card`estado, card`intervaloActual, card`contadorAciertos
    ensures old(card.fase) == 1 ==>
      card.intervaloActual == CalcularSiguienteIntervaloFase1(old(card.intervaloActual), q >= 4) as real
    ensures old(card.fase) == 2 && q >= 3 ==>
      Some(card.intervaloActual) == CalcularSiguienteIntervaloFase2(old(card.intervaloActual), card.EF, q)
    ensures old(card.fase) == 3 ==>
      card.intervaloActual == CalcularSiguienteIntervaloFase3(old(card.intervaloActual), card.EF)
    ensures old(card.fase) == 2 && q < 3 ==>
      && card.fase == 1 && card.estado == Aprendizaje
      && card.intervaloActual == IntervalosFase1[0] as real && card.contadorAciertos == 0
    ensures !(old(card.fase) == 2 && q < 3) ==>
      && card.fase == old(card.fase) && card.contadorAciertos == old(card.contadorAciertos)
      && card.estado == (if old(card.estado) == Nuevo then Aprendizaje else old(card.estado))
    // the rule keeps a positive interval positive once the ease factor is at least 1.3
    ensures old(card.intervaloActual) > 0.0 && (old(card.fase) != 1 ==> card.EF >= EFMinimo) ==>
      card.intervaloActual > 0.0
  {
    // 6. the interval rule of the current phase
    var nuevoIntervalo: real;
    if card.fase == 1 {
      var esCorrecto := q >= 4;
      nuevoIntervalo := CalcularSiguienteIntervaloFase1(card.intervaloActual, esCorrecto) as real;
    } else if card.fase == 2 {
      var siguiente := CalcularSiguienteIntervaloFase2(card.intervaloActual, card.EF, q);
      if siguiente.None? {
        // back to phase 1
        card.fase := 1;
        card.estado := Aprendizaje;
        nuevoIntervalo := IntervalosFase1[0] as real;
        card.contadorAciertos := 0;
      } else {
        nuevoIntervalo := siguiente.value;
      }
    } else {
      nuevoIntervalo := CalcularSiguienteIntervaloFase3(card.intervaloActual, card.EF);
    }
    // 7. the new interval
    card.intervaloActual := nuevoIntervalo;
    // 8. a new card starts learning
    if card.estado == Nuevo {
      card.estado := Aprendizaje;
    }
  }

  /**
   * update_card: grades the card, updates its ease factor, streaks and
   * last-answer telemetry, applies at most one phase change (which then fixes
   * the interval and ends the cycle) or else the interval rule of its phase,
   * schedules the next review and appends exactly one history entry.
   */
  method UpdateCard(card: Card, calificacionBase: int, tiempoRespuesta: real, now: real)
    requires card.HasKnownPhase()
    modifies card`fase, card`estado, card`intervaloActual, card`EF, card`contadorAciertos,
             card`contadorFallos, card`tiempoRespuesta, card`calificacionAjustada,
             card`ultimaRepeticion, card`siguienteRepeticion, card`reviews
    ensures Revisada(card, calificacionBase, tiempoRespuesta, now)
    // invariants the update keeps
    ensures card.HasKnownPhase()
    ensures old(card.EF) >= EFMinimo ==> card.EF >= EFMinimo
    ensures old(card.intervaloActual) > 0.0 ==> card.intervaloActual > 0.0 && !card.EstaVencida(now)
  {
    // 1. to 4.
    var q := CalificarRespuesta(card, calificacionBase, tiempoRespuesta, now);
    // 5. phase transition; a change of phase ends the cycle: update_card then
    //    schedules, logs and returns without steps 6 to 8
    var faseAnterior := AplicarTransicionFase(card, q);
    if card.fase == faseAnterior {
      // 6. to 8.; the phase-2 fallback inside is never taken here, since a
      // grade below 3 has already demoted the card in step 5
      AplicarReglaDeFase(card, q);
    }
    // 7. next review
    card.siguienteRepeticion := now + card.intervaloActual;
    // 10. history entry
    card.reviews := card.reviews + [ReviewLog(now, calificacionBase, tiempoRespuesta, q, faseAnterior, card.fase)];
  }

  // ---------------------------------------------------------------------
  // The selector
  // ---------------------------------------------------------------------

  /**
   * The query of get_next_card: the user's cards whose next review is not
   * after `now`, excluding those in state "new".
   */
  predicate EsCandidata(c: Card, usuario: int, now: real)
    reads c
    // the query's filters are exactly "owned, due and not new" as the card's own predicates say
    ensures EsCandidata(c, usuario, now) <==> c.usuario == usuario && c.EstaVencida(now) && !c.EsNueva()
  {
    c.usuario == usuario && c.siguienteRepeticion <= now && c.estado != Nuevo
  }

  /**
   * get_next_card over the card table `cards`: the position of the candidate
   * with the earliest next review (the first such position on ties), or None
   * when there is no candidate.
   */
  function GetNextCard(cards: seq<Card>, usuario: int, now: real): (r: Option<nat>)
    reads cards
    ensures r.None? <==> forall j | 0 <= j < |cards| :: !EsCandidata(cards[j], usuario, now)
    ensures r.Some? ==> r.value < |cards| && EsCandidata(cards[r.value], usuario, now)
    ensures r.Some? ==>
      forall j | 0 <= j < |cards| && EsCandidata(cards[j], usuario, now) ::
        cards[r.value].siguienteRepeticion <= cards[j].siguienteRepeticion
    ensures r.Some? ==>
      forall j | 0 <= j < r.value && EsCandidata(cards[j], usuario, now) ::
        cards[r.value].siguienteRepeticion < cards[j].siguienteRepeticion
  {
    if |cards| == 0 then None
    else
      var ultima := |cards| - 1;
      var previa := GetNextCard(cards[..ultima], usuario, now);
      if !EsCandidata(cards[ultima], usuario, now) then previa
      else match previa
        case None => Some(ultima)
        case Some(i) =>
          if cards[i].siguienteRepeticion <= cards[ultima].siguienteRepeticion then previa else Some(ultima)
  }
}
