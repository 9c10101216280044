/**
 * Verified scenarios of the scheduler on freshly created cards: the two
 * update_card cases of flashcards/tests.py, and the phase-1 promotion with
 * the response-time condition met and just missed.
 */
module Scenarios {
  import opened Wrappers
  import opened Models
  import opened Scheduler

  /** A new card answered perfectly in 2 s starts learning with one correct answer and a 25 s interval. */
  method RespuestaCorrectaEnTarjetaNueva(now: real)
    returns (aciertos: int, fallos: int, estado: Estado, intervalo: real, siguiente: real, entradas: nat)
    ensures aciertos == 1 && fallos == 0 && estado == Aprendizaje
    ensures intervalo == 25.0 && siguiente == now + 25.0 && entradas == 1
  {
    var card := new Card(1, 1, "Capital de Francia", "Paris", now);
    UpdateCard(card, 5, 2.0, now);
    aciertos, fallos, estado := card.contadorAciertos, card.contadorFallos, card.estado;
    intervalo, siguiente, entradas := card.intervaloActual, card.siguienteRepeticion, |card.reviews|;
  }

  /** A new card answered with grade 1 in 15 s counts one failure and stays on the first 5 s interval. */
  method RespuestaIncorrectaEnTarjetaNueva(now: real)
    returns (aciertos: int, fallos: int, intervalo: real, ef: real)
    ensures fallos == 1 && aciertos == 0 && intervalo == 5.0 && ef == EFInicial
  {
    var card := new Card(1, 1, "Capital de Francia", "Paris", now);
    UpdateCard(card, 1, 15.0, now);
    aciertos, fallos, intervalo, ef := card.contadorAciertos, card.contadorFallos, card.intervaloActual, card.EF;
  }

  function Entrada(fecha: real, tiempo: real): ReviewLog
  {
    ReviewLog(fecha, 5, tiempo, 5, 1, 1)
  }

  /**
   * A phase-1 card at 10 minutes with two correct answers behind it and three
   * answers in the history taking `t1`, `t2`, `t3` seconds, answered
   * perfectly in 1 s: it moves to phase 2 exactly when the three times
   * average under 4 s, and otherwise climbs no further than 10 minutes.
   */
  method PromocionFase1(now: real, t1: real, t2: real, t3: real)
    returns (fase: int, estado: Estado, intervalo: real, aciertos: int, cambio: ReviewLog)
    ensures t1 + t2 + t3 < 12.0 ==>
      fase == 2 && estado == Consolidacion && intervalo == 86400.0 && aciertos == 0
    ensures t1 + t2 + t3 >= 12.0 ==>
      fase == 1 && estado == Aprendizaje && intervalo == 600.0 && aciertos == 3
    ensures cambio.faseAntes == 1 && cambio.faseDespues == fase
  {
    var card := new Card(7, 1, "Pregunta", "Respuesta", now);
    card.estado := Aprendizaje;
    card.intervaloActual := 600.0;
    card.contadorAciertos := 2;
    card.reviews := [Entrada(now - 300.0, t1), Entrada(now - 200.0, t2), Entrada(now - 100.0, t3)];
    PromocionFase1A2Exacta(3, 600.0, card.reviews);
    UpdateCard(card, 5, 1.0, now);
    fase, estado, intervalo, aciertos := card.fase, card.estado, card.intervaloActual, card.contadorAciertos;
    cambio := card.reviews[|card.reviews| - 1];
  }
}
