/**
 * The card operations of flashcards/views.py that touch scheduling state:
 * the manual progress reset, the validation and processing of a graded
 * answer, and the pending-card count shown on the dashboard and statistics
 * pages. Request decoding, rendering and redirects are not modelled; a card
 * table is a sequence of Card objects.
 */
module Views {
  import opened Wrappers
  import opened Models
  import opened Scheduler

  /**
   * reiniciar_tarjeta (the POST branch): the card goes back to a new phase-1
   * card due at `now`; its text, history and last-answer telemetry stay.
   */
  method ReiniciarTarjeta(card: Card, now: real)
    modifies card`estado, card`fase, card`intervaloActual, card`EF, card`contadorAciertos,
             card`contadorFallos, card`siguienteRepeticion
    ensures card.estado == Nuevo && card.fase == 1
    ensures card.intervaloActual == IntervaloInicial && card.EF == EFInicial
    ensures card.contadorAciertos == 0 && card.contadorFallos == 0
    ensures card.siguienteRepeticion == now
    ensures card.frente == old(card.frente) && card.reverso == old(card.reverso)
    ensures card.reviews == old(card.reviews)
    ensures card.HasKnownPhase() && card.EstaVencida(now) && card.EsNueva()
  {
    card.estado := Nuevo;
    card.fase := 1;
    card.intervaloActual := 5.0;
    card.EF := 2.5;
    card.contadorAciertos := 0;
    card.contadorFallos := 0;
    card.siguienteRepeticion := now;
  }

  /**
   * A card in state "new" (such as one just reset) is never the one the
   * selector hands out, however overdue it is.
   */
  lemma ReiniciadaNoSeSelecciona(cards: seq<Card>, usuario: int, now: real, k: nat)
    requires k < |cards| && cards[k].EsNueva()
    ensures GetNextCard(cards, usuario, now) != Some(k)
  {
  }

  /**
   * The decoded body of a procesar_respuesta request. `cardId` is the JSON
   * value when it is an integer and None when it is absent or null; it is not
   * converted. The grade and the time are None when int() / float() cannot
   * convert them.
   */
  datatype Respuesta = Respuesta(cardId: Option<int>, calificacionBase: Option<int>, tiempoRespuesta: Option<real>)

  /** The outcome of the checks before the card is looked up. */
  datatype Validacion =
    | Malformada      // int() or float() raised: HTTP 500
    | Invalida        // the explicit guard: HTTP 400
    | Valida(cardId: int, calificacionBase: int, tiempoRespuesta: real)

  /**
   * The checks of procesar_respuesta: the conversions first, then the guard
   * that rejects a missing or zero card id and a grade outside 0..5. The
   * response time is not checked.
   */
  function ValidarRespuesta(req: Respuesta): (v: Validacion)
    ensures v.Malformada? <==> req.calificacionBase.None? || req.tiempoRespuesta.None?
    ensures v.Valida? <==>
      && req.calificacionBase.Some? && req.tiempoRespuesta.Some?
      && req.cardId.Some? && req.cardId.value != 0
      && 0 <= req.calificacionBase.value <= 5
    ensures v.Valida? ==>
      && v.cardId == req.cardId.value
      && v.calificacionBase == req.calificacionBase.value
      && v.tiempoRespuesta == req.tiempoRespuesta.value
  {
    match (req.calificacionBase, req.tiempoRespuesta)
    case (Some(base), Some(tiempo)) =>
      if req.cardId.None? || req.cardId.value == 0 || base < 0 || base > 5 then Invalida
      else Valida(req.cardId.value, base, tiempo)
    case _ => Malformada
  }

  /** A grade that passes the guard reaches the scheduler unchanged. */
  lemma ValidadaLlegaIntacta(req: Respuesta)
    requires ValidarRespuesta(req).Valida?
    ensures var v := ValidarRespuesta(req);
      AjustarCalificacionPorTiempo(v.calificacionBase, v.tiempoRespuesta) == v.calificacionBase
  {
  }

  /** get_object_or_404(Card, id=id, usuario=usuario): the first matching position, if any. */
  function BuscarTarjeta(cards: seq<Card>, id: int, usuario: int): (r: Option<nat>)
    reads cards
    ensures r.None? <==> forall j | 0 <= j < |cards| :: !(cards[j].id == id && cards[j].usuario == usuario)
    ensures r.Some? ==> r.value < |cards| && cards[r.value].id == id && cards[r.value].usuario == usuario
  {
    if |cards| == 0 then None
    else if cards[0].id == id && cards[0].usuario == usuario then Some(0)
    else match BuscarTarjeta(cards[1..], id, usuario)
      case None => None
      case Some(i) => Some(i + 1)
  }

  /** The JSON reply of procesar_respuesta. */
  datatype Reply =
    | Registrada(siguienteTarjeta: Option<int>)   // 200 with the id of the next card, if any
    | DatosInvalidos                              // 400
    | ErrorServidor                               // 500: any exception, a missing card included

  /**
   * procesar_respuesta: validates the request, looks the card up among the
   * user's, grades it, and answers with the id of the next card to review.
   * Every rejection happens before the scheduler runs and leaves every card
   * untouched.
   */
  method ProcesarRespuesta(cards: seq<Card>, usuario: int, req: Respuesta, now: real) returns (reply: Reply)
    // the card found has a phase the scheduler knows (1, 2 or 3)
    requires var v := ValidarRespuesta(req);
      v.Valida? && BuscarTarjeta(cards, v.cardId, usuario).Some? ==>
        cards[BuscarTarjeta(cards, v.cardId, usuario).value].HasKnownPhase()
    modifies cards
    ensures var v := ValidarRespuesta(req);
      && (v.Malformada? ==> reply == ErrorServidor)
      && (v.Invalida? ==> reply == DatosInvalidos)
      && (v.Valida? && old(BuscarTarjeta(cards, v.cardId, usuario)).None? ==> reply == ErrorServidor)
      && (v.Valida? && old(BuscarTarjeta(cards, v.cardId, usuario)).Some? ==> reply.Registrada?)
    ensures !reply.Registrada? ==> forall j | 0 <= j < |cards| :: unchanged(cards[j])
    ensures reply.Registrada? ==>
      var v := ValidarRespuesta(req);
      && v.Valida?
      && old(BuscarTarjeta(cards, v.cardId, usuario)).Some?
      && var k := old(BuscarTarjeta(cards, v.cardId, usuario)).value;
         // the graded card went through update_card with the validated grade and time
         && Revisada(cards[k], v.calificacionBase, v.tiempoRespuesta, now)
         && cards[k].HasKnownPhase()
         // and got one entry whose grade is the validated one, unadjusted
         && cards[k].reviews == old(cards[k].reviews) +
              [ReviewLog(now, v.calificacionBase, v.tiempoRespuesta, v.calificacionBase, old(cards[k].fase), cards[k].fase)]
         && 0 <= v.calificacionBase <= 5
         // no other card changed
         && (forall j | 0 <= j < |cards| && cards[j] != cards[k] :: unchanged(cards[j]))
         // the reply names the card the selector picks afterwards
         && reply.siguienteTarjeta == match GetNextCard(cards, usuario, now)
              case None => None
              case Some(i) => Some(cards[i].id)
  {
    var v := ValidarRespuesta(req);
    if v.Malformada? {
      return ErrorServidor;
    }
    if v.Invalida? {
      return DatosInvalidos;
    }
    var encontrada := BuscarTarjeta(cards, v.cardId, usuario);
    if encontrada.None? {
      return ErrorServidor;
    }
    var card := cards[encontrada.value];
    UpdateCard(card, v.calificacionBase, v.tiempoRespuesta, now);
    var siguiente := GetNextCard(cards, usuario, now);
    reply := Registrada(match siguiente case None => None case Some(i) => Some(cards[i].id));
  }

  /** The pending count of home and estadisticas: the cards the selector's query returns. */
  function TarjetasPendientes(cards: seq<Card>, usuario: int, now: real): (n: nat)
    reads cards
    ensures n <= |cards|
  {
    if |cards| == 0 then 0
    else
      var ultima := |cards| - 1;
      TarjetasPendientes(cards[..ultima], usuario, now) + if EsCandidata(cards[ultima], usuario, now) then 1 else 0
  }

  /** The dashboard shows pending cards exactly when a review session has a card to show. */
  lemma {:induction false} PendientesSiHaySiguiente(cards: seq<Card>, usuario: int, now: real)
    ensures TarjetasPendientes(cards, usuario, now) > 0 <==> GetNextCard(cards, usuario, now).Some?
  {
    if |cards| > 0 {
      var ultima := |cards| - 1;
      PendientesSiHaySiguiente(cards[..ultima], usuario, now);
      assert forall j | 0 <= j < ultima :: cards[..ultima][j] == cards[j];
    }
  }
}
