/**
 * The records of flashcards/models.py that the scheduler reads and writes:
 * the per-user daily quota (UserSettings), the flashcard itself (Card) and
 * the entry appended to a card's history after every graded answer (ReviewLog).
 *
 * Timestamps are seconds as `real`; calendar dates are day numbers as `int`.
 */
module Models {
  import opened Wrappers

  /** The four values of Card.ESTADO_CHOICES. */
  datatype Estado = Nuevo | Aprendizaje | Consolidacion | Maduro

  /** One ReviewLog row; `fecha` is the creation time of the entry. */
  datatype ReviewLog = ReviewLog(
    fecha: real,
    calificacionBase: int,
    tiempoRespuesta: real,
    calificacionAjustada: int,
    faseAntes: int,
    faseDespues: int)

  /** The defaults of a freshly created UserSettings row. */
  const MaxTarjetasNuevasPorDefecto := 10

  /** The state that the daily reset reads and writes. */
  datatype DailyQuota = DailyQuota(tarjetasNuevasHoy: int, ultimaFechaReset: int)

  /**
   * What reset_contador_si_necesario leaves behind: a new calendar day zeroes
   * the counter and records the day; on the same day (or a clock that went
   * back) nothing changes.
   */
  function ResetSiNecesario(q: DailyQuota, hoy: int): (r: DailyQuota)
    ensures r.ultimaFechaReset == if q.ultimaFechaReset < hoy then hoy else q.ultimaFechaReset
    ensures q.ultimaFechaReset < hoy ==> r.tarjetasNuevasHoy == 0
    ensures q.ultimaFechaReset >= hoy ==> r == q
  {
    if q.ultimaFechaReset < hoy then DailyQuota(0, hoy) else q
  }

  /** A second reset on the same day changes nothing. */
  lemma ResetIdempotent(q: DailyQuota, hoy: int)
    ensures ResetSiNecesario(ResetSiNecesario(q, hoy), hoy) == ResetSiNecesario(q, hoy)
  {
  }

  /** Per-user settings: the daily new-card quota and its lazy reset. */
  class UserSettings {
    var usuario: int
    var maxTarjetasNuevasDiarias: int
    var tarjetasNuevasHoy: int
    var ultimaFechaReset: int

    function Quota(): DailyQuota
      reads this
    {
      DailyQuota(tarjetasNuevasHoy, ultimaFechaReset)
    }

    /** A new row with the field defaults; the reset date defaults to today. */
    constructor (usuario: int, hoy: int)
      ensures this.usuario == usuario
      ensures maxTarjetasNuevasDiarias == MaxTarjetasNuevasPorDefecto
      ensures tarjetasNuevasHoy == 0 && ultimaFechaReset == hoy
    {
      this.usuario := usuario;
      maxTarjetasNuevasDiarias := MaxTarjetasNuevasPorDefecto;
      tarjetasNuevasHoy := 0;
      ultimaFechaReset := hoy;
    }

    /** reset_contador_si_necesario, with today's date passed in. */
    method ResetContadorSiNecesario(hoy: int)
      modifies this
      ensures Quota() == ResetSiNecesario(old(Quota()), hoy)
      ensures usuario == old(usuario) && maxTarjetasNuevasDiarias == old(maxTarjetasNuevasDiarias)
    {
      if ultimaFechaReset < hoy {
        tarjetasNuevasHoy := 0;
        ultimaFechaReset := hoy;
      }
    }
  }

  /** Field defaults of a new Card. */
  const IntervaloInicial: real := 5.0
  const EFInicial: real := 2.5

  /**
   * A flashcard. Cards are listed by `siguienteRepeticion` ascending; the
   * review history `reviews` is kept in creation order (oldest first).
   */
  class Card {
    var id: int
    var usuario: int
    var frente: string
    var reverso: string

    var estado: Estado
    var fase: int

    var intervaloActual: real
    var EF: real

    var fechaCreacion: real
    var ultimaRepeticion: Option<real>
    var siguienteRepeticion: real

    var contadorAciertos: int
    var contadorFallos: int

    var tiempoRespuesta: real
    var calificacionAjustada: int

    var reviews: seq<ReviewLog>

    /** The phase is one of FASE_CHOICES. */
    predicate HasKnownPhase()
      reads this
    {
      1 <= fase <= 3
    }

    /** A new card as Card.objects.create leaves it at time `now`. */
    constructor (id: int, usuario: int, frente: string, reverso: string, now: real)
      ensures this.id == id && this.usuario == usuario
      ensures this.frente == frente && this.reverso == reverso
      ensures estado == Nuevo && fase == 1
      ensures intervaloActual == IntervaloInicial && EF == EFInicial
      ensures contadorAciertos == 0 && contadorFallos == 0
      ensures fechaCreacion == now && ultimaRepeticion == None && siguienteRepeticion == now
      ensures tiempoRespuesta == 0.0 && calificacionAjustada == 0
      ensures reviews == []
      ensures HasKnownPhase() && EstaVencida(now) && EsNueva()
    {
      this.id := id;
      this.usuario := usuario;
      this.frente := frente;
      this.reverso := reverso;
      estado := Nuevo;
      fase := 1;
      intervaloActual := IntervaloInicial;
      EF := EFInicial;
      fechaCreacion := now;
      ultimaRepeticion := None;
      siguienteRepeticion := now;
      contadorAciertos := 0;
      contadorFallos := 0;
      tiempoRespuesta := 0.0;
      calificacionAjustada := 0;
      reviews := [];
    }

    /** The card needs reviewing at time `now`. */
    predicate EstaVencida(now: real)
      reads this
    {
      now >= siguienteRepeticion
    }

    /** The card has never been taken out of the "new" state. */
    predicate EsNueva()
      reads this
    {
      estado == Nuevo
    }
  }

  /** A due card stays due as time goes on, until a review moves its next review. */
  lemma VencidaSigueVencida(c: Card, now: real, despues: real)
    requires now <= despues && c.EstaVencida(now)
    ensures c.EstaVencida(despues)
  {
  }
}
