# Flashcard scheduler (SM-2 variant) in Dafny

This project models the scheduling core of a personal flashcard application. It has three parts.

- **The scheduler** (`flashcards/utils.py`). A card goes through three learning phases: 1 (intensive learning), 2 (consolidation) and 3 (maintenance). Each graded answer goes through these steps:
  - The grade is clamped to 0..5. A time penalty exists in the code but is switched off.
  - The SM-2 ease factor (EF) is updated, with a floor of 1.3.
  - The correct and failure streak counters are updated.
  - The last-answer telemetry is recorded.
  - At most one phase change is applied. A phase change fixes the interval and ends the cycle.
  - Otherwise the interval rule of the phase applies: a fixed ladder in phases 1 and 2, and `interval × EF` at the end of phase 2 and in phase 3.
  - The next review is scheduled, and one review-log entry is appended.
- **The selector.** It returns the user's due, non-"new" card with the earliest next review.
- **The state around them** (`flashcards/models.py`, `flashcards/views.py`): the per-user daily counter with its lazy reset, card defaults, the manual progress reset, the validation of a graded answer before it reaches the scheduler, and the dashboard's pending count.

Files:

- `wrappers.dfy`: `Option`.
- `models.dfy` (module `Models`): `Estado`, the `ReviewLog` record, the `Card` class, the `UserSettings` class and the `DailyQuota` reset specification.
- `utils.dfy` (module `Scheduler`): the ladders, the pure helpers, the `TransicionFase` specification of the phase state machine, the imperative `CalificarRespuesta` (steps 1-4), `AplicarTransicionFase` (step 5), `AplicarReglaDeFase` (steps 6-8) and `UpdateCard` on a `Card`, the two-state predicate `Revisada` that states what a review leaves behind, and the selector `GetNextCard`.
- `views.dfy` (module `Views`): `ReiniciarTarjeta`, `ValidarRespuesta`, `ProcesarRespuesta` and `TarjetasPendientes`.
- `scenarios.dfy` (module `Scenarios`): verified scenarios on freshly allocated cards. They restate the two `update_card` tests in `flashcards/tests.py` and the phase-1 promotion with its response-time condition both met and missed.

Conventions:

- Timestamps and intervals are seconds, as `real`. Calendar dates are day numbers, as `int`.
- The clock (`timezone.now()`) is the parameter `now`. The source reads the clock separately for the last-review time, the next-review time and the log entry in `update_card`, and once more in the `get_next_card` call that `procesar_respuesta` makes for its reply (flashcards/views.py:242, flashcards/utils.py:277). The model uses one instant for all four.
- `int(card.intervalo_actual)` is Python truncation toward zero (`Trunc`).
- A card's history `reviews` is kept in creation order. The source's newest-first ordering (`-fecha`) is `UltimasReviews`. The 1→2 promotion check reads the three newest entries from *before* the current answer, because the new entry is created only at the end of `update_card`.
- A card table is a `seq<Card>`. Each call to `ReviewLog.objects.create` is an append. Each call to `save()` writes the in-memory fields and needs no further modelling.

Behaviour of the code worth noting:

- **Response time is not validated.** `procesar_respuesta` rejects a missing or zero card id and a grade outside 0..5, but not a negative response time (views.py:232).
- **A missing card gives 500, not 404.** The `Http404` from `get_object_or_404` is raised inside `try ... except Exception`, so an unknown card produces a 500 reply, not a 404 (views.py:225-253).
- **An off-ladder interval advances, it does not restart.** In phase 1, a correct answer from an interval that is not on the ladder steps up from index 0 and gives 25 s (utils.py:71-78).
- **The phase-2 fallback is dead code.** In step 6, the phase-2 fallback to phase 1 (utils.py:236-241) can never run: a grade below 3 already demotes a phase-2 card in step 5. `AplicarReglaDeFase` keeps the fallback as written; `UpdateCard`'s contract, whose no-transition case keeps the phase, shows it is not taken, and `RetrocesoFase2InalcanzableEnPaso6` states the reason.
- **Both streak counters can be zero.** A new card starts with both at zero, and a promotion (1→2 or 2→3, which needs a grade of 4 or more) zeroes the correct streak while the failure streak was already zero, and `reiniciar_tarjeta` zeroes both. So "exactly one counter is nonzero" is not an invariant of the code. What holds is that each update zeroes one of the two.

## Model

| member | source | states |
|---|---|---|
| `Models.ResetSiNecesario` | flashcards/models.py:23-29 | on a later day the counter becomes 0 and the reset date becomes today; otherwise nothing changes; the stored date is max(old date, today), so it never moves backwards |
| `Models.ResetIdempotent` | flashcards/models.py:23-29 | a second reset on the same day gives the same state as the first |
| `Models.UserSettings.constructor` | flashcards/models.py:9-14 | defaults: 10 new cards a day, counter 0, reset date today |
| `Models.UserSettings.ResetContadorSiNecesario` | flashcards/models.py:23-29 | the quota fields become `ResetSiNecesario` of the old ones, and the user and limit are unchanged |
| `Models.Card.constructor` | flashcards/models.py:47-70 | a fresh card is "nuevo", phase 1, interval 5.0, EF 2.5, both counters 0, no last review, next review at creation time, empty history; it is due and new |
| `Scheduler.Trunc` | flashcards/utils.py:72 | `int()` of a float truncates toward zero: the result has the sign of x and lies within 1 of it, on the side nearer 0 |
| `Scheduler.IndexOf` | flashcards/utils.py:72-74 | `list.index`: None exactly when the value is absent, otherwise the first position that holds it |
| `Scheduler.AjusteTiempo` | flashcards/utils.py:34-45 | the time adjustment is the constant 0: the banded penalties are commented out |
| `Scheduler.TiempoNoInfluye` | flashcards/utils.py:35-47 | the banded penalties are commented out and the adjustment is 0, so two answers with the same grade adjust to the same grade whatever their response times |
| `Scheduler.AjustarCalificacionPorTiempo` | flashcards/utils.py:11-48 | the result is in 0..5; a grade in 0..5 is returned unchanged whatever the time; grades below 0 and above 5 clamp to 0 and 5 |
| `Scheduler.CalcularNuevoEF` | flashcards/utils.py:51-59 | exactly max(1.3, EF + SM-2 increment): never below 1.3, never below EF plus the increment, and equal to it above the floor; q=5 adds 0.1; q=4 leaves EF unchanged; q≤3 lowers an EF above the floor |
| `Scheduler.NuevoEFMonotono` | flashcards/utils.py:57-59 | over grades 0..5 a higher grade never gives a smaller EF |
| `Scheduler.CalcularSiguienteIntervaloFase1` | flashcards/utils.py:62-78 | always a ladder value; a failure gives 5; a success moves one ladder step up from the truncated interval (5→25→120→600, 600 stays); an off-ladder interval gives 25 |
| `Scheduler.CalcularSiguienteIntervaloFase2` | flashcards/utils.py:81-102 | None exactly for grades below 3; an off-ladder interval restarts at 86400; on the ladder it moves one step up; from 1209600 it gives interval × EF; the result is positive when EF is |
| `Scheduler.CalcularSiguienteIntervaloFase3` | flashcards/utils.py:105-110 | with EF ≥ 1.3 the new interval is at least 1.3 × interval, and it is strictly larger for a positive interval |
| `Scheduler.UltimasReviews` | flashcards/utils.py:123 | `order_by('-fecha')[:n]` over a history kept oldest first: min(n, size) entries, newest first |
| `Scheduler.VerificarPromocionFase1A2` | flashcards/utils.py:113-128 | a promotion 1→2 needs a streak of at least 3, an interval of at least 600 s and at least three entries in the history |
| `Scheduler.PromocionFase1A2Exacta` | flashcards/utils.py:113-128 | promotion 1→2 holds iff streak ≥ 3, interval ≥ 600, at least three prior entries, and the three newest times sum to under 12 s (mean < 4) — so dropping any condition blocks it |
| `Scheduler.VerificarPromocionFase2A3` | flashcards/utils.py:131-140 | promotion 2→3 holds iff the streak is at least 3 and the truncated interval is at least 1209600, the last ladder step; so it only fires from the top of the ladder or beyond it |
| `Scheduler.RetrocesoFase2A1` | flashcards/utils.py:160 | a phase-2 card falls back iff its grade is at most 2, or exactly 3 with a response over 10 s; a grade of 4 or 5 never demotes it |
| `Scheduler.TransicionFase` | flashcards/utils.py:143-183 | the transition table: 1→2 on the promotion check; 2→1 on grade < 3 or (grade < 4 and time > 10), checked before 2→3; 2→3 on streak ≥ 3 and interval ≥ 1209600; 3→2 on grade < 3; at most one fires, from the current phase |
| `Scheduler.TransicionUnPaso` | flashcards/utils.py:149-181 | every transition moves one phase up or down within 1..3 and sets a positive entry interval (86400, 5, 2592000, 86400) and a non-"nuevo" state |
| `Scheduler.RetrocesoFase2InalcanzableEnPaso6` | flashcards/utils.py:234-241 | the phase-2 rule yields None only for a grade below 3, and such a grade already triggers 2→1 in step 5, so `update_card`'s fallback cannot run |
| `Scheduler.AplicarTransicionFase` | flashcards/utils.py:143-183 | returns the old phase; when `TransicionFase` fires, phase, state and interval take its entry values and the streak is reset; otherwise nothing changes |
| `Scheduler.CalificarRespuesta` | flashcards/utils.py:190-208 | steps 1-4: the grade clamped to 0..5, EF recomputed only for grades ≥ 3, a success (≥ 4) adds one to the streak and zeroes failures, a lower grade adds one failure and zeroes the streak; EF ends ≥ 1.3 when it was or the grade is ≥ 3 |
| `Scheduler.AplicarReglaDeFase` | flashcards/utils.py:226-252 | steps 6-8 with the phase unchanged: the phase's interval rule gives the new interval, a "nuevo" card becomes "aprendizaje"; a phase-2 card with grade < 3 falls back to phase 1 at 5 s; a positive interval stays positive once EF ≥ 1.3 |
| `Scheduler.UpdateCard` | flashcards/utils.py:186-267 | adjusted grade, telemetry, EF (changed only for grades ≥ 3), streaks reset each other; a phase change sets its entry values and skips the ladder and the "nuevo"→"aprendizaje" step; otherwise the phase's interval rule applies and a new card starts learning; next review = now + interval; exactly one log entry with phase before and after is appended; the phase stays in 1..3, EF ≥ 1.3 is kept, and a positive interval stays positive so the card is not due at `now`; all of this is the two-state predicate `Revisada`, which `ProcesarRespuesta` also promises |
| `Scheduler.EsCandidata` | flashcards/utils.py:280-283 | the selector's filter (owner, `siguiente_repeticion <= now`, not "nuevo") is exactly "owned, `esta_vencida` and not `es_nueva`" |
| `Models.Card.EstaVencida` | flashcards/models.py:80-82 | due iff `now >= siguienteRepeticion`; `EsCandidata` proves it is the selector's `__lte` boundary |
| `Models.VencidaSigueVencida` | flashcards/models.py:80-82 | a card due at `now` (next review at or before `now`) is still due at every later instant |
| `Models.Card.EsNueva` | flashcards/models.py:84-86 | a card is new iff its state is "nuevo" |
| `Scheduler.GetNextCard` | flashcards/utils.py:270-288 | None iff the user has no due non-"nuevo" card; otherwise a due non-"nuevo" card of the user with the earliest next review (`ordering` of flashcards/models.py:75), the first in table order on ties |
| `Views.ReiniciarTarjeta` | flashcards/views.py:146-154 | state "nuevo", phase 1, interval 5.0, EF 2.5, counters 0, next review now; text and history untouched; the card is due and new |
| `Views.ReiniciadaNoSeSelecciona` | flashcards/utils.py:280-283 | a card in state "nuevo", such as one just reset, is never the selector's choice |
| `Views.ValidarRespuesta` | flashcards/views.py:226-233 | a missing or unconvertible grade or time is a server error; otherwise the answer is accepted iff the card id is present and nonzero and the grade is in 0..5; the response time is not checked |
| `Views.ValidadaLlegaIntacta` | flashcards/views.py:232-239 | a grade that passes the guard reaches `update_card` and its clamp unchanged |
| `Views.BuscarTarjeta` | flashcards/views.py:236 | None iff no card has that id and owner, otherwise the position of one that has |
| `Views.ProcesarRespuesta` | flashcards/views.py:223-253 | malformed gives 500, invalid gives 400, an unknown card gives 500, and all three leave every card unchanged; a valid answer for a card the user owns is recorded (200); then only the found card changes, it goes through `update_card` exactly as `Revisada` states, keeps a phase in 1..3, it gets one log entry with the validated grade (0..5) unadjusted, and the reply names the selector's next card |
| `Views.TarjetasPendientes` | flashcards/views.py:25-28 | the number of the user's due non-"nuevo" cards, at most the table size |
| `Views.PendientesSiHaySiguiente` | flashcards/views.py:183-186 | the pending count is positive iff `get_next_card` returns a card |
| `Scenarios.RespuestaCorrectaEnTarjetaNueva` | flashcards/tests.py:53-61 | a fresh card graded 5 in 2 s: streak 1, failures 0, state "aprendizaje", interval 25, next review now + 25, one log entry |
| `Scenarios.RespuestaIncorrectaEnTarjetaNueva` | flashcards/tests.py:63-70 | a fresh card graded 1 in 15 s: one failure, streak 0, interval 5.0, EF unchanged |
| `Scenarios.PromocionFase1` | flashcards/utils.py:121-127 | a phase-1 card at 600 s with streak 2, graded 5: it moves to phase 2 (86400, "consolidacion", streak 0) iff its three prior times sum under 12 s, and otherwise stays at 600 with streak 3 |

## Left out

- Django ORM, HTTP, templates, messages, redirects and JSON encoding. A request is given as already-decoded fields (`Respuesta`). `save()` needs no modelling beyond the field updates, and `ReviewLog.objects.create` is a sequence append.
- The other views (listing, creating, editing and deleting cards, the review session page): they are persistence and rendering only.
- `timezone.now()`: it is an injected parameter. The source's three separate readings in `update_card`, and the reading in `get_next_card` that `procesar_respuesta` makes afterwards, are one instant here.
- Debug `print` calls in `aplicar_transicion_fase`: they are output only.
- Notifications, VAPID key generation, management commands, admin and URL configuration: they are outside the scheduling core.
- Floating-point rounding: interval and EF arithmetic is exact over `real`. For example, the q=4 increment is exactly 0 here.
- Scheduler.UpdateCard: requires the card's phase to be one of the declared choices 1..3. With any other phase the source raises a `TypeError` (at `timedelta(seconds=None)`) after mutating the in-memory card. That crash is not modelled.
- Views.ProcesarRespuesta: requires the card it finds to have a phase in 1..3, for the reason given for `UpdateCard`; with any other phase the source raises before `save()` and answers 500.
- Scheduler.UpdateCard: does not model the range of Python's `datetime`, which ends in year 9999. In phase 3 each answer multiplies the interval by EF (flashcards/utils.py:110) without bound, so `timezone.now() + timedelta(seconds=nuevo_intervalo)` (flashcards/utils.py:248) eventually raises `OverflowError`, before `save()` and the log entry. The model always completes the update.
- Views.ProcesarRespuesta: because nothing checks that the card is due (flashcards/views.py:236-239), repeated answers to a mature card reach that overflow, and the source then answers 500 with the card unsaved (flashcards/views.py:252-253). The model answers `Registrada` with the full update.
- Views.ValidarRespuesta: `card_id` is never passed through `int()` in the view (flashcards/views.py:227), and the guard `not card_id` (flashcards/views.py:232) tests the raw JSON value. A non-integer id that is truthy passes the guard and is converted by `int()` when the lookup (flashcards/views.py:236) prepares it for the integer `id` field. One that converts to the id of a card the user owns (`"5"`, `5.0`, `5.7`, `true`) is graded and answered with 200. One that does not convert or finds no card (`"0"`, `"abc"`, `0.5`, `[1]`) gives 500. Neither case is modelled, because `Respuesta` holds only integer ids and absent or null ones.
- Views.BuscarTarjeta: returns the first match. Card ids are primary keys, so the source's `MultipleObjectsReturned` case cannot happen and is not modelled.
- Scheduler.GetNextCard: the source leaves the order of cards with equal next-review times to the database. The model picks the first in table order.
- Scheduler.UltimasReviews: assumes that entries with a later position have later `fecha`, as creation order gives them. Ties in `fecha` are not modelled.
- The commented-out banded time penalties (−0.5/−1/−2) would produce non-integer grades. They are disabled in the source, so `AjusteTiempo` is the constant 0.
- A daily-quota increment or limit check: no code increments `tarjetas_nuevas_hoy`, so none is modelled.
- Several tests in `flashcards/tests.py` are stale and are not encoded: the time-penalty expectations at lines 29-35, and the expectation at lines 87-108 that `get_next_card` serves "nuevo" cards.
- Concurrency: `procesar_respuesta` reads, changes and saves the card without a lock or `select_for_update` (flashcards/views.py:236-239, flashcards/utils.py:186-267), so two simultaneous answers for one card can lose an update. The model treats each request as atomic.
- NaN and infinite response times: `json.loads` and `float()` accept them (flashcards/views.py:226, 229), and `real` cannot express them. In the source a NaN time makes `tiempo_respuesta > 10` false (flashcards/utils.py:160), and, while it is among the three newest entries, it blocks the 1→2 mean-time test (flashcards/utils.py:125-126).
