# Banco Agricultura back-office services in Dafny

This project models the service layer of the Banco Agricultura back office, a Spring application. Six services are covered:

- **TransaccionService**: deposits, withdrawals and transfers. A client acts on their own accounts. A collaborator ("dependiente") or a cashier names the client by their identity document (DUI). A collaborator earns a 5% PENDIENTE commission on each operation.
- **CuentaService**: opening an account under per-role rules (at most 3 for a client, 1 for a collaborator), closing one, and drawing a fresh 12-digit account number.
- **SolicitudPrestamoService**: loan applications with salary-tier underwriting (the installment may take at most 30% of the salary) and the EN_ESPERA → APROBADO | RECHAZADO workflow of a branch manager.
- **PrestamoService**: opening a loan from an approved application and paying installments.
- **UsuarioService**: the four ways to create a user, the general manager's approval or rejection of a pending employee action, and dismissals.
- **PersonaService**: the person records behind users.

## How the model is built

- Money is an integer number of cents. A rate is an integer number of basis points (0.05 is 500).
- BigDecimal's HALF_UP and CEILING roundings are written out in `Money`.
- The Spring Data repositories become one `Store` value (`Domain`): a map per entity, the transaction and commission logs as sequences, and a counter that issues ids.
- Each service is a module of functions from the store before a call to an `Outcome`:
  - `Success` carries the returned value and the new store.
  - `Failure` carries the exception's kind and reason.
  - Every check in the source precedes every save, so a failed call changes nothing.
- The guards run in the source's order. For every operation that can fail, its `...SucceedsIff` lemma, or its `...Effect` lemma where it has no `...SucceedsIff` lemma, states when a call succeeds and which error the first failing check raises; the transaction flows add `...GuardsFirst` and `...MontoInvalido` lemmas for this. The `...Effect` lemmas also state what a successful call changes, down to "nothing else changes". A broken stored reference (EntityNotFound) cannot occur under `Domain.Valid` and has no clause of its own.
- `Domain.Valid` is the store invariant:
  - every stored id was issued by the counter;
  - the foreign keys the services follow resolve;
  - both balances of an account agree and are never negative;
  - next-payment dates are real dates;
  - every balance equals what the transaction log accounts for (`SaldoSegunRegistro`).

  A `...PreservesValid` lemma for every operation proves that the operation keeps this invariant.
- The class `Banco.Bank` holds the repositories as mutable fields. Its methods perform each operation in place, saving rows in the source's order. Each method is proved to return and leave exactly what the service function specifies, and to keep `Valid`.
- The account-number generator is a `while` loop over a sequence of random draws, proved to return the first free number.

## Model

| member | source | states |
|---|---|---|
| Money.Comision | src/main/java/com/bancoagricultura/banco_agricultura/service/TransaccionService.java:65 | the commission is the cent nearest to 5% of a non-negative amount, halves rounded up (BigDecimal HALF_UP at scale 2) |
| Money.ComisionAtMostMonto | src/main/java/com/bancoagricultura/banco_agricultura/service/TransaccionService.java:65 | the commission on a non-negative amount is between zero and the amount |
| Money.MaxCuota | src/main/java/com/bancoagricultura/banco_agricultura/service/SolicitudPrestamoService.java:176 | the installment cap is the cent nearest to 30% of the salary, halves rounded up |
| Money.RoundHalfUpDiv | src/main/java/com/bancoagricultura/banco_agricultura/service/SolicitudPrestamoService.java:186 | the quotient rounded HALF_UP lies within half a unit of the exact quotient, with ties going away from zero |
| Money.CeilDiv | src/main/java/com/bancoagricultura/banco_agricultura/service/PrestamoService.java:198 | the quotient rounded CEILING is the least integer at or above the exact quotient |
| Dates.FirstDayOfNextMonth | src/main/java/com/bancoagricultura/banco_agricultura/service/PrestamoService.java:250-252 | gives a valid day 1 strictly after the base date, and no valid first-of-month lies between the two |
| Dates.PlusYears | src/main/java/com/bancoagricultura/banco_agricultura/service/PrestamoService.java:71 | keeps the month, adds the years and clamps 29 February to 28 February; the result is a valid date |
| Domain.FindById | src/main/java/com/bancoagricultura/banco_agricultura/service/TransaccionService.java:365-368 | succeeds exactly when the id is stored, with that row; otherwise IllegalArgumentException |
| Domain.TheOnly | src/main/java/com/bancoagricultura/banco_agricultura/service/TransaccionService.java:360-363 | an Optional finder: exactly one match gives that match; none gives IllegalArgumentException; several give IncorrectResultSize |
| Domain.PersonaPorDui | src/main/java/com/bancoagricultura/banco_agricultura/service/TransaccionService.java:360-363 | a found person carries that identity document and is the only stored person who does; a unique match is found; no match is IllegalArgumentException and two matches are IncorrectResultSize |
| Domain.UsuarioPorPersona | src/main/java/com/bancoagricultura/banco_agricultura/service/TransaccionService.java:355-358 | a found user is linked to that person and is the only user who is; a unique link is found; no link is IllegalArgumentException and two links are IncorrectResultSize |
| Domain.RequireRol | src/main/java/com/bancoagricultura/banco_agricultura/service/TransaccionService.java:382-386 | passes exactly when the actor has that role; otherwise SecurityException |
| Domain.RequireCuentaActiva | src/main/java/com/bancoagricultura/banco_agricultura/service/TransaccionService.java:370-374 | passes exactly when `activa` is true; a null or false flag gives IllegalStateException |
| Domain.RequireTitular | src/main/java/com/bancoagricultura/banco_agricultura/service/TransaccionService.java:376-380 | passes exactly when the account belongs to that user; otherwise SecurityException |
| Transacciones.TitularEsperado | src/main/java/com/bancoagricultura/banco_agricultura/service/TransaccionService.java:58-59 | for a client the expected owner is the actor; for a collaborator or cashier it is a stored user, found through the identity document |
| Transacciones.ComisionDe | src/main/java/com/bancoagricultura/banco_agricultura/service/TransaccionService.java:65 | fails with NullPointerException exactly for a collaborator with a null amount; otherwise 5% for a collaborator and 0 for anyone else |
| Transacciones.AplicarDeposito | src/main/java/com/bancoagricultura/banco_agricultura/service/TransaccionService.java:284-291 | succeeds exactly for a positive amount and adds it to both balances, and nothing else changes; otherwise IllegalArgumentException |
| Transacciones.AplicarRetiro | src/main/java/com/bancoagricultura/banco_agricultura/service/TransaccionService.java:293-303 | succeeds exactly for a positive amount within the available balance and subtracts it from both balances; a null or non-positive amount gives IllegalArgumentException; one above the balance gives IllegalStateException |
| Transacciones.AplicarTransferencia | src/main/java/com/bancoagricultura/banco_agricultura/service/TransaccionService.java:305-308 | succeeds exactly when the withdrawal from the origin does, with the same error otherwise; accounts other than the two are untouched |
| Transacciones.RegistrarTransaccionBasica | src/main/java/com/bancoagricultura/banco_agricultura/service/TransaccionService.java:310-333 | the saved row carries the given type, amount, accounts, executor, reference and metadata; a null commission is stored as zero |
| Transacciones.RegistrarComisionDependiente | src/main/java/com/bancoagricultura/banco_agricultura/service/TransaccionService.java:335-344 | a PENDIENTE commission for the collaborator, pointing at the transaction, at the given amount and rate |
| Transacciones.DepositarSucceedsIff | src/main/java/com/bancoagricultura/banco_agricultura/service/TransaccionService.java:30-110 | a deposit by any of the three channels succeeds exactly when the actor has the channel's role and the client resolves, and the account exists, is active, is the client's and the amount is positive |
| Transacciones.DepositarGuardsFirst | src/main/java/com/bancoagricultura/banco_agricultura/service/TransaccionService.java:30-110 | when a guard fails, the deposit fails the same way whatever the amount; the first failing guard decides the error: unknown actor or account IllegalArgumentException, wrong role SecurityException, a failed DUI lookup its own error, inactive account IllegalStateException (even when it is another client's), another client's active account SecurityException |
| Transacciones.DepositarMontoInvalido | src/main/java/com/bancoagricultura/banco_agricultura/service/TransaccionService.java:54-83 | once the guards pass, a null or non-positive amount gives IllegalArgumentException; a null amount from a collaborator gives NullPointerException instead |
| Transacciones.DepositarEffect | src/main/java/com/bancoagricultura/banco_agricultura/service/TransaccionService.java:30-110 | adds exactly the amount to both balances of that account and to no other account; logs one DEPOSITO row into it with the caller's reference and the channel's metadata; a collaborator also gets a 5% PENDIENTE commission on that row |
| Transacciones.DepositarPreservesValid | src/main/java/com/bancoagricultura/banco_agricultura/service/TransaccionService.java:30-110 | a deposit keeps the store valid: the balances stay sound and equal to what the log accounts for |
| Transacciones.RetirarSucceedsIff | src/main/java/com/bancoagricultura/banco_agricultura/service/TransaccionService.java:117-197 | a withdrawal succeeds exactly when the guards pass and the positive amount is covered by the available balance |
| Transacciones.RetirarGuardsFirst | src/main/java/com/bancoagricultura/banco_agricultura/service/TransaccionService.java:117-197 | guard failures of a withdrawal do not depend on the amount; the first failing guard decides the error, in the same order and with the same kinds as for a deposit |
| Transacciones.RetirarMontoInvalido | src/main/java/com/bancoagricultura/banco_agricultura/service/TransaccionService.java:117-197 | once the guards pass, a bad amount gives IllegalArgumentException (NullPointerException for a collaborator's null amount); an uncovered amount gives IllegalStateException |
| Transacciones.RetirarEffect | src/main/java/com/bancoagricultura/banco_agricultura/service/TransaccionService.java:117-197 | subtracts exactly the amount from both balances of that account and no other, and the balance stays non-negative; logs one RETIRO row with the caller's reference and the channel's metadata; the collaborator's commission is recorded |
| Transacciones.RetirarPreservesValid | src/main/java/com/bancoagricultura/banco_agricultura/service/TransaccionService.java:117-197 | a withdrawal keeps the store valid |
| Transacciones.TransferirSucceedsIff | src/main/java/com/bancoagricultura/banco_agricultura/service/TransaccionService.java:204-256 | a transfer succeeds exactly when the actor has the role, both accounts exist and are active, the origin is the client's and it covers the positive amount |
| Transacciones.TransferirGuardsFirst | src/main/java/com/bancoagricultura/banco_agricultura/service/TransaccionService.java:204-256 | guard failures of a transfer do not depend on the amount; unknown actor or either account IllegalArgumentException, wrong role SecurityException, either account inactive IllegalStateException (checked before ownership), an origin of another client SecurityException |
| Transacciones.TransferirEffect | src/main/java/com/bancoagricultura/banco_agricultura/service/TransaccionService.java:204-256 | between two accounts, moves exactly the amount from origin to destination and keeps their total; to the same account, no balance changes; other accounts are untouched; logs one TRANSFERENCIA row with no commission, the caller's reference and the transfer metadata (a cashier's key is `duiClienteOrigen`) |
| Transacciones.TransferirPreservesValid | src/main/java/com/bancoagricultura/banco_agricultura/service/TransaccionService.java:204-256 | a transfer keeps the store valid |
| Cuentas.FormatoCerosRoundTrip | src/main/java/com/bancoagricultura/banco_agricultura/service/CuentaService.java:98 | reading back the zero-padded digits gives the number again |
| Cuentas.NumeroCuenta | src/main/java/com/bancoagricultura/banco_agricultura/service/CuentaService.java:98 | a drawn account number is 12 decimal digits |
| Cuentas.NumeroCuentaInjective | src/main/java/com/bancoagricultura/banco_agricultura/service/CuentaService.java:98 | two draws give the same number exactly when their absolute values agree modulo 10^12 |
| Cuentas.PrimerLibre | src/main/java/com/bancoagricultura/banco_agricultura/service/CuentaService.java:94-101 | the first draw whose number is not taken: every earlier draw's number is taken |
| Cuentas.GenerarNumeroCuentaUnico | src/main/java/com/bancoagricultura/banco_agricultura/service/CuentaService.java:94-101 | the loop returns the number of the first free draw, which is not taken and has 12 digits |
| Cuentas.BuscarCreador | src/main/java/com/bancoagricultura/banco_agricultura/service/CuentaService.java:26-30 | no creator id means no creator; a known id means that user; an unknown id is an IllegalArgumentException |
| Cuentas.ReglasDeApertura | src/main/java/com/bancoagricultura/banco_agricultura/service/CuentaService.java:32-57 | pass exactly when the creator is allowed for the owner's role and the owner is below its limit (3 for a client, 1 for a collaborator); other roles give SecurityException; an allowed creator at the limit gives IllegalStateException |
| Cuentas.CrearCuentaSucceedsIff | src/main/java/com/bancoagricultura/banco_agricultura/service/CuentaService.java:22-73 | an account opens exactly when the owner and any creator exist, the creator is allowed and the owner is below the limit; an unknown owner or creator is IllegalArgumentException, otherwise the error is the role rules' |
| Cuentas.CrearCuentaAtLimit | src/main/java/com/bancoagricultura/banco_agricultura/service/CuentaService.java:32-57 | a client with three accounts, or a collaborator with one, is refused with IllegalStateException |
| Cuentas.CrearCuentaEffect | src/main/java/com/bancoagricultura/banco_agricultura/service/CuentaService.java:59-72 | the new account is the owner's, of the given type, 0.00 on both balances and active, with its creator recorded, no branch and a fresh 12-digit number; the owner's count grows by one and stays within the limit; the id counter advances by one and no other account, repository or log changes |
| Cuentas.CrearCuentaKeepsNumbersUnique | src/main/java/com/bancoagricultura/banco_agricultura/service/CuentaService.java:59-60 | opening an account keeps account numbers unique across the bank |
| Cuentas.CrearCuentaPreservesValid | src/main/java/com/bancoagricultura/banco_agricultura/service/CuentaService.java:22-73 | opening an account keeps the store valid |
| Cuentas.DesactivarCuentaEffect | src/main/java/com/bancoagricultura/banco_agricultura/service/CuentaService.java:83-88 | succeeds exactly for a stored account and sets only its flag to false; otherwise IllegalArgumentException; closing twice is the same as closing once |
| Cuentas.DesactivadaRechazaMovimientos | src/main/java/com/bancoagricultura/banco_agricultura/service/TransaccionService.java:370-374 | after closing, every deposit, withdrawal and transfer that names the account, from either end, fails |
| Cuentas.DesactivarCuentaPreservesValid | src/main/java/com/bancoagricultura/banco_agricultura/service/CuentaService.java:83-88 | closing an account keeps the store valid |
| Solicitudes.PlazoMinimo | src/main/java/com/bancoagricultura/banco_agricultura/service/SolicitudPrestamoService.java:226-245 | the minimum term from the annuity formula; an infeasible term gives IllegalStateException |
| Solicitudes.CuotaMensual | src/main/java/com/bancoagricultura/banco_agricultura/service/SolicitudPrestamoService.java:208-222 | the annuity installment; a zero factor gives ArithmeticException |
| Solicitudes.ReglaPorSalarioMonotonic | src/main/java/com/bancoagricultura/banco_agricultura/service/SolicitudPrestamoService.java:191-205 | a higher salary never lowers the tier's cap or its rate |
| Solicitudes.ReglaPorSalarioTasaPositiva | src/main/java/com/bancoagricultura/banco_agricultura/service/SolicitudPrestamoService.java:191-205 | every tier has a positive rate and cap |
| Solicitudes.ReglaPorSalarioBoundaries | src/main/java/com/bancoagricultura/banco_agricultura/service/SolicitudPrestamoService.java:191-205 | tiers start at 365, 600 and 900; 1000.00 is still in the 35000 / 4% tier; 5% starts only above 1000 |
| Solicitudes.SalarioDelCliente | src/main/java/com/bancoagricultura/banco_agricultura/service/SolicitudPrestamoService.java:152-159 | succeeds exactly with a linked person whose salary is positive; no person gives IllegalStateException; a null or non-positive salary gives IllegalArgumentException |
| Solicitudes.EvaluarPrestamoSound | src/main/java/com/bancoagricultura/banco_agricultura/service/SolicitudPrestamoService.java:161-188 | an accepted application: amount within the tier cap, the tier's rate, an installment within 30% of the salary, and a term of the months over 12, rounded half up to hundredths |
| Solicitudes.EvaluarPrestamoErrors | src/main/java/com/bancoagricultura/banco_agricultura/service/SolicitudPrestamoService.java:164-184 | an amount above the cap gives IllegalArgumentException, and an amount equal to the cap passes; an infeasible term gives IllegalStateException; a zero annuity factor gives ArithmeticException; an installment above 30% of salary gives IllegalStateException; otherwise the validation accepts with the tier's rate, that installment and the term in hundredths of a year rounded half up |
| Solicitudes.CrearSolicitudSucceedsIff | src/main/java/com/bancoagricultura/banco_agricultura/service/SolicitudPrestamoService.java:38-75 | an application is filed exactly when the actor has the channel's role, the client resolves, the destination account is theirs and the underwriting accepts; unknown actor or account IllegalArgumentException, wrong role or foreign account SecurityException, a failed DUI lookup its own error, then the underwriting's error |
| Solicitudes.CrearSolicitudEffect | src/main/java/com/bancoagricultura/banco_agricultura/service/SolicitudPrestamoService.java:38-91 | a new EN_ESPERA application under a fresh id: the client owns the destination account, the actor is the requester with the channel's role, there is no manager; the note carries the tier's rate, the annuity installment for the minimum term (within 30% of salary), that term in hundredths of a year rounded half up, and the DUI when a cashier filed it; nothing else changes |
| Solicitudes.CrearSolicitudPreservesValid | src/main/java/com/bancoagricultura/banco_agricultura/service/SolicitudPrestamoService.java:38-91 | creating an application keeps the store valid |
| Solicitudes.RequireEstadoEnEspera | src/main/java/com/bancoagricultura/banco_agricultura/service/SolicitudPrestamoService.java:288-292 | passes exactly for EN_ESPERA; otherwise IllegalStateException |
| Solicitudes.AprobarSolicitudEffect | src/main/java/com/bancoagricultura/banco_agricultura/service/SolicitudPrestamoService.java:97-111 | succeeds exactly for a GERENTE_SUCURSAL on an EN_ESPERA application; sets it APROBADO with that manager; nothing else changes; an unknown manager or application is an IllegalArgumentException, another role a SecurityException, an application no longer EN_ESPERA an IllegalStateException |
| Solicitudes.RechazarSolicitudEffect | src/main/java/com/bancoagricultura/banco_agricultura/service/SolicitudPrestamoService.java:113-126 | the same guard with the same errors; sets RECHAZADO with that manager and the given text, or empty text for null; no other field or row changes |
| Solicitudes.ResueltaUnaSolaVez | src/main/java/com/bancoagricultura/banco_agricultura/service/SolicitudPrestamoService.java:97-126 | once approved or rejected, every further approval or rejection fails, with IllegalStateException for a branch manager |
| Solicitudes.AprobarSolicitudPreservesValid | src/main/java/com/bancoagricultura/banco_agricultura/service/SolicitudPrestamoService.java:97-111 | approving keeps the store valid |
| Solicitudes.RechazarSolicitudPreservesValid | src/main/java/com/bancoagricultura/banco_agricultura/service/SolicitudPrestamoService.java:113-126 | rejecting keeps the store valid |
| Prestamos.ReglasCoinciden | src/main/java/com/bancoagricultura/banco_agricultura/service/PrestamoService.java:207-219 | the loan service's salary tiers equal the application service's for every salary |
| Prestamos.ValidacionesCoinciden | src/main/java/com/bancoagricultura/banco_agricultura/service/PrestamoService.java:180-205 | for the same salary and amount, opening the loan accepts exactly what the application's underwriting accepts, with the same error, rate and installment |
| Prestamos.EvaluarTasaCuotaPlazoSound | src/main/java/com/bancoagricultura/banco_agricultura/service/PrestamoService.java:188-204 | an accepted loan has the tier's rate and the annuity installment for the minimum term, within 30% of salary; its whole-year term is the months over 12 rounded up: 12(years-1) < months <= 12 years |
| Prestamos.SiguienteMesPrimerDia | src/main/java/com/bancoagricultura/banco_agricultura/service/PrestamoService.java:250-252 | gives day 1 of a later month: a valid date strictly after the base |
| Prestamos.CuentaDestinoDe | src/main/java/com/bancoagricultura/banco_agricultura/service/PrestamoService.java:56 | the destination id when there is one; a null destination gives NullPointerException |
| Prestamos.CrearDesdeSolicitudSucceedsIff | src/main/java/com/bancoagricultura/banco_agricultura/service/PrestamoService.java:42-60 | a loan opens exactly when a branch manager acts on an APROBADO application of a CLIENTE whose existing destination account is theirs, and the underwriting accepts the amount; the first failing guard decides the error: unknown manager, application or account IllegalArgumentException, wrong role or foreign account SecurityException, application not APROBADO or client not CLIENTE IllegalStateException, missing destination NullPointerException; past the guards, the underwriting's error (salary, cap, term or installment) |
| Prestamos.CrearDesdeSolicitudEffect | src/main/java/com/bancoagricultura/banco_agricultura/service/PrestamoService.java:59-94 | an ACTIVO loan owing the full requested amount, at the tier's rate, with the annuity installment for the minimum term, within 30% of salary; its term is those months over 12 rounded up; it is due that many years later and next paid on the 1st of next month; one DEPOSITO_PRESTAMO row is logged; no balance changes |
| Prestamos.CrearDesdeSolicitudRepeatable | src/main/java/com/bancoagricultura/banco_agricultura/service/PrestamoService.java:46-49 | the application stays APROBADO, so a second loan opens for the same application |
| Prestamos.CrearDesdeSolicitudPreservesValid | src/main/java/com/bancoagricultura/banco_agricultura/service/PrestamoService.java:42-94 | opening a loan keeps the store valid |
| Prestamos.PagarCuotaSucceedsIff | src/main/java/com/bancoagricultura/banco_agricultura/service/PrestamoService.java:106-127 | a payment succeeds exactly when the payer is the loan's client as CLIENTE or a cashier, and the source account is the client's, active and covers the positive amount; unknown payer, loan or account IllegalArgumentException, payer not allowed or foreign account SecurityException, inactive account IllegalStateException, bad amount IllegalArgumentException, uncovered amount IllegalStateException |
| Prestamos.PagarCuotaEffect | src/main/java/com/bancoagricultura/banco_agricultura/service/PrestamoService.java:128-160 | debits the amount from both balances of the source account, with the balance staying non-negative; the loan becomes `AbonarPrestamo` of it, its balance lowered by the amount; logs one PAGO_PRESTAMO row; nothing else changes |
| Prestamos.AbonarPrestamoEstado | src/main/java/com/bancoagricultura/banco_agricultura/service/PrestamoService.java:147-156 | the loan is CANCELADO exactly when nothing is owed any more or it already was; a cancelled loan still accepts payments; overpaying leaves a negative balance |
| Prestamos.AbonarPrestamoProximoPago | src/main/java/com/bancoagricultura/banco_agricultura/service/PrestamoService.java:151 | the next payment becomes the earliest first-of-month strictly after the previous one, or after today when there was none |
| Prestamos.PagarCuotaPreservesValid | src/main/java/com/bancoagricultura/banco_agricultura/service/PrestamoService.java:106-160 | a payment keeps the store valid |
| Usuarios.ValidarRolObjetivo | src/main/java/com/bancoagricultura/banco_agricultura/service/UsuarioService.java:208-212 | passes exactly when the requested role is the expected one; otherwise IllegalArgumentException |
| Usuarios.PrepararNuevoUsuario | src/main/java/com/bancoagricultura/banco_agricultura/service/UsuarioService.java:171-185 | succeeds exactly when the person exists, and the branch too when given; the user carries the request's fields; failures are IllegalArgumentException |
| Usuarios.ActorConRol | src/main/java/com/bancoagricultura/banco_agricultura/service/UsuarioService.java:202-206 | succeeds exactly for a stored actor with that role; an unknown actor gives IllegalArgumentException; a wrong role gives SecurityException |
| Usuarios.CrearClientePorClienteEffect | src/main/java/com/bancoagricultura/banco_agricultura/service/UsuarioService.java:33-39 | a self-registered CLIENTE is stored ACTIVO with no creator, exactly when the request is valid; nothing else changes; a role other than CLIENTE, a null or unknown person and an unknown branch are each an IllegalArgumentException, checked in that order |
| Usuarios.CrearPorCajeroEffect | src/main/java/com/bancoagricultura/banco_agricultura/service/UsuarioService.java:42-63 | a cashier's new CLIENTE or COLABORADOR is stored ACTIVO with that cashier as creator; an unknown actor is an IllegalArgumentException, a non-cashier gets SecurityException whatever the request, then the request's role, person and branch errors follow as for self-registration |
| Usuarios.CrearCajeroEffect | src/main/java/com/bancoagricultura/banco_agricultura/service/UsuarioService.java:68-89 | a branch manager's new cashier is stored EN_ESPERA; one ALTA_EMPLEADO action, also EN_ESPERA, is filed for the manager's branch; an unknown actor is an IllegalArgumentException, a non-manager gets SecurityException, then the request's role, person and branch errors follow |
| Usuarios.CrearClientePorClientePreservesValid | src/main/java/com/bancoagricultura/banco_agricultura/service/UsuarioService.java:33-39 | self-registration keeps the store valid |
| Usuarios.CrearClientePorCajeroPreservesValid | src/main/java/com/bancoagricultura/banco_agricultura/service/UsuarioService.java:42-51 | a cashier's new client keeps the store valid |
| Usuarios.CrearColaboradorPorCajeroPreservesValid | src/main/java/com/bancoagricultura/banco_agricultura/service/UsuarioService.java:54-63 | a cashier's new collaborator keeps the store valid |
| Usuarios.CrearCajeroPreservesValid | src/main/java/com/bancoagricultura/banco_agricultura/service/UsuarioService.java:68-89 | a manager's new cashier and action keep the store valid |
| Usuarios.AprobarAccionPersonalEffect | src/main/java/com/bancoagricultura/banco_agricultura/service/UsuarioService.java:95-114 | succeeds exactly for a GERENTE_GENERAL on an EN_ESPERA action; the action becomes APROBADO with that manager and the employee ACTIVO; nothing else changes; an unknown actor or action is an IllegalArgumentException, another role a SecurityException, any stored action not EN_ESPERA an IllegalStateException |
| Usuarios.RechazarAccionPersonalEffect | src/main/java/com/bancoagricultura/banco_agricultura/service/UsuarioService.java:120-140 | the same guard with the same errors; the action becomes RECHAZADO with that manager and the given text, and the employee becomes INACTIVO |
| Usuarios.AccionResueltaUnaSolaVez | src/main/java/com/bancoagricultura/banco_agricultura/service/UsuarioService.java:95-140 | once resolved, any general manager's further approval or rejection, the action's own employee included, is an IllegalStateException, and the employee keeps the first resolution's state |
| Usuarios.ResolverAccionPreservesValid | src/main/java/com/bancoagricultura/banco_agricultura/service/UsuarioService.java:95-140 | resolving an action keeps the store valid |
| Usuarios.DarDeBajaEmpleadoEffect | src/main/java/com/bancoagricultura/banco_agricultura/service/UsuarioService.java:145-167 | a branch manager dismisses exactly a stored user not yet INACTIVO; the user becomes INACTIVO and one APROBADO BAJA_EMPLEADO action is filed; unknown actor or target IllegalArgumentException, wrong role SecurityException, target already INACTIVO IllegalStateException |
| Usuarios.DarDeBajaUnaSolaVez | src/main/java/com/bancoagricultura/banco_agricultura/service/UsuarioService.java:145-167 | a second dismissal of the same user, by any branch manager including that user, is an IllegalStateException |
| Usuarios.BajaYaGestionada | src/main/java/com/bancoagricultura/banco_agricultura/service/UsuarioService.java:95-167 | the BAJA_EMPLEADO action a dismissal files is already APROBADO, so a general manager's approval or rejection of it is an IllegalStateException |
| Usuarios.DarDeBajaEmpleadoPreservesValid | src/main/java/com/bancoagricultura/banco_agricultura/service/UsuarioService.java:145-167 | a dismissal keeps the store valid |
| Personas.CrearPersonaEffect | src/main/java/com/bancoagricultura/banco_agricultura/service/PersonaService.java:17-20 | the person is stored under a fresh id exactly as given except the state, which is ACTIVO; it reads back by id; nothing else changes |
| Personas.CrearPersonaDuiRepetido | src/main/java/com/bancoagricultura/banco_agricultura/service/PersonaService.java:17-20 | a second person with a stored identity document is accepted, after which the document lookup fails |
| Personas.ActualizarPersonaEffect | src/main/java/com/bancoagricultura/banco_agricultura/service/PersonaService.java:23-36 | succeeds exactly for a stored id; takes the seven fields from the data, keeps the identity document, changes no other record, and is idempotent |
| Personas.ObtenerPersona | src/main/java/com/bancoagricultura/banco_agricultura/service/PersonaService.java:39-42 | the stored person exactly when the id is stored; otherwise IllegalArgumentException |
| Personas.ObtenerPersonaPorDui | src/main/java/com/bancoagricultura/banco_agricultura/service/PersonaService.java:45-48 | a found person is stored and carries that identity document; the one person with that document is found; none is IllegalArgumentException and several are IncorrectResultSize |
| Personas.DarDeBajaPersonaEffect | src/main/java/com/bancoagricultura/banco_agricultura/service/PersonaService.java:56-61 | succeeds exactly for a stored id and sets only the state, to INACTIVO; it is idempotent |
| Personas.CrearPersonaPreservesValid | src/main/java/com/bancoagricultura/banco_agricultura/service/PersonaService.java:17-20 | creating a person keeps the store valid |
| Personas.ActualizarPersonaPreservesValid | src/main/java/com/bancoagricultura/banco_agricultura/service/PersonaService.java:23-36 | updating a person keeps the store valid |
| Personas.DarDeBajaPersonaPreservesValid | src/main/java/com/bancoagricultura/banco_agricultura/service/PersonaService.java:56-61 | deactivating a person keeps the store valid |
| Banco.Bank.Depositar | src/main/java/com/bancoagricultura/banco_agricultura/service/TransaccionService.java:30-110 | the in-place deposit returns the transaction and leaves the repositories as `Transacciones.Depositar` says; on failure, the same error and nothing changed; the store stays valid |
| Banco.Bank.Retirar | src/main/java/com/bancoagricultura/banco_agricultura/service/TransaccionService.java:117-197 | the same for a withdrawal |
| Banco.Bank.Transferir | src/main/java/com/bancoagricultura/banco_agricultura/service/TransaccionService.java:204-256 | the same for a transfer, saving the debited origin before the credited destination |
| Banco.Bank.CrearCuenta | src/main/java/com/bancoagricultura/banco_agricultura/service/CuentaService.java:22-73 | the same for opening an account, with the number drawn by the loop |
| Banco.Bank.DesactivarCuenta | src/main/java/com/bancoagricultura/banco_agricultura/service/CuentaService.java:83-88 | the same for closing an account |
| Banco.Bank.CrearSolicitud | src/main/java/com/bancoagricultura/banco_agricultura/service/SolicitudPrestamoService.java:38-91 | the same for creating an application |
| Banco.Bank.AprobarSolicitud | src/main/java/com/bancoagricultura/banco_agricultura/service/SolicitudPrestamoService.java:97-111 | the same for approving an application |
| Banco.Bank.RechazarSolicitud | src/main/java/com/bancoagricultura/banco_agricultura/service/SolicitudPrestamoService.java:113-126 | the same for rejecting an application |
| Banco.Bank.CrearDesdeSolicitud | src/main/java/com/bancoagricultura/banco_agricultura/service/PrestamoService.java:42-94 | the same for opening a loan |
| Banco.Bank.PagarCuota | src/main/java/com/bancoagricultura/banco_agricultura/service/PrestamoService.java:106-160 | the same for a loan payment |
| Banco.Bank.CrearClientePorCliente | src/main/java/com/bancoagricultura/banco_agricultura/service/UsuarioService.java:33-39 | the same for self-registration |
| Banco.Bank.CrearClientePorCajero | src/main/java/com/bancoagricultura/banco_agricultura/service/UsuarioService.java:42-51 | the same for a cashier's new client |
| Banco.Bank.CrearColaboradorPorCajero | src/main/java/com/bancoagricultura/banco_agricultura/service/UsuarioService.java:54-63 | the same for a cashier's new collaborator |
| Banco.Bank.CrearCajeroPorGerenteSucursal | src/main/java/com/bancoagricultura/banco_agricultura/service/UsuarioService.java:68-89 | the same for a manager's new cashier, saved before the action |
| Banco.Bank.AprobarAccionPersonal | src/main/java/com/bancoagricultura/banco_agricultura/service/UsuarioService.java:95-114 | the same for approving an action |
| Banco.Bank.RechazarAccionPersonal | src/main/java/com/bancoagricultura/banco_agricultura/service/UsuarioService.java:120-140 | the same for rejecting an action |
| Banco.Bank.DarDeBajaEmpleado | src/main/java/com/bancoagricultura/banco_agricultura/service/UsuarioService.java:145-167 | the same for a dismissal |
| Banco.Bank.CrearPersona | src/main/java/com/bancoagricultura/banco_agricultura/service/PersonaService.java:17-20 | the new id and repositories are those of `Personas.CrearPersona`; the store stays valid |
| Banco.Bank.ActualizarPersona | src/main/java/com/bancoagricultura/banco_agricultura/service/PersonaService.java:23-36 | the same for updating a person |
| Banco.Bank.DarDeBajaPersona | src/main/java/com/bancoagricultura/banco_agricultura/service/PersonaService.java:56-61 | the same for deactivating a person |

## Left out

- Cuentas.NumeroCuenta: the draw is an unbounded integer and its absolute value is taken as a number. Java's `Math.abs(Long.MIN_VALUE)` stays negative, so that one draw gives a "-"-prefixed string at CuentaService.java:98. The model does not capture this case: every number it draws has 12 digits.
- Clocks and randomness become parameters. `LocalDate.now()` is the day `hoy`. `SecureRandom.nextLong()` is a sequence of draws, and `Bank.CrearCuenta` requires that the sequence holds a free number, because the source loops until it finds one. `Instant.now()` timestamps (creadoEn, actualizadoEn, fechaAprobacion, fechaComision) are not modelled.
- The floating-point annuity helpers (`calcularCuotaMensual` and `calcularPlazoMinimoMeses`, which use `double`, `Math.pow` and `Math.log`) are taken as given by the `Solicitudes.Amortizacion` value. The model keeps their failure cases: an infeasible term is an IllegalStateException, and a zero annuity factor is an ArithmeticException. `validarReglasPrestamo` also computes a preliminary installment with a default of 12 months that it never uses. With every tier's rate positive, that installment cannot fail, so it is dropped.
- Persistence details are not modelled: JPA entity identity, lazy loading and cascades, transactions and rollback, and concurrent requests. Rows are values. A transfer from an account to itself is taken to load one shared instance, so the debit and the credit cancel out.
- `Usuarios.AccionGestionable` loads the employee of an action before the action is saved. The source reaches a broken employee reference only after saving the action. Under `Valid` no reference is broken, so the two orders agree.
- `Usuarios.PrepararNuevoUsuario`: a null person id makes the repository lookup throw. The model treats it as an IllegalArgumentException.
- Query operations that only read lists are left out: the `listar*` methods and `obtenerPrestamo`. They only read the repositories and change nothing.
- Amounts finer than a cent are not modelled: every amount is a whole number of cents. A caller's BigDecimal such as 10.005 would make PrestamoService.java:147 round the new loan balance half up, while the account debit at PrestamoService.java:142-143 is not rounded.
- Error messages are modelled as an enumeration of reasons, not as formatted text. The numbers formatted into the application's observaciones (`toPlainString`) are kept as numbers.
- `Solicitudes.CrearSolicitud` and `Prestamos.CrearDesdeSolicitud` take the requested amount as a non-null number. A null amount makes the source throw a NullPointerException in the underwriting, and that case is not modelled.
- PrestamoService, as written, calls `requireCuentaActiva`, which that class does not define, and calls the private `TransaccionService.registrarTransaccionBasica`, so it does not compile. The model gives both calls TransaccionService's meaning.
- The disbursement at PrestamoService.java:81-91 only records a DEPOSITO_PRESTAMO row, although the method's comment at PrestamoService.java:40 says the amount is deposited into the destination account. No balance is credited; the model follows the code, and `Domain.Efecto` gives that row no effect on a balance.
- The model follows these behaviours of the source as written, and each is stated by a lemma:
  - an approved application still accepts a second loan (`Prestamos.CrearDesdeSolicitudRepeatable`);
  - a CANCELADO loan still accepts payments, and overpaying leaves a negative balance (`Prestamos.AbonarPrestamoEstado`);
  - a second person with the same identity document is accepted (`Personas.CrearPersonaDuiRepetido`);
  - a collaborator's null amount reaches the commission first and is a NullPointerException (`Transacciones.DepositarMontoInvalido`).
- `Usuarios.DarDeBajaEmpleado`: like the source, it dismisses a user of any role, not only employees.
- No operation checks the state of the acting user. An INACTIVO or EN_ESPERA user may act as the source allows.
- The two loan services state the term differently. An application's preview has years in hundredths, rounded half up. A loan has whole years, rounded up. `Prestamos.ValidacionesCoinciden` states that the two agree on everything else.
