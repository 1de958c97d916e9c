/** PrestamoService: opening a loan from an approved application and applying
    an installment payment. */
module Prestamos {
  import opened Common
  import opened Money
  import opened Dates
  import opened Domain
  import Transacciones
  import Solicitudes

  // ---------------------------------------------------------------------
  // Underwriting as this service writes it
  // ---------------------------------------------------------------------

  /** This service's own copy of the salary tiers (salary in cents). */
  function ReglaPorSalario(salario: int): Solicitudes.Regla {
    if salario < 36500 then Solicitudes.Regla(1000000, 300)
    else if salario < 60000 then Solicitudes.Regla(2500000, 300)
    else if salario < 90000 then Solicitudes.Regla(3500000, 400)
    else if salario > 100000 then Solicitudes.Regla(5000000, 500)
    else Solicitudes.Regla(3500000, 400)
  }

  /** The two services' tier tables agree for every salary. */
  lemma ReglasCoinciden(salario: int)
    ensures ReglaPorSalario(salario) == Solicitudes.ReglaPorSalario(salario)
  {
  }

  /** The rate, installment and term (whole years) of a loan. */
  datatype Validacion = Validacion(tasaAnual: int, cuotaMensual: int, plazoAnios: int)

  /** `validarTasaCuotaPlazo` once the salary is known: the term in years is
      the months over 12 rounded up. */
  function EvaluarTasaCuotaPlazo(salario: int, monto: int, am: Solicitudes.Amortizacion): Outcome<Validacion> {
    var regla := ReglaPorSalario(salario);
    :- Need(monto <= regla.montoMaximo, Error(IllegalArgument, MontoExcedeMaximo));
    var maxCuota := MaxCuota(salario);
    var meses :- Solicitudes.PlazoMinimo(am, monto, regla.tasaAnualBp, maxCuota);
    var cuota :- Solicitudes.CuotaMensual(am, monto, regla.tasaAnualBp, meses);
    var anios := CeilDiv(meses, 12);
    :- Need(cuota <= maxCuota, Error(IllegalState, CuotaExcedeTope));
    Success(Validacion(regla.tasaAnualBp, cuota, anios))
  }

  /** `validarTasaCuotaPlazo`. */
  function ValidarTasaCuotaPlazo(s: Store, cliente: Usuario, monto: int, am: Solicitudes.Amortizacion): Outcome<Validacion> {
    var salario :- Solicitudes.SalarioDelCliente(s, cliente);
    EvaluarTasaCuotaPlazo(salario, monto, am)
  }

  /** Opening the loan re-runs the application's underwriting: for the same
      salary and amount both accept or both refuse with the same error, and on
      acceptance they give the same rate and installment; the term differs
      only in rounding (whole years up, against hundredths of a year half up). */
  lemma ValidacionesCoinciden(salario: int, monto: int, am: Solicitudes.Amortizacion)
    ensures EvaluarTasaCuotaPlazo(salario, monto, am).Success? <==> Solicitudes.EvaluarPrestamo(salario, monto, am).Success?
    ensures EvaluarTasaCuotaPlazo(salario, monto, am).Failure? ==>
      EvaluarTasaCuotaPlazo(salario, monto, am).error == Solicitudes.EvaluarPrestamo(salario, monto, am).error
    ensures EvaluarTasaCuotaPlazo(salario, monto, am).Success? ==>
      var v := EvaluarTasaCuotaPlazo(salario, monto, am).value;
      var w := Solicitudes.EvaluarPrestamo(salario, monto, am).value;
      v.tasaAnual == w.tasa && v.cuotaMensual == w.cuotaMensual
  {
    ReglasCoinciden(salario);
  }

  /** An accepted loan has the tier's rate, the annuity installment for the
      minimum term, within 30% of the salary, and a whole-year term covering
      the months: 12·(years − 1) < months ≤ 12·years. */
  lemma EvaluarTasaCuotaPlazoSound(salario: int, monto: int, am: Solicitudes.Amortizacion)
    requires EvaluarTasaCuotaPlazo(salario, monto, am).Success?
    ensures var v := EvaluarTasaCuotaPlazo(salario, monto, am).value;
      var meses := am.plazoMinimoMeses(monto, ReglaPorSalario(salario).tasaAnualBp, MaxCuota(salario));
      && monto <= ReglaPorSalario(salario).montoMaximo
      && v.tasaAnual == ReglaPorSalario(salario).tasaAnualBp
      && v.cuotaMensual <= MaxCuota(salario)
      && meses.Some?
      && v.cuotaMensual == am.cuotaMensual(monto, v.tasaAnual, meses.value).value
      && 12 * v.plazoAnios - 12 < meses.value <= 12 * v.plazoAnios
  {
  }

  // ---------------------------------------------------------------------
  // crearDesdeSolicitud
  // ---------------------------------------------------------------------

  /** `siguienteMesPrimerDia`. */
  function SiguienteMesPrimerDia(base: Date): (r: Date)
    ensures r.day == 1
    ensures ValidDate(base) ==> ValidDate(r) && Before(base, r)
  {
    FirstDayOfNextMonth(base)
  }

  /** `solicitud.getCuentaDestino().getId()`: a null destination throws
      NullPointerException. */
  function CuentaDestinoDe(solicitud: SolicitudPrestamo): (r: Outcome<Id>)
    ensures r.Success? <==> solicitud.cuentaDestino.Some?
    ensures r.Success? ==> r.value == solicitud.cuentaDestino.value
  {
    match solicitud.cuentaDestino
    case Some(id) => Success(id)
    case None => Failure(Error(NullPointer, CuentaDestinoNula))
  }

  /** The checks of `crearDesdeSolicitud`, in the source's order: the
      manager and their role, the application and its state, the client and
      their role, the destination account and its owner, then the
      underwriting. On success, the application, the destination account's id
      and the loan's terms. */
  function AdmitirPrestamo(s: Store, gerenteId: Id, solicitudId: Id, am: Solicitudes.Amortizacion): (r: Outcome<(SolicitudPrestamo, Id, Validacion)>)
    ensures r.Success? ==> solicitudId in s.solicitudes && r.value.0 == s.solicitudes[solicitudId]
    ensures r.Success? ==> r.value.0.cliente in s.usuarios && r.value.1 in s.cuentas
  {
    var gerente :- FindById(s.usuarios, gerenteId, UsuarioNoEncontrado);
    :- RequireRol(gerente, GerenteSucursal);
    var solicitud :- FindById(s.solicitudes, solicitudId, SolicitudNoEncontrada);
    :- Need(solicitud.estadoCaso == EstadoCaso.Aprobado, Error(IllegalState, SolicitudNoAprobada));
    var cliente :- Deref(s.usuarios, solicitud.cliente);
    :- Need(cliente.rol == Cliente, Error(IllegalState, PrestamoSoloCliente));
    var cuentaId :- CuentaDestinoDe(solicitud);
    var cuenta :- FindById(s.cuentas, cuentaId, CuentaNoEncontrada);
    :- RequireTitular(cuenta, solicitud.cliente);
    var v :- ValidarTasaCuotaPlazo(s, cliente, solicitud.montoSolicitado, am);
    Success((solicitud, cuentaId, v))
  }

  /** `crearDesdeSolicitud`, on the day `hoy`: returns the id of the new loan.
      The disbursement is only recorded, as a DEPOSITO_PRESTAMO transaction;
      no balance is credited. */
  function CrearDesdeSolicitud(s: Store, gerenteId: Id, solicitudId: Id, hoy: Date, am: Solicitudes.Amortizacion): Outcome<(Id, Store)> {
    var (solicitud, cuentaId, v) :- AdmitirPrestamo(s, gerenteId, solicitudId, am);
    var monto := solicitud.montoSolicitado;
    var prestamo := Prestamo(solicitudId, solicitud.cliente, monto, v.tasaAnual, monto, v.plazoAnios, v.cuotaMensual,
                             PlusYears(hoy, v.plazoAnios), Some(SiguienteMesPrimerDia(hoy)), cuentaId, gerenteId,
                             EstadoPrestamo.Activo);
    var tx := Transacciones.RegistrarTransaccionBasica(DepositoPrestamo, monto, Some(0), None, Some(cuentaId), Some(cuentaId),
                                                       gerenteId, DepositoDeSolicitud(solicitudId), None);
    Success((s.nextId, s.(prestamos := s.prestamos[s.nextId := prestamo],
                          transacciones := s.transacciones + [tx],
                          nextId := s.nextId + 1)))
  }

  /** The first guards of `crearDesdeSolicitud`, one prefix at a time: a
      branch manager; then a stored APROBADO application; then its client,
      loaded and a CLIENTE. */
  predicate GerenteValido(s: Store, gerenteId: Id) {
    gerenteId in s.usuarios && s.usuarios[gerenteId].rol == GerenteSucursal
  }

  predicate SolicitudAprobada(s: Store, gerenteId: Id, solicitudId: Id) {
    && GerenteValido(s, gerenteId)
    && solicitudId in s.solicitudes
    && s.solicitudes[solicitudId].estadoCaso == EstadoCaso.Aprobado
  }

  predicate ClienteDeSolicitud(s: Store, gerenteId: Id, solicitudId: Id) {
    && SolicitudAprobada(s, gerenteId, solicitudId)
    && s.solicitudes[solicitudId].cliente in s.usuarios
    && s.usuarios[s.solicitudes[solicitudId].cliente].rol == Cliente
  }

  /** The guards of `crearDesdeSolicitud`: a branch manager, an APROBADO
      application of a CLIENTE whose destination account exists and is theirs. */
  predicate PuedeCrearPrestamo(s: Store, gerenteId: Id, solicitudId: Id) {
    && ClienteDeSolicitud(s, gerenteId, solicitudId)
    && s.solicitudes[solicitudId].cuentaDestino.Some?
    && s.solicitudes[solicitudId].cuentaDestino.value in s.cuentas
    && s.cuentas[s.solicitudes[solicitudId].cuentaDestino.value].cliente == s.solicitudes[solicitudId].cliente
  }

  /** A loan opens exactly when the guards pass and the client's underwriting
      accepts the requested amount. The first failing guard decides the
      error: an unknown manager, application or account is an
      IllegalArgumentException, a wrong role or another client's account a
      SecurityException, an application not APROBADO or a client who is not a
      CLIENTE an IllegalStateException, and a missing destination a
      NullPointerException; past the guards, the underwriting's error. */
  lemma CrearDesdeSolicitudSucceedsIff(s: Store, gerenteId: Id, solicitudId: Id, hoy: Date, am: Solicitudes.Amortizacion)
    ensures CrearDesdeSolicitud(s, gerenteId, solicitudId, hoy, am).Success?
            <==> PuedeCrearPrestamo(s, gerenteId, solicitudId)
                 && ValidarTasaCuotaPlazo(s, s.usuarios[s.solicitudes[solicitudId].cliente],
                                          s.solicitudes[solicitudId].montoSolicitado, am).Success?
    ensures gerenteId !in s.usuarios ==> CrearDesdeSolicitud(s, gerenteId, solicitudId, hoy, am) == Failure(Error(IllegalArgument, UsuarioNoEncontrado))
    ensures gerenteId in s.usuarios && s.usuarios[gerenteId].rol != GerenteSucursal ==>
      CrearDesdeSolicitud(s, gerenteId, solicitudId, hoy, am) == Failure(Error(Security, RolNoPermitido))
    ensures GerenteValido(s, gerenteId) && solicitudId !in s.solicitudes ==>
      CrearDesdeSolicitud(s, gerenteId, solicitudId, hoy, am) == Failure(Error(IllegalArgument, SolicitudNoEncontrada))
    ensures GerenteValido(s, gerenteId) && solicitudId in s.solicitudes && s.solicitudes[solicitudId].estadoCaso != EstadoCaso.Aprobado ==>
      CrearDesdeSolicitud(s, gerenteId, solicitudId, hoy, am) == Failure(Error(IllegalState, SolicitudNoAprobada))
    ensures SolicitudAprobada(s, gerenteId, solicitudId) && s.solicitudes[solicitudId].cliente in s.usuarios
            && s.usuarios[s.solicitudes[solicitudId].cliente].rol != Cliente ==>
      CrearDesdeSolicitud(s, gerenteId, solicitudId, hoy, am) == Failure(Error(IllegalState, PrestamoSoloCliente))
    ensures ClienteDeSolicitud(s, gerenteId, solicitudId) && s.solicitudes[solicitudId].cuentaDestino.None? ==>
      CrearDesdeSolicitud(s, gerenteId, solicitudId, hoy, am) == Failure(Error(NullPointer, CuentaDestinoNula))
    ensures ClienteDeSolicitud(s, gerenteId, solicitudId) && s.solicitudes[solicitudId].cuentaDestino.Some?
            && s.solicitudes[solicitudId].cuentaDestino.value !in s.cuentas ==>
      CrearDesdeSolicitud(s, gerenteId, solicitudId, hoy, am) == Failure(Error(IllegalArgument, CuentaNoEncontrada))
    ensures ClienteDeSolicitud(s, gerenteId, solicitudId) && s.solicitudes[solicitudId].cuentaDestino.Some?
            && s.solicitudes[solicitudId].cuentaDestino.value in s.cuentas
            && s.cuentas[s.solicitudes[solicitudId].cuentaDestino.value].cliente != s.solicitudes[solicitudId].cliente ==>
      CrearDesdeSolicitud(s, gerenteId, solicitudId, hoy, am) == Failure(Error(Security, CuentaAjena))
    ensures PuedeCrearPrestamo(s, gerenteId, solicitudId) && ValidarTasaCuotaPlazo(s, s.usuarios[s.solicitudes[solicitudId].cliente], s.solicitudes[solicitudId].montoSolicitado, am).Failure? ==>
      CrearDesdeSolicitud(s, gerenteId, solicitudId, hoy, am) == Failure(ValidarTasaCuotaPlazo(s, s.usuarios[s.solicitudes[solicitudId].cliente], s.solicitudes[solicitudId].montoSolicitado, am).error)
  {
  }

  /** The new loan is ACTIVO, owes the full approved amount (the requested
      one), carries the underwriting's installment for the minimum term
      (within 30% of the client's salary), runs for the whole years covering
      those months (the months over 12 rounded up), falls due that many years
      after approval and is next paid on the first day of the following month.
      Exactly one DEPOSITO_PRESTAMO row is logged and no account balance
      changes. */
  lemma CrearDesdeSolicitudEffect(s: Store, gerenteId: Id, solicitudId: Id, hoy: Date, am: Solicitudes.Amortizacion)
    requires CrearDesdeSolicitud(s, gerenteId, solicitudId, hoy, am).Success?
    ensures var (id, t) := CrearDesdeSolicitud(s, gerenteId, solicitudId, hoy, am).value;
      var sol := s.solicitudes[solicitudId];
      var p := t.prestamos[id];
      && PuedeCrearPrestamo(s, gerenteId, solicitudId)
      && id == s.nextId && t.prestamos == s.prestamos[id := p]
      && p.solicitud == solicitudId && p.cliente == sol.cliente
      && p.montoAprobado == sol.montoSolicitado && p.saldoPendiente == p.montoAprobado
      && p.estado == EstadoPrestamo.Activo && p.aprobadoPor == gerenteId
      && p.cuentaDestino == sol.cuentaDestino.value
      && Solicitudes.SalarioDelCliente(s, s.usuarios[sol.cliente]).Success?
      && p.cuotaMensual <= MaxCuota(Solicitudes.SalarioDelCliente(s, s.usuarios[sol.cliente]).value)
      && p.tasaInteres == ReglaPorSalario(Solicitudes.SalarioDelCliente(s, s.usuarios[sol.cliente]).value).tasaAnualBp
      && (var sal := Solicitudes.SalarioDelCliente(s, s.usuarios[sol.cliente]).value;
          var meses := am.plazoMinimoMeses(sol.montoSolicitado, ReglaPorSalario(sal).tasaAnualBp, MaxCuota(sal));
          && meses.Some?
          && 12 * p.plazoAnios - 12 < meses.value <= 12 * p.plazoAnios
          && p.cuotaMensual == am.cuotaMensual(sol.montoSolicitado, ReglaPorSalario(sal).tasaAnualBp, meses.value).value)
      && p.fechaVencimiento == PlusYears(hoy, p.plazoAnios)
      && p.proximoPago == Some(FirstDayOfNextMonth(hoy))
      && t.transacciones == s.transacciones + [t.transacciones[|s.transacciones|]]
      && t.transacciones[|s.transacciones|].tipo == DepositoPrestamo
      && t.transacciones[|s.transacciones|].monto == p.montoAprobado
      && t.transacciones[|s.transacciones|].comision == 0
      && t.transacciones[|s.transacciones|].cuentaOrigen == None
      && t.transacciones[|s.transacciones|].cuentaDestino == Some(p.cuentaDestino)
      && t.transacciones[|s.transacciones|].cuenta == Some(p.cuentaDestino)
      && t.cuentas == s.cuentas && t.solicitudes == s.solicitudes
      && t.(prestamos := s.prestamos, transacciones := s.transacciones, nextId := s.nextId) == s
  {
    var salario := Solicitudes.SalarioDelCliente(s, s.usuarios[s.solicitudes[solicitudId].cliente]).value;
    EvaluarTasaCuotaPlazoSound(salario, s.solicitudes[solicitudId].montoSolicitado, am);
  }

  /** The application stays APROBADO when its loan opens, so the same
      application can be funded again: a second loan opens for it. */
  lemma CrearDesdeSolicitudRepeatable(s: Store, gerenteId: Id, solicitudId: Id, hoy: Date, otroDia: Date, am: Solicitudes.Amortizacion)
    requires CrearDesdeSolicitud(s, gerenteId, solicitudId, hoy, am).Success?
    ensures var (id, t) := CrearDesdeSolicitud(s, gerenteId, solicitudId, hoy, am).value;
      && t.solicitudes[solicitudId].estadoCaso == EstadoCaso.Aprobado
      && CrearDesdeSolicitud(t, gerenteId, solicitudId, otroDia, am).Success?
      && CrearDesdeSolicitud(t, gerenteId, solicitudId, otroDia, am).value.0 != id
  {
    var (id, t) := CrearDesdeSolicitud(s, gerenteId, solicitudId, hoy, am).value;
    CrearDesdeSolicitudEffect(s, gerenteId, solicitudId, hoy, am);
    CrearDesdeSolicitudSucceedsIff(s, gerenteId, solicitudId, hoy, am);
    CrearDesdeSolicitudSucceedsIff(t, gerenteId, solicitudId, otroDia, am);
    assert PuedeCrearPrestamo(t, gerenteId, solicitudId);
    var cliente := s.usuarios[s.solicitudes[solicitudId].cliente];
    assert Solicitudes.SalarioDelCliente(t, cliente) == Solicitudes.SalarioDelCliente(s, cliente);
  }

  lemma CrearDesdeSolicitudPreservesValid(s: Store, gerenteId: Id, solicitudId: Id, hoy: Date, am: Solicitudes.Amortizacion)
    requires Valid(s) && ValidDate(hoy)
    requires CrearDesdeSolicitud(s, gerenteId, solicitudId, hoy, am).Success?
    ensures Valid(CrearDesdeSolicitud(s, gerenteId, solicitudId, hoy, am).value.1)
  {
    var (sol, cuentaId, v) := AdmitirPrestamo(s, gerenteId, solicitudId, am).value;
    var (id, t) := CrearDesdeSolicitud(s, gerenteId, solicitudId, hoy, am).value;
    var p := t.prestamos[s.nextId];
    var tx := t.transacciones[|s.transacciones|];
    assert p.cliente == sol.cliente && p.proximoPago == Some(SiguienteMesPrimerDia(hoy));
    assert tx.tipo == DepositoPrestamo && tx.cuentaOrigen == None && tx.cuentaDestino == Some(cuentaId) == tx.cuenta;
    Transacciones.AltaPrestamoPreservesValid(s, p, tx);
  }

  // ---------------------------------------------------------------------
  // pagarCuota
  // ---------------------------------------------------------------------

  /** Who may pay: the loan's own client acting as CLIENTE, or any cashier. */
  predicate PuedePagar(ejecutorId: Id, ejecutor: Usuario, prestamo: Prestamo) {
    (ejecutorId == prestamo.cliente && ejecutor.rol == Cliente) || ejecutor.rol == Cajero
  }

  /** The loan after a payment of `monto` on the day `hoy`: the balance drops
      by the amount (with amounts in whole cents, `setScale(2)` changes
      nothing), the next payment moves to the first of the following month,
      and the loan is CANCELADO once nothing is owed. */
  function AbonarPrestamo(prestamo: Prestamo, monto: int, hoy: Date): Prestamo {
    var nuevoSaldo := prestamo.saldoPendiente - monto;
    prestamo.(saldoPendiente := nuevoSaldo,
              proximoPago := Some(SiguienteMesPrimerDia(prestamo.proximoPago.GetOr(hoy))),
              estado := if nuevoSaldo <= 0 then EstadoPrestamo.Cancelado else prestamo.estado)
  }

  /** The checks of `pagarCuota` before the amount: the payer, the loan, who
      may pay, then the source account, its owner and its state. On success,
      the loan and the account as loaded. */
  function AdmitirPago(s: Store, ejecutorId: Id, prestamoId: Id, cuentaOrigenId: Id): (r: Outcome<(Prestamo, Cuenta)>)
    ensures r.Success? ==> prestamoId in s.prestamos && cuentaOrigenId in s.cuentas
    ensures r.Success? ==> r.value == (s.prestamos[prestamoId], s.cuentas[cuentaOrigenId])
  {
    var ejecutor :- FindById(s.usuarios, ejecutorId, UsuarioNoEncontrado);
    var prestamo :- FindById(s.prestamos, prestamoId, PrestamoNoEncontrado);
    :- Need(PuedePagar(ejecutorId, ejecutor, prestamo), Error(Security, PagoNoPermitido));
    var cuenta :- FindById(s.cuentas, cuentaOrigenId, CuentaNoEncontrada);
    :- RequireTitular(cuenta, prestamo.cliente);
    :- RequireCuentaActiva(cuenta);
    Success((prestamo, cuenta))
  }

  /** `pagarCuota`, on the day `hoy`: returns the updated loan. */
  function PagarCuota(s: Store, ejecutorId: Id, prestamoId: Id, cuentaOrigenId: Id, monto: Option<int>,
                      referencia: Option<string>, hoy: Date): Outcome<(Prestamo, Store)> {
    var (prestamo, cuenta) :- AdmitirPago(s, ejecutorId, prestamoId, cuentaOrigenId);
    // the amount checks and the debit are those of a withdrawal
    var debitada :- Transacciones.AplicarRetiro(cuenta, monto);
    var tx := Transacciones.RegistrarTransaccionBasica(
      PagoPrestamo, monto.value, Some(0), Some(cuentaOrigenId), None, Some(cuentaOrigenId), ejecutorId,
      if referencia.Some? then Texto(referencia) else PagoDePrestamo(prestamoId), None);
    var pagado := AbonarPrestamo(prestamo, monto.value, hoy);
    Success((pagado, s.(cuentas := s.cuentas[cuentaOrigenId := debitada],
                        transacciones := s.transacciones + [tx],
                        prestamos := s.prestamos[prestamoId := pagado])))
  }

  /** The guards of `pagarCuota` before the source account: the payer and
      the loan are stored, and the payer may pay it. */
  predicate PagadorValido(s: Store, ejecutorId: Id, prestamoId: Id) {
    && ejecutorId in s.usuarios && prestamoId in s.prestamos
    && PuedePagar(ejecutorId, s.usuarios[ejecutorId], s.prestamos[prestamoId])
  }

  /** The guards of `pagarCuota` before the amount: the payer, the loan, who
      pays, and an active source account of the loan's client. */
  predicate PagoAutorizado(s: Store, ejecutorId: Id, prestamoId: Id, cuentaOrigenId: Id) {
    && PagadorValido(s, ejecutorId, prestamoId)
    && cuentaOrigenId in s.cuentas
    && s.cuentas[cuentaOrigenId].cliente == s.prestamos[prestamoId].cliente
    && s.cuentas[cuentaOrigenId].activa == Some(true)
  }

  /** A payment goes through exactly when the guards pass and the source
      account covers the positive amount. The first failing check decides the
      error: an unknown payer, loan or account is an IllegalArgumentException;
      a payer who is neither the loan's client nor a cashier, or an account of
      someone else, a SecurityException; an inactive account, or one that
      does not cover the amount, an IllegalStateException; a null or
      non-positive amount an IllegalArgumentException. */
  lemma PagarCuotaSucceedsIff(s: Store, ejecutorId: Id, prestamoId: Id, cuentaOrigenId: Id, monto: Option<int>,
                              referencia: Option<string>, hoy: Date)
    ensures PagarCuota(s, ejecutorId, prestamoId, cuentaOrigenId, monto, referencia, hoy).Success?
            <==> PagoAutorizado(s, ejecutorId, prestamoId, cuentaOrigenId)
                 && monto.Some? && 0 < monto.value <= s.cuentas[cuentaOrigenId].saldoDisponible
    ensures ejecutorId !in s.usuarios ==> PagarCuota(s, ejecutorId, prestamoId, cuentaOrigenId, monto, referencia, hoy) == Failure(Error(IllegalArgument, UsuarioNoEncontrado))
    ensures ejecutorId in s.usuarios && prestamoId !in s.prestamos ==> PagarCuota(s, ejecutorId, prestamoId, cuentaOrigenId, monto, referencia, hoy) == Failure(Error(IllegalArgument, PrestamoNoEncontrado))
    ensures ejecutorId in s.usuarios && prestamoId in s.prestamos
            && !PuedePagar(ejecutorId, s.usuarios[ejecutorId], s.prestamos[prestamoId]) ==>
      PagarCuota(s, ejecutorId, prestamoId, cuentaOrigenId, monto, referencia, hoy) == Failure(Error(Security, PagoNoPermitido))
    ensures PagadorValido(s, ejecutorId, prestamoId) && cuentaOrigenId !in s.cuentas ==>
      PagarCuota(s, ejecutorId, prestamoId, cuentaOrigenId, monto, referencia, hoy) == Failure(Error(IllegalArgument, CuentaNoEncontrada))
    ensures PagadorValido(s, ejecutorId, prestamoId) && cuentaOrigenId in s.cuentas
            && s.cuentas[cuentaOrigenId].cliente != s.prestamos[prestamoId].cliente ==>
      PagarCuota(s, ejecutorId, prestamoId, cuentaOrigenId, monto, referencia, hoy) == Failure(Error(Security, CuentaAjena))
    ensures PagadorValido(s, ejecutorId, prestamoId) && cuentaOrigenId in s.cuentas
            && s.cuentas[cuentaOrigenId].cliente == s.prestamos[prestamoId].cliente
            && s.cuentas[cuentaOrigenId].activa != Some(true) ==>
      PagarCuota(s, ejecutorId, prestamoId, cuentaOrigenId, monto, referencia, hoy) == Failure(Error(IllegalState, CuentaInactiva))
    ensures PagoAutorizado(s, ejecutorId, prestamoId, cuentaOrigenId) && monto.Some? && 0 < monto.value
            && s.cuentas[cuentaOrigenId].saldoDisponible < monto.value ==>
      PagarCuota(s, ejecutorId, prestamoId, cuentaOrigenId, monto, referencia, hoy) == Failure(Error(IllegalState, SaldoInsuficiente))
    ensures PagoAutorizado(s, ejecutorId, prestamoId, cuentaOrigenId) && (monto.None? || monto.value <= 0) ==>
      PagarCuota(s, ejecutorId, prestamoId, cuentaOrigenId, monto, referencia, hoy) == Failure(Error(IllegalArgument, MontoNoPositivo))
  {
  }

  /** A payment debits the amount from both balances of the source account,
      replaces the loan by `AbonarPrestamo` of it (the balance lowered by the
      amount, the next payment and the state as `AbonarPrestamoEstado` and
      `AbonarPrestamoProximoPago` describe), logs one PAGO_PRESTAMO row out
      of that account and changes nothing else. */
  lemma PagarCuotaEffect(s: Store, ejecutorId: Id, prestamoId: Id, cuentaOrigenId: Id, monto: Option<int>,
                         referencia: Option<string>, hoy: Date)
    requires PagarCuota(s, ejecutorId, prestamoId, cuentaOrigenId, monto, referencia, hoy).Success?
    ensures var (p, t) := PagarCuota(s, ejecutorId, prestamoId, cuentaOrigenId, monto, referencia, hoy).value;
      var c := s.cuentas[cuentaOrigenId];
      && monto.Some?
      && t.cuentas == s.cuentas[cuentaOrigenId := c.(saldo := c.saldo - monto.value, saldoDisponible := c.saldoDisponible - monto.value)]
      && t.cuentas[cuentaOrigenId].saldoDisponible >= 0
      && t.prestamos == s.prestamos[prestamoId := p]
      && p == AbonarPrestamo(s.prestamos[prestamoId], monto.value, hoy)
      && p.saldoPendiente == s.prestamos[prestamoId].saldoPendiente - monto.value
      && t.transacciones == s.transacciones + [t.transacciones[|s.transacciones|]]
      && t.transacciones[|s.transacciones|].tipo == PagoPrestamo
      && t.transacciones[|s.transacciones|].monto == monto.value
      && t.transacciones[|s.transacciones|].cuentaOrigen == Some(cuentaOrigenId)
      && t.transacciones[|s.transacciones|].cuentaDestino == None
      && t.transacciones[|s.transacciones|].cuenta == Some(cuentaOrigenId)
      && t.transacciones[|s.transacciones|].ejecutor == ejecutorId
      && t.(cuentas := s.cuentas, prestamos := s.prestamos, transacciones := s.transacciones) == s
  {
  }

  /** After a payment the loan is CANCELADO exactly when nothing is owed any
      more or it already was; the state is not checked first, so a CANCELADO
      loan accepts payments and stays CANCELADO, and overpaying leaves a
      negative balance. Only balance, next payment and state change. */
  lemma AbonarPrestamoEstado(prestamo: Prestamo, monto: int, hoy: Date)
    ensures var p := AbonarPrestamo(prestamo, monto, hoy);
      && (p.estado == EstadoPrestamo.Cancelado <==> (prestamo.saldoPendiente - monto <= 0 || prestamo.estado == EstadoPrestamo.Cancelado))
      && (prestamo.saldoPendiente - monto > 0 ==> p.estado == prestamo.estado)
      && (monto > prestamo.saldoPendiente ==> p.saldoPendiente < 0)
      && p.(saldoPendiente := prestamo.saldoPendiente, proximoPago := prestamo.proximoPago, estado := prestamo.estado) == prestamo
  {
  }

  /** The next payment becomes the first day of the month after the previous
      one (after today when there was none): always day 1 and strictly later. */
  lemma AbonarPrestamoProximoPago(prestamo: Prestamo, monto: int, hoy: Date)
    requires prestamo.proximoPago.Some? ==> ValidDate(prestamo.proximoPago.value)
    requires prestamo.proximoPago.None? ==> ValidDate(hoy)
    ensures var p := AbonarPrestamo(prestamo, monto, hoy);
      var base := if prestamo.proximoPago.Some? then prestamo.proximoPago.value else hoy;
      && p.proximoPago.Some? && p.proximoPago.value.day == 1
      && ValidDate(p.proximoPago.value) && Before(base, p.proximoPago.value)
      && (forall e :: ValidDate(e) && e.day == 1 && Before(base, e) ==> !Before(e, p.proximoPago.value))
  {
  }

  lemma PagarCuotaPreservesValid(s: Store, ejecutorId: Id, prestamoId: Id, cuentaOrigenId: Id, monto: Option<int>,
                                 referencia: Option<string>, hoy: Date)
    requires Valid(s) && ValidDate(hoy)
    requires PagarCuota(s, ejecutorId, prestamoId, cuentaOrigenId, monto, referencia, hoy).Success?
    ensures Valid(PagarCuota(s, ejecutorId, prestamoId, cuentaOrigenId, monto, referencia, hoy).value.1)
  {
    var (prestamo, cuenta) := AdmitirPago(s, ejecutorId, prestamoId, cuentaOrigenId).value;
    var debitada := Transacciones.AplicarRetiro(cuenta, monto).value;
    var (p, t) := PagarCuota(s, ejecutorId, prestamoId, cuentaOrigenId, monto, referencia, hoy).value;
    var tx := t.transacciones[|s.transacciones|];
    assert p.cliente == prestamo.cliente;
    Transacciones.PagoPreservesValid(s, cuentaOrigenId, debitada, tx, prestamoId, p);
  }
}
