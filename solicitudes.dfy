/** SolicitudPrestamoService: loan applications, their underwriting rules
    (salary tier, the 30%-of-salary cap on the installment) and the
    EN_ESPERA -> APROBADO | RECHAZADO workflow of a branch manager. */
module Solicitudes {
  import opened Common
  import opened Money
  import opened Domain
  import Transacciones

  // ---------------------------------------------------------------------
  // The floating-point annuity helpers
  // ---------------------------------------------------------------------

  /** `calcularPlazoMinimoMeses` and `calcularCuotaMensual` compute with
      `double`, `Math.pow` and `Math.log`; the model takes them as given
      functions of (principal in cents, annual rate in basis points, maximum
      installment or months). `plazoMinimoMeses` yields None where the source
      throws "La cuota mínima supera el 30% del salario" (its term 1 - P·i/C is
      not positive); `cuotaMensual` yields None where the annuity factor is zero
      and the BigDecimal division throws ArithmeticException. Both services
      use the same formulas, so one value serves both. */
  datatype Amortizacion = Amortizacion(
    plazoMinimoMeses: (int, int, int) -> Option<int>,
    cuotaMensual: (int, int, int) -> Option<int>)

  function PlazoMinimo(am: Amortizacion, principal: int, tasaAnualBp: int, maxCuota: int): (r: Outcome<int>)
    ensures r.Success? <==> am.plazoMinimoMeses(principal, tasaAnualBp, maxCuota).Some?
    ensures r.Success? ==> r.value == am.plazoMinimoMeses(principal, tasaAnualBp, maxCuota).value
    ensures r.Failure? ==> r.error == Error(IllegalState, PlazoInviable)
  {
    match am.plazoMinimoMeses(principal, tasaAnualBp, maxCuota)
    case Some(n) => Success(n)
    case None => Failure(Error(IllegalState, PlazoInviable))
  }

  function CuotaMensual(am: Amortizacion, principal: int, tasaAnualBp: int, meses: int): (r: Outcome<int>)
    ensures r.Success? <==> am.cuotaMensual(principal, tasaAnualBp, meses).Some?
    ensures r.Success? ==> r.value == am.cuotaMensual(principal, tasaAnualBp, meses).value
    ensures r.Failure? ==> r.error == Error(Arithmetic, DivisionPorCero)
  {
    match am.cuotaMensual(principal, tasaAnualBp, meses)
    case Some(c) => Success(c)
    case None => Failure(Error(Arithmetic, DivisionPorCero))
  }

  // ---------------------------------------------------------------------
  // Salary tiers
  // ---------------------------------------------------------------------

  /** The largest amount a salary tier may borrow and its annual rate (basis points). */
  datatype Regla = Regla(montoMaximo: int, tasaAnualBp: int)

  /** `determinarReglaPorSalario` (salary in cents). A salary from 900.00 to
      1000.00 inclusive falls in the 35000 / 4% tier. */
  function ReglaPorSalario(salario: int): Regla {
    if salario < 36500 then Regla(1000000, 300)
    else if salario < 60000 then Regla(2500000, 300)
    else if salario < 90000 then Regla(3500000, 400)
    else if salario > 100000 then Regla(5000000, 500)
    else Regla(3500000, 400)
  }

  /** A higher salary never lowers the cap nor the rate. */
  lemma ReglaPorSalarioMonotonic(a: int, b: int)
    requires a <= b
    ensures ReglaPorSalario(a).montoMaximo <= ReglaPorSalario(b).montoMaximo
    ensures ReglaPorSalario(a).tasaAnualBp <= ReglaPorSalario(b).tasaAnualBp
  {
  }

  /** Every tier has a positive rate, so the zero-rate branches of the
      annuity helpers are never taken. */
  lemma ReglaPorSalarioTasaPositiva(salario: int)
    ensures ReglaPorSalario(salario).tasaAnualBp > 0 && ReglaPorSalario(salario).montoMaximo > 0
  {
  }

  /** The tier boundaries: 365, 600 and 900 open a tier, 1000.00 still belongs
      to the 4% tier, and only above 1000 does the 5% tier start. */
  lemma ReglaPorSalarioBoundaries()
    ensures ReglaPorSalario(36499) == Regla(1000000, 300) && ReglaPorSalario(36500) == Regla(2500000, 300)
    ensures ReglaPorSalario(59999) == Regla(2500000, 300) && ReglaPorSalario(60000) == Regla(3500000, 400)
    ensures ReglaPorSalario(89999) == Regla(3500000, 400) && ReglaPorSalario(90000) == Regla(3500000, 400)
    ensures ReglaPorSalario(100000) == Regla(3500000, 400) && ReglaPorSalario(100001) == Regla(5000000, 500)
  {
  }

  // ---------------------------------------------------------------------
  // validarReglasPrestamo
  // ---------------------------------------------------------------------

  /** The rate, installment (cents) and term (hundredths of a year) of a
      validated application. */
  datatype ValidacionPrestamo = ValidacionPrestamo(tasa: int, cuotaMensual: int, plazoAnios: int)

  /** The client's salary: IllegalStateException without a person,
      IllegalArgumentException when the salary is null or not positive. Both
      loan services start their validation with these two checks. */
  function SalarioDelCliente(s: Store, cliente: Usuario): (r: Outcome<int>)
    ensures r.Success? ==> r.value > 0
    ensures cliente.persona.None? ==> r == Failure(Error(IllegalState, ClienteSinPersona))
    ensures r.Success? <==> cliente.persona.Some? && cliente.persona.value in s.personas
                            && s.personas[cliente.persona.value].salario.Some?
                            && s.personas[cliente.persona.value].salario.value > 0
    ensures r.Success? ==> r.value == s.personas[cliente.persona.value].salario.value
    ensures cliente.persona.Some? && cliente.persona.value in s.personas && r.Failure? ==>
      r.error == Error(IllegalArgument, SalarioInvalido)
  {
    if cliente.persona.None? then Failure(Error(IllegalState, ClienteSinPersona))
    else
      var persona :- Deref(s.personas, cliente.persona.value);
      if persona.salario.None? || persona.salario.value <= 0 then Failure(Error(IllegalArgument, SalarioInvalido))
      else Success(persona.salario.value)
  }

  /** The checks of `validarReglasPrestamo` once the salary is known. */
  function EvaluarPrestamo(salario: int, monto: int, am: Amortizacion): Outcome<ValidacionPrestamo> {
    var regla := ReglaPorSalario(salario);
    :- Need(monto <= regla.montoMaximo, Error(IllegalArgument, MontoExcedeMaximo));
    var maxCuota := MaxCuota(salario);
    var meses :- PlazoMinimo(am, monto, regla.tasaAnualBp, maxCuota);
    var cuota :- CuotaMensual(am, monto, regla.tasaAnualBp, meses);
    :- Need(cuota <= maxCuota, Error(IllegalState, CuotaExcedeTope));
    Success(ValidacionPrestamo(regla.tasaAnualBp, cuota, RoundHalfUpDiv(100 * meses, 12)))
  }

  /** `validarReglasPrestamo`. */
  function ValidarReglasPrestamo(s: Store, cliente: Usuario, monto: int, am: Amortizacion): Outcome<ValidacionPrestamo> {
    var salario :- SalarioDelCliente(s, cliente);
    EvaluarPrestamo(salario, monto, am)
  }

  /** A validation that passes has an amount within the tier cap, the tier's
      rate, an installment of at most 30% of the salary (rounded half up to
      the cent), and the term in months over 12 rounded half up to hundredths. */
  lemma EvaluarPrestamoSound(salario: int, monto: int, am: Amortizacion)
    requires salario > 0
    requires EvaluarPrestamo(salario, monto, am).Success?
    ensures var v := EvaluarPrestamo(salario, monto, am).value;
      var meses := am.plazoMinimoMeses(monto, ReglaPorSalario(salario).tasaAnualBp, MaxCuota(salario));
      && monto <= ReglaPorSalario(salario).montoMaximo
      && v.tasa == ReglaPorSalario(salario).tasaAnualBp
      && v.cuotaMensual <= MaxCuota(salario)
      && 20 * MaxCuota(salario) - 10 <= 6 * salario < 20 * MaxCuota(salario) + 10
      && meses.Some?
      && v.cuotaMensual == am.cuotaMensual(monto, v.tasa, meses.value).value
      && (meses.value >= 0 ==> 24 * v.plazoAnios - 12 <= 200 * meses.value < 24 * v.plazoAnios + 12)
  {
  }

  /** The error each rule raises, in the source's order: an amount above the
      cap is an IllegalArgumentException (an amount equal to the cap passes this
      check), an infeasible term an IllegalStateException, a zero annuity
      factor an ArithmeticException and an installment above 30% of the
      salary an IllegalStateException; past all of them the validation
      accepts, with the tier's rate, that installment and the term in
      hundredths of a year. */
  lemma EvaluarPrestamoErrors(salario: int, monto: int, am: Amortizacion)
    ensures monto > ReglaPorSalario(salario).montoMaximo ==>
      EvaluarPrestamo(salario, monto, am) == Failure(Error(IllegalArgument, MontoExcedeMaximo))
    ensures monto <= ReglaPorSalario(salario).montoMaximo ==>
      EvaluarPrestamo(salario, monto, am) != Failure(Error(IllegalArgument, MontoExcedeMaximo))
    ensures monto <= ReglaPorSalario(salario).montoMaximo
            && am.plazoMinimoMeses(monto, ReglaPorSalario(salario).tasaAnualBp, MaxCuota(salario)).None? ==>
      EvaluarPrestamo(salario, monto, am) == Failure(Error(IllegalState, PlazoInviable))
    ensures EvaluarPrestamo(salario, monto, am).Failure? && monto <= ReglaPorSalario(salario).montoMaximo ==>
      EvaluarPrestamo(salario, monto, am).error.kind in {IllegalState, Arithmetic}
    ensures monto <= ReglaPorSalario(salario).montoMaximo
            && am.plazoMinimoMeses(monto, ReglaPorSalario(salario).tasaAnualBp, MaxCuota(salario)).Some? ==>
      var n := am.plazoMinimoMeses(monto, ReglaPorSalario(salario).tasaAnualBp, MaxCuota(salario)).value;
      var c := am.cuotaMensual(monto, ReglaPorSalario(salario).tasaAnualBp, n);
      && (c.None? ==> EvaluarPrestamo(salario, monto, am) == Failure(Error(Arithmetic, DivisionPorCero)))
      && (c.Some? && c.value > MaxCuota(salario) ==> EvaluarPrestamo(salario, monto, am) == Failure(Error(IllegalState, CuotaExcedeTope)))
      && (c.Some? && c.value <= MaxCuota(salario) ==>
            EvaluarPrestamo(salario, monto, am) == Success(ValidacionPrestamo(ReglaPorSalario(salario).tasaAnualBp, c.value, RoundHalfUpDiv(100 * n, 12))))
  {
  }

  // ---------------------------------------------------------------------
  // Creating an application
  // ---------------------------------------------------------------------

  /** The checks of an application, in the source's order: the actor and
      their role, the client, the destination account and its owner, then the
      underwriting. On success, the client and the underwriting preview. */
  function AdmitirSolicitud(s: Store, canal: Transacciones.Canal, actorId: Id, cuentaDestinoId: Id, monto: int,
                            am: Amortizacion): (r: Outcome<(Id, ValidacionPrestamo)>)
    requires !canal.PorDependiente?
    ensures r.Success? ==> r.value.0 in s.usuarios
  {
    var actor :- FindById(s.usuarios, actorId, UsuarioNoEncontrado);
    :- RequireRol(actor, Transacciones.RolDe(canal));
    var clienteId :- Transacciones.TitularEsperado(s, canal, actorId);
    var cuenta :- FindById(s.cuentas, cuentaDestinoId, CuentaNoEncontrada);
    :- RequireTitular(cuenta, clienteId);
    var vp :- ValidarReglasPrestamo(s, s.usuarios[clienteId], monto, am);
    Success((clienteId, vp))
  }

  /** crearSolicitudPorCliente (`PorCliente`) and crearSolicitudPorCajeroConDui
      (`PorCajero`): returns the id of the new application. The destination
      account must be the client's; whether it is active is not checked. */
  function CrearSolicitud(s: Store, canal: Transacciones.Canal, actorId: Id, cuentaDestinoId: Id, monto: int,
                          observaciones: Option<string>, am: Amortizacion): Outcome<(Id, Store)>
    requires !canal.PorDependiente?
  {
    var (clienteId, vp) :- AdmitirSolicitud(s, canal, actorId, cuentaDestinoId, monto, am);
    var nota := NotaConVistaPrevia(observaciones, vp.tasa, vp.cuotaMensual, vp.plazoAnios,
                                   if canal.PorCajero? then Some(canal.duiCliente) else None);
    var solicitud := SolicitudPrestamo(clienteId, monto, EstadoCaso.EnEspera, Some(cuentaDestinoId), Some(actorId), None, nota);
    Success((s.nextId, s.(solicitudes := s.solicitudes[s.nextId := solicitud], nextId := s.nextId + 1)))
  }

  /** An application is filed exactly when the actor has the flow's role, the
      client resolves, the destination account exists and is theirs, and the
      underwriting accepts the amount. The first failing check decides the
      error: an unknown actor or account is an IllegalArgumentException, a
      wrong role or another client's account a SecurityException, a failed
      DUI lookup keeps its own error, and the underwriting's error comes last. */
  lemma CrearSolicitudSucceedsIff(s: Store, canal: Transacciones.Canal, actorId: Id, cuentaDestinoId: Id, monto: int,
                                  observaciones: Option<string>, am: Amortizacion)
    requires !canal.PorDependiente?
    ensures CrearSolicitud(s, canal, actorId, cuentaDestinoId, monto, observaciones, am).Success? <==>
      && Transacciones.ClienteResuelto(s, canal, actorId)
      && cuentaDestinoId in s.cuentas
      && s.cuentas[cuentaDestinoId].cliente == Transacciones.TitularEsperado(s, canal, actorId).value
      && ValidarReglasPrestamo(s, s.usuarios[Transacciones.TitularEsperado(s, canal, actorId).value], monto, am).Success?
    ensures actorId !in s.usuarios ==> CrearSolicitud(s, canal, actorId, cuentaDestinoId, monto, observaciones, am) == Failure(Error(IllegalArgument, UsuarioNoEncontrado))
    ensures actorId in s.usuarios && s.usuarios[actorId].rol != Transacciones.RolDe(canal) ==>
      CrearSolicitud(s, canal, actorId, cuentaDestinoId, monto, observaciones, am) == Failure(Error(Security, RolNoPermitido))
    ensures actorId in s.usuarios && s.usuarios[actorId].rol == Transacciones.RolDe(canal)
            && Transacciones.TitularEsperado(s, canal, actorId).Failure? ==>
      CrearSolicitud(s, canal, actorId, cuentaDestinoId, monto, observaciones, am) == Failure(Transacciones.TitularEsperado(s, canal, actorId).error)
    ensures Transacciones.ClienteResuelto(s, canal, actorId) && cuentaDestinoId !in s.cuentas ==>
      CrearSolicitud(s, canal, actorId, cuentaDestinoId, monto, observaciones, am) == Failure(Error(IllegalArgument, CuentaNoEncontrada))
    ensures Transacciones.ClienteResuelto(s, canal, actorId) && cuentaDestinoId in s.cuentas
            && s.cuentas[cuentaDestinoId].cliente != Transacciones.TitularEsperado(s, canal, actorId).value ==>
      CrearSolicitud(s, canal, actorId, cuentaDestinoId, monto, observaciones, am) == Failure(Error(Security, CuentaAjena))
    ensures Transacciones.ClienteResuelto(s, canal, actorId) && cuentaDestinoId in s.cuentas
            && s.cuentas[cuentaDestinoId].cliente == Transacciones.TitularEsperado(s, canal, actorId).value
            && ValidarReglasPrestamo(s, s.usuarios[Transacciones.TitularEsperado(s, canal, actorId).value], monto, am).Failure? ==>
      CrearSolicitud(s, canal, actorId, cuentaDestinoId, monto, observaciones, am) == Failure(ValidarReglasPrestamo(s, s.usuarios[Transacciones.TitularEsperado(s, canal, actorId).value], monto, am).error)
  {
  }

  /** A new application waits (EN_ESPERA) under a fresh id, belongs to the
      client who owns the destination account, was requested by the acting
      client or cashier, is unmanaged, and its note previews the underwriting:
      the tier's rate, the annuity installment for the minimum term (within
      30% of the client's salary), that term in hundredths of a year rounded
      half up, and the client's DUI when a cashier filed it. Nothing else in
      the bank changes. */
  lemma CrearSolicitudEffect(s: Store, canal: Transacciones.Canal, actorId: Id, cuentaDestinoId: Id, monto: int,
                             observaciones: Option<string>, am: Amortizacion)
    requires Valid(s)
    requires !canal.PorDependiente?
    requires CrearSolicitud(s, canal, actorId, cuentaDestinoId, monto, observaciones, am).Success?
    ensures var (id, t) := CrearSolicitud(s, canal, actorId, cuentaDestinoId, monto, observaciones, am).value;
      var clienteId := Transacciones.TitularEsperado(s, canal, actorId).value;
      && id !in s.solicitudes
      && t.solicitudes == s.solicitudes[id := t.solicitudes[id]]
      && t.solicitudes[id].estadoCaso == EstadoCaso.EnEspera
      && t.solicitudes[id].cliente == clienteId
      && s.usuarios[actorId].rol == (if canal.PorCliente? then Cliente else Cajero)
      && cuentaDestinoId in s.cuentas && s.cuentas[cuentaDestinoId].cliente == clienteId
      && t.solicitudes[id].cuentaDestino == Some(cuentaDestinoId)
      && t.solicitudes[id].solicitadoPor == Some(actorId)
      && t.solicitudes[id].gestionadoPor == None
      && t.solicitudes[id].montoSolicitado == monto
      && t.solicitudes[id].observaciones.NotaConVistaPrevia?
      && t.solicitudes[id].observaciones.prefijo == observaciones
      && SalarioDelCliente(s, s.usuarios[clienteId]).Success?
      && t.solicitudes[id].observaciones.cuotaMensual <= MaxCuota(SalarioDelCliente(s, s.usuarios[clienteId]).value)
      && var sal := SalarioDelCliente(s, s.usuarios[clienteId]).value;
         var meses := am.plazoMinimoMeses(monto, ReglaPorSalario(sal).tasaAnualBp, MaxCuota(sal));
         var nota := t.solicitudes[id].observaciones;
         && nota.tasa == ReglaPorSalario(sal).tasaAnualBp
         && meses.Some?
         && nota.cuotaMensual == am.cuotaMensual(monto, nota.tasa, meses.value).value
         && (meses.value >= 0 ==> 24 * nota.plazoAnios - 12 <= 200 * meses.value < 24 * nota.plazoAnios + 12)
         && nota.duiCliente == (if canal.PorCajero? then Some(canal.duiCliente) else None)
         && t.(solicitudes := s.solicitudes, nextId := s.nextId) == s
  {
    var clienteId := Transacciones.TitularEsperado(s, canal, actorId).value;
    var salario := SalarioDelCliente(s, s.usuarios[clienteId]).value;
    EvaluarPrestamoSound(salario, monto, am);
  }

  lemma CrearSolicitudPreservesValid(s: Store, canal: Transacciones.Canal, actorId: Id, cuentaDestinoId: Id, monto: int,
                                     observaciones: Option<string>, am: Amortizacion)
    requires Valid(s)
    requires !canal.PorDependiente?
    requires CrearSolicitud(s, canal, actorId, cuentaDestinoId, monto, observaciones, am).Success?
    ensures Valid(CrearSolicitud(s, canal, actorId, cuentaDestinoId, monto, observaciones, am).value.1)
  {
    var (clienteId, vp) := AdmitirSolicitud(s, canal, actorId, cuentaDestinoId, monto, am).value;
    var nota := NotaConVistaPrevia(observaciones, vp.tasa, vp.cuotaMensual, vp.plazoAnios,
                                   if canal.PorCajero? then Some(canal.duiCliente) else None);
    var solicitud := SolicitudPrestamo(clienteId, monto, EstadoCaso.EnEspera, Some(cuentaDestinoId), Some(actorId), None, nota);
    assert CrearSolicitud(s, canal, actorId, cuentaDestinoId, monto, observaciones, am).value.1
        == s.(solicitudes := s.solicitudes[s.nextId := solicitud], nextId := s.nextId + 1);
    AltaSolicitudPreservesValid(s, solicitud);
  }

  // ---------------------------------------------------------------------
  // Managing an application
  // ---------------------------------------------------------------------

  /** `requireEstadoEnEspera`: "El caso ya fue gestionado" once resolved. */
  function RequireEstadoEnEspera(solicitud: SolicitudPrestamo): (c: Check<Error>)
    ensures c.Pass? <==> solicitud.estadoCaso == EstadoCaso.EnEspera
    ensures c.Fail? ==> c.error == Error(IllegalState, CasoYaGestionado)
  {
    Need(solicitud.estadoCaso == EstadoCaso.EnEspera, Error(IllegalState, CasoYaGestionado))
  }

  /** The shared guard chain of approve and reject: the manager, the role,
      the application, its state. */
  function SolicitudGestionable(s: Store, gerenteId: Id, solicitudId: Id): Outcome<SolicitudPrestamo> {
    var gerente :- FindById(s.usuarios, gerenteId, UsuarioNoEncontrado);
    :- RequireRol(gerente, GerenteSucursal);
    var solicitud :- FindById(s.solicitudes, solicitudId, SolicitudNoEncontrada);
    :- RequireEstadoEnEspera(solicitud);
    Success(solicitud)
  }

  /** `aprobarSolicitud`: APROBADO and managed by the branch manager; no loan
      and no transaction are created. */
  function AprobarSolicitud(s: Store, gerenteId: Id, solicitudId: Id): Outcome<Store> {
    var solicitud :- SolicitudGestionable(s, gerenteId, solicitudId);
    Success(s.(solicitudes := s.solicitudes[solicitudId := solicitud.(estadoCaso := EstadoCaso.Aprobado, gestionadoPor := Some(gerenteId))]))
  }

  /** `rechazarSolicitud`: RECHAZADO, managed by the branch manager, and the
      observaciones replaced by the given text or "" when null. */
  function RechazarSolicitud(s: Store, gerenteId: Id, solicitudId: Id, observaciones: Option<string>): Outcome<Store> {
    var solicitud :- SolicitudGestionable(s, gerenteId, solicitudId);
    Success(s.(solicitudes := s.solicitudes[solicitudId := solicitud.(estadoCaso := EstadoCaso.Rechazado, gestionadoPor := Some(gerenteId),
                                                                      observaciones := NotaLibre(observaciones.GetOr("")))]))
  }

  /** Managing is allowed exactly for a GERENTE_SUCURSAL on an application
      still EN_ESPERA. */
  predicate PuedeGestionar(s: Store, gerenteId: Id, solicitudId: Id) {
    && gerenteId in s.usuarios && s.usuarios[gerenteId].rol == GerenteSucursal
    && solicitudId in s.solicitudes && s.solicitudes[solicitudId].estadoCaso == EstadoCaso.EnEspera
  }

  /** The first failing guard of approve and reject decides the error: an
      unknown manager, then a wrong role, then an unknown application, then an
      application no longer EN_ESPERA. */
  predicate GestionFallaCon(s: Store, gerenteId: Id, solicitudId: Id, r: Outcome<Store>) {
    && (gerenteId !in s.usuarios ==> r == Failure(Error(IllegalArgument, UsuarioNoEncontrado)))
    && (gerenteId in s.usuarios && s.usuarios[gerenteId].rol != GerenteSucursal ==>
          r.Failure? && r.error.kind == Security)
    && (gerenteId in s.usuarios && s.usuarios[gerenteId].rol == GerenteSucursal && solicitudId !in s.solicitudes ==>
          r == Failure(Error(IllegalArgument, SolicitudNoEncontrada)))
    && (gerenteId in s.usuarios && s.usuarios[gerenteId].rol == GerenteSucursal && solicitudId in s.solicitudes
        && s.solicitudes[solicitudId].estadoCaso != EstadoCaso.EnEspera ==>
          r == Failure(Error(IllegalState, CasoYaGestionado)))
  }

  /** Approving changes exactly the state and manager of that application. */
  lemma AprobarSolicitudEffect(s: Store, gerenteId: Id, solicitudId: Id)
    ensures AprobarSolicitud(s, gerenteId, solicitudId).Success? <==> PuedeGestionar(s, gerenteId, solicitudId)
    ensures GestionFallaCon(s, gerenteId, solicitudId, AprobarSolicitud(s, gerenteId, solicitudId))
    ensures AprobarSolicitud(s, gerenteId, solicitudId).Success? ==>
      var t := AprobarSolicitud(s, gerenteId, solicitudId).value;
      && t.solicitudes == s.solicitudes[solicitudId := s.solicitudes[solicitudId].(estadoCaso := EstadoCaso.Aprobado, gestionadoPor := Some(gerenteId))]
      && t.(solicitudes := s.solicitudes) == s
  {
  }

  /** Rejecting changes exactly the state, manager and observaciones of that application. */
  lemma RechazarSolicitudEffect(s: Store, gerenteId: Id, solicitudId: Id, observaciones: Option<string>)
    ensures RechazarSolicitud(s, gerenteId, solicitudId, observaciones).Success? <==> PuedeGestionar(s, gerenteId, solicitudId)
    ensures GestionFallaCon(s, gerenteId, solicitudId, RechazarSolicitud(s, gerenteId, solicitudId, observaciones))
    ensures RechazarSolicitud(s, gerenteId, solicitudId, observaciones).Success? ==>
      var t := RechazarSolicitud(s, gerenteId, solicitudId, observaciones).value;
      && t.solicitudes[solicitudId].estadoCaso == EstadoCaso.Rechazado
      && t.solicitudes[solicitudId].gestionadoPor == Some(gerenteId)
      && t.solicitudes[solicitudId].observaciones == NotaLibre(if observaciones.Some? then observaciones.value else "")
      && t.solicitudes[solicitudId].(estadoCaso := EstadoCaso.EnEspera, gestionadoPor := s.solicitudes[solicitudId].gestionadoPor,
                                     observaciones := s.solicitudes[solicitudId].observaciones) == s.solicitudes[solicitudId]
      && t.solicitudes == s.solicitudes[solicitudId := t.solicitudes[solicitudId]]
      && t.(solicitudes := s.solicitudes) == s
  {
  }

  /** An application is resolved at most once: after it is approved or
      rejected, every further approval or rejection fails, with "El caso ya fue
      gestionado" when a branch manager tries. */
  lemma ResueltaUnaSolaVez(s: Store, gerenteId: Id, solicitudId: Id, observaciones: Option<string>,
                           otroGerente: Id, otrasObservaciones: Option<string>, aprobada: bool)
    requires aprobada ==> AprobarSolicitud(s, gerenteId, solicitudId).Success?
    requires !aprobada ==> RechazarSolicitud(s, gerenteId, solicitudId, observaciones).Success?
    ensures var t := if aprobada then AprobarSolicitud(s, gerenteId, solicitudId).value
                     else RechazarSolicitud(s, gerenteId, solicitudId, observaciones).value;
      && t.solicitudes[solicitudId].estadoCaso == (if aprobada then EstadoCaso.Aprobado else EstadoCaso.Rechazado)
      && AprobarSolicitud(t, otroGerente, solicitudId).Failure?
      && RechazarSolicitud(t, otroGerente, solicitudId, otrasObservaciones).Failure?
      && (otroGerente in t.usuarios && t.usuarios[otroGerente].rol == GerenteSucursal ==>
            && AprobarSolicitud(t, otroGerente, solicitudId) == Failure(Error(IllegalState, CasoYaGestionado))
            && RechazarSolicitud(t, otroGerente, solicitudId, otrasObservaciones) == Failure(Error(IllegalState, CasoYaGestionado)))
  {
    var t := if aprobada then AprobarSolicitud(s, gerenteId, solicitudId).value
             else RechazarSolicitud(s, gerenteId, solicitudId, observaciones).value;
    assert solicitudId in t.solicitudes && t.solicitudes[solicitudId].estadoCaso != EstadoCaso.EnEspera;
    AprobarSolicitudEffect(t, otroGerente, solicitudId);
    RechazarSolicitudEffect(t, otroGerente, solicitudId, otrasObservaciones);
  }

  lemma AprobarSolicitudPreservesValid(s: Store, gerenteId: Id, solicitudId: Id)
    requires Valid(s)
    requires AprobarSolicitud(s, gerenteId, solicitudId).Success?
    ensures Valid(AprobarSolicitud(s, gerenteId, solicitudId).value)
  {
  }

  lemma RechazarSolicitudPreservesValid(s: Store, gerenteId: Id, solicitudId: Id, observaciones: Option<string>)
    requires Valid(s)
    requires RechazarSolicitud(s, gerenteId, solicitudId, observaciones).Success?
    ensures Valid(RechazarSolicitud(s, gerenteId, solicitudId, observaciones).value)
  {
  }
}
