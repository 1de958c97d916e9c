/** The bank as the running services see it: the repositories are mutable
    fields, and each public service operation is a method that checks its
    guards in the source's order and then updates the rows in place. Each
    method is proved to do exactly what the operation's function in its
    service module says, and to keep the store's invariant. */
module Banco {
  import opened Common
  import opened Dates
  import opened Domain
  import Money
  import Transacciones
  import Cuentas
  import Solicitudes
  import Prestamos
  import Usuarios
  import Personas

  /** A method's reported outcome `r` and final state `despues` are those of
      the specified outcome `o` on the state `antes`: on success the returned
      value and the new store, on failure the same error and nothing changed. */
  predicate Refleja<T(==)>(o: Outcome<(T, Store)>, r: Outcome<T>, antes: Store, despues: Store) {
    if o.Success? then r == Success(o.value.0) && despues == o.value.1
    else r == Failure(o.error) && despues == antes
  }

  /** The same for an operation that returns nothing. */
  predicate ReflejaCambio(o: Outcome<Store>, r: Outcome<()>, antes: Store, despues: Store) {
    if o.Success? then r == Success(()) && despues == o.value
    else r == Failure(o.error) && despues == antes
  }

  class Bank {
    var usuarios: map<Id, Usuario>
    var personas: map<Id, Persona>
    var sucursales: set<Id>
    var cuentas: map<Id, Cuenta>
    var solicitudes: map<Id, SolicitudPrestamo>
    var prestamos: map<Id, Prestamo>
    var acciones: map<Id, AccionPersonal>
    var transacciones: seq<Transaccion>
    var comisiones: seq<ComisionColaborador>
    var nextId: Id

    /** The repositories' contents. */
    function Snapshot(): Store
      reads this
    {
      Store(usuarios, personas, sucursales, cuentas, solicitudes, prestamos, acciones, transacciones, comisiones, nextId)
    }

    /** An empty bank with the given branches. */
    constructor (sucursales: set<Id>)
      ensures Snapshot() == EmptyStore.(sucursales := sucursales)
      ensures Valid(Snapshot())
    {
      usuarios, personas, this.sucursales, cuentas := map[], map[], sucursales, map[];
      solicitudes, prestamos, acciones := map[], map[], map[];
      transacciones, comisiones, nextId := [], [], 0;
    }

    // -------------------------------------------------------------------
    // TransaccionService
    // -------------------------------------------------------------------

    /** The saves of a deposit or withdrawal: the account row, then
        registrarTransaccionBasica and, for a collaborator,
        registrarComisionDependiente pointing at the new row. */
    method GuardarMovimiento(cuentaId: Id, cuenta: Cuenta, canal: Transacciones.Canal, actorId: Id, tx: Transaccion, comision: int)
      modifies this
      ensures Snapshot() == Transacciones.Asentar(old(Snapshot()).(cuentas := old(cuentas)[cuentaId := cuenta]), canal, actorId, tx, comision)
    {
      cuentas := cuentas[cuentaId := cuenta];
      var posicion := |transacciones|;
      transacciones := transacciones + [tx];
      if canal.PorDependiente? {
        comisiones := comisiones + [Transacciones.RegistrarComisionDependiente(actorId, posicion, comision, Money.COMISION_DEPENDIENTE_BP)];
      }
    }

    /** depositarPorCliente, depositarPorDependienteConDui, depositarPorCajeroConDui. */
    method Depositar(canal: Transacciones.Canal, actorId: Id, cuentaId: Id, monto: Option<int>, referencia: Option<string>)
      returns (r: Outcome<Transaccion>)
      requires Valid(Snapshot())
      modifies this
      ensures Refleja(Transacciones.Depositar(old(Snapshot()), canal, actorId, cuentaId, monto, referencia), r, old(Snapshot()), Snapshot())
      ensures Valid(Snapshot())
    {
      ghost var antes := Snapshot();
      var admitido :- Transacciones.Admitir(Snapshot(), canal, actorId, cuentaId, monto);
      var (cuenta, comision) := admitido;
      var acreditada :- Transacciones.AplicarDeposito(cuenta, monto);
      var tx := Transacciones.RegistrarTransaccionBasica(Deposito, monto.value, Some(comision), None, Some(cuentaId), Some(cuentaId),
                                                         actorId, Texto(referencia), Some(Transacciones.Metadata(canal)));
      GuardarMovimiento(cuentaId, acreditada, canal, actorId, tx, comision);
      r := Success(tx);
      assert Transacciones.Depositar(antes, canal, actorId, cuentaId, monto, referencia) == Success((tx, Snapshot()));
      Transacciones.DepositarPreservesValid(antes, canal, actorId, cuentaId, monto, referencia);
    }

    /** retirarPorCliente, retirarPorDependienteConDui, retirarPorCajeroConDui. */
    method Retirar(canal: Transacciones.Canal, actorId: Id, cuentaId: Id, monto: Option<int>, referencia: Option<string>)
      returns (r: Outcome<Transaccion>)
      requires Valid(Snapshot())
      modifies this
      ensures Refleja(Transacciones.Retirar(old(Snapshot()), canal, actorId, cuentaId, monto, referencia), r, old(Snapshot()), Snapshot())
      ensures Valid(Snapshot())
    {
      ghost var antes := Snapshot();
      var admitido :- Transacciones.Admitir(Snapshot(), canal, actorId, cuentaId, monto);
      var (cuenta, comision) := admitido;
      var debitada :- Transacciones.AplicarRetiro(cuenta, monto);
      var tx := Transacciones.RegistrarTransaccionBasica(Retiro, monto.value, Some(comision), Some(cuentaId), None, Some(cuentaId),
                                                         actorId, Texto(referencia), Some(Transacciones.Metadata(canal)));
      GuardarMovimiento(cuentaId, debitada, canal, actorId, tx, comision);
      r := Success(tx);
      assert Transacciones.Retirar(antes, canal, actorId, cuentaId, monto, referencia) == Success((tx, Snapshot()));
      Transacciones.RetirarPreservesValid(antes, canal, actorId, cuentaId, monto, referencia);
    }

    /** The saves of a transfer: the debited origin, then the destination as
        it stands after that save, credited, then the transaction row. */
    method GuardarTransferencia(origenId: Id, debitada: Cuenta, destinoId: Id, monto: int, tx: Transaccion)
      requires destinoId in cuentas && monto > 0
      modifies this
      ensures Snapshot() == old(Snapshot()).(cuentas := old(cuentas)[origenId := debitada][destinoId := Transacciones.AplicarDeposito(old(cuentas)[origenId := debitada][destinoId], Some(monto)).value],
                                             transacciones := old(transacciones) + [tx])
    {
      cuentas := cuentas[origenId := debitada];
      var acreditada := Transacciones.AplicarDeposito(cuentas[destinoId], Some(monto)).value;
      cuentas := cuentas[destinoId := acreditada];
      transacciones := transacciones + [tx];
    }

    /** transferirPorCliente and transferirPorCajeroConDui: the origin is
        debited and saved, then the destination, as it stands after that, is
        credited and saved. */
    method Transferir(canal: Transacciones.Canal, actorId: Id, origenId: Id, destinoId: Id, monto: Option<int>, referencia: Option<string>)
      returns (r: Outcome<Transaccion>)
      requires !canal.PorDependiente?
      requires Valid(Snapshot())
      modifies this
      ensures Refleja(Transacciones.Transferir(old(Snapshot()), canal, actorId, origenId, destinoId, monto, referencia), r, old(Snapshot()), Snapshot())
      ensures Valid(Snapshot())
    {
      ghost var antes := Snapshot();
      var origen :- Transacciones.AdmitirTransferencia(Snapshot(), canal, actorId, origenId, destinoId);
      var debitada :- Transacciones.AplicarRetiro(origen, monto);
      var tx := Transacciones.RegistrarTransaccionBasica(Transferencia, monto.value, Some(0), Some(origenId), Some(destinoId), None,
                                                         actorId, Texto(referencia), Some(Transacciones.MetadataTransferencia(canal)));
      GuardarTransferencia(origenId, debitada, destinoId, monto.value, tx);
      r := Success(tx);
      assert Transacciones.Transferir(antes, canal, actorId, origenId, destinoId, monto, referencia) == Success((tx, Snapshot()));
      Transacciones.TransferirPreservesValid(antes, canal, actorId, origenId, destinoId, monto, referencia);
    }

    // -------------------------------------------------------------------
    // CuentaService
    // -------------------------------------------------------------------

    /** `cuentaRepository.save` of a new row: it gets the next id. */
    method AltaCuenta(cuenta: Cuenta) returns (id: Id)
      modifies this
      ensures id == old(nextId)
      ensures Snapshot() == old(Snapshot()).(cuentas := old(cuentas)[id := cuenta], nextId := id + 1)
    {
      id := nextId;
      cuentas := cuentas[id := cuenta];
      nextId := nextId + 1;
    }

    /** `crearCuenta`, drawing account numbers from `draws` until one is free. */
    method CrearCuenta(usuarioId: Id, tipo: TipoCuenta, creadorId: Option<Id>, draws: seq<int>) returns (r: Outcome<Id>)
      requires Valid(Snapshot())
      requires Cuentas.HayNumeroLibre(Cuentas.Numeros(cuentas), draws)
      modifies this
      ensures Refleja(Cuentas.CrearCuenta(old(Snapshot()), usuarioId, tipo, creadorId, draws), r, old(Snapshot()), Snapshot())
      ensures Valid(Snapshot())
    {
      ghost var antes := Snapshot();
      var usuario :- Cuentas.AdmitirApertura(Snapshot(), usuarioId, creadorId);
      var numero := Cuentas.GenerarNumeroCuentaUnico(Cuentas.Numeros(cuentas), draws);
      var cuenta := Cuentas.CuentaNueva(numero, usuarioId, tipo, creadorId);
      var id := AltaCuenta(cuenta);
      r := Success(id);
      assert Cuentas.CrearCuenta(antes, usuarioId, tipo, creadorId, draws) == Success((id, Snapshot()));
      Cuentas.CrearCuentaPreservesValid(antes, usuarioId, tipo, creadorId, draws);
    }

    /** `desactivarCuenta`. */
    method DesactivarCuenta(cuentaId: Id) returns (r: Outcome<()>)
      requires Valid(Snapshot())
      modifies this
      ensures ReflejaCambio(Cuentas.DesactivarCuenta(old(Snapshot()), cuentaId), r, old(Snapshot()), Snapshot())
      ensures Valid(Snapshot())
    {
      ghost var antes := Snapshot();
      var cuenta :- FindById(cuentas, cuentaId, CuentaNoEncontrada);
      cuentas := cuentas[cuentaId := cuenta.(activa := Some(false))];
      r := Success(());
      assert Cuentas.DesactivarCuenta(antes, cuentaId) == Success(Snapshot());
      Cuentas.DesactivarCuentaPreservesValid(antes, cuentaId);
    }

    // -------------------------------------------------------------------
    // SolicitudPrestamoService
    // -------------------------------------------------------------------

    /** `solicitudPrestamoRepository.save` of a new row. */
    method AltaSolicitud(solicitud: SolicitudPrestamo) returns (id: Id)
      modifies this
      ensures id == old(nextId)
      ensures Snapshot() == old(Snapshot()).(solicitudes := old(solicitudes)[id := solicitud], nextId := id + 1)
    {
      id := nextId;
      solicitudes := solicitudes[id := solicitud];
      nextId := nextId + 1;
    }

    /** crearSolicitudPorCliente and crearSolicitudPorCajeroConDui. */
    method CrearSolicitud(canal: Transacciones.Canal, actorId: Id, cuentaDestinoId: Id, monto: int,
                          observaciones: Option<string>, am: Solicitudes.Amortizacion) returns (r: Outcome<Id>)
      requires !canal.PorDependiente?
      requires Valid(Snapshot())
      modifies this
      ensures Refleja(Solicitudes.CrearSolicitud(old(Snapshot()), canal, actorId, cuentaDestinoId, monto, observaciones, am),
                      r, old(Snapshot()), Snapshot())
      ensures Valid(Snapshot())
    {
      ghost var antes := Snapshot();
      var admitida :- Solicitudes.AdmitirSolicitud(Snapshot(), canal, actorId, cuentaDestinoId, monto, am);
      var (clienteId, vp) := admitida;
      var nota := NotaConVistaPrevia(observaciones, vp.tasa, vp.cuotaMensual, vp.plazoAnios,
                                     if canal.PorCajero? then Some(canal.duiCliente) else None);
      var id := AltaSolicitud(SolicitudPrestamo(clienteId, monto, EstadoCaso.EnEspera, Some(cuentaDestinoId), Some(actorId), None, nota));
      r := Success(id);
      assert Solicitudes.CrearSolicitud(antes, canal, actorId, cuentaDestinoId, monto, observaciones, am) == Success((id, Snapshot()));
      Solicitudes.CrearSolicitudPreservesValid(antes, canal, actorId, cuentaDestinoId, monto, observaciones, am);
    }

    /** `aprobarSolicitud`. */
    method AprobarSolicitud(gerenteId: Id, solicitudId: Id) returns (r: Outcome<()>)
      requires Valid(Snapshot())
      modifies this
      ensures ReflejaCambio(Solicitudes.AprobarSolicitud(old(Snapshot()), gerenteId, solicitudId), r, old(Snapshot()), Snapshot())
      ensures Valid(Snapshot())
    {
      ghost var antes := Snapshot();
      var solicitud :- Solicitudes.SolicitudGestionable(Snapshot(), gerenteId, solicitudId);
      solicitudes := solicitudes[solicitudId := solicitud.(estadoCaso := EstadoCaso.Aprobado, gestionadoPor := Some(gerenteId))];
      r := Success(());
      assert Solicitudes.AprobarSolicitud(antes, gerenteId, solicitudId) == Success(Snapshot());
      Solicitudes.AprobarSolicitudPreservesValid(antes, gerenteId, solicitudId);
    }

    /** `rechazarSolicitud`. */
    method RechazarSolicitud(gerenteId: Id, solicitudId: Id, observaciones: Option<string>) returns (r: Outcome<()>)
      requires Valid(Snapshot())
      modifies this
      ensures ReflejaCambio(Solicitudes.RechazarSolicitud(old(Snapshot()), gerenteId, solicitudId, observaciones), r, old(Snapshot()), Snapshot())
      ensures Valid(Snapshot())
    {
      ghost var antes := Snapshot();
      var solicitud :- Solicitudes.SolicitudGestionable(Snapshot(), gerenteId, solicitudId);
      var texto := if observaciones.Some? then observaciones.value else "";
      solicitudes := solicitudes[solicitudId := solicitud.(estadoCaso := EstadoCaso.Rechazado, gestionadoPor := Some(gerenteId),
                                                           observaciones := NotaLibre(texto))];
      r := Success(());
      assert Solicitudes.RechazarSolicitud(antes, gerenteId, solicitudId, observaciones) == Success(Snapshot());
      Solicitudes.RechazarSolicitudPreservesValid(antes, gerenteId, solicitudId, observaciones);
    }

    // -------------------------------------------------------------------
    // PrestamoService
    // -------------------------------------------------------------------

    /** `prestamoRepository.save` of a new row, then the DEPOSITO_PRESTAMO row. */
    method AltaPrestamo(prestamo: Prestamo, tx: Transaccion) returns (id: Id)
      modifies this
      ensures id == old(nextId)
      ensures Snapshot() == old(Snapshot()).(prestamos := old(prestamos)[id := prestamo], transacciones := old(transacciones) + [tx],
                                             nextId := id + 1)
    {
      id := nextId;
      prestamos := prestamos[id := prestamo];
      nextId := nextId + 1;
      transacciones := transacciones + [tx];
    }

    /** `crearDesdeSolicitud` on the day `hoy`. */
    method CrearDesdeSolicitud(gerenteId: Id, solicitudId: Id, hoy: Date, am: Solicitudes.Amortizacion) returns (r: Outcome<Id>)
      requires Valid(Snapshot()) && ValidDate(hoy)
      modifies this
      ensures Refleja(Prestamos.CrearDesdeSolicitud(old(Snapshot()), gerenteId, solicitudId, hoy, am), r, old(Snapshot()), Snapshot())
      ensures Valid(Snapshot())
    {
      ghost var antes := Snapshot();
      var admitido :- Prestamos.AdmitirPrestamo(Snapshot(), gerenteId, solicitudId, am);
      var (solicitud, cuentaId, v) := admitido;
      var monto := solicitud.montoSolicitado;
      var prestamo := Prestamo(solicitudId, solicitud.cliente, monto, v.tasaAnual, monto, v.plazoAnios, v.cuotaMensual,
                               PlusYears(hoy, v.plazoAnios), Some(Prestamos.SiguienteMesPrimerDia(hoy)), cuentaId,
                               gerenteId, EstadoPrestamo.Activo);
      var tx := Transacciones.RegistrarTransaccionBasica(
        DepositoPrestamo, monto, Some(0), None, Some(cuentaId), Some(cuentaId), gerenteId, DepositoDeSolicitud(solicitudId), None);
      var id := AltaPrestamo(prestamo, tx);
      r := Success(id);
      assert Prestamos.CrearDesdeSolicitud(antes, gerenteId, solicitudId, hoy, am) == Success((id, Snapshot()));
      Prestamos.CrearDesdeSolicitudPreservesValid(antes, gerenteId, solicitudId, hoy, am);
    }

    /** The saves of a payment: the PAGO_PRESTAMO row, the debited account,
        then the loan. */
    method GuardarPago(tx: Transaccion, cuentaId: Id, cuenta: Cuenta, prestamoId: Id, prestamo: Prestamo)
      modifies this
      ensures Snapshot() == old(Snapshot()).(cuentas := old(cuentas)[cuentaId := cuenta], transacciones := old(transacciones) + [tx],
                                             prestamos := old(prestamos)[prestamoId := prestamo])
    {
      transacciones := transacciones + [tx];
      cuentas := cuentas[cuentaId := cuenta];
      prestamos := prestamos[prestamoId := prestamo];
    }

    /** `pagarCuota` on the day `hoy`: the payment row is written first, then
        the account and then the loan. */
    method PagarCuota(ejecutorId: Id, prestamoId: Id, cuentaOrigenId: Id, monto: Option<int>, referencia: Option<string>, hoy: Date)
      returns (r: Outcome<Prestamo>)
      requires Valid(Snapshot()) && ValidDate(hoy)
      modifies this
      ensures Refleja(Prestamos.PagarCuota(old(Snapshot()), ejecutorId, prestamoId, cuentaOrigenId, monto, referencia, hoy),
                      r, old(Snapshot()), Snapshot())
      ensures Valid(Snapshot())
    {
      ghost var antes := Snapshot();
      var admitido :- Prestamos.AdmitirPago(Snapshot(), ejecutorId, prestamoId, cuentaOrigenId);
      var (prestamo, cuenta) := admitido;
      var debitada :- Transacciones.AplicarRetiro(cuenta, monto);
      var tx := Transacciones.RegistrarTransaccionBasica(
        PagoPrestamo, monto.value, Some(0), Some(cuentaOrigenId), None, Some(cuentaOrigenId), ejecutorId,
        if referencia.Some? then Texto(referencia) else PagoDePrestamo(prestamoId), None);
      var pagado := Prestamos.AbonarPrestamo(prestamo, monto.value, hoy);
      GuardarPago(tx, cuentaOrigenId, debitada, prestamoId, pagado);
      r := Success(pagado);
      assert Prestamos.PagarCuota(antes, ejecutorId, prestamoId, cuentaOrigenId, monto, referencia, hoy) == Success((pagado, Snapshot()));
      Prestamos.PagarCuotaPreservesValid(antes, ejecutorId, prestamoId, cuentaOrigenId, monto, referencia, hoy);
    }

    // -------------------------------------------------------------------
    // UsuarioService
    // -------------------------------------------------------------------

    /** `usuarioRepository.save` of a new row. */
    method AltaUsuario(usuario: Usuario) returns (id: Id)
      modifies this
      ensures id == old(nextId)
      ensures Snapshot() == old(Snapshot()).(usuarios := old(usuarios)[id := usuario], nextId := id + 1)
    {
      id := nextId;
      usuarios := usuarios[id := usuario];
      nextId := nextId + 1;
    }

    /** `accionPersonalRepository.save` of a new row. */
    method AltaAccion(accion: AccionPersonal) returns (id: Id)
      modifies this
      ensures id == old(nextId)
      ensures Snapshot() == old(Snapshot()).(acciones := old(acciones)[id := accion], nextId := id + 1)
    {
      id := nextId;
      acciones := acciones[id := accion];
      nextId := nextId + 1;
    }

    /** `crearClientePorCliente`. */
    method CrearClientePorCliente(dto: Usuarios.UsuarioCreateDTO) returns (r: Outcome<Id>)
      requires Valid(Snapshot())
      modifies this
      ensures Refleja(Usuarios.CrearClientePorCliente(old(Snapshot()), dto), r, old(Snapshot()), Snapshot())
      ensures Valid(Snapshot())
    {
      ghost var antes := Snapshot();
      :- Usuarios.ValidarRolObjetivo(dto, Cliente);
      var u :- Usuarios.PrepararNuevoUsuario(Snapshot(), dto, Cliente, EstadoUsuario.Activo, None);
      var id := AltaUsuario(u);
      r := Success(id);
      assert Usuarios.CrearClientePorCliente(antes, dto) == Success((id, Snapshot()));
      Usuarios.CrearClientePorClientePreservesValid(antes, dto);
    }

    /** `crearClientePorCajero`. */
    method CrearClientePorCajero(actorId: Id, dto: Usuarios.UsuarioCreateDTO) returns (r: Outcome<Id>)
      requires Valid(Snapshot())
      modifies this
      ensures Refleja(Usuarios.CrearClientePorCajero(old(Snapshot()), actorId, dto), r, old(Snapshot()), Snapshot())
      ensures Valid(Snapshot())
    {
      ghost var antes := Snapshot();
      var actor :- Usuarios.ActorConRol(Snapshot(), actorId, Cajero);
      :- Usuarios.ValidarRolObjetivo(dto, Cliente);
      var u :- Usuarios.PrepararNuevoUsuario(Snapshot(), dto, Cliente, EstadoUsuario.Activo, Some(actorId));
      var id := AltaUsuario(u);
      r := Success(id);
      assert Usuarios.CrearClientePorCajero(antes, actorId, dto) == Success((id, Snapshot()));
      Usuarios.CrearClientePorCajeroPreservesValid(antes, actorId, dto);
    }

    /** `crearColaboradorPorCajero`. */
    method CrearColaboradorPorCajero(actorId: Id, dto: Usuarios.UsuarioCreateDTO) returns (r: Outcome<Id>)
      requires Valid(Snapshot())
      modifies this
      ensures Refleja(Usuarios.CrearColaboradorPorCajero(old(Snapshot()), actorId, dto), r, old(Snapshot()), Snapshot())
      ensures Valid(Snapshot())
    {
      ghost var antes := Snapshot();
      var actor :- Usuarios.ActorConRol(Snapshot(), actorId, Cajero);
      :- Usuarios.ValidarRolObjetivo(dto, Colaborador);
      var u :- Usuarios.PrepararNuevoUsuario(Snapshot(), dto, Colaborador, EstadoUsuario.Activo, Some(actorId));
      var id := AltaUsuario(u);
      r := Success(id);
      assert Usuarios.CrearColaboradorPorCajero(antes, actorId, dto) == Success((id, Snapshot()));
      Usuarios.CrearColaboradorPorCajeroPreservesValid(antes, actorId, dto);
    }

    /** `crearCajeroPorGerenteSucursal`: the cashier is saved first, then the
        action that refers to them. */
    method CrearCajeroPorGerenteSucursal(actorId: Id, dto: Usuarios.UsuarioCreateDTO) returns (r: Outcome<Id>)
      requires Valid(Snapshot())
      modifies this
      ensures Refleja(Usuarios.CrearCajeroPorGerenteSucursal(old(Snapshot()), actorId, dto), r, old(Snapshot()), Snapshot())
      ensures Valid(Snapshot())
    {
      ghost var antes := Snapshot();
      var actor :- Usuarios.ActorConRol(Snapshot(), actorId, GerenteSucursal);
      :- Usuarios.ValidarRolObjetivo(dto, Cajero);
      var u :- Usuarios.PrepararNuevoUsuario(Snapshot(), dto, Cajero, EstadoUsuario.EnEspera, Some(actorId));
      var cajeroId := AltaUsuario(u);
      var _ := AltaAccion(AccionPersonal(cajeroId, AltaEmpleado, EstadoAccion.EnEspera, actor.sucursal, actorId, None,
                                         Some(Usuarios.OBS_ALTA_CAJERO)));
      r := Success(cajeroId);
      assert Usuarios.CrearCajeroPorGerenteSucursal(antes, actorId, dto) == Success((cajeroId, Snapshot()));
      Usuarios.CrearCajeroPreservesValid(antes, actorId, dto);
    }

    /** `aprobarAccionPersonal`: the action is saved, then the employee. */
    method AprobarAccionPersonal(actorId: Id, accionId: Id) returns (r: Outcome<()>)
      requires Valid(Snapshot())
      modifies this
      ensures ReflejaCambio(Usuarios.AprobarAccionPersonal(old(Snapshot()), actorId, accionId), r, old(Snapshot()), Snapshot())
      ensures Valid(Snapshot())
    {
      ghost var antes := Snapshot();
      var gestionable :- Usuarios.AccionGestionable(Snapshot(), actorId, accionId);
      var (accion, empleado) := gestionable;
      acciones := acciones[accionId := accion.(estado := EstadoAccion.Aprobado, gestionadoPor := Some(actorId))];
      usuarios := usuarios[accion.empleado := empleado.(estado := EstadoUsuario.Activo)];
      r := Success(());
      assert Usuarios.AprobarAccionPersonal(antes, actorId, accionId) == Success(Snapshot());
      Usuarios.ResolverAccionPreservesValid(antes, actorId, accionId, true, None);
    }

    /** `rechazarAccionPersonal`. */
    method RechazarAccionPersonal(actorId: Id, accionId: Id, observaciones: Option<string>) returns (r: Outcome<()>)
      requires Valid(Snapshot())
      modifies this
      ensures ReflejaCambio(Usuarios.RechazarAccionPersonal(old(Snapshot()), actorId, accionId, observaciones), r, old(Snapshot()), Snapshot())
      ensures Valid(Snapshot())
    {
      ghost var antes := Snapshot();
      var gestionable :- Usuarios.AccionGestionable(Snapshot(), actorId, accionId);
      var (accion, empleado) := gestionable;
      acciones := acciones[accionId := accion.(estado := EstadoAccion.Rechazado, gestionadoPor := Some(actorId), observaciones := observaciones)];
      usuarios := usuarios[accion.empleado := empleado.(estado := EstadoUsuario.Inactivo)];
      r := Success(());
      assert Usuarios.RechazarAccionPersonal(antes, actorId, accionId, observaciones) == Success(Snapshot());
      Usuarios.ResolverAccionPreservesValid(antes, actorId, accionId, false, observaciones);
    }

    /** `darDeBajaEmpleado`: the employee is saved first, then the action. */
    method DarDeBajaEmpleado(actorId: Id, empleadoId: Id) returns (r: Outcome<()>)
      requires Valid(Snapshot())
      modifies this
      ensures ReflejaCambio(Usuarios.DarDeBajaEmpleado(old(Snapshot()), actorId, empleadoId), r, old(Snapshot()), Snapshot())
      ensures Valid(Snapshot())
    {
      ghost var antes := Snapshot();
      var actor :- Usuarios.ActorConRol(Snapshot(), actorId, GerenteSucursal);
      var empleado :- FindById(usuarios, empleadoId, UsuarioNoEncontrado);
      :- Need(empleado.estado != EstadoUsuario.Inactivo, Error(IllegalState, EmpleadoYaInactivo));
      usuarios := usuarios[empleadoId := empleado.(estado := EstadoUsuario.Inactivo)];
      acciones := acciones[nextId := AccionPersonal(empleadoId, BajaEmpleado, EstadoAccion.Aprobado, actor.sucursal, actorId, None,
                                                    Some(Usuarios.OBS_BAJA_EMPLEADO))];
      nextId := nextId + 1;
      r := Success(());
      assert Usuarios.DarDeBajaEmpleado(antes, actorId, empleadoId) == Success(Snapshot());
      Usuarios.DarDeBajaEmpleadoPreservesValid(antes, actorId, empleadoId);
    }

    // -------------------------------------------------------------------
    // PersonaService
    // -------------------------------------------------------------------

    /** `crearPersona`. */
    method CrearPersona(persona: Persona) returns (id: Id)
      requires Valid(Snapshot())
      modifies this
      ensures (id, Snapshot()) == Personas.CrearPersona(old(Snapshot()), persona)
      ensures Valid(Snapshot())
    {
      ghost var antes := Snapshot();
      id := nextId;
      personas := personas[id := persona.(estado := EstadoPersona.Activo)];
      nextId := nextId + 1;
      Personas.CrearPersonaPreservesValid(antes, persona);
    }

    /** `actualizarPersona`. */
    method ActualizarPersona(id: Id, datos: Persona) returns (r: Outcome<Persona>)
      requires Valid(Snapshot())
      modifies this
      ensures Refleja(Personas.ActualizarPersona(old(Snapshot()), id, datos), r, old(Snapshot()), Snapshot())
      ensures Valid(Snapshot())
    {
      ghost var antes := Snapshot();
      var persona :- FindById(personas, id, PersonaNoEncontrada);
      persona := persona.(nombreCompleto := datos.nombreCompleto, fechaNacimiento := datos.fechaNacimiento,
                          salario := datos.salario, direccion := datos.direccion, telefono := datos.telefono,
                          email := datos.email, estado := datos.estado);
      personas := personas[id := persona];
      r := Success(persona);
      assert Personas.ActualizarPersona(antes, id, datos) == Success((persona, Snapshot()));
      Personas.ActualizarPersonaPreservesValid(antes, id, datos);
    }

    /** `darDeBajaPersona`. */
    method DarDeBajaPersona(id: Id) returns (r: Outcome<()>)
      requires Valid(Snapshot())
      modifies this
      ensures ReflejaCambio(Personas.DarDeBajaPersona(old(Snapshot()), id), r, old(Snapshot()), Snapshot())
      ensures Valid(Snapshot())
    {
      ghost var antes := Snapshot();
      var persona :- FindById(personas, id, PersonaNoEncontrada);
      personas := personas[id := persona.(estado := EstadoPersona.Inactivo)];
      r := Success(());
      assert Personas.DarDeBajaPersona(antes, id) == Success(Snapshot());
      Personas.DarDeBajaPersonaPreservesValid(antes, id);
    }
  }
}
