/** UsuarioService: registering users by role, the personnel-action workflow
    (a cashier's hiring waits for the general manager) and dismissals. */
module Usuarios {
  import opened Common
  import opened Domain

  /** The request body of every user creation; the role and both ids may be null. */
  datatype UsuarioCreateDTO = UsuarioCreateDTO(
    username: string,
    password: string,
    rol: Option<Rol>,
    personaId: Option<Id>,
    sucursalId: Option<Id>)

  const OBS_ALTA_CAJERO := "Alta de cajero pendiente de aprobación"
  const OBS_BAJA_EMPLEADO := "Baja de empleado realizada por gerente de sucursal"

  // ---------------------------------------------------------------------
  // Helpers
  // ---------------------------------------------------------------------

  /** `validarRolObjetivo`: the requested role must be exactly the expected one
      (a null role never is). */
  function ValidarRolObjetivo(dto: UsuarioCreateDTO, esperado: Rol): (c: Check<Error>)
    ensures c.Pass? <==> dto.rol == Some(esperado)
    ensures c.Fail? ==> c.error == Error(IllegalArgument, RolObjetivoDistinto)
  {
    Need(dto.rol == Some(esperado), Error(IllegalArgument, RolObjetivoDistinto))
  }

  /** `prepararNuevoUsuario`, with the role and state the caller sets right
      after it: the person must exist (a null id is refused by `findById`),
      and the branch must exist when one is given. */
  function PrepararNuevoUsuario(s: Store, dto: UsuarioCreateDTO, rol: Rol, estado: EstadoUsuario, creadoPor: Option<Id>): (r: Outcome<Usuario>)
    ensures r.Success? <==> dto.personaId.Some? && dto.personaId.value in s.personas
                            && (dto.sucursalId.Some? ==> dto.sucursalId.value in s.sucursales)
    ensures r.Success? ==> r.value == Usuario(dto.personaId, dto.username, dto.password, rol, estado, dto.sucursalId, creadoPor)
    ensures r.Failure? ==> r.error.kind == IllegalArgument
  {
    if dto.personaId.None? then Failure(Error(IllegalArgument, IdNulo))
    else
      var _ :- FindById(s.personas, dto.personaId.value, PersonaNoEncontrada);
      :- Need(dto.sucursalId.None? || dto.sucursalId.value in s.sucursales, Error(IllegalArgument, SucursalNoEncontrada));
      Success(Usuario(dto.personaId, dto.username, dto.password, rol, estado, dto.sucursalId, creadoPor))
  }

  /** Checking the requested role, preparing the user and saving it under the
      next id. */
  function AltaUsuario(s: Store, dto: UsuarioCreateDTO, rol: Rol, estado: EstadoUsuario, creadoPor: Option<Id>): Outcome<(Id, Store)> {
    match ValidarRolObjetivo(dto, rol)
    case Fail(e) => Failure(e)
    case Pass =>
      var u :- PrepararNuevoUsuario(s, dto, rol, estado, creadoPor);
      Success((s.nextId, s.(usuarios := s.usuarios[s.nextId := u], nextId := s.nextId + 1)))
  }

  /** The acting user, who must hold `rol`. */
  function ActorConRol(s: Store, actorId: Id, rol: Rol): (r: Outcome<Usuario>)
    ensures r.Success? <==> actorId in s.usuarios && s.usuarios[actorId].rol == rol
    ensures r.Success? ==> r.value == s.usuarios[actorId]
    ensures actorId !in s.usuarios ==> r == Failure(Error(IllegalArgument, UsuarioNoEncontrado))
    ensures actorId in s.usuarios && s.usuarios[actorId].rol != rol ==> r.Failure? && r.error.kind == Security
  {
    var actor :- FindById(s.usuarios, actorId, UsuarioNoEncontrado);
    :- RequireRol(actor, rol);
    Success(actor)
  }

  /** The errors of `requireUsuario` then `requireRol` on the actor: an
      unknown actor is an IllegalArgumentException, a wrong role a
      SecurityException. */
  predicate ActorFallaCon<T>(s: Store, actorId: Id, rol: Rol, r: Outcome<T>) {
    && (actorId !in s.usuarios ==> r == Failure(Error(IllegalArgument, UsuarioNoEncontrado)))
    && (actorId in s.usuarios && s.usuarios[actorId].rol != rol ==> r == Failure(Error(Security, RolNoPermitido)))
  }

  /** The errors of a creation once the actor is accepted, in source order:
      the requested role, then the person (null or unknown), then the branch
      when one is given; every one is an IllegalArgumentException. */
  predicate AltaFallaCon<T>(s: Store, dto: UsuarioCreateDTO, rol: Rol, r: Outcome<T>) {
    && (dto.rol != Some(rol) ==> r == Failure(Error(IllegalArgument, RolObjetivoDistinto)))
    && (dto.rol == Some(rol) && dto.personaId.None? ==> r == Failure(Error(IllegalArgument, IdNulo)))
    && (dto.rol == Some(rol) && dto.personaId.Some? && dto.personaId.value !in s.personas ==>
          r == Failure(Error(IllegalArgument, PersonaNoEncontrada)))
    && (dto.rol == Some(rol) && dto.personaId.Some? && dto.personaId.value in s.personas
        && dto.sucursalId.Some? && dto.sucursalId.value !in s.sucursales ==>
          r == Failure(Error(IllegalArgument, SucursalNoEncontrada)))
  }

  // ---------------------------------------------------------------------
  // The four creations
  // ---------------------------------------------------------------------

  /** `crearClientePorCliente`: self-registration, no actor. */
  function CrearClientePorCliente(s: Store, dto: UsuarioCreateDTO): Outcome<(Id, Store)> {
    AltaUsuario(s, dto, Cliente, EstadoUsuario.Activo, None)
  }

  /** `crearClientePorCajero`. */
  function CrearClientePorCajero(s: Store, actorId: Id, dto: UsuarioCreateDTO): Outcome<(Id, Store)> {
    var _ :- ActorConRol(s, actorId, Cajero);
    AltaUsuario(s, dto, Cliente, EstadoUsuario.Activo, Some(actorId))
  }

  /** `crearColaboradorPorCajero`. */
  function CrearColaboradorPorCajero(s: Store, actorId: Id, dto: UsuarioCreateDTO): Outcome<(Id, Store)> {
    var _ :- ActorConRol(s, actorId, Cajero);
    AltaUsuario(s, dto, Colaborador, EstadoUsuario.Activo, Some(actorId))
  }

  /** `crearCajeroPorGerenteSucursal`: the cashier waits EN_ESPERA and an
      ALTA_EMPLEADO action, also EN_ESPERA, is filed for the manager's branch. */
  function CrearCajeroPorGerenteSucursal(s: Store, actorId: Id, dto: UsuarioCreateDTO): Outcome<(Id, Store)> {
    var actor :- ActorConRol(s, actorId, GerenteSucursal);
    var (cajeroId, t) :- AltaUsuario(s, dto, Cajero, EstadoUsuario.EnEspera, Some(actorId));
    var accion := AccionPersonal(cajeroId, AltaEmpleado, EstadoAccion.EnEspera, actor.sucursal, actorId, None, Some(OBS_ALTA_CAJERO));
    Success((cajeroId, t.(acciones := t.acciones[t.nextId := accion], nextId := t.nextId + 1)))
  }

  /** What every creation requires of the request once the actor is accepted. */
  predicate SolicitudValida(s: Store, dto: UsuarioCreateDTO, rol: Rol) {
    && dto.rol == Some(rol)
    && dto.personaId.Some? && dto.personaId.value in s.personas
    && (dto.sucursalId.Some? ==> dto.sucursalId.value in s.sucursales)
  }

  /** The user a creation stores: the request's person, credentials and
      branch with the given role, state and creator. */
  predicate UsuarioCreado(u: Usuario, dto: UsuarioCreateDTO, rol: Rol, estado: EstadoUsuario, creadoPor: Option<Id>) {
    && u.persona == dto.personaId && u.username == dto.username && u.password == dto.password
    && u.rol == rol && u.estado == estado && u.sucursal == dto.sucursalId && u.creadoPor == creadoPor
  }

  /** A self-registered customer is stored ACTIVO with no creator, exactly
      when the request asks for CLIENTE and names a stored person (and a
      stored branch, if any); nothing else changes. */
  lemma CrearClientePorClienteEffect(s: Store, dto: UsuarioCreateDTO)
    requires Valid(s)
    ensures CrearClientePorCliente(s, dto).Success? <==> SolicitudValida(s, dto, Cliente)
    ensures AltaFallaCon(s, dto, Cliente, CrearClientePorCliente(s, dto))
    ensures CrearClientePorCliente(s, dto).Success? ==>
      var (id, t) := CrearClientePorCliente(s, dto).value;
      && id == s.nextId && id !in s.usuarios
      && t.usuarios == s.usuarios[id := t.usuarios[id]]
      && UsuarioCreado(t.usuarios[id], dto, Cliente, EstadoUsuario.Activo, None)
      && t.(usuarios := s.usuarios, nextId := s.nextId) == s
  {
  }

  /** A customer or collaborator created by a cashier is stored ACTIVO with
      that cashier as creator. The cashier check comes first: an actor who is
      not CAJERO is refused with SecurityException whatever the request. */
  lemma CrearPorCajeroEffect(s: Store, actorId: Id, dto: UsuarioCreateDTO, colaborador: bool)
    requires Valid(s)
    ensures var rol := if colaborador then Colaborador else Cliente;
      var r := if colaborador then CrearColaboradorPorCajero(s, actorId, dto) else CrearClientePorCajero(s, actorId, dto);
      && (r.Success? <==> actorId in s.usuarios && s.usuarios[actorId].rol == Cajero && SolicitudValida(s, dto, rol))
      && (actorId in s.usuarios && s.usuarios[actorId].rol != Cajero ==> r.Failure? && r.error.kind == Security)
      && ActorFallaCon(s, actorId, Cajero, r)
      && (actorId in s.usuarios && s.usuarios[actorId].rol == Cajero ==> AltaFallaCon(s, dto, rol, r))
      && (r.Success? ==>
            var (id, t) := r.value;
            && id == s.nextId && id !in s.usuarios
            && t.usuarios == s.usuarios[id := t.usuarios[id]]
            && UsuarioCreado(t.usuarios[id], dto, rol, EstadoUsuario.Activo, Some(actorId))
            && t.(usuarios := s.usuarios, nextId := s.nextId) == s)
  {
  }

  /** A branch manager's new cashier is stored EN_ESPERA, and one
      ALTA_EMPLEADO action EN_ESPERA is filed for them under the next id, with
      the manager's branch, the manager as author and no approver yet. A user
      who is not GERENTE_SUCURSAL is refused with SecurityException. */
  lemma CrearCajeroEffect(s: Store, actorId: Id, dto: UsuarioCreateDTO)
    requires Valid(s)
    ensures CrearCajeroPorGerenteSucursal(s, actorId, dto).Success? <==>
      actorId in s.usuarios && s.usuarios[actorId].rol == GerenteSucursal && SolicitudValida(s, dto, Cajero)
    ensures actorId in s.usuarios && s.usuarios[actorId].rol != GerenteSucursal ==>
      CrearCajeroPorGerenteSucursal(s, actorId, dto).Failure? && CrearCajeroPorGerenteSucursal(s, actorId, dto).error.kind == Security
    ensures ActorFallaCon(s, actorId, GerenteSucursal, CrearCajeroPorGerenteSucursal(s, actorId, dto))
    ensures actorId in s.usuarios && s.usuarios[actorId].rol == GerenteSucursal ==>
      AltaFallaCon(s, dto, Cajero, CrearCajeroPorGerenteSucursal(s, actorId, dto))
    ensures CrearCajeroPorGerenteSucursal(s, actorId, dto).Success? ==>
      var (id, t) := CrearCajeroPorGerenteSucursal(s, actorId, dto).value;
      var a := id + 1;
      && id == s.nextId && id !in s.usuarios && a !in s.acciones && t.nextId == s.nextId + 2
      && t.usuarios == s.usuarios[id := t.usuarios[id]]
      && UsuarioCreado(t.usuarios[id], dto, Cajero, EstadoUsuario.EnEspera, Some(actorId))
      && t.acciones == s.acciones[a := AccionPersonal(id, AltaEmpleado, EstadoAccion.EnEspera, s.usuarios[actorId].sucursal,
                                                      actorId, None, Some(OBS_ALTA_CAJERO))]
      && t.(usuarios := s.usuarios, acciones := s.acciones, nextId := s.nextId) == s
  {
  }

  /** Adding a user whose person is stored keeps the store valid. */
  lemma AltaUsuarioPreservesValid(s: Store, dto: UsuarioCreateDTO, rol: Rol, estado: EstadoUsuario, creadoPor: Option<Id>)
    requires Valid(s)
    requires AltaUsuario(s, dto, rol, estado, creadoPor).Success?
    ensures Valid(AltaUsuario(s, dto, rol, estado, creadoPor).value.1)
  {
    var t := AltaUsuario(s, dto, rol, estado, creadoPor).value.1;
    forall i | 0 <= i < |t.transacciones| ensures AccountsBelow(t.transacciones[i], t.nextId) {
      assert AccountsBelow(s.transacciones[i], s.nextId);
    }
  }

  /** Each of the four creations keeps the store valid. */
  lemma CrearClientePorClientePreservesValid(s: Store, dto: UsuarioCreateDTO)
    requires Valid(s)
    requires CrearClientePorCliente(s, dto).Success?
    ensures Valid(CrearClientePorCliente(s, dto).value.1)
  {
    AltaUsuarioPreservesValid(s, dto, Cliente, EstadoUsuario.Activo, None);
  }

  lemma CrearClientePorCajeroPreservesValid(s: Store, actorId: Id, dto: UsuarioCreateDTO)
    requires Valid(s)
    requires CrearClientePorCajero(s, actorId, dto).Success?
    ensures Valid(CrearClientePorCajero(s, actorId, dto).value.1)
  {
    AltaUsuarioPreservesValid(s, dto, Cliente, EstadoUsuario.Activo, Some(actorId));
  }

  lemma CrearColaboradorPorCajeroPreservesValid(s: Store, actorId: Id, dto: UsuarioCreateDTO)
    requires Valid(s)
    requires CrearColaboradorPorCajero(s, actorId, dto).Success?
    ensures Valid(CrearColaboradorPorCajero(s, actorId, dto).value.1)
  {
    AltaUsuarioPreservesValid(s, dto, Colaborador, EstadoUsuario.Activo, Some(actorId));
  }

  lemma CrearCajeroPreservesValid(s: Store, actorId: Id, dto: UsuarioCreateDTO)
    requires Valid(s)
    requires CrearCajeroPorGerenteSucursal(s, actorId, dto).Success?
    ensures Valid(CrearCajeroPorGerenteSucursal(s, actorId, dto).value.1)
  {
    AltaUsuarioPreservesValid(s, dto, Cajero, EstadoUsuario.EnEspera, Some(actorId));
    var t := AltaUsuario(s, dto, Cajero, EstadoUsuario.EnEspera, Some(actorId)).value.1;
    var u := CrearCajeroPorGerenteSucursal(s, actorId, dto).value.1;
    assert u.transacciones == t.transacciones && u.cuentas == t.cuentas;
    forall i | 0 <= i < |u.transacciones| ensures AccountsBelow(u.transacciones[i], u.nextId) {
      assert AccountsBelow(t.transacciones[i], t.nextId);
    }
  }

  // ---------------------------------------------------------------------
  // Personnel actions
  // ---------------------------------------------------------------------

  /** The shared guard chain of approve and reject: a general manager and an
      action still EN_ESPERA; on success, the action and its employee. */
  function AccionGestionable(s: Store, actorId: Id, accionId: Id): (r: Outcome<(AccionPersonal, Usuario)>)
    ensures r.Success? ==> accionId in s.acciones && r.value.0 == s.acciones[accionId]
    ensures r.Success? ==> r.value.0.empleado in s.usuarios && r.value.1 == s.usuarios[r.value.0.empleado]
  {
    var _ :- ActorConRol(s, actorId, GerenteGeneral);
    var accion :- FindById(s.acciones, accionId, AccionNoEncontrada);
    :- Need(accion.estado == EstadoAccion.EnEspera, Error(IllegalState, AccionYaGestionada));
    var empleado :- Deref(s.usuarios, accion.empleado);
    Success((accion, empleado))
  }

  /** Resolving an action: its new state and manager (and, on rejection, its
      observaciones), and the new state of the employee it concerns. */
  function ResolverAccion(s: Store, actorId: Id, accionId: Id, estado: EstadoAccion,
                          observaciones: Option<Option<string>>, estadoEmpleado: EstadoUsuario): Outcome<Store> {
    var (accion, empleado) :- AccionGestionable(s, actorId, accionId);
    var resuelta := accion.(estado := estado, gestionadoPor := Some(actorId),
                            observaciones := if observaciones.Some? then observaciones.value else accion.observaciones);
    Success(s.(acciones := s.acciones[accionId := resuelta],
               usuarios := s.usuarios[accion.empleado := empleado.(estado := estadoEmpleado)]))
  }

  /** `aprobarAccionPersonal`: the action is APROBADO and the employee ACTIVO. */
  function AprobarAccionPersonal(s: Store, actorId: Id, accionId: Id): Outcome<Store> {
    ResolverAccion(s, actorId, accionId, EstadoAccion.Aprobado, None, EstadoUsuario.Activo)
  }

  /** `rechazarAccionPersonal`: the action is RECHAZADO with the given
      observaciones (possibly null) and the employee INACTIVO. */
  function RechazarAccionPersonal(s: Store, actorId: Id, accionId: Id, observaciones: Option<string>): Outcome<Store> {
    ResolverAccion(s, actorId, accionId, EstadoAccion.Rechazado, Some(observaciones), EstadoUsuario.Inactivo)
  }

  predicate PuedeResolver(s: Store, actorId: Id, accionId: Id) {
    && actorId in s.usuarios && s.usuarios[actorId].rol == GerenteGeneral
    && accionId in s.acciones && s.acciones[accionId].estado == EstadoAccion.EnEspera
  }

  /** The errors of approve and reject in source order: the actor's, then an
      unknown action (IllegalArgumentException), then any stored action that
      is no longer EN_ESPERA (IllegalStateException). */
  predicate ResolucionFallaCon(s: Store, actorId: Id, accionId: Id, r: Outcome<Store>) {
    && ActorFallaCon(s, actorId, GerenteGeneral, r)
    && (actorId in s.usuarios && s.usuarios[actorId].rol == GerenteGeneral && accionId !in s.acciones ==>
          r == Failure(Error(IllegalArgument, AccionNoEncontrada)))
    && (actorId in s.usuarios && s.usuarios[actorId].rol == GerenteGeneral && accionId in s.acciones
        && s.acciones[accionId].estado != EstadoAccion.EnEspera ==>
          r == Failure(Error(IllegalState, AccionYaGestionada)))
  }

  /** Approval needs a GERENTE_GENERAL and an action EN_ESPERA; it sets the
      action APROBADO with the actor as manager and the employee ACTIVO, and
      changes nothing else. The role is checked before the action is looked up. */
  lemma AprobarAccionPersonalEffect(s: Store, actorId: Id, accionId: Id)
    requires Valid(s)
    ensures AprobarAccionPersonal(s, actorId, accionId).Success? <==> PuedeResolver(s, actorId, accionId)
    ensures actorId in s.usuarios && s.usuarios[actorId].rol != GerenteGeneral ==>
      AprobarAccionPersonal(s, actorId, accionId).Failure? && AprobarAccionPersonal(s, actorId, accionId).error.kind == Security
    ensures ResolucionFallaCon(s, actorId, accionId, AprobarAccionPersonal(s, actorId, accionId))
    ensures AprobarAccionPersonal(s, actorId, accionId).Success? ==>
      var t := AprobarAccionPersonal(s, actorId, accionId).value;
      var a := s.acciones[accionId];
      && t.acciones == s.acciones[accionId := a.(estado := EstadoAccion.Aprobado, gestionadoPor := Some(actorId))]
      && t.usuarios == s.usuarios[a.empleado := s.usuarios[a.empleado].(estado := EstadoUsuario.Activo)]
      && t.(acciones := s.acciones, usuarios := s.usuarios) == s
  {
  }

  /** Rejection needs the same; it sets the action RECHAZADO with the actor as
      manager and the given observaciones, and the employee INACTIVO. */
  lemma RechazarAccionPersonalEffect(s: Store, actorId: Id, accionId: Id, observaciones: Option<string>)
    requires Valid(s)
    ensures RechazarAccionPersonal(s, actorId, accionId, observaciones).Success? <==> PuedeResolver(s, actorId, accionId)
    ensures actorId in s.usuarios && s.usuarios[actorId].rol != GerenteGeneral ==>
      RechazarAccionPersonal(s, actorId, accionId, observaciones).Failure?
      && RechazarAccionPersonal(s, actorId, accionId, observaciones).error.kind == Security
    ensures ResolucionFallaCon(s, actorId, accionId, RechazarAccionPersonal(s, actorId, accionId, observaciones))
    ensures RechazarAccionPersonal(s, actorId, accionId, observaciones).Success? ==>
      var t := RechazarAccionPersonal(s, actorId, accionId, observaciones).value;
      var a := s.acciones[accionId];
      && t.acciones == s.acciones[accionId := a.(estado := EstadoAccion.Rechazado, gestionadoPor := Some(actorId), observaciones := observaciones)]
      && t.usuarios == s.usuarios[a.empleado := s.usuarios[a.empleado].(estado := EstadoUsuario.Inactivo)]
      && t.(acciones := s.acciones, usuarios := s.usuarios) == s
  {
  }

  /** An action is resolved at most once: once approved or rejected, a
      general manager's further approval or rejection (even by the action's
      own employee) is an IllegalStateException, and the employee's state
      stays as the first resolution left it. */
  lemma AccionResueltaUnaSolaVez(s: Store, actorId: Id, accionId: Id, observaciones: Option<string>, aprobada: bool,
                                 otroActor: Id, otrasObservaciones: Option<string>)
    requires Valid(s)
    requires aprobada ==> AprobarAccionPersonal(s, actorId, accionId).Success?
    requires !aprobada ==> RechazarAccionPersonal(s, actorId, accionId, observaciones).Success?
    requires otroActor in s.usuarios && s.usuarios[otroActor].rol == GerenteGeneral
    ensures var t := if aprobada then AprobarAccionPersonal(s, actorId, accionId).value
                     else RechazarAccionPersonal(s, actorId, accionId, observaciones).value;
      && t.usuarios[s.acciones[accionId].empleado].estado == (if aprobada then EstadoUsuario.Activo else EstadoUsuario.Inactivo)
      && AprobarAccionPersonal(t, otroActor, accionId) == Failure(Error(IllegalState, AccionYaGestionada))
      && RechazarAccionPersonal(t, otroActor, accionId, otrasObservaciones) == Failure(Error(IllegalState, AccionYaGestionada))
  {
    AprobarAccionPersonalEffect(s, actorId, accionId);
    RechazarAccionPersonalEffect(s, actorId, accionId, observaciones);
  }

  lemma ResolverAccionPreservesValid(s: Store, actorId: Id, accionId: Id, aprobada: bool, observaciones: Option<string>)
    requires Valid(s)
    requires aprobada ==> AprobarAccionPersonal(s, actorId, accionId).Success?
    requires !aprobada ==> RechazarAccionPersonal(s, actorId, accionId, observaciones).Success?
    ensures aprobada ==> Valid(AprobarAccionPersonal(s, actorId, accionId).value)
    ensures !aprobada ==> Valid(RechazarAccionPersonal(s, actorId, accionId, observaciones).value)
  {
  }

  // ---------------------------------------------------------------------
  // Dismissals
  // ---------------------------------------------------------------------

  /** `darDeBajaEmpleado`: any user not yet INACTIVO becomes INACTIVO and a
      BAJA_EMPLEADO action, already APROBADO, is filed under the next id. */
  function DarDeBajaEmpleado(s: Store, actorId: Id, empleadoId: Id): Outcome<Store> {
    var actor :- ActorConRol(s, actorId, GerenteSucursal);
    var empleado :- FindById(s.usuarios, empleadoId, UsuarioNoEncontrado);
    :- Need(empleado.estado != EstadoUsuario.Inactivo, Error(IllegalState, EmpleadoYaInactivo));
    var accion := AccionPersonal(empleadoId, BajaEmpleado, EstadoAccion.Aprobado, actor.sucursal, actorId, None, Some(OBS_BAJA_EMPLEADO));
    Success(s.(usuarios := s.usuarios[empleadoId := empleado.(estado := EstadoUsuario.Inactivo)],
               acciones := s.acciones[s.nextId := accion],
               nextId := s.nextId + 1))
  }

  /** A branch manager dismisses a user exactly when that user exists and is
      not INACTIVO yet; the role is checked before the target is looked up.
      An unknown actor or target is an IllegalArgumentException, a wrong role
      a SecurityException and a target already INACTIVO an
      IllegalStateException.
      The user becomes INACTIVO and one BAJA_EMPLEADO action APROBADO is filed;
      nothing else changes. */
  lemma DarDeBajaEmpleadoEffect(s: Store, actorId: Id, empleadoId: Id)
    requires Valid(s)
    ensures DarDeBajaEmpleado(s, actorId, empleadoId).Success? <==>
      && actorId in s.usuarios && s.usuarios[actorId].rol == GerenteSucursal
      && empleadoId in s.usuarios && s.usuarios[empleadoId].estado != EstadoUsuario.Inactivo
    ensures actorId !in s.usuarios ==> DarDeBajaEmpleado(s, actorId, empleadoId) == Failure(Error(IllegalArgument, UsuarioNoEncontrado))
    ensures actorId in s.usuarios && s.usuarios[actorId].rol != GerenteSucursal ==>
      DarDeBajaEmpleado(s, actorId, empleadoId) == Failure(Error(Security, RolNoPermitido))
    ensures actorId in s.usuarios && s.usuarios[actorId].rol == GerenteSucursal && empleadoId !in s.usuarios ==>
      DarDeBajaEmpleado(s, actorId, empleadoId) == Failure(Error(IllegalArgument, UsuarioNoEncontrado))
    ensures actorId in s.usuarios && s.usuarios[actorId].rol == GerenteSucursal
            && empleadoId in s.usuarios && s.usuarios[empleadoId].estado == EstadoUsuario.Inactivo ==>
      DarDeBajaEmpleado(s, actorId, empleadoId) == Failure(Error(IllegalState, EmpleadoYaInactivo))
    ensures DarDeBajaEmpleado(s, actorId, empleadoId).Success? ==>
      var t := DarDeBajaEmpleado(s, actorId, empleadoId).value;
      && t.usuarios == s.usuarios[empleadoId := s.usuarios[empleadoId].(estado := EstadoUsuario.Inactivo)]
      && s.nextId !in s.acciones
      && t.acciones == s.acciones[s.nextId := AccionPersonal(empleadoId, BajaEmpleado, EstadoAccion.Aprobado,
                                                             s.usuarios[actorId].sucursal, actorId, None, Some(OBS_BAJA_EMPLEADO))]
      && t.(usuarios := s.usuarios, acciones := s.acciones, nextId := s.nextId) == s
  {
  }

  /** A dismissal cannot be repeated: the second one, by any branch manager
      (the dismissed user included), is an IllegalStateException. */
  lemma DarDeBajaUnaSolaVez(s: Store, actorId: Id, empleadoId: Id, otroActor: Id)
    requires Valid(s)
    requires DarDeBajaEmpleado(s, actorId, empleadoId).Success?
    requires otroActor in s.usuarios && s.usuarios[otroActor].rol == GerenteSucursal
    ensures DarDeBajaEmpleado(DarDeBajaEmpleado(s, actorId, empleadoId).value, otroActor, empleadoId)
            == Failure(Error(IllegalState, EmpleadoYaInactivo))
  {
    DarDeBajaEmpleadoEffect(s, actorId, empleadoId);
  }

  /** The BAJA_EMPLEADO action a dismissal files is already APROBADO, so a
      general manager's approval or rejection of it is an IllegalStateException
      and leaves the dismissed user INACTIVO. */
  lemma BajaYaGestionada(s: Store, actorId: Id, empleadoId: Id, otroActor: Id, observaciones: Option<string>)
    requires Valid(s)
    requires DarDeBajaEmpleado(s, actorId, empleadoId).Success?
    requires otroActor in s.usuarios && s.usuarios[otroActor].rol == GerenteGeneral
    ensures var t := DarDeBajaEmpleado(s, actorId, empleadoId).value;
      && s.nextId in t.acciones && t.acciones[s.nextId].tipoAccion == BajaEmpleado
      && AprobarAccionPersonal(t, otroActor, s.nextId) == Failure(Error(IllegalState, AccionYaGestionada))
      && RechazarAccionPersonal(t, otroActor, s.nextId, observaciones) == Failure(Error(IllegalState, AccionYaGestionada))
  {
    DarDeBajaEmpleadoEffect(s, actorId, empleadoId);
  }

  lemma DarDeBajaEmpleadoPreservesValid(s: Store, actorId: Id, empleadoId: Id)
    requires Valid(s)
    requires DarDeBajaEmpleado(s, actorId, empleadoId).Success?
    ensures Valid(DarDeBajaEmpleado(s, actorId, empleadoId).value)
  {
    var t := DarDeBajaEmpleado(s, actorId, empleadoId).value;
    forall i | 0 <= i < |t.transacciones| ensures AccountsBelow(t.transacciones[i], t.nextId) {
      assert AccountsBelow(s.transacciones[i], s.nextId);
    }
  }
}
