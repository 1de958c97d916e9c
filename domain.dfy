/** Entities of the bank (the JPA classes under model/), the service errors,
    the store that replaces the Spring Data repositories, and the lookups and
    guards every service shares. */
module Domain {
  import opened Common
  import opened Dates

  // ---------------------------------------------------------------------
  // Entities
  // ---------------------------------------------------------------------

  datatype Rol = Cliente | Colaborador | Cajero | GerenteSucursal | GerenteGeneral | Limpieza | Secretaria | Asesor

  datatype EstadoUsuario = Activo | Inactivo | EnEspera

  /** Usuario: a login with one role; `persona` is the linked person record. */
  datatype Usuario = Usuario(
    persona: Option<Id>,
    username: string,
    password: string,
    rol: Rol,
    estado: EstadoUsuario,
    sucursal: Option<Id>,
    creadoPor: Option<Id>)

  datatype EstadoPersona = Activo | Inactivo

  /** Persona: identity document (dui) and salary in cents. */
  datatype Persona = Persona(
    dui: string,
    nombreCompleto: string,
    fechaNacimiento: Option<Date>,
    salario: Option<int>,
    direccion: Option<string>,
    telefono: Option<string>,
    email: Option<string>,
    estado: EstadoPersona)

  datatype TipoCuenta = Ahorros | Corriente

  /** Cuenta: balances in cents; `activa` is a nullable Boolean column. */
  datatype Cuenta = Cuenta(
    numeroCuenta: string,
    cliente: Id,
    tipoCuenta: TipoCuenta,
    saldo: int,
    saldoDisponible: int,
    activa: Option<bool>,
    creadaPor: Option<Id>,
    sucursal: Option<Id>)

  datatype TipoTransaccion = Deposito | Retiro | Transferencia | Comision | DepositoPrestamo | PagoPrestamo

  /** The free-text reference of a transaction: the caller's text (possibly
      null), or one of the two texts the loan service builds from an id. */
  datatype Referencia = Texto(texto: Option<string>) | PagoDePrestamo(prestamo: Id) | DepositoDeSolicitud(solicitud: Id)

  /** Transaccion: `cuenta` is the account of a direct deposit or withdrawal;
      `ejecutor` is the acting user. Its id is its position in the store. */
  datatype Transaccion = Transaccion(
    tipo: TipoTransaccion,
    monto: int,
    comision: int,
    cuentaOrigen: Option<Id>,
    cuentaDestino: Option<Id>,
    cuenta: Option<Id>,
    ejecutor: Id,
    referencia: Referencia,
    metadata: Option<map<string, string>>)

  datatype EstadoComision = Pendiente | Pagada

  /** ComisionColaborador: `porcentaje` in hundredths of a percent (5.00 is 500);
      `transaccion` is the position of its transaction in the store. */
  datatype ComisionColaborador = ComisionColaborador(
    colaborador: Id,
    transaccion: nat,
    montoComision: int,
    porcentaje: int,
    estado: EstadoComision)

  datatype EstadoCaso = EnEspera | Aprobado | Rechazado

  /** The observaciones of a loan application: free text, or the caller's text
      followed by the underwriting preview (rate in basis points, installment in
      cents, term in hundredths of a year), whose exact formatting is not modelled. */
  datatype Nota =
    | NotaLibre(texto: string)
    | NotaConVistaPrevia(prefijo: Option<string>, tasa: int, cuotaMensual: int, plazoAnios: int, duiCliente: Option<string>)

  datatype SolicitudPrestamo = SolicitudPrestamo(
    cliente: Id,
    montoSolicitado: int,
    estadoCaso: EstadoCaso,
    cuentaDestino: Option<Id>,
    solicitadoPor: Option<Id>,
    gestionadoPor: Option<Id>,
    observaciones: Nota)

  datatype EstadoPrestamo = Activo | Cancelado

  /** Prestamo: `tasaInteres` in basis points, money in cents, `plazoAnios` in
      whole years. */
  datatype Prestamo = Prestamo(
    solicitud: Id,
    cliente: Id,
    montoAprobado: int,
    tasaInteres: int,
    saldoPendiente: int,
    plazoAnios: int,
    cuotaMensual: int,
    fechaVencimiento: Date,
    proximoPago: Option<Date>,
    cuentaDestino: Id,
    aprobadoPor: Id,
    estado: EstadoPrestamo)

  datatype TipoAccion = AltaEmpleado | BajaEmpleado | CambioRol

  datatype EstadoAccion = Aprobado | Rechazado | EnEspera

  datatype AccionPersonal = AccionPersonal(
    empleado: Id,
    tipoAccion: TipoAccion,
    estado: EstadoAccion,
    sucursal: Option<Id>,
    generadoPor: Id,
    gestionadoPor: Option<Id>,
    observaciones: Option<string>)

  // ---------------------------------------------------------------------
  // Errors: the exception class thrown and which check threw it
  // ---------------------------------------------------------------------

  datatype Kind =
    | IllegalArgument      // IllegalArgumentException
    | IllegalState         // IllegalStateException
    | Security             // SecurityException
    | NullPointer          // NullPointerException from dereferencing a null amount
    | IncorrectResultSize  // a unique lookup that matched several rows
    | EntityNotFound       // a stored reference whose target row is missing
    | Arithmetic           // ArithmeticException: a BigDecimal division by zero

  datatype Reason =
    | UsuarioNoEncontrado | CreadorNoEncontrado | PersonaNoEncontrada | UsuarioDePersonaNoEncontrado
    | CuentaNoEncontrada | SolicitudNoEncontrada | PrestamoNoEncontrado | AccionNoEncontrada
    | SucursalNoEncontrada | ReferenciaRota | ResultadoNoUnico
    | RolNoPermitido | CuentaAjena | CuentaInactiva
    | MontoNoPositivo | MontoNulo | SaldoInsuficiente
    | CreadorNoPermitido | MaximoCuentas | RolSinCuentas
    | ClienteSinPersona | SalarioInvalido | MontoExcedeMaximo | PlazoInviable | CuotaExcedeTope
    | CasoYaGestionado | SolicitudNoAprobada | PrestamoSoloCliente | CuentaDestinoNula | PagoNoPermitido
    | RolObjetivoDistinto | AccionYaGestionada | EmpleadoYaInactivo | DivisionPorCero | IdNulo

  datatype Error = Error(kind: Kind, reason: Reason)

  type Outcome<T> = Result<T, Error>

  // ---------------------------------------------------------------------
  // The store: one map per repository, the two append-only logs, and the
  // identity generator shared by all tables
  // ---------------------------------------------------------------------

  datatype Store = Store(
    usuarios: map<Id, Usuario>,
    personas: map<Id, Persona>,
    sucursales: set<Id>,
    cuentas: map<Id, Cuenta>,
    solicitudes: map<Id, SolicitudPrestamo>,
    prestamos: map<Id, Prestamo>,
    acciones: map<Id, AccionPersonal>,
    transacciones: seq<Transaccion>,
    comisiones: seq<ComisionColaborador>,
    nextId: Id)

  /** Every account a transaction names has an id below `n`. */
  predicate AccountsBelow(tx: Transaccion, n: Id) {
    && (tx.cuentaOrigen.Some? ==> tx.cuentaOrigen.value < n)
    && (tx.cuentaDestino.Some? ==> tx.cuentaDestino.value < n)
    && (tx.cuenta.Some? ==> tx.cuenta.value < n)
  }

  /** Every stored id was issued by the generator, so `nextId` is fresh. */
  predicate IdsIssued(s: Store) {
    && (forall i :: 0 <= i < |s.transacciones| ==> AccountsBelow(s.transacciones[i], s.nextId))
    && (forall k :: k in s.usuarios ==> k < s.nextId)
    && (forall k :: k in s.personas ==> k < s.nextId)
    && (forall k :: k in s.cuentas ==> k < s.nextId)
    && (forall k :: k in s.solicitudes ==> k < s.nextId)
    && (forall k :: k in s.prestamos ==> k < s.nextId)
    && (forall k :: k in s.acciones ==> k < s.nextId)
  }

  /** The foreign keys the services dereference point at stored rows. */
  predicate ReferencesResolve(s: Store) {
    && (forall k :: k in s.usuarios && s.usuarios[k].persona.Some? ==> s.usuarios[k].persona.value in s.personas)
    && (forall k :: k in s.cuentas ==> s.cuentas[k].cliente in s.usuarios)
    && (forall k :: k in s.solicitudes ==> s.solicitudes[k].cliente in s.usuarios)
    && (forall k :: k in s.prestamos ==> s.prestamos[k].cliente in s.usuarios)
    && (forall k :: k in s.acciones ==> s.acciones[k].empleado in s.usuarios)
    && (forall i :: 0 <= i < |s.comisiones| ==> s.comisiones[i].transaccion < |s.transacciones|)
  }

  /** The ledger invariant: both balances of an account move together and
      never go below zero. */
  predicate BalancesSound(cuentas: map<Id, Cuenta>) {
    forall k :: k in cuentas ==> cuentas[k].saldo == cuentas[k].saldoDisponible && cuentas[k].saldoDisponible >= 0
  }

  /** Next-payment dates are dates a LocalDate can hold. */
  predicate DatesValid(s: Store) {
    forall k :: k in s.prestamos && s.prestamos[k].proximoPago.Some? ==> ValidDate(s.prestamos[k].proximoPago.value)
  }

  /** What a transaction does to the balance of account `a`: deposits add,
      withdrawals and loan payments subtract, a transfer subtracts from its
      origin and adds to its destination. A loan disbursement is recorded but
      credits nothing, as the loan service is written. */
  function Efecto(tx: Transaccion, a: Id): int {
    match tx.tipo
    case Deposito => if tx.cuenta == Some(a) then tx.monto else 0
    case Retiro => if tx.cuenta == Some(a) then -tx.monto else 0
    case PagoPrestamo => if tx.cuenta == Some(a) then -tx.monto else 0
    case Transferencia =>
      (if tx.cuentaDestino == Some(a) then tx.monto else 0) - (if tx.cuentaOrigen == Some(a) then tx.monto else 0)
    case Comision => 0
    case DepositoPrestamo => 0
  }

  /** The balance of account `a` that the transaction log accounts for. */
  function SaldoSegunRegistro(log: seq<Transaccion>, a: Id): int {
    if log == [] then 0 else SaldoSegunRegistro(log[..|log| - 1], a) + Efecto(log[|log| - 1], a)
  }

  /** Every balance is explained by the transactions recorded against it. */
  predicate LedgerMatchesLog(s: Store) {
    forall a :: a in s.cuentas ==> s.cuentas[a].saldo == SaldoSegunRegistro(s.transacciones, a)
  }

  predicate Valid(s: Store) {
    IdsIssued(s) && ReferencesResolve(s) && BalancesSound(s.cuentas) && DatesValid(s) && LedgerMatchesLog(s)
  }

  /** Appending a transaction adds exactly its effect to every account's
      log balance. */
  lemma {:induction false} SaldoSegunRegistroAppend(log: seq<Transaccion>, tx: Transaccion, a: Id)
    ensures SaldoSegunRegistro(log + [tx], a) == SaldoSegunRegistro(log, a) + Efecto(tx, a)
  {
    assert (log + [tx])[..|log + [tx]| - 1] == log;
  }

  /** An account no logged transaction names has a log balance of zero, so a
      new account (saldo 0.00) agrees with the log. */
  lemma {:induction false} SaldoSegunRegistroFresh(log: seq<Transaccion>, a: Id)
    requires forall i :: 0 <= i < |log| ==> AccountsBelow(log[i], a)
    ensures SaldoSegunRegistro(log, a) == 0
  {
    if log != [] {
      var init := log[..|log| - 1];
      forall i | 0 <= i < |init| ensures AccountsBelow(init[i], a) {
        assert init[i] == log[i];
      }
      SaldoSegunRegistroFresh(init, a);
    }
  }

  /** Storing a new account under the next id, owned by a stored user and with
      both balances at zero, keeps the store valid. */
  lemma AltaCuentaPreservesValid(s: Store, c: Cuenta)
    requires Valid(s)
    requires c.cliente in s.usuarios && c.saldo == 0 && c.saldoDisponible == 0
    ensures Valid(s.(cuentas := s.cuentas[s.nextId := c], nextId := s.nextId + 1))
  {
    AltaCuentaIds(s, c);
    AltaCuentaLedger(s, c);
  }

  lemma AltaCuentaIds(s: Store, c: Cuenta)
    requires IdsIssued(s)
    ensures IdsIssued(s.(cuentas := s.cuentas[s.nextId := c], nextId := s.nextId + 1))
  {
    var t := s.(cuentas := s.cuentas[s.nextId := c], nextId := s.nextId + 1);
    forall i | 0 <= i < |t.transacciones| ensures AccountsBelow(t.transacciones[i], t.nextId) {
      assert AccountsBelow(s.transacciones[i], s.nextId);
    }
  }

  lemma AltaCuentaLedger(s: Store, c: Cuenta)
    requires IdsIssued(s) && LedgerMatchesLog(s) && c.saldo == 0
    ensures LedgerMatchesLog(s.(cuentas := s.cuentas[s.nextId := c], nextId := s.nextId + 1))
  {
    var t := s.(cuentas := s.cuentas[s.nextId := c], nextId := s.nextId + 1);
    forall a | a in t.cuentas ensures t.cuentas[a].saldo == SaldoSegunRegistro(t.transacciones, a) {
      if a == s.nextId {
        SaldoSegunRegistroFresh(s.transacciones, a);
      }
    }
  }

  /** Storing a new application of a stored user under the next id keeps
      the store valid. */
  lemma AltaSolicitudPreservesValid(s: Store, sol: SolicitudPrestamo)
    requires Valid(s)
    requires sol.cliente in s.usuarios
    ensures Valid(s.(solicitudes := s.solicitudes[s.nextId := sol], nextId := s.nextId + 1))
  {
    var t := s.(solicitudes := s.solicitudes[s.nextId := sol], nextId := s.nextId + 1);
    forall i | 0 <= i < |t.transacciones| ensures AccountsBelow(t.transacciones[i], t.nextId) {
      assert AccountsBelow(s.transacciones[i], s.nextId);
    }
  }

  /** Storing a loan of a stored user, with a valid next-payment date, under
      an issued id keeps the store valid; `n` may move the generator on. */
  lemma GuardarPrestamoPreservesValid(s: Store, id: Id, p: Prestamo, n: Id)
    requires Valid(s)
    requires id < n && s.nextId <= n
    requires p.cliente in s.usuarios && (p.proximoPago.Some? ==> ValidDate(p.proximoPago.value))
    ensures Valid(s.(prestamos := s.prestamos[id := p], nextId := n))
  {
    GuardarPrestamoIds(s, id, p, n);
  }

  lemma GuardarPrestamoIds(s: Store, id: Id, p: Prestamo, n: Id)
    requires IdsIssued(s)
    requires id < n && s.nextId <= n
    ensures IdsIssued(s.(prestamos := s.prestamos[id := p], nextId := n))
  {
    var t := s.(prestamos := s.prestamos[id := p], nextId := n);
    forall i | 0 <= i < |t.transacciones| ensures AccountsBelow(t.transacciones[i], t.nextId) {
      assert AccountsBelow(s.transacciones[i], s.nextId);
    }
  }

  /** The empty bank. */
  const EmptyStore: Store := Store(map[], map[], {}, map[], map[], map[], map[], [], [], 0)

  lemma EmptyStoreValid()
    ensures Valid(EmptyStore)
  {
  }

  // ---------------------------------------------------------------------
  // Lookups (`findById(..).orElseThrow(..)` and the unique finders)
  // ---------------------------------------------------------------------

  /** `repository.findById(id).orElseThrow(IllegalArgumentException)`. */
  function FindById<T>(m: map<Id, T>, id: Id, reason: Reason): (r: Outcome<T>)
    ensures r.Success? <==> id in m
    ensures r.Success? ==> r.value == m[id]
    ensures r.Failure? ==> r.error == Error(IllegalArgument, reason)
  {
    if id in m then Success(m[id]) else Failure(Error(IllegalArgument, reason))
  }

  /** Loading the row a stored foreign key points at. */
  function Deref<T>(m: map<Id, T>, id: Id): (r: Outcome<T>)
    ensures r.Success? <==> id in m
    ensures r.Success? ==> r.value == m[id]
  {
    if id in m then Success(m[id]) else Failure(Error(EntityNotFound, ReferenciaRota))
  }

  lemma SingletonUnique(ids: set<Id>)
    requires |ids| == 1
    ensures forall a, b :: a in ids && b in ids ==> a == b
  {
    var x :| x in ids;
    assert |ids - {x}| == 0;
    assert ids - {x} == {};
  }

  /** A finder returning `Optional`: none is `notFound`, several is an
      IncorrectResultSize failure, exactly one is that id. */
  function TheOnly(ids: set<Id>, notFound: Reason): (r: Outcome<Id>)
    ensures r.Success? <==> |ids| == 1
    ensures r.Success? ==> ids == {r.value}
    ensures |ids| == 0 ==> r == Failure(Error(IllegalArgument, notFound))
    ensures |ids| > 1 ==> r == Failure(Error(IncorrectResultSize, ResultadoNoUnico))
  {
    if |ids| == 0 then Failure(Error(IllegalArgument, notFound))
    else if |ids| > 1 then Failure(Error(IncorrectResultSize, ResultadoNoUnico))
    else
      SingletonUnique(ids);
      var k :| k in ids;
      Success(k)
  }

  /** `TheOnly` in terms of members: a set whose every member is `k` gives
      `k`, and two distinct members give IncorrectResultSize. */
  lemma TheOnlyMembers(ids: set<Id>, notFound: Reason)
    ensures forall k :: k in ids && (forall j :: j in ids ==> j == k) ==> TheOnly(ids, notFound) == Success(k)
    ensures forall a, b :: a in ids && b in ids && a != b ==>
      TheOnly(ids, notFound) == Failure(Error(IncorrectResultSize, ResultadoNoUnico))
  {
    forall k | k in ids && (forall j :: j in ids ==> j == k)
      ensures TheOnly(ids, notFound) == Success(k)
    {
      assert ids == {k};
    }
    forall a, b | a in ids && b in ids && a != b
      ensures TheOnly(ids, notFound) == Failure(Error(IncorrectResultSize, ResultadoNoUnico))
    {
      assert b in ids - {a};
      assert |ids - {a}| == |ids| - 1;
    }
  }

  /** `personaRepository.findByDui(dui)`. */
  function PersonaPorDui(personas: map<Id, Persona>, dui: string): (r: Outcome<Id>)
    ensures r.Success? ==> r.value in personas && personas[r.value].dui == dui
    ensures r.Success? ==> forall k :: k in personas && personas[k].dui == dui ==> k == r.value
    ensures forall k :: k in personas && personas[k].dui == dui && (forall j :: j in personas && personas[j].dui == dui ==> j == k) ==>
      r == Success(k)
    ensures (forall k :: k in personas ==> personas[k].dui != dui) ==> r == Failure(Error(IllegalArgument, PersonaNoEncontrada))
    ensures forall a, b :: a in personas && b in personas && a != b && personas[a].dui == dui && personas[b].dui == dui ==>
      r == Failure(Error(IncorrectResultSize, ResultadoNoUnico))
  {
    var ids := set k | k in personas && personas[k].dui == dui;
    assert forall k :: k in personas && personas[k].dui == dui <==> k in ids;
    TheOnlyMembers(ids, PersonaNoEncontrada);
    TheOnly(ids, PersonaNoEncontrada)
  }

  /** `usuarioRepository.findByPersona(persona)`. */
  function UsuarioPorPersona(usuarios: map<Id, Usuario>, persona: Id): (r: Outcome<Id>)
    ensures r.Success? ==> r.value in usuarios && usuarios[r.value].persona == Some(persona)
    ensures r.Success? ==> forall k :: k in usuarios && usuarios[k].persona == Some(persona) ==> k == r.value
    ensures forall k :: k in usuarios && usuarios[k].persona == Some(persona)
                        && (forall j :: j in usuarios && usuarios[j].persona == Some(persona) ==> j == k) ==>
      r == Success(k)
    ensures (forall k :: k in usuarios ==> usuarios[k].persona != Some(persona)) ==>
      r == Failure(Error(IllegalArgument, UsuarioDePersonaNoEncontrado))
    ensures forall a, b :: a in usuarios && b in usuarios && a != b
                           && usuarios[a].persona == Some(persona) && usuarios[b].persona == Some(persona) ==>
      r == Failure(Error(IncorrectResultSize, ResultadoNoUnico))
  {
    var ids := set k | k in usuarios && usuarios[k].persona == Some(persona);
    assert forall k :: k in usuarios && usuarios[k].persona == Some(persona) <==> k in ids;
    TheOnlyMembers(ids, UsuarioDePersonaNoEncontrado);
    TheOnly(ids, UsuarioDePersonaNoEncontrado)
  }

  /** `requirePersonaPorDui` then `requireUsuarioPorPersona`: the user whose
      person carries the identity document `dui`. */
  function ClientePorDui(s: Store, dui: string): (r: Outcome<Id>)
    ensures r.Success? ==> r.value in s.usuarios
  {
    var persona :- PersonaPorDui(s.personas, dui);
    UsuarioPorPersona(s.usuarios, persona)
  }

  /** `cuentaRepository.countByClienteUsuario(usuario)`. */
  function CuentasDe(cuentas: map<Id, Cuenta>, usuario: Id): set<Id> {
    set k | k in cuentas && cuentas[k].cliente == usuario
  }

  // ---------------------------------------------------------------------
  // Guards (`requireRol`, `requireCuentaActiva`, `requireTitular`)
  // ---------------------------------------------------------------------

  /** `requireRol`: SecurityException unless the actor has exactly that role. */
  function RequireRol(actor: Usuario, rol: Rol): (c: Check<Error>)
    ensures c.Pass? <==> actor.rol == rol
    ensures c.Fail? ==> c.error.kind == Security
  {
    Need(actor.rol == rol, Error(Security, RolNoPermitido))
  }

  /** `requireCuentaActiva`: IllegalStateException when `activa` is null or false. */
  function RequireCuentaActiva(cuenta: Cuenta): (c: Check<Error>)
    ensures c.Pass? <==> cuenta.activa == Some(true)
    ensures c.Fail? ==> c.error == Error(IllegalState, CuentaInactiva)
  {
    Need(cuenta.activa == Some(true), Error(IllegalState, CuentaInactiva))
  }

  /** `requireTitular`: SecurityException unless the account's owner is that user. */
  function RequireTitular(cuenta: Cuenta, usuario: Id): (c: Check<Error>)
    ensures c.Pass? <==> cuenta.cliente == usuario
    ensures c.Fail? ==> c.error == Error(Security, CuentaAjena)
  {
    Need(cuenta.cliente == usuario, Error(Security, CuentaAjena))
  }
}
