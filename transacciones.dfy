/** TransaccionService: deposits, withdrawals and transfers on accounts, each
    guarded by the actor's role, the account's state and its ownership, and
    recorded in the transaction log; a collaborator also earns a 5% commission.

    Each public flow is a function from the store before the call to the
    transaction it returns and the store after it. A thrown exception is a
    `Failure`, and since every check in the source precedes every save, a
    failed call leaves the store as it was. */
module Transacciones {
  import opened Common
  import opened Money
  import opened Domain
  import Dates

  /** Who carries out a deposit or withdrawal: the client on their own account,
      a collaborator ("dependiente") or a cashier naming the client by their
      identity document. */
  datatype Canal = PorCliente | PorDependiente(duiCliente: string) | PorCajero(duiCliente: string)

  /** The role `requireRol` demands of the actor of each flow. */
  function RolDe(canal: Canal): Rol {
    match canal
    case PorCliente => Cliente
    case PorDependiente(_) => Colaborador
    case PorCajero(_) => Cajero
  }

  /** The metadata a deposit or withdrawal records. */
  function Metadata(canal: Canal): map<string, string> {
    match canal
    case PorCliente => map["origen" := "CLIENTE"]
    case PorDependiente(dui) => map["origen" := "DEPENDIENTE", "duiCliente" := dui]
    case PorCajero(dui) => map["origen" := "CAJERO", "duiCliente" := dui]
  }

  /** The metadata a transfer records (the cashier's key names the origin's
      owner); collaborators have no transfer flow. */
  function MetadataTransferencia(canal: Canal): map<string, string>
    requires !canal.PorDependiente?
  {
    match canal
    case PorCliente => map["origen" := "CLIENTE"]
    case PorCajero(dui) => map["origen" := "CAJERO", "duiClienteOrigen" := dui]
  }

  /** The user who must own the account: the acting client, or the user whose
      person has the given identity document (`requirePersonaPorDui` then
      `requireUsuarioPorPersona`). */
  function TitularEsperado(s: Store, canal: Canal, actorId: Id): (r: Outcome<Id>)
    ensures canal.PorCliente? ==> r == Success(actorId)
    ensures !canal.PorCliente? && r.Success? ==> r.value in s.usuarios
  {
    match canal
    case PorCliente => Success(actorId)
    case PorDependiente(dui) => ClientePorDui(s, dui)
    case PorCajero(dui) => ClientePorDui(s, dui)
  }

  /** The commission a flow charges: `monto × 0.05` for a collaborator, computed
      before the amount is validated, so a null amount is a NullPointerException
      there; zero for clients and cashiers. */
  function ComisionDe(canal: Canal, monto: Option<int>): (r: Outcome<int>)
    ensures r.Failure? <==> canal.PorDependiente? && monto.None?
    ensures r.Failure? ==> r.error == Error(NullPointer, MontoNulo)
    ensures r.Success? && canal.PorDependiente? ==> r.value == Money.Comision(monto.value)
    ensures r.Success? && !canal.PorDependiente? ==> r.value == 0
  {
    match canal
    case PorDependiente(_) =>
      if monto.None? then Failure(Error(NullPointer, MontoNulo)) else Success(Money.Comision(monto.value))
    case _ => Success(0)
  }

  // ---------------------------------------------------------------------
  // Balance helpers
  // ---------------------------------------------------------------------

  /** An account whose two balances agree and are not negative. */
  predicate Solvente(c: Cuenta) {
    c.saldo == c.saldoDisponible && c.saldoDisponible >= 0
  }

  /** `aplicarDeposito`: rejects a null or non-positive amount, otherwise adds it
      to both balances and leaves every other column alone. */
  function AplicarDeposito(cuenta: Cuenta, monto: Option<int>): (r: Outcome<Cuenta>)
    ensures r.Success? <==> monto.Some? && monto.value > 0
    ensures r.Failure? ==> r.error == Error(IllegalArgument, MontoNoPositivo)
    ensures r.Success? ==> r.value.saldo == cuenta.saldo + monto.value
    ensures r.Success? ==> r.value.saldoDisponible == cuenta.saldoDisponible + monto.value
    ensures r.Success? ==> r.value.(saldo := cuenta.saldo, saldoDisponible := cuenta.saldoDisponible) == cuenta
    ensures r.Success? && Solvente(cuenta) ==> Solvente(r.value)
  {
    if monto.None? || monto.value <= 0 then
      Failure(Error(IllegalArgument, MontoNoPositivo))
    else
      Success(cuenta.(saldo := cuenta.saldo + monto.value, saldoDisponible := cuenta.saldoDisponible + monto.value))
  }

  /** `aplicarRetiro`: rejects a null or non-positive amount, then an amount
      above the available balance, otherwise subtracts it from both balances. */
  function AplicarRetiro(cuenta: Cuenta, monto: Option<int>): (r: Outcome<Cuenta>)
    ensures r.Success? <==> monto.Some? && monto.value > 0 && monto.value <= cuenta.saldoDisponible
    ensures (monto.None? || monto.value <= 0) ==> r == Failure(Error(IllegalArgument, MontoNoPositivo))
    ensures monto.Some? && 0 < monto.value && cuenta.saldoDisponible < monto.value ==>
      r == Failure(Error(IllegalState, SaldoInsuficiente))
    ensures r.Success? ==> r.value.saldo == cuenta.saldo - monto.value
    ensures r.Success? ==> r.value.saldoDisponible == cuenta.saldoDisponible - monto.value >= 0
    ensures r.Success? ==> r.value.(saldo := cuenta.saldo, saldoDisponible := cuenta.saldoDisponible) == cuenta
    ensures r.Success? && Solvente(cuenta) ==> Solvente(r.value)
  {
    if monto.None? || monto.value <= 0 then
      Failure(Error(IllegalArgument, MontoNoPositivo))
    else if cuenta.saldoDisponible < monto.value then
      Failure(Error(IllegalState, SaldoInsuficiente))
    else
      Success(cuenta.(saldo := cuenta.saldo - monto.value, saldoDisponible := cuenta.saldoDisponible - monto.value))
  }

  /** `aplicarTransferencia`: the withdrawal from the origin, then the deposit
      into the destination as it stands after the withdrawal. When origin and
      destination are the same row the two updates cancel out. */
  function AplicarTransferencia(cuentas: map<Id, Cuenta>, origen: Id, destino: Id, monto: Option<int>): (r: Outcome<map<Id, Cuenta>>)
    requires origen in cuentas && destino in cuentas
    ensures r.Success? <==> AplicarRetiro(cuentas[origen], monto).Success?
    ensures r.Failure? ==> r == AplicarRetiro(cuentas[origen], monto).PropagateFailure()
    ensures r.Success? ==> r.value.Keys == cuentas.Keys
    ensures r.Success? ==> forall k :: k in cuentas && k != origen && k != destino ==> r.value[k] == cuentas[k]
  {
    var debitada :- AplicarRetiro(cuentas[origen], monto);
    var tras := cuentas[origen := debitada];
    // the deposit's own amount check cannot fail once the withdrawal passed it
    var acreditada := AplicarDeposito(tras[destino], monto).value;
    Success(tras[destino := acreditada])
  }

  // ---------------------------------------------------------------------
  // Persistence helpers
  // ---------------------------------------------------------------------

  /** `registrarTransaccionBasica`: the transaction row as saved; a null
      commission is stored as zero. */
  function RegistrarTransaccionBasica(
    tipo: TipoTransaccion, monto: int, comision: Option<int>,
    cuentaOrigen: Option<Id>, cuentaDestino: Option<Id>, cuenta: Option<Id>,
    ejecutor: Id, referencia: Referencia, metadata: Option<map<string, string>>): (tx: Transaccion)
    ensures tx.comision == (if comision.Some? then comision.value else 0)
    ensures tx.tipo == tipo && tx.monto == monto && tx.ejecutor == ejecutor
    ensures tx.cuentaOrigen == cuentaOrigen && tx.cuentaDestino == cuentaDestino && tx.cuenta == cuenta
    ensures tx.referencia == referencia && tx.metadata == metadata
  {
    Transaccion(tipo, monto, comision.GetOr(0), cuentaOrigen, cuentaDestino, cuenta, ejecutor, referencia, metadata)
  }

  /** `registrarComisionDependiente`: a PENDIENTE commission for the
      collaborator, tied to the transaction at position `tx` of the log; the
      rate is stored on a base of 100 (0.05 becomes 5.00, i.e. 500 hundredths). */
  function RegistrarComisionDependiente(dependiente: Id, tx: nat, montoComision: int, porcentajeBp: int): (c: ComisionColaborador)
    ensures c.colaborador == dependiente && c.transaccion == tx && c.montoComision == montoComision
    ensures c.estado == Pendiente
    ensures c.porcentaje == porcentajeBp
  {
    // b basis points are b / 100 percent, i.e. b hundredths of a percent
    ComisionColaborador(dependiente, tx, montoComision, porcentajeBp, Pendiente)
  }

  /** Appends the transaction to the log and, for a collaborator, the
      commission that points at it. */
  function Asentar(s: Store, canal: Canal, actorId: Id, tx: Transaccion, comision: int): Store {
    s.(transacciones := s.transacciones + [tx],
       comisiones := if canal.PorDependiente? then
                       s.comisiones + [RegistrarComisionDependiente(actorId, |s.transacciones|, comision, COMISION_DEPENDIENTE_BP)]
                     else s.comisiones)
  }

  // ---------------------------------------------------------------------
  // The public flows
  // ---------------------------------------------------------------------

  /** The checks a deposit or withdrawal runs before it touches the account,
      in the source's order: the actor and their role, the client, the
      account, its state and its owner, then the commission. On success, the
      account as loaded and the commission. */
  function Admitir(s: Store, canal: Canal, actorId: Id, cuentaId: Id, monto: Option<int>): (r: Outcome<(Cuenta, int)>)
    ensures r.Success? ==> cuentaId in s.cuentas && r.value.0 == s.cuentas[cuentaId]
  {
    var actor :- FindById(s.usuarios, actorId, UsuarioNoEncontrado);
    :- RequireRol(actor, RolDe(canal));
    var titular :- TitularEsperado(s, canal, actorId);
    var cuenta :- FindById(s.cuentas, cuentaId, CuentaNoEncontrada);
    :- RequireCuentaActiva(cuenta);
    :- RequireTitular(cuenta, titular);
    var comision :- ComisionDe(canal, monto);
    Success((cuenta, comision))
  }

  /** depositarPorCliente, depositarPorDependienteConDui, depositarPorCajeroConDui. */
  function Depositar(s: Store, canal: Canal, actorId: Id, cuentaId: Id, monto: Option<int>, referencia: Option<string>): Outcome<(Transaccion, Store)> {
    var (cuenta, comision) :- Admitir(s, canal, actorId, cuentaId, monto);
    var acreditada :- AplicarDeposito(cuenta, monto);
    var tx := RegistrarTransaccionBasica(Deposito, monto.value, Some(comision), None, Some(cuentaId), Some(cuentaId),
                                         actorId, Texto(referencia), Some(Metadata(canal)));
    Success((tx, Asentar(s.(cuentas := s.cuentas[cuentaId := acreditada]), canal, actorId, tx, comision)))
  }

  /** retirarPorCliente, retirarPorDependienteConDui, retirarPorCajeroConDui. */
  function Retirar(s: Store, canal: Canal, actorId: Id, cuentaId: Id, monto: Option<int>, referencia: Option<string>): Outcome<(Transaccion, Store)> {
    var (cuenta, comision) :- Admitir(s, canal, actorId, cuentaId, monto);
    var debitada :- AplicarRetiro(cuenta, monto);
    var tx := RegistrarTransaccionBasica(Retiro, monto.value, Some(comision), Some(cuentaId), None, Some(cuentaId),
                                         actorId, Texto(referencia), Some(Metadata(canal)));
    Success((tx, Asentar(s.(cuentas := s.cuentas[cuentaId := debitada]), canal, actorId, tx, comision)))
  }

  /** The checks of a transfer before any balance moves: the actor and their
      role, the client, both accounts, both states, then the origin's owner.
      On success, the origin account as loaded. */
  function AdmitirTransferencia(s: Store, canal: Canal, actorId: Id, origenId: Id, destinoId: Id): (r: Outcome<Cuenta>)
    ensures r.Success? ==> origenId in s.cuentas && destinoId in s.cuentas && r.value == s.cuentas[origenId]
  {
    var actor :- FindById(s.usuarios, actorId, UsuarioNoEncontrado);
    :- RequireRol(actor, RolDe(canal));
    var titular :- TitularEsperado(s, canal, actorId);
    var origen :- FindById(s.cuentas, origenId, CuentaNoEncontrada);
    var destino :- FindById(s.cuentas, destinoId, CuentaNoEncontrada);
    :- RequireCuentaActiva(origen);
    :- RequireCuentaActiva(destino);
    :- RequireTitular(origen, titular);
    Success(origen)
  }

  /** transferirPorCliente and transferirPorCajeroConDui: only the origin must
      belong to the client; the destination may be any active account. */
  function Transferir(s: Store, canal: Canal, actorId: Id, origenId: Id, destinoId: Id, monto: Option<int>, referencia: Option<string>): Outcome<(Transaccion, Store)>
    requires !canal.PorDependiente?
  {
    var _ :- AdmitirTransferencia(s, canal, actorId, origenId, destinoId);
    var cuentas :- AplicarTransferencia(s.cuentas, origenId, destinoId, monto);
    var tx := RegistrarTransaccionBasica(Transferencia, monto.value, Some(0), Some(origenId), Some(destinoId), None,
                                         actorId, Texto(referencia), Some(MetadataTransferencia(canal)));
    Success((tx, Asentar(s.(cuentas := cuentas), canal, actorId, tx, 0)))
  }

  // ---------------------------------------------------------------------
  // Properties
  // ---------------------------------------------------------------------

  /** The guard chain of a deposit or withdrawal: the actor exists and has the
      flow's role, the client resolves, the account exists, is active and is
      the client's. */
  predicate Autorizado(s: Store, canal: Canal, actorId: Id, cuentaId: Id) {
    && actorId in s.usuarios
    && s.usuarios[actorId].rol == RolDe(canal)
    && TitularEsperado(s, canal, actorId).Success?
    && cuentaId in s.cuentas
    && s.cuentas[cuentaId].activa == Some(true)
    && s.cuentas[cuentaId].cliente == TitularEsperado(s, canal, actorId).value
  }

  /** The guards that come before any account is looked at: the actor
      exists, has the flow's role and the client resolves. */
  predicate ClienteResuelto(s: Store, canal: Canal, actorId: Id) {
    && actorId in s.usuarios
    && s.usuarios[actorId].rol == RolDe(canal)
    && TitularEsperado(s, canal, actorId).Success?
  }

  /** The guard chain of a transfer: both accounts exist and are active, and
      the origin is the client's. */
  predicate AutorizadoTransferencia(s: Store, canal: Canal, actorId: Id, origenId: Id, destinoId: Id) {
    && actorId in s.usuarios
    && s.usuarios[actorId].rol == RolDe(canal)
    && TitularEsperado(s, canal, actorId).Success?
    && origenId in s.cuentas
    && destinoId in s.cuentas
    && s.cuentas[origenId].activa == Some(true)
    && s.cuentas[destinoId].activa == Some(true)
    && s.cuentas[origenId].cliente == TitularEsperado(s, canal, actorId).value
  }

  /** A deposit succeeds exactly when every guard passes and the amount is positive. */
  lemma DepositarSucceedsIff(s: Store, canal: Canal, actorId: Id, cuentaId: Id, monto: Option<int>, referencia: Option<string>)
    ensures Depositar(s, canal, actorId, cuentaId, monto, referencia).Success?
            <==> Autorizado(s, canal, actorId, cuentaId) && monto.Some? && monto.value > 0
  {
  }

  /** Role, ownership and account state are checked before the amount is
      looked at: when a guard fails, the outcome is the same for every amount.
      The first failing guard decides the error: an unknown actor or account
      is an IllegalArgumentException, a wrong role a SecurityException, an
      account that is not active an IllegalStateException (even when it is
      another client's), and another client's active account a
      SecurityException. */
  lemma DepositarGuardsFirst(s: Store, canal: Canal, actorId: Id, cuentaId: Id, monto: Option<int>, otro: Option<int>, referencia: Option<string>)
    requires !Autorizado(s, canal, actorId, cuentaId)
    ensures Depositar(s, canal, actorId, cuentaId, monto, referencia).Failure?
    ensures actorId !in s.usuarios ==> Depositar(s, canal, actorId, cuentaId, monto, referencia) == Failure(Error(IllegalArgument, UsuarioNoEncontrado))
    ensures actorId in s.usuarios && s.usuarios[actorId].rol != RolDe(canal) ==> Depositar(s, canal, actorId, cuentaId, monto, referencia) == Failure(Error(Security, RolNoPermitido))
    ensures actorId in s.usuarios && s.usuarios[actorId].rol == RolDe(canal) && TitularEsperado(s, canal, actorId).Failure? ==>
      Depositar(s, canal, actorId, cuentaId, monto, referencia) == Failure(TitularEsperado(s, canal, actorId).error)
    ensures ClienteResuelto(s, canal, actorId) && cuentaId !in s.cuentas ==> Depositar(s, canal, actorId, cuentaId, monto, referencia) == Failure(Error(IllegalArgument, CuentaNoEncontrada))
    ensures ClienteResuelto(s, canal, actorId) && cuentaId in s.cuentas && s.cuentas[cuentaId].activa != Some(true) ==>
      Depositar(s, canal, actorId, cuentaId, monto, referencia) == Failure(Error(IllegalState, CuentaInactiva))
    ensures ClienteResuelto(s, canal, actorId) && cuentaId in s.cuentas && s.cuentas[cuentaId].activa == Some(true)
            && s.cuentas[cuentaId].cliente != TitularEsperado(s, canal, actorId).value ==>
      Depositar(s, canal, actorId, cuentaId, monto, referencia) == Failure(Error(Security, CuentaAjena))
    ensures Depositar(s, canal, actorId, cuentaId, monto, referencia) == Depositar(s, canal, actorId, cuentaId, otro, referencia)
  {
  }

  /** Past the guards, a bad amount is an IllegalArgumentException, except that
      the collaborator's commission dereferences a null amount first. */
  lemma DepositarMontoInvalido(s: Store, canal: Canal, actorId: Id, cuentaId: Id, monto: Option<int>, referencia: Option<string>)
    requires Autorizado(s, canal, actorId, cuentaId)
    requires monto.None? || monto.value <= 0
    ensures Depositar(s, canal, actorId, cuentaId, monto, referencia)
            == Failure(if canal.PorDependiente? && monto.None? then Error(NullPointer, MontoNulo)
                       else Error(IllegalArgument, MontoNoPositivo))
  {
  }

  /** A successful deposit adds exactly the amount to both balances of that
      account (the commission is not deducted), touches no other account,
      appends one DEPOSITO row into the account, and records a 5% PENDIENTE
      commission pointing at that row exactly when a collaborator made it. */
  lemma DepositarEffect(s: Store, canal: Canal, actorId: Id, cuentaId: Id, monto: Option<int>, referencia: Option<string>)
    requires Depositar(s, canal, actorId, cuentaId, monto, referencia).Success?
    ensures var (tx, t) := Depositar(s, canal, actorId, cuentaId, monto, referencia).value;
      && monto.Some? && cuentaId in s.cuentas
      && t.cuentas == s.cuentas[cuentaId := s.cuentas[cuentaId].(saldo := s.cuentas[cuentaId].saldo + monto.value,
                                                                 saldoDisponible := s.cuentas[cuentaId].saldoDisponible + monto.value)]
      && t.transacciones == s.transacciones + [tx]
      && tx.tipo == Deposito && tx.monto == monto.value && tx.ejecutor == actorId
      && tx.cuentaOrigen == None && tx.cuentaDestino == Some(cuentaId) && tx.cuenta == Some(cuentaId)
      && tx.comision == (if canal.PorDependiente? then Money.Comision(monto.value) else 0)
      && tx.referencia == Texto(referencia) && tx.metadata == Some(Metadata(canal))
      && t.comisiones == (if canal.PorDependiente?
                          then s.comisiones + [ComisionColaborador(actorId, |s.transacciones|, Money.Comision(monto.value), 500, Pendiente)]
                          else s.comisiones)
      && t.(cuentas := s.cuentas, transacciones := s.transacciones, comisiones := s.comisiones) == s
  {
  }

  /** A withdrawal succeeds exactly when every guard passes and the amount is
      positive and covered by the available balance. */
  lemma RetirarSucceedsIff(s: Store, canal: Canal, actorId: Id, cuentaId: Id, monto: Option<int>, referencia: Option<string>)
    ensures Retirar(s, canal, actorId, cuentaId, monto, referencia).Success?
            <==> Autorizado(s, canal, actorId, cuentaId) && monto.Some? && 0 < monto.value <= s.cuentas[cuentaId].saldoDisponible
  {
  }

  /** Guard failures do not depend on the amount, and the first failing
      guard decides the error, in the same order as for a deposit. */
  lemma RetirarGuardsFirst(s: Store, canal: Canal, actorId: Id, cuentaId: Id, monto: Option<int>, otro: Option<int>, referencia: Option<string>)
    requires !Autorizado(s, canal, actorId, cuentaId)
    ensures Retirar(s, canal, actorId, cuentaId, monto, referencia).Failure?
    ensures actorId !in s.usuarios ==> Retirar(s, canal, actorId, cuentaId, monto, referencia) == Failure(Error(IllegalArgument, UsuarioNoEncontrado))
    ensures actorId in s.usuarios && s.usuarios[actorId].rol != RolDe(canal) ==> Retirar(s, canal, actorId, cuentaId, monto, referencia) == Failure(Error(Security, RolNoPermitido))
    ensures actorId in s.usuarios && s.usuarios[actorId].rol == RolDe(canal) && TitularEsperado(s, canal, actorId).Failure? ==>
      Retirar(s, canal, actorId, cuentaId, monto, referencia) == Failure(TitularEsperado(s, canal, actorId).error)
    ensures ClienteResuelto(s, canal, actorId) && cuentaId !in s.cuentas ==> Retirar(s, canal, actorId, cuentaId, monto, referencia) == Failure(Error(IllegalArgument, CuentaNoEncontrada))
    ensures ClienteResuelto(s, canal, actorId) && cuentaId in s.cuentas && s.cuentas[cuentaId].activa != Some(true) ==>
      Retirar(s, canal, actorId, cuentaId, monto, referencia) == Failure(Error(IllegalState, CuentaInactiva))
    ensures ClienteResuelto(s, canal, actorId) && cuentaId in s.cuentas && s.cuentas[cuentaId].activa == Some(true)
            && s.cuentas[cuentaId].cliente != TitularEsperado(s, canal, actorId).value ==>
      Retirar(s, canal, actorId, cuentaId, monto, referencia) == Failure(Error(Security, CuentaAjena))
    ensures Retirar(s, canal, actorId, cuentaId, monto, referencia) == Retirar(s, canal, actorId, cuentaId, otro, referencia)
  {
  }

  /** Past the guards: a bad amount is an IllegalArgumentException (a null one a
      NullPointerException for a collaborator), and a positive amount above the
      available balance is "Saldo insuficiente". */
  lemma RetirarMontoInvalido(s: Store, canal: Canal, actorId: Id, cuentaId: Id, monto: Option<int>, referencia: Option<string>)
    requires Autorizado(s, canal, actorId, cuentaId)
    requires monto.None? || !(0 < monto.value <= s.cuentas[cuentaId].saldoDisponible)
    ensures Retirar(s, canal, actorId, cuentaId, monto, referencia)
            == Failure(if canal.PorDependiente? && monto.None? then Error(NullPointer, MontoNulo)
                       else if monto.None? || monto.value <= 0 then Error(IllegalArgument, MontoNoPositivo)
                       else Error(IllegalState, SaldoInsuficiente))
  {
  }

  /** A successful withdrawal subtracts exactly the amount from both balances,
      leaves the available balance non-negative, appends one RETIRO row out of
      the account and records the collaborator's commission. */
  lemma RetirarEffect(s: Store, canal: Canal, actorId: Id, cuentaId: Id, monto: Option<int>, referencia: Option<string>)
    requires Retirar(s, canal, actorId, cuentaId, monto, referencia).Success?
    ensures var (tx, t) := Retirar(s, canal, actorId, cuentaId, monto, referencia).value;
      && monto.Some? && cuentaId in s.cuentas
      && t.cuentas == s.cuentas[cuentaId := s.cuentas[cuentaId].(saldo := s.cuentas[cuentaId].saldo - monto.value,
                                                                 saldoDisponible := s.cuentas[cuentaId].saldoDisponible - monto.value)]
      && t.cuentas[cuentaId].saldoDisponible >= 0
      && t.transacciones == s.transacciones + [tx]
      && tx.tipo == Retiro && tx.monto == monto.value && tx.ejecutor == actorId
      && tx.cuentaOrigen == Some(cuentaId) && tx.cuentaDestino == None && tx.cuenta == Some(cuentaId)
      && tx.comision == (if canal.PorDependiente? then Money.Comision(monto.value) else 0)
      && tx.referencia == Texto(referencia) && tx.metadata == Some(Metadata(canal))
      && t.comisiones == (if canal.PorDependiente?
                          then s.comisiones + [ComisionColaborador(actorId, |s.transacciones|, Money.Comision(monto.value), 500, Pendiente)]
                          else s.comisiones)
      && t.(cuentas := s.cuentas, transacciones := s.transacciones, comisiones := s.comisiones) == s
  {
  }

  /** A transfer succeeds exactly when every guard passes and the origin can
      cover the positive amount. */
  lemma TransferirSucceedsIff(s: Store, canal: Canal, actorId: Id, origenId: Id, destinoId: Id, monto: Option<int>, referencia: Option<string>)
    requires !canal.PorDependiente?
    ensures Transferir(s, canal, actorId, origenId, destinoId, monto, referencia).Success?
            <==> AutorizadoTransferencia(s, canal, actorId, origenId, destinoId)
                 && monto.Some? && 0 < monto.value <= s.cuentas[origenId].saldoDisponible
  {
  }

  /** Guard failures of a transfer do not depend on the amount. Both accounts
      are looked up, then both states are checked, and only then the origin's
      owner: an inactive account is an IllegalStateException even when the
      origin is another client's. */
  lemma TransferirGuardsFirst(s: Store, canal: Canal, actorId: Id, origenId: Id, destinoId: Id, monto: Option<int>, otro: Option<int>, referencia: Option<string>)
    requires !canal.PorDependiente?
    requires !AutorizadoTransferencia(s, canal, actorId, origenId, destinoId)
    ensures Transferir(s, canal, actorId, origenId, destinoId, monto, referencia).Failure?
    ensures actorId !in s.usuarios ==> Transferir(s, canal, actorId, origenId, destinoId, monto, referencia) == Failure(Error(IllegalArgument, UsuarioNoEncontrado))
    ensures actorId in s.usuarios && s.usuarios[actorId].rol != RolDe(canal) ==> Transferir(s, canal, actorId, origenId, destinoId, monto, referencia) == Failure(Error(Security, RolNoPermitido))
    ensures actorId in s.usuarios && s.usuarios[actorId].rol == RolDe(canal) && TitularEsperado(s, canal, actorId).Failure? ==>
      Transferir(s, canal, actorId, origenId, destinoId, monto, referencia) == Failure(TitularEsperado(s, canal, actorId).error)
    ensures ClienteResuelto(s, canal, actorId) && (origenId !in s.cuentas || destinoId !in s.cuentas) ==>
      Transferir(s, canal, actorId, origenId, destinoId, monto, referencia) == Failure(Error(IllegalArgument, CuentaNoEncontrada))
    ensures ClienteResuelto(s, canal, actorId) && origenId in s.cuentas && destinoId in s.cuentas
            && (s.cuentas[origenId].activa != Some(true) || s.cuentas[destinoId].activa != Some(true)) ==>
      Transferir(s, canal, actorId, origenId, destinoId, monto, referencia) == Failure(Error(IllegalState, CuentaInactiva))
    ensures ClienteResuelto(s, canal, actorId) && origenId in s.cuentas && destinoId in s.cuentas
            && s.cuentas[origenId].activa == Some(true) && s.cuentas[destinoId].activa == Some(true)
            && s.cuentas[origenId].cliente != TitularEsperado(s, canal, actorId).value ==>
      Transferir(s, canal, actorId, origenId, destinoId, monto, referencia) == Failure(Error(Security, CuentaAjena))
    ensures Transferir(s, canal, actorId, origenId, destinoId, monto, referencia)
            == Transferir(s, canal, actorId, origenId, destinoId, otro, referencia)
  {
  }

  /** A successful transfer between two accounts moves exactly the amount from
      the origin to the destination (so their total is unchanged), touches no
      other account and creates no commission; to the same account it changes
      no balance. */
  lemma TransferirEffect(s: Store, canal: Canal, actorId: Id, origenId: Id, destinoId: Id, monto: Option<int>, referencia: Option<string>)
    requires !canal.PorDependiente?
    requires Transferir(s, canal, actorId, origenId, destinoId, monto, referencia).Success?
    ensures var (tx, t) := Transferir(s, canal, actorId, origenId, destinoId, monto, referencia).value;
      && monto.Some? && origenId in s.cuentas && destinoId in s.cuentas
      && t.cuentas.Keys == s.cuentas.Keys
      && (forall k :: k in s.cuentas && k != origenId && k != destinoId ==> t.cuentas[k] == s.cuentas[k])
      && (origenId != destinoId ==>
            && t.cuentas[origenId].saldo == s.cuentas[origenId].saldo - monto.value
            && t.cuentas[destinoId].saldo == s.cuentas[destinoId].saldo + monto.value
            && t.cuentas[origenId].saldoDisponible == s.cuentas[origenId].saldoDisponible - monto.value
            && t.cuentas[destinoId].saldoDisponible == s.cuentas[destinoId].saldoDisponible + monto.value
            && t.cuentas[origenId].saldo + t.cuentas[destinoId].saldo == s.cuentas[origenId].saldo + s.cuentas[destinoId].saldo)
      && (origenId == destinoId ==> t.cuentas == s.cuentas)
      && t.transacciones == s.transacciones + [tx]
      && tx.tipo == Transferencia && tx.monto == monto.value && tx.comision == 0 && tx.ejecutor == actorId
      && tx.cuentaOrigen == Some(origenId) && tx.cuentaDestino == Some(destinoId) && tx.cuenta == None
      && tx.referencia == Texto(referencia) && tx.metadata == Some(MetadataTransferencia(canal))
      && t.comisiones == s.comisiones
      && t.(cuentas := s.cuentas, transacciones := s.transacciones) == s
  {
    var cuentas := AplicarTransferencia(s.cuentas, origenId, destinoId, monto).value;
    if origenId == destinoId {
      assert cuentas == s.cuentas;
    }
  }

  // ---------------------------------------------------------------------
  // The store invariant is preserved
  // ---------------------------------------------------------------------

  /** Replacing one account by a solvent copy owned by the same client, and
      logging a transaction that accounts for exactly the balance change of
      every account, keeps the store valid. */
  lemma MovimientoPreservesValid(s: Store, cuentas: map<Id, Cuenta>, tx: Transaccion, comisiones: seq<ComisionColaborador>)
    requires Valid(s)
    requires cuentas.Keys == s.cuentas.Keys
    requires forall k :: k in cuentas ==> cuentas[k].cliente == s.cuentas[k].cliente && Solvente(cuentas[k])
    requires forall k :: k in cuentas ==> cuentas[k].saldo == s.cuentas[k].saldo + Efecto(tx, k)
    requires AccountsBelow(tx, s.nextId)
    requires comisiones == s.comisiones || (|comisiones| == |s.comisiones| + 1 && comisiones[..|s.comisiones|] == s.comisiones
                                            && comisiones[|s.comisiones|].transaccion == |s.transacciones|)
    ensures Valid(s.(cuentas := cuentas, transacciones := s.transacciones + [tx], comisiones := comisiones))
  {
    var t := s.(cuentas := cuentas, transacciones := s.transacciones + [tx], comisiones := comisiones);
    forall a | a in t.cuentas ensures t.cuentas[a].saldo == SaldoSegunRegistro(t.transacciones, a) {
      SaldoSegunRegistroAppend(s.transacciones, tx, a);
    }
    forall i | 0 <= i < |t.comisiones| ensures t.comisiones[i].transaccion < |t.transacciones| {
      if i < |s.comisiones| {
        assert t.comisiones[i] == s.comisiones[i];
      }
    }
    forall i | 0 <= i < |t.transacciones| ensures AccountsBelow(t.transacciones[i], t.nextId) {
      if i < |s.transacciones| {
        assert t.transacciones[i] == s.transacciones[i];
      }
    }
  }

  /** Logging a row that moves no money (a loan disbursement or a
      commission) keeps the store valid. */
  lemma RegistroNeutroPreservesValid(s: Store, tx: Transaccion)
    requires Valid(s)
    requires tx.tipo in {DepositoPrestamo, Comision} && AccountsBelow(tx, s.nextId)
    ensures Valid(s.(transacciones := s.transacciones + [tx]))
  {
    MovimientoPreservesValid(s, s.cuentas, tx, s.comisiones);
    assert s.(cuentas := s.cuentas, transacciones := s.transacciones + [tx], comisiones := s.comisiones)
        == s.(transacciones := s.transacciones + [tx]);
  }

  /** Storing a new loan under the next id and logging a row that moves no
      money keeps the store valid. */
  lemma AltaPrestamoPreservesValid(s: Store, p: Prestamo, tx: Transaccion)
    requires Valid(s)
    requires p.cliente in s.usuarios && (p.proximoPago.Some? ==> Dates.ValidDate(p.proximoPago.value))
    requires tx.tipo in {DepositoPrestamo, Comision} && AccountsBelow(tx, s.nextId)
    ensures Valid(s.(prestamos := s.prestamos[s.nextId := p], transacciones := s.transacciones + [tx], nextId := s.nextId + 1))
  {
    AltaPrestamoIds(s, p, tx);
    AltaPrestamoLedger(s, p, tx);
  }

  lemma AltaPrestamoIds(s: Store, p: Prestamo, tx: Transaccion)
    requires IdsIssued(s) && AccountsBelow(tx, s.nextId)
    ensures IdsIssued(s.(prestamos := s.prestamos[s.nextId := p], transacciones := s.transacciones + [tx], nextId := s.nextId + 1))
  {
    var t := s.(prestamos := s.prestamos[s.nextId := p], transacciones := s.transacciones + [tx], nextId := s.nextId + 1);
    forall i | 0 <= i < |t.transacciones| ensures AccountsBelow(t.transacciones[i], t.nextId) {
      if i < |s.transacciones| {
        assert t.transacciones[i] == s.transacciones[i];
      }
    }
  }

  lemma AltaPrestamoLedger(s: Store, p: Prestamo, tx: Transaccion)
    requires LedgerMatchesLog(s) && tx.tipo in {DepositoPrestamo, Comision}
    ensures LedgerMatchesLog(s.(prestamos := s.prestamos[s.nextId := p], transacciones := s.transacciones + [tx], nextId := s.nextId + 1))
  {
    var t := s.(prestamos := s.prestamos[s.nextId := p], transacciones := s.transacciones + [tx], nextId := s.nextId + 1);
    forall a | a in t.cuentas ensures t.cuentas[a].saldo == SaldoSegunRegistro(t.transacciones, a) {
      SaldoSegunRegistroAppend(s.transacciones, tx, a);
    }
  }

  /** A movement that touches a single account: the account's new balance is
      its old one plus the movement's effect on it, and it stays solvent. */
  lemma MovimientoEnCuentaPreservesValid(s: Store, cuentaId: Id, nueva: Cuenta, tx: Transaccion)
    requires Valid(s)
    requires cuentaId in s.cuentas && nueva.cliente == s.cuentas[cuentaId].cliente && Solvente(nueva)
    requires tx.tipo in {Deposito, Retiro, PagoPrestamo} && tx.cuenta == Some(cuentaId)
    requires nueva.saldo == s.cuentas[cuentaId].saldo + Efecto(tx, cuentaId)
    requires AccountsBelow(tx, s.nextId)
    ensures Valid(s.(cuentas := s.cuentas[cuentaId := nueva], transacciones := s.transacciones + [tx]))
  {
    var cuentas := s.cuentas[cuentaId := nueva];
    forall k | k in cuentas
      ensures cuentas[k].cliente == s.cuentas[k].cliente && Solvente(cuentas[k])
      ensures cuentas[k].saldo == s.cuentas[k].saldo + Efecto(tx, k)
    {
    }
    MovimientoPreservesValid(s, cuentas, tx, s.comisiones);
    assert s.(cuentas := cuentas, transacciones := s.transacciones + [tx], comisiones := s.comisiones)
        == s.(cuentas := cuentas, transacciones := s.transacciones + [tx]);
  }

  /** A loan payment: one account is debited, the row is logged and the loan
      is replaced by its paid version; the store stays valid. */
  lemma PagoPreservesValid(s: Store, cuentaId: Id, nueva: Cuenta, tx: Transaccion, prestamoId: Id, p: Prestamo)
    requires Valid(s)
    requires cuentaId in s.cuentas && nueva.cliente == s.cuentas[cuentaId].cliente && Solvente(nueva)
    requires tx.tipo == PagoPrestamo && tx.cuenta == Some(cuentaId)
    requires nueva.saldo == s.cuentas[cuentaId].saldo + Efecto(tx, cuentaId)
    requires AccountsBelow(tx, s.nextId)
    requires prestamoId in s.prestamos && p.cliente in s.usuarios && (p.proximoPago.Some? ==> Dates.ValidDate(p.proximoPago.value))
    ensures Valid(s.(cuentas := s.cuentas[cuentaId := nueva], transacciones := s.transacciones + [tx],
                     prestamos := s.prestamos[prestamoId := p]))
  {
    var u := s.(prestamos := s.prestamos[prestamoId := p], nextId := s.nextId);
    GuardarPrestamoPreservesValid(s, prestamoId, p, s.nextId);
    MovimientoEnCuentaPreservesValid(u, cuentaId, nueva, tx);
    assert u.(cuentas := u.cuentas[cuentaId := nueva], transacciones := u.transacciones + [tx])
        == s.(cuentas := s.cuentas[cuentaId := nueva], transacciones := s.transacciones + [tx],
              prestamos := s.prestamos[prestamoId := p]);
  }

  /** The commission log grows by at most one row, which points at the new transaction. */
  lemma AsentarComisiones(s: Store, canal: Canal, actorId: Id, tx: Transaccion, comision: int)
    ensures var c := Asentar(s, canal, actorId, tx, comision).comisiones;
      c == s.comisiones || (|c| == |s.comisiones| + 1 && c[..|s.comisiones|] == s.comisiones
                            && c[|s.comisiones|].transaccion == |s.transacciones|)
  {
    if canal.PorDependiente? {
      var c := Asentar(s, canal, actorId, tx, comision).comisiones;
      assert c[..|s.comisiones|] == s.comisiones;
    }
  }

  /** Logging a movement through `Asentar` after replacing the account
      balances with `cuentas`: valid whenever every balance moved by exactly
      the row's effect and stays solvent. */
  lemma AsentarPreservesValid(s: Store, cuentas: map<Id, Cuenta>, canal: Canal, actorId: Id, tx: Transaccion, comision: int)
    requires Valid(s)
    requires cuentas.Keys == s.cuentas.Keys
    requires forall k :: k in cuentas ==> cuentas[k].cliente == s.cuentas[k].cliente && Solvente(cuentas[k])
    requires forall k :: k in cuentas ==> cuentas[k].saldo == s.cuentas[k].saldo + Efecto(tx, k)
    requires AccountsBelow(tx, s.nextId)
    ensures Valid(Asentar(s.(cuentas := cuentas), canal, actorId, tx, comision))
  {
    AsentarComisiones(s.(cuentas := cuentas), canal, actorId, tx, comision);
    MovimientoPreservesValid(s, cuentas, tx, Asentar(s.(cuentas := cuentas), canal, actorId, tx, comision).comisiones);
  }

  /** The same for a movement on a single account. */
  lemma AsentarEnCuentaPreservesValid(s: Store, cuentaId: Id, nueva: Cuenta, canal: Canal, actorId: Id, tx: Transaccion, comision: int)
    requires Valid(s)
    requires cuentaId in s.cuentas && nueva.cliente == s.cuentas[cuentaId].cliente && Solvente(nueva)
    requires tx.tipo in {Deposito, Retiro} && tx.cuenta == Some(cuentaId)
    requires nueva.saldo == s.cuentas[cuentaId].saldo + Efecto(tx, cuentaId)
    requires AccountsBelow(tx, s.nextId)
    ensures Valid(Asentar(s.(cuentas := s.cuentas[cuentaId := nueva]), canal, actorId, tx, comision))
  {
    var cuentas := s.cuentas[cuentaId := nueva];
    forall k | k in cuentas
      ensures cuentas[k].cliente == s.cuentas[k].cliente && Solvente(cuentas[k])
      ensures cuentas[k].saldo == s.cuentas[k].saldo + Efecto(tx, k)
    {
    }
    AsentarPreservesValid(s, cuentas, canal, actorId, tx, comision);
  }

  lemma DepositarPreservesValid(s: Store, canal: Canal, actorId: Id, cuentaId: Id, monto: Option<int>, referencia: Option<string>)
    requires Valid(s)
    requires Depositar(s, canal, actorId, cuentaId, monto, referencia).Success?
    ensures Valid(Depositar(s, canal, actorId, cuentaId, monto, referencia).value.1)
  {
    var (cuenta, comision) := Admitir(s, canal, actorId, cuentaId, monto).value;
    var acreditada := AplicarDeposito(cuenta, monto).value;
    var tx := Depositar(s, canal, actorId, cuentaId, monto, referencia).value.0;
    AsentarEnCuentaPreservesValid(s, cuentaId, acreditada, canal, actorId, tx, comision);
  }

  lemma RetirarPreservesValid(s: Store, canal: Canal, actorId: Id, cuentaId: Id, monto: Option<int>, referencia: Option<string>)
    requires Valid(s)
    requires Retirar(s, canal, actorId, cuentaId, monto, referencia).Success?
    ensures Valid(Retirar(s, canal, actorId, cuentaId, monto, referencia).value.1)
  {
    var (cuenta, comision) := Admitir(s, canal, actorId, cuentaId, monto).value;
    var debitada := AplicarRetiro(cuenta, monto).value;
    var tx := Retirar(s, canal, actorId, cuentaId, monto, referencia).value.0;
    AsentarEnCuentaPreservesValid(s, cuentaId, debitada, canal, actorId, tx, comision);
  }

  /** A transfer moves the amount out of the origin and into the destination
      and nothing else; the same row on both ends nets to zero. */
  lemma TransferenciaEfecto(cuentas: map<Id, Cuenta>, origenId: Id, destinoId: Id, monto: Option<int>, tx: Transaccion)
    requires origenId in cuentas && destinoId in cuentas
    requires forall k :: k in cuentas ==> Solvente(cuentas[k])
    requires AplicarTransferencia(cuentas, origenId, destinoId, monto).Success?
    requires tx.tipo == Transferencia && tx.monto == monto.value
    requires tx.cuentaOrigen == Some(origenId) && tx.cuentaDestino == Some(destinoId)
    ensures var r := AplicarTransferencia(cuentas, origenId, destinoId, monto).value;
      && r.Keys == cuentas.Keys
      && (forall k :: k in r ==> r[k].cliente == cuentas[k].cliente && Solvente(r[k]))
      && (forall k :: k in r ==> r[k].saldo == cuentas[k].saldo + Efecto(tx, k))
  {
  }

  lemma TransferirPreservesValid(s: Store, canal: Canal, actorId: Id, origenId: Id, destinoId: Id, monto: Option<int>, referencia: Option<string>)
    requires !canal.PorDependiente?
    requires Valid(s)
    requires Transferir(s, canal, actorId, origenId, destinoId, monto, referencia).Success?
    ensures Valid(Transferir(s, canal, actorId, origenId, destinoId, monto, referencia).value.1)
  {
    var _ := AdmitirTransferencia(s, canal, actorId, origenId, destinoId).value;
    var cuentas := AplicarTransferencia(s.cuentas, origenId, destinoId, monto).value;
    var tx := Transferir(s, canal, actorId, origenId, destinoId, monto, referencia).value.0;
    TransferenciaEfecto(s.cuentas, origenId, destinoId, monto, tx);
    AsentarPreservesValid(s, cuentas, canal, actorId, tx, 0);
  }
}
