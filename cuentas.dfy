/** CuentaService: opening an account under the per-role rules, closing one,
    and drawing a fresh 12-digit account number. */
module Cuentas {
  import opened Common
  import opened Domain
  import Transacciones

  // ---------------------------------------------------------------------
  // Account numbers: String.format("%012d", Math.abs(draw) % 10^12)
  // ---------------------------------------------------------------------

  function Pow10(n: nat): (p: nat)
    ensures p >= 1
  {
    if n == 0 then 1 else 10 * Pow10(n - 1)
  }

  /** 1_000_000_000_000L: the modulus that keeps a draw to 12 digits. */
  const MODULO_NUMERO: nat := 1_000_000_000_000

  const DIGITOS_NUMERO: nat := 12

  function Abs(x: int): nat {
    if x < 0 then -x else x
  }

  predicate EsDigito(c: char) {
    '0' <= c <= '9'
  }

  /** `%0wd`: the decimal digits of `n`, left-padded with zeros to width `w`. */
  function FormatoCeros(n: nat, w: nat): (r: string)
    requires n < Pow10(w)
    ensures |r| == w
    ensures forall i :: 0 <= i < |r| ==> EsDigito(r[i])
    decreases n, w
  {
    if w == 0 then ""
    else
      assert n / 10 < Pow10(w - 1) by {
        assert 10 * (n / 10) <= n;
      }
      FormatoCeros(n / 10, w - 1) + [(48 + n % 10) as char]
  }

  /** The number a string of decimal digits denotes. */
  function ValorDecimal(s: string): int {
    if s == [] then 0 else 10 * ValorDecimal(s[..|s| - 1]) + ((s[|s| - 1] as int) - 48)
  }

  /** Formatting then reading back the digits gives the number again. */
  lemma {:induction false} FormatoCerosRoundTrip(n: nat, w: nat)
    requires n < Pow10(w)
    ensures ValorDecimal(FormatoCeros(n, w)) == n
    decreases w
  {
    if w > 0 {
      assert n / 10 < Pow10(w - 1) by {
        assert 10 * (n / 10) <= n;
      }
      var init := FormatoCeros(n / 10, w - 1);
      var r := FormatoCeros(n, w);
      assert r[..|r| - 1] == init;
      FormatoCerosRoundTrip(n / 10, w - 1);
    }
  }

  /** The account number drawn from one random long. */
  function NumeroCuenta(draw: int): (r: string)
    ensures |r| == DIGITOS_NUMERO
    ensures forall i :: 0 <= i < |r| ==> EsDigito(r[i])
  {
    assert Pow10(DIGITOS_NUMERO) == MODULO_NUMERO;
    FormatoCeros(Abs(draw) % MODULO_NUMERO, DIGITOS_NUMERO)
  }

  /** Two draws give the same account number exactly when they agree modulo
      10^12 in absolute value. */
  lemma NumeroCuentaInjective(a: int, b: int)
    ensures NumeroCuenta(a) == NumeroCuenta(b) <==> Abs(a) % MODULO_NUMERO == Abs(b) % MODULO_NUMERO
  {
    assert Pow10(DIGITOS_NUMERO) == MODULO_NUMERO;
    FormatoCerosRoundTrip(Abs(a) % MODULO_NUMERO, DIGITOS_NUMERO);
    FormatoCerosRoundTrip(Abs(b) % MODULO_NUMERO, DIGITOS_NUMERO);
  }

  /** The numbers already taken (`existsByNumeroCuenta`). */
  function Numeros(cuentas: map<Id, Cuenta>): set<string> {
    set k | k in cuentas :: cuentas[k].numeroCuenta
  }

  /** The random source eventually yields a number not yet taken: the
      do-while loop of `generarNumeroCuentaUnico` stops only then. */
  predicate HayNumeroLibre(existentes: set<string>, draws: seq<int>) {
    exists i :: 0 <= i < |draws| && NumeroCuenta(draws[i]) !in existentes
  }

  /** The numbers the draws format to, in order. */
  function Candidatos(draws: seq<int>): (c: seq<string>)
    ensures |c| == |draws| && forall i :: 0 <= i < |draws| ==> c[i] == NumeroCuenta(draws[i])
  {
    seq(|draws|, i requires 0 <= i < |draws| => NumeroCuenta(draws[i]))
  }

  /** The position of the first draw whose number is free. */
  function PrimerLibre(existentes: set<string>, draws: seq<int>): (i: nat)
    requires HayNumeroLibre(existentes, draws)
    ensures i < |draws| && NumeroCuenta(draws[i]) !in existentes
    ensures forall j :: 0 <= j < i ==> NumeroCuenta(draws[j]) in existentes
  {
    var c := Candidatos(draws);
    assert exists k :: 0 <= k < |c| && c[k] !in existentes by {
      var k :| 0 <= k < |draws| && NumeroCuenta(draws[k]) !in existentes;
      assert c[k] !in existentes;
    }
    PrimerFuera(existentes, c, 0)
  }

  /** The first position from `desde` on whose number is not in `existentes`,
      when all those before `desde` are. */
  function PrimerFuera(existentes: set<string>, c: seq<string>, desde: nat): (i: nat)
    requires desde <= |c|
    requires exists k :: desde <= k < |c| && c[k] !in existentes
    requires forall j :: 0 <= j < desde ==> c[j] in existentes
    ensures desde <= i < |c| && c[i] !in existentes
    ensures forall j :: 0 <= j < i ==> c[j] in existentes
    decreases |c| - desde
  {
    if c[desde] !in existentes then desde
    else PrimerFuera(existentes, c, desde + 1)
  }

  /** `generarNumeroCuentaUnico`: draw until the formatted number is not
      taken; the result is the number of the first free draw. */
  method GenerarNumeroCuentaUnico(existentes: set<string>, draws: seq<int>) returns (numero: string)
    requires HayNumeroLibre(existentes, draws)
    ensures numero == NumeroCuenta(draws[PrimerLibre(existentes, draws)])
    ensures numero !in existentes && |numero| == DIGITOS_NUMERO
  {
    var i := 0;
    numero := NumeroCuenta(draws[0]);
    while numero in existentes
      invariant 0 <= i < |draws|
      invariant numero == NumeroCuenta(draws[i])
      invariant forall j :: 0 <= j < i ==> NumeroCuenta(draws[j]) in existentes
      invariant i <= PrimerLibre(existentes, draws)
      decreases |draws| - i
    {
      i := i + 1;
      numero := NumeroCuenta(draws[i]);
    }
  }

  // ---------------------------------------------------------------------
  // crearCuenta
  // ---------------------------------------------------------------------

  /** The optional creator: no id means no creator; an unknown id is an
      IllegalArgumentException. */
  function BuscarCreador(usuarios: map<Id, Usuario>, creadorId: Option<Id>): (r: Outcome<Option<Usuario>>)
    ensures r.Success? <==> (creadorId.Some? ==> creadorId.value in usuarios)
    ensures r.Success? ==> r.value.Some? == creadorId.Some?
    ensures r.Success? && creadorId.Some? ==> r.value.value == usuarios[creadorId.value]
  {
    match creadorId
    case None => Success(None)
    case Some(id) =>
      var creador :- FindById(usuarios, id, CreadorNoEncontrado);
      Success(Some(creador))
  }

  /** How many accounts a role may hold: three for a client, one for a
      collaborator, none for any other role. */
  function LimiteCuentas(rol: Rol): nat {
    match rol
    case Cliente => 3
    case Colaborador => 1
    case _ => 0
  }

  /** Who may open accounts for a user of role `rol`: for a client, no creator,
      the client themself or a cashier; for a collaborator, only a cashier. */
  predicate CreadorPermitido(rol: Rol, usuarioId: Id, creadorId: Option<Id>, creador: Option<Usuario>) {
    match rol
    case Cliente => creador.None? || creador.value.rol == Cajero || creadorId == Some(usuarioId)
    case Colaborador => creador.Some? && creador.value.rol == Cajero
    case _ => false
  }

  /** The role rules of `crearCuenta`, in the source's order. */
  function ReglasDeApertura(cuentas: map<Id, Cuenta>, usuarioId: Id, usuario: Usuario, creadorId: Option<Id>, creador: Option<Usuario>): (c: Check<Error>)
    requires creador.Some? == creadorId.Some?
    ensures c.Pass? <==> CreadorPermitido(usuario.rol, usuarioId, creadorId, creador)
                         && |Domain.CuentasDe(cuentas, usuarioId)| < LimiteCuentas(usuario.rol)
    ensures usuario.rol !in {Cliente, Colaborador} ==> c == Fail(Error(Security, RolSinCuentas))
    ensures c.Fail? && usuario.rol in {Cliente, Colaborador} ==>
      c.error == if CreadorPermitido(usuario.rol, usuarioId, creadorId, creador)
                 then Error(IllegalState, MaximoCuentas) else Error(Security, CreadorNoPermitido)
  {
    if usuario.rol == Cliente then
      if creador.Some? && creador.value.rol != Cajero && creadorId.value != usuarioId then
        Fail(Error(Security, CreadorNoPermitido))
      else if |Domain.CuentasDe(cuentas, usuarioId)| >= 3 then
        Fail(Error(IllegalState, MaximoCuentas))
      else Pass
    else if usuario.rol == Colaborador then
      if creador.None? || creador.value.rol != Cajero then
        Fail(Error(Security, CreadorNoPermitido))
      else if |Domain.CuentasDe(cuentas, usuarioId)| >= 1 then
        Fail(Error(IllegalState, MaximoCuentas))
      else Pass
    else
      Fail(Error(Security, RolSinCuentas))
  }

  /** The new row: zero balances, active, no branch. */
  function CuentaNueva(numero: string, usuarioId: Id, tipo: TipoCuenta, creadorId: Option<Id>): Cuenta {
    Cuenta(numero, usuarioId, tipo, 0, 0, Some(true), creadorId, None)
  }

  /** The checks of `crearCuenta` before a number is drawn: the owner, the
      creator, and the role rules. On success, the owner. */
  function AdmitirApertura(s: Store, usuarioId: Id, creadorId: Option<Id>): (r: Outcome<Usuario>)
    ensures r.Success? ==> usuarioId in s.usuarios && r.value == s.usuarios[usuarioId]
    ensures r.Success? ==> |Domain.CuentasDe(s.cuentas, usuarioId)| < LimiteCuentas(r.value.rol)
  {
    var usuario :- FindById(s.usuarios, usuarioId, UsuarioNoEncontrado);
    var creador :- BuscarCreador(s.usuarios, creadorId);
    :- ReglasDeApertura(s.cuentas, usuarioId, usuario, creadorId, creador);
    Success(usuario)
  }

  /** `crearCuenta`: returns the id of the new account and the new store. */
  function CrearCuenta(s: Store, usuarioId: Id, tipo: TipoCuenta, creadorId: Option<Id>, draws: seq<int>): Outcome<(Id, Store)>
    requires HayNumeroLibre(Numeros(s.cuentas), draws)
  {
    var _ :- AdmitirApertura(s, usuarioId, creadorId);
    var numero := NumeroCuenta(draws[PrimerLibre(Numeros(s.cuentas), draws)]);
    Success((s.nextId, s.(cuentas := s.cuentas[s.nextId := CuentaNueva(numero, usuarioId, tipo, creadorId)],
                          nextId := s.nextId + 1)))
  }

  /** An account opens exactly when both users exist, the creator is allowed
      for the owner's role and the owner is below that role's limit. An
      unknown owner or creator is an IllegalArgumentException; otherwise the
      error is the one `ReglasDeApertura` states. */
  lemma CrearCuentaSucceedsIff(s: Store, usuarioId: Id, tipo: TipoCuenta, creadorId: Option<Id>, draws: seq<int>)
    requires HayNumeroLibre(Numeros(s.cuentas), draws)
    ensures CrearCuenta(s, usuarioId, tipo, creadorId, draws).Success?
            <==> && usuarioId in s.usuarios
                 && (creadorId.Some? ==> creadorId.value in s.usuarios)
                 && CreadorPermitido(s.usuarios[usuarioId].rol, usuarioId, creadorId,
                                     if creadorId.Some? then Some(s.usuarios[creadorId.value]) else None)
                 && |Domain.CuentasDe(s.cuentas, usuarioId)| < LimiteCuentas(s.usuarios[usuarioId].rol)
    ensures usuarioId !in s.usuarios ==> CrearCuenta(s, usuarioId, tipo, creadorId, draws) == Failure(Error(IllegalArgument, UsuarioNoEncontrado))
    ensures usuarioId in s.usuarios && creadorId.Some? && creadorId.value !in s.usuarios ==>
      CrearCuenta(s, usuarioId, tipo, creadorId, draws) == Failure(Error(IllegalArgument, CreadorNoEncontrado))
    ensures usuarioId in s.usuarios && (creadorId.Some? ==> creadorId.value in s.usuarios) && CrearCuenta(s, usuarioId, tipo, creadorId, draws).Failure? ==>
      CrearCuenta(s, usuarioId, tipo, creadorId, draws) == Failure(ReglasDeApertura(s.cuentas, usuarioId, s.usuarios[usuarioId], creadorId,
                                      if creadorId.Some? then Some(s.usuarios[creadorId.value]) else None).error)
  {
  }

  /** A client with three accounts, or a collaborator with one, is refused
      with an IllegalStateException once the creator is allowed. */
  lemma CrearCuentaAtLimit(s: Store, usuarioId: Id, tipo: TipoCuenta, creadorId: Option<Id>, draws: seq<int>)
    requires HayNumeroLibre(Numeros(s.cuentas), draws)
    requires usuarioId in s.usuarios && (creadorId.Some? ==> creadorId.value in s.usuarios)
    requires s.usuarios[usuarioId].rol in {Cliente, Colaborador}
    requires CreadorPermitido(s.usuarios[usuarioId].rol, usuarioId, creadorId,
                              if creadorId.Some? then Some(s.usuarios[creadorId.value]) else None)
    requires |Domain.CuentasDe(s.cuentas, usuarioId)| >= LimiteCuentas(s.usuarios[usuarioId].rol)
    ensures CrearCuenta(s, usuarioId, tipo, creadorId, draws) == Failure(Error(IllegalState, MaximoCuentas))
  {
  }

  /** Storing one more account of a user under a fresh id adds exactly that
      id to the user's accounts. */
  lemma CuentasDeAlta(cuentas: map<Id, Cuenta>, id: Id, nueva: Cuenta)
    requires id !in cuentas
    ensures Domain.CuentasDe(cuentas[id := nueva], nueva.cliente) == Domain.CuentasDe(cuentas, nueva.cliente) + {id}
    ensures |Domain.CuentasDe(cuentas[id := nueva], nueva.cliente)| == |Domain.CuentasDe(cuentas, nueva.cliente)| + 1
  {
    assert Domain.CuentasDe(cuentas[id := nueva], nueva.cliente) == Domain.CuentasDe(cuentas, nueva.cliente) + {id};
  }

  /** The new account is the user's, with zero balances, active, recorded
      with its creator and no branch, under a 12-digit number no other
      account has, and the user's account count grows by exactly one and stays
      within the limit; no other account, repository or log changes. */
  lemma CrearCuentaEffect(s: Store, usuarioId: Id, tipo: TipoCuenta, creadorId: Option<Id>, draws: seq<int>)
    requires Valid(s)
    requires HayNumeroLibre(Numeros(s.cuentas), draws)
    requires CrearCuenta(s, usuarioId, tipo, creadorId, draws).Success?
    ensures var (id, t) := CrearCuenta(s, usuarioId, tipo, creadorId, draws).value;
      && id !in s.cuentas
      && t.cuentas == s.cuentas[id := t.cuentas[id]]
      && t.cuentas[id].cliente == usuarioId && t.cuentas[id].tipoCuenta == tipo
      && t.cuentas[id].saldo == 0 && t.cuentas[id].saldoDisponible == 0
      && t.cuentas[id].activa == Some(true) && t.cuentas[id].creadaPor == creadorId
      && t.cuentas[id].sucursal == None
      && t.nextId == s.nextId + 1 && t.(cuentas := s.cuentas, nextId := s.nextId) == s
      && |t.cuentas[id].numeroCuenta| == 12 && t.cuentas[id].numeroCuenta !in Numeros(s.cuentas)
      && Domain.CuentasDe(t.cuentas, usuarioId) == Domain.CuentasDe(s.cuentas, usuarioId) + {id}
      && |Domain.CuentasDe(t.cuentas, usuarioId)| == |Domain.CuentasDe(s.cuentas, usuarioId)| + 1
                                                   <= LimiteCuentas(s.usuarios[usuarioId].rol)
  {
    assert AdmitirApertura(s, usuarioId, creadorId).Success?;
    var i := PrimerLibre(Numeros(s.cuentas), draws);
    var nueva := CuentaNueva(NumeroCuenta(draws[i]), usuarioId, tipo, creadorId);
    var (id, t) := CrearCuenta(s, usuarioId, tipo, creadorId, draws).value;
    assert id == s.nextId && t.cuentas == s.cuentas[id := nueva];
    CuentasDeAlta(s.cuentas, id, nueva);
  }

  /** Account numbers are unique across the bank. */
  predicate NumerosUnicos(cuentas: map<Id, Cuenta>) {
    forall a, b :: a in cuentas && b in cuentas && a != b ==> cuentas[a].numeroCuenta != cuentas[b].numeroCuenta
  }

  lemma CrearCuentaKeepsNumbersUnique(s: Store, usuarioId: Id, tipo: TipoCuenta, creadorId: Option<Id>, draws: seq<int>)
    requires Valid(s) && NumerosUnicos(s.cuentas)
    requires HayNumeroLibre(Numeros(s.cuentas), draws)
    requires CrearCuenta(s, usuarioId, tipo, creadorId, draws).Success?
    ensures NumerosUnicos(CrearCuenta(s, usuarioId, tipo, creadorId, draws).value.1.cuentas)
  {
    var nueva := CuentaNueva(NumeroCuenta(draws[PrimerLibre(Numeros(s.cuentas), draws)]), usuarioId, tipo, creadorId);
    var (id, t) := CrearCuenta(s, usuarioId, tipo, creadorId, draws).value;
    assert id == s.nextId && id !in s.cuentas && t.cuentas == s.cuentas[id := nueva];
    assert nueva.numeroCuenta !in Numeros(s.cuentas);
    forall a, b | a in t.cuentas && b in t.cuentas && a != b
      ensures t.cuentas[a].numeroCuenta != t.cuentas[b].numeroCuenta
    {
      if a == id {
        assert t.cuentas[b].numeroCuenta in Numeros(s.cuentas);
      } else if b == id {
        assert t.cuentas[a].numeroCuenta in Numeros(s.cuentas);
      }
    }
  }

  lemma CrearCuentaPreservesValid(s: Store, usuarioId: Id, tipo: TipoCuenta, creadorId: Option<Id>, draws: seq<int>)
    requires Valid(s)
    requires HayNumeroLibre(Numeros(s.cuentas), draws)
    requires CrearCuenta(s, usuarioId, tipo, creadorId, draws).Success?
    ensures Valid(CrearCuenta(s, usuarioId, tipo, creadorId, draws).value.1)
  {
    var numero := NumeroCuenta(draws[PrimerLibre(Numeros(s.cuentas), draws)]);
    var nueva := CuentaNueva(numero, usuarioId, tipo, creadorId);
    assert CrearCuenta(s, usuarioId, tipo, creadorId, draws).value.1
        == s.(cuentas := s.cuentas[s.nextId := nueva], nextId := s.nextId + 1);
    AltaCuentaPreservesValid(s, nueva);
  }

  // ---------------------------------------------------------------------
  // desactivarCuenta
  // ---------------------------------------------------------------------

  /** `desactivarCuenta`: sets `activa` to false, whatever it was. */
  function DesactivarCuenta(s: Store, cuentaId: Id): Outcome<Store> {
    var cuenta :- FindById(s.cuentas, cuentaId, CuentaNoEncontrada);
    Success(s.(cuentas := s.cuentas[cuentaId := cuenta.(activa := Some(false))]))
  }

  /** Closing is refused only for an unknown account, changes only that
      account's flag, and closing twice is closing once. */
  lemma DesactivarCuentaEffect(s: Store, cuentaId: Id)
    ensures DesactivarCuenta(s, cuentaId).Success? <==> cuentaId in s.cuentas
    ensures DesactivarCuenta(s, cuentaId).Failure? ==> DesactivarCuenta(s, cuentaId).error == Error(IllegalArgument, CuentaNoEncontrada)
    ensures DesactivarCuenta(s, cuentaId).Success? ==>
      var t := DesactivarCuenta(s, cuentaId).value;
      && t.cuentas.Keys == s.cuentas.Keys
      && t.cuentas[cuentaId] == s.cuentas[cuentaId].(activa := Some(false))
      && (forall k :: k in s.cuentas && k != cuentaId ==> t.cuentas[k] == s.cuentas[k])
      && t.(cuentas := s.cuentas) == s
      && DesactivarCuenta(t, cuentaId) == Success(t)
  {
    if cuentaId in s.cuentas {
      var t := DesactivarCuenta(s, cuentaId).value;
      assert t.cuentas[cuentaId := t.cuentas[cuentaId].(activa := Some(false))] == t.cuentas;
    }
  }

  /** After closing an account, no deposit, withdrawal or transfer can touch
      it: every flow that gets past the role and lookup checks stops at
      `requireCuentaActiva`. */
  lemma DesactivadaRechazaMovimientos(s: Store, cuentaId: Id, canal: Transacciones.Canal, actorId: Id, otraId: Id,
                                      monto: Option<int>, referencia: Option<string>)
    requires DesactivarCuenta(s, cuentaId).Success?
    ensures var t := DesactivarCuenta(s, cuentaId).value;
      && Transacciones.Depositar(t, canal, actorId, cuentaId, monto, referencia).Failure?
      && Transacciones.Retirar(t, canal, actorId, cuentaId, monto, referencia).Failure?
      && (!canal.PorDependiente? ==>
            && Transacciones.Transferir(t, canal, actorId, cuentaId, otraId, monto, referencia).Failure?
            && Transacciones.Transferir(t, canal, actorId, otraId, cuentaId, monto, referencia).Failure?)
  {
    var t := DesactivarCuenta(s, cuentaId).value;
    assert !Transacciones.Autorizado(t, canal, actorId, cuentaId);
    Transacciones.DepositarSucceedsIff(t, canal, actorId, cuentaId, monto, referencia);
    Transacciones.RetirarSucceedsIff(t, canal, actorId, cuentaId, monto, referencia);
    if !canal.PorDependiente? {
      Transacciones.TransferirSucceedsIff(t, canal, actorId, cuentaId, otraId, monto, referencia);
      Transacciones.TransferirSucceedsIff(t, canal, actorId, otraId, cuentaId, monto, referencia);
    }
  }

  lemma DesactivarCuentaPreservesValid(s: Store, cuentaId: Id)
    requires Valid(s)
    requires DesactivarCuenta(s, cuentaId).Success?
    ensures Valid(DesactivarCuenta(s, cuentaId).value)
  {
  }
}
