/** PersonaService: the person records behind every user. */
module Personas {
  import opened Common
  import opened Domain

  /** `crearPersona`: the record is stored under the next id, always ACTIVO.
      The identity document is not checked against the stored ones. */
  function CrearPersona(s: Store, persona: Persona): (Id, Store) {
    (s.nextId, s.(personas := s.personas[s.nextId := persona.(estado := EstadoPersona.Activo)], nextId := s.nextId + 1))
  }

  /** `actualizarPersona`: the seven editable fields are taken from `datos`;
      the identity document stays. */
  function ActualizarPersona(s: Store, id: Id, datos: Persona): Outcome<(Persona, Store)> {
    var persona :- FindById(s.personas, id, PersonaNoEncontrada);
    var actualizada := persona.(nombreCompleto := datos.nombreCompleto, fechaNacimiento := datos.fechaNacimiento,
                                salario := datos.salario, direccion := datos.direccion, telefono := datos.telefono,
                                email := datos.email, estado := datos.estado);
    Success((actualizada, s.(personas := s.personas[id := actualizada])))
  }

  /** `obtenerPersona`. */
  function ObtenerPersona(s: Store, id: Id): (r: Outcome<Persona>)
    ensures r.Success? <==> id in s.personas
    ensures r.Success? ==> r.value == s.personas[id]
    ensures r.Failure? ==> r.error == Error(IllegalArgument, PersonaNoEncontrada)
  {
    FindById(s.personas, id, PersonaNoEncontrada)
  }

  /** `obtenerPersonaPorDui`: the one person with that identity document;
      none is an IllegalArgumentException, several an IncorrectResultSize
      failure. */
  function ObtenerPersonaPorDui(s: Store, dui: string): (r: Outcome<Persona>)
    ensures r.Success? ==> r.value.dui == dui
    ensures r.Success? ==> exists k :: k in s.personas && s.personas[k] == r.value
    ensures forall k :: k in s.personas && s.personas[k].dui == dui && (forall j :: j in s.personas && s.personas[j].dui == dui ==> j == k) ==>
      r == Success(s.personas[k])
    ensures (forall k :: k in s.personas ==> s.personas[k].dui != dui) ==> r == Failure(Error(IllegalArgument, PersonaNoEncontrada))
    ensures forall a, b :: a in s.personas && b in s.personas && a != b && s.personas[a].dui == dui && s.personas[b].dui == dui ==>
      r == Failure(Error(IncorrectResultSize, ResultadoNoUnico))
  {
    var id :- PersonaPorDui(s.personas, dui);
    Success(s.personas[id])
  }

  /** `darDeBajaPersona`: only the state changes, to INACTIVO. */
  function DarDeBajaPersona(s: Store, id: Id): Outcome<Store> {
    var persona :- FindById(s.personas, id, PersonaNoEncontrada);
    Success(s.(personas := s.personas[id := persona.(estado := EstadoPersona.Inactivo)]))
  }

  /** Creating stores the record under a fresh id with every field as given
      except the state, which is ACTIVO whatever the input said; it can be
      read back by id. */
  lemma CrearPersonaEffect(s: Store, persona: Persona)
    requires Valid(s)
    ensures var (id, t) := CrearPersona(s, persona);
      && id !in s.personas
      && t.personas == s.personas[id := t.personas[id]]
      && t.personas[id].estado == EstadoPersona.Activo
      && t.personas[id].(estado := persona.estado) == persona
      && ObtenerPersona(t, id) == Success(t.personas[id])
      && t.(personas := s.personas, nextId := s.nextId) == s
  {
  }

  /** Creating a second person with a stored identity document is accepted,
      after which looking that document up names no single person. */
  lemma CrearPersonaDuiRepetido(s: Store, persona: Persona, existente: Id)
    requires Valid(s)
    requires existente in s.personas && s.personas[existente].dui == persona.dui
    ensures ObtenerPersonaPorDui(CrearPersona(s, persona).1, persona.dui).Failure?
  {
    var (id, t) := CrearPersona(s, persona);
    assert existente != id && existente in t.personas && t.personas[existente].dui == persona.dui;
    assert t.personas[id].dui == persona.dui;
  }

  /** Updating an unknown id fails; a known one takes the seven fields from
      `datos`, keeps the identity document and changes no other record.
      Updating twice with the same data is the same as once. */
  lemma ActualizarPersonaEffect(s: Store, id: Id, datos: Persona)
    ensures ActualizarPersona(s, id, datos).Success? <==> id in s.personas
    ensures id !in s.personas ==> ActualizarPersona(s, id, datos) == Failure(Error(IllegalArgument, PersonaNoEncontrada))
    ensures ActualizarPersona(s, id, datos).Success? ==>
      var (p, t) := ActualizarPersona(s, id, datos).value;
      && p == datos.(dui := s.personas[id].dui)
      && t.personas == s.personas[id := p]
      && t.(personas := s.personas) == s
      && ActualizarPersona(t, id, datos).value.1 == t
  {
    if id in s.personas {
      var (p, t) := ActualizarPersona(s, id, datos).value;
      assert t.personas[id := p] == t.personas;
    }
  }

  /** Deactivating an unknown id fails; a known one changes only the state,
      to INACTIVO, and deactivating again changes nothing more. */
  lemma DarDeBajaPersonaEffect(s: Store, id: Id)
    ensures DarDeBajaPersona(s, id).Success? <==> id in s.personas
    ensures id !in s.personas ==> DarDeBajaPersona(s, id) == Failure(Error(IllegalArgument, PersonaNoEncontrada))
    ensures DarDeBajaPersona(s, id).Success? ==>
      var t := DarDeBajaPersona(s, id).value;
      && t.personas == s.personas[id := s.personas[id].(estado := EstadoPersona.Inactivo)]
      && t.(personas := s.personas) == s
      && DarDeBajaPersona(t, id) == Success(t)
  {
    if id in s.personas {
      var t := DarDeBajaPersona(s, id).value;
      assert t.personas[id := t.personas[id].(estado := EstadoPersona.Inactivo)] == t.personas;
    }
  }

  /** Every operation of the service keeps the store valid. */
  lemma CrearPersonaPreservesValid(s: Store, persona: Persona)
    requires Valid(s)
    ensures Valid(CrearPersona(s, persona).1)
  {
    var t := CrearPersona(s, persona).1;
    forall i | 0 <= i < |t.transacciones| ensures AccountsBelow(t.transacciones[i], t.nextId) {
      assert AccountsBelow(s.transacciones[i], s.nextId);
    }
  }

  lemma ActualizarPersonaPreservesValid(s: Store, id: Id, datos: Persona)
    requires Valid(s)
    ensures ActualizarPersona(s, id, datos).Success? ==> Valid(ActualizarPersona(s, id, datos).value.1)
  {
  }

  lemma DarDeBajaPersonaPreservesValid(s: Store, id: Id)
    requires Valid(s)
    ensures DarDeBajaPersona(s, id).Success? ==> Valid(DarDeBajaPersona(s, id).value)
  {
  }
}
