/** The match-state service of the tennis scoreboard back end: the current
    match held in one config document, the players table, and the
    future-matches collection (the archive of saved results). Reads are
    functions over a snapshot of the three; each write is a step from one
    snapshot to the next, and the class `Servicio` performs the writes in
    place. */
module PartidoServicio {
  import opened Json
  import opened Firestore

  const NO_MATCH_MESSAGE := "No hay partido configurado actualmente."
  const PLAYERS_MISSING_MESSAGE := "Los jugadores configurados no se encuentran en la lista de jugadores."
  const SAVED_MESSAGE := "Partido finalizado y guardado en el historial."

  /** Why the store refused a request. */
  datatype StoreError =
    | InvalidDocumentPath  // `doc(x)` with an `x` that is not a document id
    | EmptyUpdate          // `update({})`: at least one field must be updated

  /** How an operation fails: an object the service throws with a status,
      or an error raised by the store, which carries none. */
  datatype Fault =
    | NotFound(message: string)
    | StoreRejected(reason: StoreError)

  /** The status a fault carries. */
  function Status(f: Fault): Option<int>
  {
    if f.NotFound? then Some(404) else None
  }

  const PLAYERS_MISSING := NotFound(PLAYERS_MISSING_MESSAGE)

  function PlayerNotFound(id: string): Fault
  {
    NotFound("Jugador con ID '" + id + "' no encontrado.")
  }

  datatype Result<+T> = Ok(value: T) | Err(fault: Fault)

  /** The current match: none configured, or the config with both players
      resolved. */
  datatype PartidoActual = SinConfigurar | Configurado(partido: Record)

  /** A snapshot of the three stores. An absent config document reads the
      same as an empty one, so both are the empty map. */
  datatype Db = Db(config: Record, jugadores: map<Id, Record>, partidosFuturos: seq<Doc>)

  /** The state a write leaves behind, and what the write returns. */
  datatype Step<+T> = Step(db: Db, result: T)

  // ---------------------------------------------------------------- reads

  /** The player id the config field `field` names, when the store accepts
      it as a document id. */
  function PlayerRef(config: Record, field: string): Option<Id>
  {
    if field in config && config[field].Str? && IsDocId(config[field].s)
    then Some(config[field].s)
    else None
  }

  /** `partido` is `config` with its two player ids replaced by the players'
      records, each spread over its id; every other field is kept. */
  ghost predicate ResolvedFrom(partido: Record, config: Record, jugadores: map<Id, Record>)
  {
    && PlayerRef(config, "jugador1").Some?
    && PlayerRef(config, "jugador2").Some?
    && var id1 := PlayerRef(config, "jugador1").value;
    && var id2 := PlayerRef(config, "jugador2").value;
    && id1 in jugadores && id2 in jugadores
    && partido.Keys == config.Keys
    && (forall k :: k in config && k != "jugador1" && k != "jugador2" ==> partido[k] == config[k])
    && partido["jugador1"] == Obj(WithId(id1, jugadores[id1]))
    && partido["jugador2"] == Obj(WithId(id2, jugadores[id2]))
  }

  /** `obtenerConfiguracionPartidoActual`. */
  function ObtenerConfiguracionPartidoActual(db: Db): (r: Result<PartidoActual>)
    ensures r == Ok(SinConfigurar) <==> db.config == map[]
    ensures r == Err(StoreRejected(InvalidDocumentPath)) <==>
      db.config != map[] &&
      (PlayerRef(db.config, "jugador1").None? || PlayerRef(db.config, "jugador2").None?)
    ensures r == Err(PLAYERS_MISSING) <==>
      db.config != map[] &&
      PlayerRef(db.config, "jugador1").Some? && PlayerRef(db.config, "jugador2").Some? &&
      (PlayerRef(db.config, "jugador1").value !in db.jugadores ||
       PlayerRef(db.config, "jugador2").value !in db.jugadores)
    ensures r.Ok? && r.value.Configurado? ==> ResolvedFrom(r.value.partido, db.config, db.jugadores)
    ensures r.Ok? || r == Err(StoreRejected(InvalidDocumentPath)) || r == Err(PLAYERS_MISSING)
  {
    if db.config == map[] then
      Ok(SinConfigurar)
    else
      var ref1 := PlayerRef(db.config, "jugador1");
      var ref2 := PlayerRef(db.config, "jugador2");
      if ref1.None? || ref2.None? then
        Err(StoreRejected(InvalidDocumentPath))
      else if ref1.value !in db.jugadores || ref2.value !in db.jugadores then
        Err(PLAYERS_MISSING)
      else
        var jugador1 := WithId(ref1.value, db.jugadores[ref1.value]);
        var jugador2 := WithId(ref2.value, db.jugadores[ref2.value]);
        Ok(Configurado(db.config + map["jugador1" := Obj(jugador1), "jugador2" := Obj(jugador2)]))
  }

  /** `obtenerPartidosFuturos`: one object per stored document, in the
      collection's order, each with its document id. */
  function ObtenerPartidosFuturos(db: Db): (r: seq<Record>)
    ensures |r| == |db.partidosFuturos|
    ensures forall i :: 0 <= i < |r| ==>
      SpreadOf(r[i], map["id" := Str(db.partidosFuturos[i].id)], db.partidosFuturos[i].data)
  {
    ListDocs(db.partidosFuturos)
  }

  /** `obtenerTodosLosJugadores`: one object per player, each with its
      document id. */
  ghost function ObtenerTodosLosJugadores(db: Db): (r: seq<Record>)
    ensures |r| == |db.jugadores|
    ensures forall id :: id in db.jugadores ==>
      exists i :: 0 <= i < |r| && r[i] == WithId(id, db.jugadores[id])
  {
    ListTableHasEveryDoc(db.jugadores);
    ListTable(db.jugadores)
  }

  /** The object `obtenerConfiguracionPartidoActual` resolves to: the
      sentinel message object, or the resolved config. */
  function Respuesta(p: PartidoActual): (r: Record)
    ensures p.SinConfigurar? ==> r.Keys == {"message"} && TruthyField(r, "message")
    ensures p.Configurado? ==> r == p.partido
  {
    match p
    case SinConfigurar => map["message" := Str(NO_MATCH_MESSAGE)]
    case Configurado(partido) => partido
  }

  /** The object a successful current-match read resolves to has a truthy
      `message` exactly when no match is configured or the config itself
      has one: resolving the players leaves `message` as it is. */
  lemma ResponseMessage(db: Db)
    requires ObtenerConfiguracionPartidoActual(db).Ok?
    ensures TruthyField(Respuesta(ObtenerConfiguracionPartidoActual(db).value), "message") <==>
      db.config == map[] || TruthyField(db.config, "message")
  {
  }

  datatype EstadoGlobal = EstadoGlobal(
    jugadores: seq<Record>,
    partidoActual: Option<Record>,
    partidosFuturos: seq<Record>)

  /** `obtenerEstadoGlobal`: the three reads together. The current match is
      reported as null whenever the config read's object has a truthy
      `message` field; a fault of that read fails the whole view. */
  ghost function ObtenerEstadoGlobal(db: Db): (r: Result<EstadoGlobal>)
    ensures r.Err? <==> ObtenerConfiguracionPartidoActual(db).Err?
    ensures r.Err? ==> r.fault == ObtenerConfiguracionPartidoActual(db).fault
    ensures r.Ok? ==> r.value.jugadores == ObtenerTodosLosJugadores(db)
    ensures r.Ok? ==> r.value.partidosFuturos == ObtenerPartidosFuturos(db)
    ensures r.Ok? ==>
      (r.value.partidoActual.None? <==> db.config == map[] || TruthyField(db.config, "message"))
    ensures r.Ok? && r.value.partidoActual.Some? ==>
      ObtenerConfiguracionPartidoActual(db) == Ok(Configurado(r.value.partidoActual.value))
  {
    match ObtenerConfiguracionPartidoActual(db)
    case Err(f) => Err(f)
    case Ok(p) =>
      var respuesta := Respuesta(p);
      ResponseMessage(db);
      var partidoActual := if TruthyField(respuesta, "message") then None else Some(respuesta);
      Ok(EstadoGlobal(ObtenerTodosLosJugadores(db), partidoActual, ObtenerPartidosFuturos(db)))
  }

  // --------------------------------------------------------------- writes

  /** The record `guardarResultadoFinal` adds: the input with its own `id`
      when that is truthy, the fresh id otherwise. */
  function PartidoAGuardar(partido: Record, uuid: string): (r: Record)
    ensures r.Keys == partido.Keys + {"id"}
    ensures forall k :: k in partido && k != "id" ==> r[k] == partido[k]
    ensures TruthyField(partido, "id") ==> r["id"] == partido["id"]
    ensures !TruthyField(partido, "id") ==> r["id"] == Str(uuid)
  {
    partido["id" := if TruthyField(partido, "id") then partido["id"] else Str(uuid)]
  }

  /** What `guardarResultadoFinal` returns. */
  datatype Recibo = Recibo(message: string, idPartidoGuardado: Value)

  /** `guardarResultadoFinal(partido)` with `uuid` the id `uuid()` would
      produce and `docId` the id the store gives the added document. */
  function SaveStep(db: Db, partido: Record, uuid: string, docId: Id): (s: Step<Recibo>)
    ensures |s.db.partidosFuturos| == |db.partidosFuturos| + 1
    ensures s.db.partidosFuturos[..|db.partidosFuturos|] == db.partidosFuturos
    ensures s.db.partidosFuturos[|db.partidosFuturos|] == Doc(docId, PartidoAGuardar(partido, uuid))
    ensures s.db.config == map[]
    ensures s.db.jugadores == db.jugadores
    ensures s.result.message == SAVED_MESSAGE
    ensures s.result.idPartidoGuardado == s.db.partidosFuturos[|db.partidosFuturos|].data["id"]
  {
    var nuevoPartidoFuturo := PartidoAGuardar(partido, uuid);
    Step(Db(map[], db.jugadores, db.partidosFuturos + [Doc(docId, nuevoPartidoFuturo)]),
         Recibo(SAVED_MESSAGE, nuevoPartidoFuturo["id"]))
  }

  /** `actualizarConfiguracionPartido(cambios)`: a top-level merge into the
      config, then a fresh read of the current match. */
  function MergeConfigStep(db: Db, cambios: Record): (s: Step<Result<PartidoActual>>)
    ensures SpreadOf(s.db.config, db.config, cambios)
    ensures s.db.jugadores == db.jugadores && s.db.partidosFuturos == db.partidosFuturos
    ensures s.result == ObtenerConfiguracionPartidoActual(s.db)
  {
    var merged := Db(db.config + cambios, db.jugadores, db.partidosFuturos);
    Step(merged, ObtenerConfiguracionPartidoActual(merged))
  }

  /** `actualizarJugador(idJugador, cambios)`: an existence check, a partial
      update of that player, and a re-read of the stored record. */
  function UpdatePlayerStep(db: Db, idJugador: string, cambios: Record): (s: Step<Result<Record>>)
    ensures !IsDocId(idJugador) ==> s == Step(db, Err(StoreRejected(InvalidDocumentPath)))
    ensures IsDocId(idJugador) && idJugador !in db.jugadores ==>
      s == Step(db, Err(PlayerNotFound(idJugador)))
    ensures IsDocId(idJugador) && idJugador in db.jugadores && cambios == map[] ==>
      s == Step(db, Err(StoreRejected(EmptyUpdate)))
    ensures s.result.Ok? <==> IsDocId(idJugador) && idJugador in db.jugadores && cambios != map[]
    ensures s.result.Ok? ==>
      && s.db.config == db.config
      && s.db.partidosFuturos == db.partidosFuturos
      && s.db.jugadores.Keys == db.jugadores.Keys
      && (forall id :: id in db.jugadores && id != idJugador ==> s.db.jugadores[id] == db.jugadores[id])
      && SpreadOf(s.db.jugadores[idJugador], db.jugadores[idJugador], cambios)
      && s.result.value == WithId(idJugador, s.db.jugadores[idJugador])
  {
    if !IsDocId(idJugador) then
      Step(db, Err(StoreRejected(InvalidDocumentPath)))
    else if idJugador !in db.jugadores then
      Step(db, Err(PlayerNotFound(idJugador)))
    else if cambios == map[] then
      Step(db, Err(StoreRejected(EmptyUpdate)))
    else
      var jugadores := db.jugadores[idJugador := db.jugadores[idJugador] + cambios];
      Step(Db(db.config, jugadores, db.partidosFuturos), Ok(WithId(idJugador, jugadores[idJugador])))
  }

  // ------------------------------------------------------- the service

  /** The service over its three stores, updated in place by the writes. */
  class Servicio {
    var config: Record
    var jugadores: map<Id, Record>
    var partidosFuturos: seq<Doc>

    function Snapshot(): Db
      reads this
    {
      Db(config, jugadores, partidosFuturos)
    }

    constructor (db: Db)
      ensures Snapshot() == db
    {
      config, jugadores, partidosFuturos := db.config, db.jugadores, db.partidosFuturos;
    }

    /** Adds the result to the future-matches collection, then empties the
        config. */
    method GuardarResultadoFinal(partidoGuardado: Record, uuid: string, docId: Id) returns (r: Recibo)
      modifies this
      ensures partidosFuturos == old(partidosFuturos) + [Doc(docId, PartidoAGuardar(partidoGuardado, uuid))]
      ensures config == map[]
      ensures jugadores == old(jugadores)
      ensures r == Recibo(SAVED_MESSAGE, PartidoAGuardar(partidoGuardado, uuid)["id"])
      ensures Step(Snapshot(), r) == SaveStep(old(Snapshot()), partidoGuardado, uuid, docId)
    {
      var nuevoPartidoFuturo := PartidoAGuardar(partidoGuardado, uuid);
      partidosFuturos := partidosFuturos + [Doc(docId, nuevoPartidoFuturo)];
      config := map[];
      r := Recibo(SAVED_MESSAGE, nuevoPartidoFuturo["id"]);
    }

    /** Merges `cambios` into the config, then reads the current match. */
    method ActualizarConfiguracionPartido(cambios: Record) returns (r: Result<PartidoActual>)
      modifies this
      ensures config == old(config) + cambios
      ensures jugadores == old(jugadores) && partidosFuturos == old(partidosFuturos)
      ensures r == ObtenerConfiguracionPartidoActual(Snapshot())
      ensures Step(Snapshot(), r) == MergeConfigStep(old(Snapshot()), cambios)
    {
      config := config + cambios;
      r := ObtenerConfiguracionPartidoActual(Snapshot());
    }

    /** Checks that the player exists, updates the fields in `cambios`, and
        returns the stored record with its id. */
    method ActualizarJugador(idJugador: string, cambios: Record) returns (r: Result<Record>)
      modifies this
      ensures config == old(config) && partidosFuturos == old(partidosFuturos)
      ensures r.Ok? <==> IsDocId(idJugador) && idJugador in old(jugadores) && cambios != map[]
      ensures r.Ok? ==>
        idJugador in old(jugadores) &&
        jugadores == old(jugadores)[idJugador := old(jugadores)[idJugador] + cambios]
      ensures r.Err? ==> jugadores == old(jugadores)
      ensures Step(Snapshot(), r) == UpdatePlayerStep(old(Snapshot()), idJugador, cambios)
    {
      if !IsDocId(idJugador) {
        return Err(StoreRejected(InvalidDocumentPath));
      }
      if idJugador !in jugadores {
        return Err(PlayerNotFound(idJugador));
      }
      if cambios == map[] {
        return Err(StoreRejected(EmptyUpdate));
      }
      jugadores := jugadores[idJugador := jugadores[idJugador] + cambios];
      r := Ok(WithId(idJugador, jugadores[idJugador]));
    }
  }
}
