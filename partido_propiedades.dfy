/** Properties of the match-state service that relate several reads and
    writes: what a write leaves for the next read to see. */
module PartidoPropiedades {
  import opened Json
  import opened Firestore
  import opened PartidoServicio

  // ------------------------------------------------- current-match read

  /** With an empty config the read ends in the sentinel whatever the
      players table holds: no player is looked up and nothing can fail. */
  lemma EmptyConfigIsUnconfigured(config: Record, jugadores: map<Id, Record>, futuros: seq<Doc>)
    requires config == map[]
    ensures ObtenerConfiguracionPartidoActual(Db(config, jugadores, futuros)) == Ok(SinConfigurar)
    ensures ObtenerEstadoGlobal(Db(config, jugadores, futuros)).Ok?
    ensures ObtenerEstadoGlobal(Db(config, jugadores, futuros)).value.partidoActual == None
  {
  }

  /** A configured player id that is not in the players table is a fault
      with status 404, never the sentinel. */
  lemma DanglingPlayerIsNotFound(db: Db, field: string)
    requires field == "jugador1" || field == "jugador2"
    requires PlayerRef(db.config, "jugador1").Some? && PlayerRef(db.config, "jugador2").Some?
    requires PlayerRef(db.config, field).value !in db.jugadores
    ensures ObtenerConfiguracionPartidoActual(db).Err?
    ensures Status(ObtenerConfiguracionPartidoActual(db).fault) == Some(404)
    ensures ObtenerEstadoGlobal(db) == Err(PLAYERS_MISSING)
  {
  }

  /** A failed current-match read carries status 404 exactly when both
      player fields are usable ids and one of them is not stored; a player
      field the store refuses as an id gives a store error without status. */
  lemma ReadFaultStatus(db: Db)
    requires ObtenerConfiguracionPartidoActual(db).Err?
    ensures
      var f := ObtenerConfiguracionPartidoActual(db).fault;
      var ref1, ref2 := PlayerRef(db.config, "jugador1"), PlayerRef(db.config, "jugador2");
      && (Status(f) == Some(404) <==>
            ref1.Some? && ref2.Some? && (ref1.value !in db.jugadores || ref2.value !in db.jugadores))
      && (Status(f) == None <==> ref1.None? || ref2.None?)
      && (Status(f) == Some(404) ==> f == PLAYERS_MISSING)
  {
  }

  /** The read depends on the players table only through the two players
      the config names. */
  lemma ReadSeesOnlyConfiguredPlayers(db: Db, jugadores: map<Id, Record>)
    requires forall field :: field in {"jugador1", "jugador2"} && PlayerRef(db.config, field).Some? ==>
      var id := PlayerRef(db.config, field).value;
      (id in db.jugadores <==> id in jugadores) &&
      (id in jugadores ==> db.jugadores[id] == jugadores[id])
    ensures ObtenerConfiguracionPartidoActual(db) ==
            ObtenerConfiguracionPartidoActual(Db(db.config, jugadores, db.partidosFuturos))
  {
  }

  /** Each resolved player carries an `id`: the configured id when the
      stored player record has no `id` field, the stored field otherwise. */
  lemma ResolvedPlayerIds(db: Db)
    requires ObtenerConfiguracionPartidoActual(db).Ok?
    requires ObtenerConfiguracionPartidoActual(db).value.Configurado?
    ensures
      var partido := ObtenerConfiguracionPartidoActual(db).value.partido;
      && partido["jugador1"].Obj? && partido["jugador2"].Obj?
      && "id" in partido["jugador1"].fields && "id" in partido["jugador2"].fields
      && ("id" !in db.jugadores[db.config["jugador1"].s] ==>
            partido["jugador1"].fields["id"] == db.config["jugador1"])
      && ("id" !in db.jugadores[db.config["jugador2"].s] ==>
            partido["jugador2"].fields["id"] == db.config["jugador2"])
      && ("id" in db.jugadores[db.config["jugador1"].s] ==>
            partido["jugador1"].fields["id"] == db.jugadores[db.config["jugador1"].s]["id"])
      && ("id" in db.jugadores[db.config["jugador2"].s] ==>
            partido["jugador2"].fields["id"] == db.jugadores[db.config["jugador2"].s]["id"])
  {
  }

  /** An instance where the stored `id` field differs from the configured
      id: the resolved player shows the stored one. */
  lemma StoredIdShadowsConfiguredId()
    ensures
      var db := Db(map["jugador1" := Str("a"), "jugador2" := Str("a")],
                   map["a" := map["id" := Str("b")]], []);
      && ObtenerConfiguracionPartidoActual(db).Ok?
      && ObtenerConfiguracionPartidoActual(db).value.Configurado?
      && ObtenerConfiguracionPartidoActual(db).value.partido["jugador1"] == Obj(map["id" := Str("b")])
  {
    var db := Db(map["jugador1" := Str("a"), "jugador2" := Str("a")],
                 map["a" := map["id" := Str("b")]], []);
    assert map["id" := Str("a")] + map["id" := Str("b")] == map["id" := Str("b")];
  }

  // -------------------------------------------------------- global state

  /** No players, no future matches, no match configured. */
  lemma EmptyGlobalState()
    ensures ObtenerEstadoGlobal(Db(map[], map[], [])) == Ok(EstadoGlobal([], None, []))
  {
  }

  /** A configured match whose config carries a truthy `message` field is
      reported as no current match by the global state, although the
      current-match read resolves it. */
  lemma MessageFieldHidesMatch(db: Db)
    requires TruthyField(db.config, "message")
    requires ObtenerConfiguracionPartidoActual(db).Ok?
    ensures ObtenerConfiguracionPartidoActual(db).value.Configurado?
    ensures ObtenerEstadoGlobal(db).Ok? && ObtenerEstadoGlobal(db).value.partidoActual == None
  {
  }

  // ------------------------------------------------------- saving a result

  /** After a save the current match reads as unconfigured, the global state
      shows none, and the future-match listing has grown by the new record,
      whose listed `id` is the one the save returned. The multiset form does
      not depend on where the new record is listed. */
  lemma SaveThenRead(db: Db, partido: Record, uuid: string, docId: Id)
    ensures
      var s := SaveStep(db, partido, uuid, docId);
      && ObtenerConfiguracionPartidoActual(s.db) == Ok(SinConfigurar)
      && ObtenerEstadoGlobal(s.db).Ok?
      && ObtenerEstadoGlobal(s.db).value.partidoActual == None
      && ObtenerPartidosFuturos(s.db) ==
           ObtenerPartidosFuturos(db) + [WithId(docId, PartidoAGuardar(partido, uuid))]
      && multiset(ObtenerPartidosFuturos(s.db)) ==
           multiset(ObtenerPartidosFuturos(db)) + multiset{WithId(docId, PartidoAGuardar(partido, uuid))}
      && ObtenerPartidosFuturos(s.db)[|db.partidosFuturos|]["id"] == s.result.idPartidoGuardado
  {
    var s := SaveStep(db, partido, uuid, docId);
    var before, after := ObtenerPartidosFuturos(db), ObtenerPartidosFuturos(s.db);
    var saved := PartidoAGuardar(partido, uuid);
    forall i | 0 <= i < |after|
      ensures after[i] == (before + [WithId(docId, saved)])[i]
    {
      if i < |before| {
        assert s.db.partidosFuturos[i] == db.partidosFuturos[i];
      }
    }
  }

  /** The id `guardarResultadoFinal` stores and returns is truthy, so the
      stored record always carries one. */
  lemma SavedIdIsTruthy(partido: Record, uuid: string)
    requires uuid != ""
    ensures Truthy(PartidoAGuardar(partido, uuid)["id"])
  {
  }

  /** When the input has no truthy `id` and the fresh id is unused, the
      saved record's `id` differs from that of every stored future match. */
  lemma FreshIdIsNew(db: Db, partido: Record, uuid: string, docId: Id)
    requires !TruthyField(partido, "id")
    requires forall i :: 0 <= i < |db.partidosFuturos| ==>
      "id" in db.partidosFuturos[i].data ==> db.partidosFuturos[i].data["id"] != Str(uuid)
    ensures forall i :: 0 <= i < |db.partidosFuturos| && "id" in db.partidosFuturos[i].data ==>
      db.partidosFuturos[i].data["id"] != SaveStep(db, partido, uuid, docId).result.idPartidoGuardado
  {
  }

  /** A truthy client `id` is stored as it is, even when a stored future
      match already carries it: nothing checks that saved ids are unique. */
  lemma DuplicateClientIdKept(jugadores: map<Id, Record>)
    ensures
      var db := Db(map[], jugadores, [Doc("d0", map["id" := Str("M")])]);
      var s := SaveStep(db, map["id" := Str("M")], "u", "d1");
      && s.db.partidosFuturos[0].data["id"] == Str("M")
      && s.db.partidosFuturos[1].data["id"] == Str("M")
      && s.result.idPartidoGuardado == Str("M")
  {
  }

  // ------------------------------------------------------- config merge

  /** Merging the same changes twice leaves what merging them once did. */
  lemma MergeIsIdempotent(db: Db, cambios: Record)
    ensures MergeConfigStep(MergeConfigStep(db, cambios).db, cambios) == MergeConfigStep(db, cambios)
  {
    var once := MergeConfigStep(db, cambios).db.config;
    assert once + cambios == once;
  }

  /** A merge leaves no match configured only when both the stored config
      and the changes are empty. */
  lemma MergedIsUnconfiguredIff(db: Db, cambios: Record)
    ensures MergeConfigStep(db, cambios).result == Ok(SinConfigurar) <==>
            db.config == map[] && cambios == map[]
  {
  }

  /** Setting both player fields to ids of stored players makes the merge
      resolve them: each becomes that player's record with its id. */
  lemma MergePlayersResolves(db: Db, cambios: Record, p1: Id, p2: Id)
    requires IsDocId(p1) && IsDocId(p2) && p1 in db.jugadores && p2 in db.jugadores
    requires "jugador1" in cambios && cambios["jugador1"] == Str(p1)
    requires "jugador2" in cambios && cambios["jugador2"] == Str(p2)
    ensures
      var r := MergeConfigStep(db, cambios).result;
      && r.Ok? && r.value.Configurado?
      && r.value.partido["jugador1"] == Obj(WithId(p1, db.jugadores[p1]))
      && r.value.partido["jugador2"] == Obj(WithId(p2, db.jugadores[p2]))
      && ("id" !in db.jugadores[p1] ==> r.value.partido["jugador1"].fields["id"] == Str(p1))
      && ("id" !in db.jugadores[p2] ==> r.value.partido["jugador2"].fields["id"] == Str(p2))
  {
  }

  /** The merge example: `{torneo: "A", ronda: "1"}` merged with
      `{ronda: "2"}` is `{torneo: "A", ronda: "2"}`. */
  lemma MergeExample(jugadores: map<Id, Record>, futuros: seq<Doc>)
    ensures
      MergeConfigStep(Db(map["torneo" := Str("A"), "ronda" := Str("1")], jugadores, futuros),
                      map["ronda" := Str("2")]).db.config
      == map["torneo" := Str("A"), "ronda" := Str("2")]
  {
  }

  // ------------------------------------------------------- player update

  /** The fields of the updated player that `cambios` does not name keep
      their stored values; the returned record is the stored one. */
  lemma UpdateKeepsOtherFields(db: Db, idJugador: string, cambios: Record, field: string)
    requires UpdatePlayerStep(db, idJugador, cambios).result.Ok?
    requires field in db.jugadores[idJugador] && field !in cambios
    ensures
      var s := UpdatePlayerStep(db, idJugador, cambios);
      && s.db.jugadores[idJugador][field] == db.jugadores[idJugador][field]
      && s.result.value[field] == db.jugadores[idJugador][field]
  {
  }

  /** After a player update, the current-match read shows the updated record
      when the config names that player, and is otherwise unchanged. */
  lemma UpdateSeenByCurrentMatch(db: Db, idJugador: string, cambios: Record)
    requires UpdatePlayerStep(db, idJugador, cambios).result.Ok?
    ensures
      var after := UpdatePlayerStep(db, idJugador, cambios).db;
      var r := ObtenerConfiguracionPartidoActual(after);
      && (ObtenerConfiguracionPartidoActual(db).Ok? <==> r.Ok?)
      && (PlayerRef(db.config, "jugador1") == Some(idJugador) && r.Ok? && r.value.Configurado? ==>
            r.value.partido["jugador1"] == Obj(WithId(idJugador, after.jugadores[idJugador])))
      && (PlayerRef(db.config, "jugador2") == Some(idJugador) && r.Ok? && r.value.Configurado? ==>
            r.value.partido["jugador2"] == Obj(WithId(idJugador, after.jugadores[idJugador])))
      && (PlayerRef(db.config, "jugador1") != Some(idJugador) &&
          PlayerRef(db.config, "jugador2") != Some(idJugador) ==>
            r == ObtenerConfiguracionPartidoActual(db))
  {
  }

  /** A failed player update carries status 404 exactly when the id is a
      usable document id that is not stored, and then its message names
      that id; a refused id or an empty change set is a store error
      without status. */
  lemma UpdateFaultStatus(db: Db, idJugador: string, cambios: Record)
    requires UpdatePlayerStep(db, idJugador, cambios).result.Err?
    ensures
      var f := UpdatePlayerStep(db, idJugador, cambios).result.fault;
      && (Status(f) == Some(404) <==> IsDocId(idJugador) && idJugador !in db.jugadores)
      && (Status(f) == Some(404) ==>
            f == NotFound("Jugador con ID '" + idJugador + "' no encontrado."))
      && (Status(f) == None <==> !IsDocId(idJugador) || (idJugador in db.jugadores && cambios == map[]))
  {
  }
}
