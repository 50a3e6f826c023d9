# Match-state service of a tennis scoreboard back end

This project models, in Dafny, the match-state service of a small REST back end for a tennis
broadcast scoreboard (`src/services/partidoServicio.js`). The service works over three stores
of a document database:

- the `config` document of the `estado_global` collection, holding the match being played;
- the `jugadores` collection, the players table;
- the `partidosFuturos` collection, to which saved results are added.

It offers four reads and three writes:

- `obtenerConfiguracionPartidoActual` reads the config. An empty (or absent) config gives the
  "no match configured" message object. Otherwise the two configured player ids are looked up,
  and a missing player is a fault with status 404.
- `obtenerPartidosFuturos` and `obtenerTodosLosJugadores` list a collection, each document with
  its id.
- `obtenerEstadoGlobal` combines the three reads.
- `guardarResultadoFinal` adds a record to the future-matches collection and empties the config.
- `actualizarConfiguracionPartido` merges changes into the config and reads the current match again.
- `actualizarJugador` updates one existing player and reads the player back.

Files:

- `json.dfy` (module `Json`) holds the values the service handles (null, booleans, integers,
  strings, arrays, objects), JavaScript truthiness, and the object-spread relation `SpreadOf`.
- `firestore.dfy` (module `Firestore`) holds the store as the service uses it: documents with ids,
  which ids `collection.doc(...)` accepts, the shape of a read document (its fields spread over its id), and
  whole-collection reads.
- `partido_servicio.dfy` (module `PartidoServicio`) holds the faults, the current-match datatype,
  the reads as functions over a snapshot `Db` of the three stores, and each write as a step
  function from one snapshot to the next. The class `Servicio` holds the three stores as fields.
  Its methods perform the writes in place, in the order the source does them, and each method is
  proved equal to its step function.
- `partido_propiedades.dfy` (module `PartidoPropiedades`) holds the lemmas that relate several
  operations, for example what a save or an update leaves for the next read.

Modelling choices that follow the code:

- The current match is a tagged result: `Ok(SinConfigurar)`, `Ok(Configurado(partido))` or
  `Err(fault)`. `Respuesta` gives back the object the JavaScript function resolves to, including
  the sentinel `{ message: "No hay partido configurado actualmente." }`.
- `obtenerEstadoGlobal` reports the current match as `null` whenever the object it got has a
  *truthy* `message` field. So a configured match whose config has a truthy `message` field is
  also reported as `null` (`MessageFieldHidesMatch`).
- A read document is built by spreading the stored fields after the storage id. A stored `id` field
  therefore replaces the document id, in the resolved players and in both listings. Every record
  that `guardarResultadoFinal` stores carries an `id`, so the future-match listing shows that id,
  not the document id (`SaveThenRead`).
- `collection.doc(x)` in the store library rejects an `x` that is not a non-empty string before
  any read. So a config whose `jugador1` or `jugador2` is missing or is not a string fails with a
  store error (`InvalidDocumentPath`), which carries no status. This check happens before the 404
  check. A dangling id that is a proper string gives the 404 fault.
- The store's `update` rejects an empty change set, so `actualizarJugador` with empty `cambios`
  on an existing player fails with `EmptyUpdate` and changes nothing.
- `guardarResultadoFinal` does no validation and removes no future match. It keeps the client's
  `id` when that is truthy (of any type) and otherwise takes the fresh id.
- `uuid()` is the parameter `uuid`. The id the store gives the added document is the parameter `docId`.
- An absent config document and an empty one behave the same in every operation, so both are
  the empty map.

## Model

| member | source | states |
|---|---|---|
| `Firestore.WithId` | src/services/partidoServicio.js:33-34 | a read document is its fields spread over `{id}`; the storage id shows only when the record has no `id` field |
| `Firestore.ListTableFromDocs` | src/services/partidoServicio.js:60-66 | every object a players read returns is one player's fields over that player's id |
| `Firestore.ListTableHasEveryDoc` | src/services/partidoServicio.js:60-66 | every stored player appears, with its id, in a players read |
| `Firestore.ListTableIsEnumeration` | src/services/partidoServicio.js:60-66 | a players read lists the table in some order that names every stored id exactly once, the i-th object being the i-th player's fields over its id |
| `PartidoServicio.ObtenerConfiguracionPartidoActual` | src/services/partidoServicio.js:18-45 | empty config iff sentinel; an unusable player field iff store error; both ids usable but one missing iff the 404 fault; otherwise the config with its other fields kept and both player fields replaced by the players' records over their ids |
| `PartidoServicio.ObtenerPartidosFuturos` | src/services/partidoServicio.js:47-57 | as many objects as stored future matches, the i-th the i-th document's fields over its id; no documents gives `[]` |
| `PartidoServicio.ObtenerTodosLosJugadores` | src/services/partidoServicio.js:59-68 | as many objects as players, and every player's record with its id is among them |
| `PartidoServicio.Respuesta` | src/services/partidoServicio.js:23-25 | the unconfigured response is the object with only a truthy `message`; a configured one is the resolved config |
| `PartidoServicio.ResponseMessage` | src/services/partidoServicio.js:79 | the object of a successful current-match read has a truthy `message` iff no match is configured or the config has a truthy `message` |
| `PartidoServicio.ObtenerEstadoGlobal` | src/services/partidoServicio.js:70-86 | fails exactly when the config read fails, with the same fault; otherwise carries both listings, and the current match is null iff the config is empty or has a truthy `message` field, else it is the resolved config |
| `PartidoServicio.PartidoAGuardar` | src/services/partidoServicio.js:92-95 | the saved record is the input with every other field kept and `id` = the input's `id` if truthy, else the fresh id |
| `PartidoServicio.SaveStep` | src/services/partidoServicio.js:90-106 | the future-matches collection grows by exactly the saved record at its end, the config becomes empty, the players are unchanged, and the returned id is the stored record's `id` |
| `PartidoServicio.MergeConfigStep` | src/services/partidoServicio.js:109-116 | the new config has every key of `cambios` with its value (falsy ones too) and every other old key unchanged; the other stores are unchanged; the result is the current-match read of the new state |
| `PartidoServicio.UpdatePlayerStep` | src/services/partidoServicio.js:118-133 | an unusable id, a missing player or empty changes fail and leave every store unchanged (missing player: 404 with the player's id in the message); otherwise only that player changes, by a field merge of `cambios`, and the result is the stored record over its id |
| `PartidoServicio.Servicio.GuardarResultadoFinal` | src/services/partidoServicio.js:90-106 | appends the saved record, then empties the config, leaves the players alone, returns the message and the stored id; equals `SaveStep` |
| `PartidoServicio.Servicio.ActualizarConfiguracionPartido` | src/services/partidoServicio.js:109-116 | merges `cambios` into the config in place, then returns the current-match read of the new state; equals `MergeConfigStep` |
| `PartidoServicio.Servicio.ActualizarJugador` | src/services/partidoServicio.js:118-133 | checks the id and existence first; on success updates only that player in place and returns the re-read record; on failure changes nothing; equals `UpdatePlayerStep` |
| `PartidoPropiedades.EmptyConfigIsUnconfigured` | src/services/partidoServicio.js:20-25 | with an empty config the read is the sentinel whatever the players table holds, and the global state shows no current match |
| `PartidoPropiedades.DanglingPlayerIsNotFound` | src/services/partidoServicio.js:28-38 | with both player fields usable ids and one of them absent from the table, the read fails with status 404 and the global state fails with it |
| `PartidoPropiedades.ReadFaultStatus` | src/services/partidoServicio.js:28-38 | a failed current-match read has status 404 iff both player fields are usable ids and one is not stored (and then it is the "players missing" fault); it has no status iff a player field is not a usable document id |
| `PartidoPropiedades.ReadSeesOnlyConfiguredPlayers` | src/services/partidoServicio.js:28-34 | the current-match read depends on the players table only through the two configured players |
| `PartidoPropiedades.ResolvedPlayerIds` | src/services/partidoServicio.js:33-44 | each resolved player carries an `id`: the configured id when the player record has no `id` field of its own, and the stored `id` field when it has one |
| `PartidoPropiedades.StoredIdShadowsConfiguredId` | src/services/partidoServicio.js:33 | for example, a player `"a"` whose record stores `id: "b"` is resolved with `id` `"b"`, so the resolved id can differ from the configured one |
| `PartidoPropiedades.EmptyGlobalState` | src/services/partidoServicio.js:70-86 | no players, no future matches and an empty config give `{jugadores: [], partidoActual: null, partidosFuturos: []}` |
| `PartidoPropiedades.MessageFieldHidesMatch` | src/services/partidoServicio.js:79 | a resolvable config with a truthy `message` field is configured, yet the global state reports no current match |
| `PartidoPropiedades.SaveThenRead` | src/services/partidoServicio.js:90-106 | after a save the current match is the sentinel, the global state shows null, the listing is the old listing plus the new record (and, independent of listing order, its multiset grows by exactly that record), and its listed `id` is the returned one |
| `PartidoPropiedades.SavedIdIsTruthy` | src/services/partidoServicio.js:94 | with a non-empty fresh id the stored `id` is always truthy |
| `PartidoPropiedades.FreshIdIsNew` | src/services/partidoServicio.js:94 | when the input has no truthy `id` and the fresh id is unused, the saved id differs from every stored future match's `id` |
| `PartidoPropiedades.DuplicateClientIdKept` | src/services/partidoServicio.js:92-98 | saving `{id: "M"}` when a stored future match already has `id` `"M"` keeps and returns `"M"`: two stored records then share that id, as nothing checks uniqueness |
| `PartidoPropiedades.MergeIsIdempotent` | src/services/partidoServicio.js:112 | merging the same changes twice gives the same state and result as merging once |
| `PartidoPropiedades.MergedIsUnconfiguredIff` | src/services/partidoServicio.js:109-116 | a merge leaves the match unconfigured iff the old config and the changes are both empty |
| `PartidoPropiedades.MergePlayersResolves` | src/services/partidoServicio.js:109-116 | setting both player fields to stored ids makes the returned match resolve them to those players, ids included |
| `PartidoPropiedades.MergeExample` | src/services/partidoServicio.js:112 | `{torneo: "A", ronda: "1"}` merged with `{ronda: "2"}` is `{torneo: "A", ronda: "2"}` |
| `PartidoPropiedades.UpdateKeepsOtherFields` | src/services/partidoServicio.js:127-132 | a field of the player that the changes do not name keeps its value, in the store and in the returned record |
| `PartidoPropiedades.UpdateSeenByCurrentMatch` | src/services/partidoServicio.js:118-133 | after a successful update the current-match read succeeds exactly when it did before; it shows the updated record in `jugador1` or `jugador2`, whichever names that player, and is unchanged when neither does |
| `PartidoPropiedades.UpdateFaultStatus` | src/services/partidoServicio.js:118-128 | a failed player update has status 404 iff the id is a usable document id that is not stored, and then the message names that id; a refused id or empty changes give a store error without status |

## Left out

- `src/controlador/partidoControlador.js`, `src/v1/rutas/partidoRutas.js`, `index.js`, `src/db/firestore.js` and `src/firebase.js` are not part of this model. They are HTTP mapping, routing and start-up.
- Transport failures of the store and the network are not modelled. Every read and write succeeds unless a case above says otherwise.
- Other rejections by the store library are not modelled either: `update` keys that are not valid field paths (the empty key, or keys containing `*`, `~`, `/`, `[` or `]`), and values the store cannot hold, such as arrays nested directly in arrays. The model accepts these writes.
- `Promise.all` runs its reads concurrently. They are modelled one after another, because any fault aborts the whole read either way.
- Concurrent requests and races between the existence check and the update in `actualizarJugador` are left out.
- `set(..., { merge: true })` merges nested objects deeply in the store. The model merges at the top level only and treats every value as atomic.
- `update` reads dotted keys as field paths. The model treats them as plain field names.
- Numbers are integers. JavaScript floating point, `NaN` and `-0` (and their falsiness) are left out.
- The order of a whole-collection read (the store sorts by document id) is left out. The players listing uses an order the model leaves open; the future-matches listing uses the collection's sequence order.
- `SaveThenRead`: its statement that the new record comes last in the listing rests on that sequence order; the store lists by document id and `add` picks a random one, so only its multiset clause is independent of the order.
- `PlayerRef` and `UpdatePlayerStep`: a string containing `/` is always treated as a rejected document id, both for a configured player and for the id of a player update. The store resolves slashed strings as paths: it would accept an id with an odd number of segments (an even number of slashes, such as `"a/b/c"`) as a document in a sub-collection, and it drops the empty segments a leading or trailing slash produces (so `"a/"` would name document `"a"`).
- `ObtenerTodosLosJugadores`: states that the listing enumerates every player exactly once only through `Firestore.ListTableFromDocs` and `Firestore.ListTableIsEnumeration`, and the listed `id` is the document id only for records without an `id` field, as the code does.
- The value of `uuid()` and the document id chosen by `add` are parameters. The uniqueness of `uuid()` is an assumption of `FreshIdIsNew`, not a fact of the model. `docId` is unconstrained: the model does not require it to be new, so `partidosFuturos` may hold repeated storage ids, which the store's `add` never produces. No proved property depends on storage ids being distinct.
- The service code has no finalize-with-archive, no removal of a future match by its model id and no input validation on save, so none of these is modelled.
