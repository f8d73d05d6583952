/** The Flask server: the `usuarios` and `predicciones` collections as two
    in-memory tables, and the endpoints that read and write them. Password
    hashing, token issuing, the classifier and the clock are inputs. */
module Backend {
  import opened Values
  import SuggestText

  /** A point in time, as the database stores it. */
  type Timestamp = nat

  /** A MongoDB ObjectId, kept as its 24-digit lower-case hexadecimal text. */
  datatype ObjectId = ObjectId(hex: string)

  datatype Usuario = Usuario(id: ObjectId, username: Json, password: string, createdAt: Timestamp)

  datatype Prediccion = Prediccion(
    id: ObjectId,
    userId: string,
    objetivo: Json,
    grupo: Json,
    prediccion: Json,
    probabilidadExito: Json,
    resultadoReal: Json,
    fecha: Timestamp,
    timestamp: Option<Timestamp>)

  /** One entry of the `/history` answer. */
  datatype HistoryRow = HistoryRow(
    id: string,
    userId: string,
    objetivo: Json,
    grupo: Json,
    prediccion: Json,
    probabilidadExito: Json,
    resultadoReal: Json,
    fecha: Timestamp,
    timestamp: Option<string>)

  /** An HTTP status with its JSON body. */
  datatype Reply = Reply(status: int, body: Json)

  /** A row of the policy dataset read by `suggest`; None stands for an empty
      (NaN) cell. */
  datatype PolicyRow = PolicyRow(objetivo: string, grupo: Option<string>, evaluacion: Option<string>)

  const ObjectiveKey: string := "Objetivo principal"
  const GroupKey: string := "Grupo"

  function Message(text: string): Json {
    JObject(map["message" := JString(text)])
  }

  function Error(text: string): Json {
    JObject(map["error" := JString(text)])
  }

  /** Flask's answer to an exception the endpoint does not catch. */
  const UncaughtError: Reply := Reply(500, JNull)

  /** `data.get(key)`: None (JSON null) when the key is absent. */
  function Get(data: map<string, Json>, key: string): Json {
    if key in data then data[key] else JNull
  }

  // ---------------------------------------------------------------------
  // Object ids

  predicate IsHexDigit(c: char) {
    '0' <= c <= '9' || 'a' <= c <= 'f' || 'A' <= c <= 'F'
  }

  function LowerHexDigit(c: char): (d: char)
    requires IsHexDigit(c)
    ensures '0' <= d <= '9' || 'a' <= d <= 'f'
    ensures '0' <= c <= '9' || 'a' <= c <= 'f' ==> d == c
  {
    if 'A' <= c <= 'F' then (c as int - 'A' as int + 'a' as int) as char else c
  }

  /** A canonical id text: 24 lower-case hexadecimal digits, as `str(oid)`. */
  predicate Canonical(hex: string) {
    |hex| == 24 && forall k :: 0 <= k < |hex| ==> '0' <= hex[k] <= '9' || 'a' <= hex[k] <= 'f'
  }

  /** `ObjectId(text)`: accepted when it is 24 hexadecimal digits in either
      case; anything else raises. */
  function ParseObjectId(text: string): (r: Option<ObjectId>)
    ensures r.Some? <==> |text| == 24 && forall k :: 0 <= k < |text| ==> IsHexDigit(text[k])
    ensures r.Some? ==> Canonical(r.value.hex)
  {
    if |text| == 24 && forall k :: 0 <= k < |text| ==> IsHexDigit(text[k]) then
      Some(ObjectId(seq(24, k requires 0 <= k < 24 => LowerHexDigit(text[k]))))
    else
      None
  }

  /** Parsing the text of an id gives that id back. */
  lemma ParseCanonical(oid: ObjectId)
    requires Canonical(oid.hex)
    ensures ParseObjectId(oid.hex) == Some(oid)
  {
    var parsed := ParseObjectId(oid.hex).value.hex;
    assert |parsed| == |oid.hex|;
    forall k | 0 <= k < 24 ensures parsed[k] == oid.hex[k] {
      assert IsHexDigit(oid.hex[k]);
    }
    assert parsed == oid.hex;
  }

  // ---------------------------------------------------------------------
  // Queries over the tables

  /** `usuarios_col.find_one({"username": username})`: the first match. */
  function FindUser(usuarios: seq<Usuario>, username: Json): (r: Option<nat>)
    ensures r.Some? ==> r.value < |usuarios| && usuarios[r.value].username == username
    ensures r.Some? ==> forall j :: 0 <= j < r.value ==> usuarios[j].username != username
    ensures r.None? <==> forall j :: 0 <= j < |usuarios| ==> usuarios[j].username != username
  {
    if usuarios == [] then None
    else if usuarios[0].username == username then Some(0)
    else match FindUser(usuarios[1..], username)
      case None => None
      case Some(i) => Some(i + 1)
  }

  /** `predicciones_col.find({"user_id": userId})`, in table order. */
  function RecordsOf(predicciones: seq<Prediccion>, userId: string): (r: seq<Prediccion>)
    ensures |r| <= |predicciones|
    ensures forall p :: p in r <==> p in predicciones && p.userId == userId
  {
    if predicciones == [] then []
    else (if predicciones[0].userId == userId then [predicciones[0]] else []) + RecordsOf(predicciones[1..], userId)
  }

  /** The user's records of a concatenation are those of each part, in order. */
  lemma {:induction false} RecordsOfConcat(a: seq<Prediccion>, b: seq<Prediccion>, userId: string)
    ensures RecordsOf(a + b, userId) == RecordsOf(a, userId) + RecordsOf(b, userId)
  {
    if a == [] {
      assert a + b == b;
    } else {
      assert (a + b)[1..] == a[1..] + b;
      RecordsOfConcat(a[1..], b, userId);
    }
  }

  /** The first record with the given id owned by the given user, which
      `delete_one` removes. */
  function FindOwned(predicciones: seq<Prediccion>, id: ObjectId, userId: string): (r: Option<nat>)
    ensures r.Some? ==> r.value < |predicciones| &&
                        predicciones[r.value].id == id && predicciones[r.value].userId == userId
    ensures r.Some? ==> forall j :: 0 <= j < r.value ==> !(predicciones[j].id == id && predicciones[j].userId == userId)
    ensures r.None? <==> forall j :: 0 <= j < |predicciones| ==>
                           !(predicciones[j].id == id && predicciones[j].userId == userId)
  {
    if predicciones == [] then None
    else if predicciones[0].id == id && predicciones[0].userId == userId then Some(0)
    else match FindOwned(predicciones[1..], id, userId)
      case None => None
      case Some(i) => Some(i + 1)
  }

  function RemoveAt(table: seq<Prediccion>, k: nat): (r: seq<Prediccion>)
    requires k < |table|
    ensures |r| == |table| - 1
    ensures forall j :: 0 <= j < k ==> r[j] == table[j]
    ensures forall j :: k <= j < |r| ==> r[j] == table[j + 1]
  {
    table[..k] + table[k + 1..]
  }

  /** What the database guarantees of a collection's `_id`s: each is a
      canonical ObjectId, and no two documents share one. */
  predicate ValidRecords(t: seq<Prediccion>) {
    (forall p :: p in t ==> Canonical(p.id.hex)) &&
    (forall i, j :: 0 <= i < j < |t| ==> t[i].id != t[j].id)
  }

  predicate ValidUsers(t: seq<Usuario>) {
    (forall u :: u in t ==> Canonical(u.id.hex)) &&
    (forall i, j :: 0 <= i < j < |t| ==> t[i].id != t[j].id)
  }

  /** The id text a `/history` row carries, sent back to `/history/<id>` by
      the same user, selects exactly the record the row was made from. */
  lemma ListedRowIsDeletable(t: seq<Prediccion>, userId: string, k: nat, formatDate: Timestamp -> string)
    requires ValidRecords(t)
    requires k < |RecordsOf(t, userId)|
    ensures var p := RecordsOf(t, userId)[k];
            ParseObjectId(Row(p, formatDate).id) == Some(p.id) &&
            FindOwned(t, p.id, userId).Some? && t[FindOwned(t, p.id, userId).value] == p
  {
    var p := RecordsOf(t, userId)[k];
    assert p in RecordsOf(t, userId);
    assert p in t && p.userId == userId;
    ParseCanonical(p.id);
    var j :| 0 <= j < |t| && t[j] == p;
    var found := FindOwned(t, p.id, userId);
    assert found.Some? by {
      assert t[j].id == p.id && t[j].userId == userId;
    }
    var i := found.value;
    // both carry p's id, and ids are unique
    assert t[i].id == t[j].id;
  }

  /** Deleting one user's record leaves every other user's history as it was
      and takes exactly that record out of the owner's. */
  lemma DeleteIsScopedToOwner(table: seq<Prediccion>, k: nat, userId: string)
    requires k < |table|
    ensures table[k].userId != userId ==> RecordsOf(RemoveAt(table, k), userId) == RecordsOf(table, userId)
    ensures table[k].userId == userId ==>
              RecordsOf(table, userId) ==
                RecordsOf(table[..k], userId) + [table[k]] + RecordsOf(table[k + 1..], userId) &&
              RecordsOf(RemoveAt(table, k), userId) ==
                RecordsOf(table[..k], userId) + RecordsOf(table[k + 1..], userId)
  {
    var before, x, after := table[..k], table[k], table[k + 1..];
    assert table == (before + [x]) + after;
    assert RemoveAt(table, k) == before + after;
    RecordsOfConcat(before + [x], after, userId);
    RecordsOfConcat(before, [x], userId);
    RecordsOfConcat(before, after, userId);
    RecordsOfSingle(x, userId);
  }

  lemma RecordsOfSingle(p: Prediccion, userId: string)
    ensures RecordsOf([p], userId) == if p.userId == userId then [p] else []
  {
    assert [p][1..] == [];
  }

  /** A saved record appears last in its owner's history and nowhere else. */
  lemma SaveAppendsToOwnerHistory(table: seq<Prediccion>, p: Prediccion, userId: string)
    ensures RecordsOf(table + [p], userId) ==
              if p.userId == userId then RecordsOf(table, userId) + [p] else RecordsOf(table, userId)
  {
    RecordsOfConcat(table, [p], userId);
    RecordsOfSingle(p, userId);
  }

  // ---------------------------------------------------------------------
  // Stateless endpoint logic

  /** The label `predict` reports for the classifier's class. */
  function Label(cls: int): (verdict: string)
    ensures verdict == "Éxito" <==> cls == 1
    ensures verdict == "Fracaso" <==> cls != 1
  {
    if cls == 1 then "Éxito" else "Fracaso"
  }

  /** `predict` insists on both form fields. */
  predicate HasRequiredFields(data: map<string, Json>) {
    ObjectiveKey in data && GroupKey in data
  }

  /** `/predict`: `classify` is the model's class for the pair and `percent`
      its rounded success percentage; each is None when the model pipeline
      raises on the pair (a field that is not text, say). */
  function Predict(data: map<string, Json>, classify: (Json, Json) -> Option<int>,
                   percent: (Json, Json) -> Option<real>): (reply: Reply)
    ensures !HasRequiredFields(data) ==> reply == Reply(400, Error("Faltan campos requeridos"))
    // the model raising is an uncaught exception
    ensures HasRequiredFields(data) &&
            (classify(data[ObjectiveKey], data[GroupKey]).None? || percent(data[ObjectiveKey], data[GroupKey]).None?) ==>
              reply == UncaughtError
    ensures HasRequiredFields(data) && classify(data[ObjectiveKey], data[GroupKey]).Some? &&
            percent(data[ObjectiveKey], data[GroupKey]).Some? ==>
              var cls := classify(data[ObjectiveKey], data[GroupKey]).value;
              reply.status == 200 && reply.body.JObject? &&
              reply.body.fields.Keys == {"prediccion", "probabilidad_exito"} &&
              (reply.body.fields["prediccion"] == JString("Éxito") <==> cls == 1) &&
              (reply.body.fields["prediccion"] == JString("Fracaso") <==> cls != 1) &&
              reply.body.fields["probabilidad_exito"] == JNumber(percent(data[ObjectiveKey], data[GroupKey]).value)
  {
    if !HasRequiredFields(data) then
      Reply(400, Error("Faltan campos requeridos"))
    else
      var objetivo, grupo := data[ObjectiveKey], data[GroupKey];
      match (classify(objetivo, grupo), percent(objetivo, grupo))
      case (Some(cls), Some(proba)) =>
        Reply(200, JObject(map["prediccion" := JString(Label(cls)), "probabilidad_exito" := JNumber(proba)]))
      case _ => UncaughtError
  }

  /** The dataset rows `suggest` may propose: same group as asked, and an
      evaluation that mentions "Éxito". A missing group matches nothing. */
  predicate Candidate(row: PolicyRow, grupo: Json) {
    row.grupo.Some? && grupo == JString(row.grupo.value) &&
    row.evaluacion.Some? && SuggestText.Contains(row.evaluacion.value, SuggestText.SuccessWord)
  }

  function Candidates(rows: seq<PolicyRow>, grupo: Json): (r: seq<PolicyRow>)
    ensures forall row :: row in r <==> row in rows && Candidate(row, grupo)
  {
    if rows == [] then []
    else (if Candidate(rows[0], grupo) then [rows[0]] else []) + Candidates(rows[1..], grupo)
  }

  /** The suggestion built from a chosen row. */
  function Suggestion(row: PolicyRow, grupo: Json, percent: (Json, Json) -> real): Json {
    var motivo := if row.evaluacion.Some? then SuggestText.Explanation(row.evaluacion.value) else None;
    JObject(map[ObjectiveKey := JString(row.objetivo),
                GroupKey := grupo,
                "Probabilidad_exito" := JNumber(percent(JString(row.objetivo), grupo)),
                "Evaluacion" := if motivo.Some? then JString(motivo.value) else JNull])
  }

  /** `/suggest`: a random candidate from the dataset, or a message when there
      is none. The random draw is a nondeterministic choice. */
  method Suggest(data: map<string, Json>, dataset: seq<PolicyRow>, percent: (Json, Json) -> real)
    returns (reply: Reply)
    ensures reply.status == 200
    ensures Candidates(dataset, Get(data, GroupKey)) == [] ==>
              reply.body == JObject(map["mensaje" := JString("No hay sugerencias para este grupo")])
    ensures Candidates(dataset, Get(data, GroupKey)) != [] ==>
              exists row :: row in dataset && Candidate(row, Get(data, GroupKey)) &&
                            reply.body == Suggestion(row, Get(data, GroupKey), percent)
  {
    var grupo := Get(data, GroupKey);
    var exitosas := Candidates(dataset, grupo);
    if exitosas == [] {
      return Reply(200, JObject(map["mensaje" := JString("No hay sugerencias para este grupo")]));
    }
    assert exitosas[0] in exitosas;
    var fila :| fila in exitosas;
    reply := Reply(200, Suggestion(fila, grupo, percent));
  }

  /** The `/history` entry for a stored record; `formatDate` renders a
      `timestamp` as "%Y-%m-%d %H:%M:%S". */
  function Row(p: Prediccion, formatDate: Timestamp -> string): HistoryRow {
    HistoryRow(p.id.hex, p.userId, p.objetivo, p.grupo, p.prediccion, p.probabilidadExito,
               p.resultadoReal, p.fecha, if p.timestamp.Some? then Some(formatDate(p.timestamp.value)) else None)
  }

  class Server {
    var usuarios: seq<Usuario>
    var predicciones: seq<Prediccion>

    /** Every stored `_id` is canonical and unique within its collection. */
    predicate Valid()
      reads this
    {
      ValidUsers(usuarios) && ValidRecords(predicciones)
    }

    constructor ()
      ensures usuarios == [] && predicciones == []
      ensures Valid()
    {
      usuarios, predicciones := [], [];
    }

    /** `/register`: `hashed` is what bcrypt made of the password, None when
        it raised; `freshId` is the id the database assigns, canonical and
        not yet in use. */
    method Register(data: map<string, Json>, hashed: Option<string>, freshId: ObjectId, now: Timestamp)
      returns (reply: Reply)
      requires Valid()
      requires Canonical(freshId.hex) && forall u :: u in usuarios ==> u.id != freshId
      modifies this
      ensures Valid()
      ensures predicciones == old(predicciones)
      ensures FindUser(old(usuarios), Get(data, "username")).Some? ==>
                reply == Reply(400, Error("Usuario ya existe")) && usuarios == old(usuarios)
      ensures FindUser(old(usuarios), Get(data, "username")).None? && hashed.None? ==>
                reply == UncaughtError && usuarios == old(usuarios)
      ensures FindUser(old(usuarios), Get(data, "username")).None? && hashed.Some? ==>
                reply == Reply(201, Message("Usuario registrado con éxito")) &&
                usuarios == old(usuarios) + [Usuario(freshId, Get(data, "username"), hashed.value, now)]
    {
      var username := Get(data, "username");
      if FindUser(usuarios, username).Some? {
        return Reply(400, Error("Usuario ya existe"));
      }
      if hashed.None? {
        return UncaughtError;
      }
      usuarios := usuarios + [Usuario(freshId, username, hashed.value, now)];
      reply := Reply(201, Message("Usuario registrado con éxito"));
    }

    /** `/login`: `checkPassword` is bcrypt's check of a stored hash against
        the given password, None when it raises (a missing or non-text
        password); `issueToken` is the JWT made for an identity. */
    method Login(data: map<string, Json>, checkPassword: (string, Json) -> Option<bool>, issueToken: string -> string)
      returns (reply: Reply)
      // an unknown user is refused before any password check
      ensures FindUser(usuarios, Get(data, "username")).None? ==> reply == Reply(401, Error("Credenciales inválidas"))
      ensures var found := FindUser(usuarios, Get(data, "username"));
              found.Some? ==>
                match checkPassword(usuarios[found.value].password, Get(data, "password"))
                case None => reply == UncaughtError
                case Some(false) => reply == Reply(401, Error("Credenciales inválidas"))
                case Some(true) =>
                  reply == Reply(200, JObject(map["token" := JString(issueToken(usuarios[found.value].id.hex)),
                                                  "username" := Get(data, "username")]))
    {
      var username := Get(data, "username");
      var found := FindUser(usuarios, username);
      if found.None? {
        return Reply(401, Error("Credenciales inválidas"));
      }
      var matches := checkPassword(usuarios[found.value].password, Get(data, "password"));
      if matches.None? {
        return UncaughtError;
      }
      if !matches.value {
        return Reply(401, Error("Credenciales inválidas"));
      }
      var token := issueToken(usuarios[found.value].id.hex);
      reply := Reply(200, JObject(map["token" := JString(token), "username" := username]));
    }

    /** `/save` for the authenticated `identity`. A missing required key
        raises, so nothing is stored. `freshId` is the id the database
        assigns, canonical and not yet in use. */
    method Save(identity: string, data: map<string, Json>, freshId: ObjectId, now: Timestamp)
      returns (reply: Reply)
      requires Valid()
      requires Canonical(freshId.hex) && forall p :: p in predicciones ==> p.id != freshId
      modifies this
      ensures Valid()
      ensures usuarios == old(usuarios)
      ensures !(ObjectiveKey in data && GroupKey in data && "Prediccion" in data && "Probabilidad_exito" in data) ==>
                reply == UncaughtError && predicciones == old(predicciones)
      ensures ObjectiveKey in data && GroupKey in data && "Prediccion" in data && "Probabilidad_exito" in data ==>
                reply == Reply(201, Message("Predicción guardada con éxito")) &&
                predicciones == old(predicciones) +
                  [Prediccion(freshId, identity, data[ObjectiveKey], data[GroupKey], data["Prediccion"],
                              data["Probabilidad_exito"], Get(data, "Resultado_real"), now, None)]
    {
      if !(ObjectiveKey in data && GroupKey in data && "Prediccion" in data && "Probabilidad_exito" in data) {
        return UncaughtError;
      }
      var record := Prediccion(freshId, identity, data[ObjectiveKey], data[GroupKey], data["Prediccion"],
                               data["Probabilidad_exito"], Get(data, "Resultado_real"), now, None);
      predicciones := predicciones + [record];
      reply := Reply(201, Message("Predicción guardada con éxito"));
    }

    /** `/history` for the authenticated `identity`: the caller's records, in
        table order, each with its id as text and its `timestamp` rendered. */
    method History(identity: string, formatDate: Timestamp -> string) returns (rows: seq<HistoryRow>)
      ensures |rows| == |RecordsOf(predicciones, identity)|
      ensures forall k :: 0 <= k < |rows| ==> rows[k] == Row(RecordsOf(predicciones, identity)[k], formatDate)
      ensures forall k :: 0 <= k < |rows| ==> rows[k].userId == identity
    {
      var registros := RecordsOf(predicciones, identity);
      rows := [];
      for i := 0 to |registros|
        invariant |rows| == i
        invariant forall k :: 0 <= k < i ==> rows[k] == Row(registros[k], formatDate)
      {
        rows := rows + [Row(registros[i], formatDate)];
      }
      forall k | 0 <= k < |rows| ensures rows[k].userId == identity {
        assert registros[k] in registros;
      }
    }

    /** `/history/<id>` DELETE for the authenticated `identity`: removes the
        record only if it exists and belongs to the caller. */
    method DeleteHistory(identity: string, id: string) returns (reply: Reply)
      requires Valid()
      modifies this
      ensures Valid()
      ensures usuarios == old(usuarios)
      ensures ParseObjectId(id).None? ==>
                reply == Reply(500, Error("Error al eliminar registro")) && predicciones == old(predicciones)
      ensures ParseObjectId(id).Some? && FindOwned(old(predicciones), ParseObjectId(id).value, identity).None? ==>
                reply == Reply(404, Error("No se encontró el registro o no pertenece al usuario")) &&
                predicciones == old(predicciones)
      ensures ParseObjectId(id).Some? && FindOwned(old(predicciones), ParseObjectId(id).value, identity).Some? ==>
                reply == Reply(200, Message("Registro eliminado correctamente")) &&
                predicciones == RemoveAt(old(predicciones),
                                         FindOwned(old(predicciones), ParseObjectId(id).value, identity).value)
    {
      var oid := ParseObjectId(id);
      if oid.None? {
        return Reply(500, Error("Error al eliminar registro"));
      }
      var found := FindOwned(predicciones, oid.value, identity);
      if found.None? {
        return Reply(404, Error("No se encontró el registro o no pertenece al usuario"));
      }
      predicciones := RemoveAt(predicciones, found.value);
      reply := Reply(200, Message("Registro eliminado correctamente"));
    }
  }
}
