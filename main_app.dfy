/** The evaluation page `MainApp`: five pieces of component state and the four
    handlers that update them from server responses. Each handler runs as one
    sequential step; the outcome of every request it makes is an input. */
module MainPage {
  import opened Values
  import opened Http
  import opened Browser
  import Api

  const BaseUrl: string := "http://127.0.0.1:5000"
  const HistoryUrl: string := BaseUrl + "/history"
  const PredictUrl: string := BaseUrl + "/predict"
  const SuggestUrl: string := BaseUrl + "/suggest"
  const SaveUrl: string := BaseUrl + "/save"
  const DeletedMessage: string := "Registro eliminado"
  const NotDeletedMessage: string := "No se pudo eliminar"

  const ObjectiveKey: string := "Objetivo principal"
  const GroupKey: string := "Grupo"

  /** The body of the prediction request. */
  function PredictBody(objetivo: string, grupo: string): (body: Json)
    ensures body.JObject? && body.fields.Keys == {ObjectiveKey, GroupKey}
    ensures body.fields[ObjectiveKey] == JString(objetivo) && body.fields[GroupKey] == JString(grupo)
  {
    JObject(map[ObjectiveKey := JString(objetivo), GroupKey := JString(grupo)])
  }

  /** The body of the suggestion request: the group alone. */
  function SuggestBody(grupo: string): (body: Json)
    ensures body.JObject? && body.fields.Keys == {GroupKey}
    ensures body.fields[GroupKey] == JString(grupo)
  {
    JObject(map[GroupKey := JString(grupo)])
  }

  const PredictionKey: string := "Prediccion"
  const ProbabilityKey: string := "Probabilidad_exito"
  const ObservedKey: string := "Resultado_real"

  /** `{ ...m, [key]: v }` when `v` is defined, `m` otherwise: `JSON.stringify`
      drops properties whose value is undefined. */
  function PutDefined(m: map<string, Json>, key: string, v: Option<Json>): map<string, Json> {
    if v.Some? then m[key := v.value] else m
  }

  /** The keys of the save body whose value comes from the shown result. */
  function CopiedKeys(resultado: Json): set<string> {
    (if Field(resultado, "prediccion").Some? then {PredictionKey} else {}) +
    (if Field(resultado, "probabilidad_exito").Some? then {ProbabilityKey} else {})
  }

  /** The body of the save request, built from the shown result. */
  function SaveBody(objetivo: string, grupo: string, resultado: Json, resultadoReal: string): (body: Json)
    ensures body.JObject?
    ensures body.fields.Keys == {ObjectiveKey, GroupKey, ObservedKey} + CopiedKeys(resultado)
    ensures body.fields[ObjectiveKey] == JString(objetivo) && body.fields[GroupKey] == JString(grupo)
    ensures body.fields[ObservedKey] == JString(resultadoReal)
    // the prediction and its probability are copied from the result when it has them
    ensures PredictionKey in body.fields ==> body.fields[PredictionKey] == Field(resultado, "prediccion").value
    ensures ProbabilityKey in body.fields ==>
              body.fields[ProbabilityKey] == Field(resultado, "probabilidad_exito").value
  {
    var form := map[ObjectiveKey := JString(objetivo), GroupKey := JString(grupo)];
    var withPrediction := PutDefined(form, PredictionKey, Field(resultado, "prediccion"));
    var withProbability := PutDefined(withPrediction, ProbabilityKey, Field(resultado, "probabilidad_exito"));
    JObject(withProbability[ObservedKey := JString(resultadoReal)])
  }

  /** The JSON request options the page builds by hand, with the token it
      read from the store interpolated into a bearer header. */
  function JsonInit(verb: Option<string>, token: Option<string>, body: Option<Json>): RequestInit {
    RequestInit(verb, Some(map[Api.ContentType := Api.JsonMediaType,
                               Api.Authorization := "Bearer " + Interpolate(token)]), body)
  }

  function PredictRequest(objetivo: string, grupo: string): Request {
    Request(PredictUrl, RequestInit(Some("POST"), Some(map[Api.ContentType := Api.JsonMediaType]),
                                    Some(PredictBody(objetivo, grupo))))
  }

  function SuggestRequest(grupo: string): Request {
    Request(SuggestUrl, RequestInit(Some("POST"), Some(map[Api.ContentType := Api.JsonMediaType]),
                                    Some(SuggestBody(grupo))))
  }

  /** The save request as `fetchWithAuth` sends it: the page's own bearer
      header is replaced when a token is stored. */
  function SaveRequest(token: Option<string>, body: Json): Request {
    var init := JsonInit(Some("POST"), token, Some(body));
    Request(SaveUrl, init.(headers := Some(Api.MergeHeaders(init.headers, token))))
  }

  /** The request `obtenerHistorial` sends through `fetchWithAuth`. */
  function HistoryRequest(token: Option<string>): Request {
    Request(HistoryUrl, RequestInit(None, Some(Api.MergeHeaders(None, token)), None))
  }

  /** `historial` after a history fetch: replaced only by the body of an ok
      response that parsed. */
  function HistoryAfter(historial: Json, outcome: FetchOutcome): (h: Json)
    ensures outcome.Delivered? && IsOk(outcome.response) && outcome.response.body.Some? ==>
              h == outcome.response.body.value
    ensures !(outcome.Delivered? && IsOk(outcome.response) && outcome.response.body.Some?) ==> h == historial
  {
    match Api.FetchResult(outcome)
    case Some(res) => if IsOk(res) && res.body.Some? then res.body.value else historial
    case None => historial
  }

  class MainApp {
    const env: BrowserEnv
    var objetivo: string
    var grupo: string
    var resultado: Json
    var historial: Json
    var sugerencia: Json

    constructor (env: BrowserEnv)
      ensures this.env == env
      ensures objetivo == "" && grupo == "" && resultado == JNull && historial == JArray([]) && sugerencia == JNull
    {
      this.env := env;
      objetivo, grupo := "", "";
      resultado, historial, sugerencia := JNull, JArray([]), JNull;
    }

    /** The form's `setObjetivo`. */
    method SetObjetivo(value: string)
      modifies this
      ensures objetivo == value
      ensures grupo == old(grupo) && resultado == old(resultado) && historial == old(historial)
      ensures sugerencia == old(sugerencia)
    {
      objetivo := value;
    }

    /** The form's `setGrupo`. */
    method SetGrupo(value: string)
      modifies this
      ensures grupo == value
      ensures objetivo == old(objetivo) && resultado == old(resultado) && historial == old(historial)
      ensures sugerencia == old(sugerencia)
    {
      grupo := value;
    }

    /** `obtenerHistorial`, also run once when the page mounts. */
    method ObtenerHistorial(outcome: FetchOutcome) returns (sent: Request)
      modifies this, env
      ensures sent == HistoryRequest(old(env.GetItem(Api.TokenKey)))
      ensures historial == HistoryAfter(old(historial), outcome)
      ensures objetivo == old(objetivo) && grupo == old(grupo)
      ensures resultado == old(resultado) && sugerencia == old(sugerencia)
      ensures env.Snapshot() == Api.FetchEffects(old(env.Snapshot()), outcome)
    {
      var res;
      sent, res := Api.FetchWithAuth(env, HistoryUrl, RequestInit(None, None, None), outcome);
      if res.Some? && IsOk(res.value) {
        match res.value.body
        case None =>
          // `res.json()` rejects: the handler stops here
          return;
        case Some(data) =>
          historial := data;
      }
    }

    /** `eliminarRegistro(id)`; `confirmed` is the answer to `window.confirm`.
        The delete goes through plain `fetch`, so a 401 here does not end the
        session. */
    method EliminarRegistro(id: string, confirmed: bool, deleteOutcome: FetchOutcome, historyOutcome: FetchOutcome)
      returns (sent: seq<Request>)
      modifies this, env
      // without confirmation nothing is sent and nothing changes
      ensures !confirmed ==> sent == [] && env.Snapshot() == old(env.Snapshot()) && historial == old(historial)
      ensures confirmed ==>
                |sent| >= 1 &&
                sent[0] == Request(HistoryUrl + "/" + id,
                                   JsonInit(Some("DELETE"), old(env.GetItem(Api.TokenKey)), None))
      // the history is fetched again only after an ok response
      ensures confirmed && deleteOutcome.Delivered? && IsOk(deleteOutcome.response) ==>
                sent == [sent[0], HistoryRequest(old(env.GetItem(Api.TokenKey)))] &&
                historial == HistoryAfter(old(historial), historyOutcome) &&
                env.Snapshot() == Api.FetchEffects(old(env.Snapshot()).Alerted(DeletedMessage), historyOutcome)
      ensures confirmed && deleteOutcome.Delivered? && !IsOk(deleteOutcome.response) ==>
                |sent| == 1 && historial == old(historial) &&
                env.Snapshot() == old(env.Snapshot()).Alerted(NotDeletedMessage)
      // a rejected fetch escapes the handler
      ensures confirmed && deleteOutcome.NetworkError? ==>
                |sent| == 1 && historial == old(historial) && env.Snapshot() == old(env.Snapshot())
      ensures objetivo == old(objetivo) && grupo == old(grupo)
      ensures resultado == old(resultado) && sugerencia == old(sugerencia)
    {
      if !confirmed {
        sent := [];
        return;
      }
      var request := Request(HistoryUrl + "/" + id, JsonInit(Some("DELETE"), env.GetItem(Api.TokenKey), None));
      sent := [request];
      match deleteOutcome
      case NetworkError =>
        return;
      case Delivered(res) =>
        if IsOk(res) {
          env.Alert(DeletedMessage);
          var again := ObtenerHistorial(historyOutcome);
          sent := sent + [again];
        } else {
          env.Alert(NotDeletedMessage);
        }
    }

    /** `handlePredict`: clears the shown result and suggestion, asks for a
        prediction, then for a suggestion in the same group. A rejected fetch
        or an unparsable body stops the handler where it happens. */
    method HandlePredict(predictOutcome: FetchOutcome, suggestOutcome: FetchOutcome) returns (sent: seq<Request>)
      modifies this
      ensures sent == if Parsed(predictOutcome)
                      then [PredictRequest(objetivo, grupo), SuggestRequest(grupo)]
                      else [PredictRequest(objetivo, grupo)]
      ensures resultado == if Parsed(predictOutcome) then predictOutcome.response.body.value else JNull
      ensures sugerencia == if Parsed(predictOutcome) && Parsed(suggestOutcome)
                            then suggestOutcome.response.body.value else JNull
      ensures objetivo == old(objetivo) && grupo == old(grupo) && historial == old(historial)
    {
      resultado := JNull;
      sugerencia := JNull;
      sent := [PredictRequest(objetivo, grupo)];
      if !Parsed(predictOutcome) {
        return;
      }
      resultado := predictOutcome.response.body.value;
      sent := sent + [SuggestRequest(grupo)];
      if !Parsed(suggestOutcome) {
        return;
      }
      sugerencia := suggestOutcome.response.body.value;
    }

    /** `guardarResultado(resultadoReal)`: saves the shown result with its
        observed outcome, re-fetches the history and resets the form. */
    method GuardarResultado(resultadoReal: string, saveOutcome: FetchOutcome, historyOutcome: FetchOutcome)
      returns (sent: seq<Request>)
      modifies this, env
      // nothing to save: no request and no change
      ensures !Truthy(old(resultado)) ==>
                sent == [] && env.Snapshot() == old(env.Snapshot()) &&
                objetivo == old(objetivo) && grupo == old(grupo) && resultado == old(resultado) &&
                historial == old(historial) && sugerencia == old(sugerencia)
      ensures Truthy(old(resultado)) ==>
                sent == [SaveRequest(old(env.GetItem(Api.TokenKey)),
                                     SaveBody(old(objetivo), old(grupo), old(resultado), resultadoReal)),
                         HistoryRequest(Api.FetchEffects(old(env.Snapshot()), saveOutcome).Item(Api.TokenKey))]
      ensures Truthy(old(resultado)) ==>
                resultado == JNull && sugerencia == JNull && objetivo == "" && grupo == "" &&
                historial == HistoryAfter(old(historial), historyOutcome) &&
                env.Snapshot() == Api.FetchEffects(Api.FetchEffects(old(env.Snapshot()), saveOutcome), historyOutcome)
    {
      if !Truthy(resultado) {
        sent := [];
        return;
      }
      var token := env.GetItem(Api.TokenKey);
      var body := SaveBody(objetivo, grupo, resultado, resultadoReal);
      var saved, _ := Api.FetchWithAuth(env, SaveUrl, JsonInit(Some("POST"), token, Some(body)), saveOutcome);
      var again := ObtenerHistorial(historyOutcome);
      sent := [saved, again];
      resultado := JNull;
      sugerencia := JNull;
      objetivo := "";
      grupo := "";
    }
  }
}
