/** `PredictionClient`: classifying an image with a trained project, either an image file
    on disk (uploaded) or an image on the web (its URL sent as JSON). */
module Prediction {
  import opened Wrappers
  import opened JsonValues
  import opened Exceptions
  import opened Models
  import opened Client

  /** A prediction client, built from a `PredictionConfig(region, project_id, prediction_key)`. */
  datatype PredictionClient = PredictionClient(region: string, projectId: string, predictionKey: string) {
    /** The `BaseClient` part: the prediction key goes in the "Prediction-Key" header. */
    function Base(): BaseClient {
      BaseClient(region, predictionKey, "Prediction-Key")
    }
  }

  /** `_format_prediction_endpoint`. */
  function PredictionEndpoint(c: PredictionClient, api: string, modelId: Option<string>): string
  {
    var url := ApiBase(c.Base()) + "/customvision/v1.0/Prediction" + "/" + c.projectId + "/" + api;
    if GivenText(modelId) then url + "?iterationId=" + modelId.value else url
  }

  /** The endpoint is the API base, the prediction path, the project id and the api name, and then
      `?iterationId=<model_id>` exactly when a model id is given: None or "" adds nothing. */
  lemma PredictionEndpointShape(c: PredictionClient, api: string, modelId: Option<string>)
    ensures PredictionEndpoint(c, api, modelId) ==
      "https://" + c.region + ".api.cognitive.microsoft.com" + "/customvision/v1.0/Prediction" + "/" + c.projectId + "/" + api +
      (if GivenText(modelId) then "?iterationId=" + modelId.value else "")
  {
  }

  /** When the region, the project id and the api name hold no '?', the endpoint has a query
      if and only if a model id is given. */
  lemma {:induction false} QueryIffModelId(c: PredictionClient, api: string, modelId: Option<string>)
    requires '?' !in c.region && '?' !in c.projectId && '?' !in api
    ensures '?' in PredictionEndpoint(c, api, modelId) <==> GivenText(modelId)
  {
    var plain := ApiBase(c.Base()) + "/customvision/v1.0/Prediction" + "/" + c.projectId + "/" + api;
    FixedPartsHaveNoMark();
    NoMark("https://", c.region, ApiHost);
    NoMark(ApiBase(c.Base()), "/customvision/v1.0/Prediction", "/");
    NoMark(ApiBase(c.Base()) + "/customvision/v1.0/Prediction" + "/", c.projectId, "/");
    NoMark(ApiBase(c.Base()) + "/customvision/v1.0/Prediction" + "/" + c.projectId + "/", api, "");
    assert ApiBase(c.Base()) + "/customvision/v1.0/Prediction" + "/" + c.projectId + "/" + api + "" == plain;
    if GivenText(modelId) {
      var full := plain + "?iterationId=" + modelId.value;
      assert full[|plain|] == '?';
    }
  }

  lemma FixedPartsHaveNoMark()
    ensures '?' !in "https://" && '?' !in ApiHost && '?' !in "/customvision/v1.0/Prediction" && '?' !in "/"
  {
  }

  lemma NoMark(a: string, b: string, d: string)
    requires '?' !in a && '?' !in b && '?' !in d
    ensures '?' !in a + b + d
  {
  }

  /** What `classify_image` asks of the service: a POST to the "image" api with the file when
      `image` names a file on disk, otherwise to the "url" api with `{'Url': image}`; either way
      with only the prediction key as header. */
  method ClassifyRequest(c: PredictionClient, image: string, modelId: Option<string>, isFile: bool)
    returns (req: Request)
    ensures req.verb == "post" && req.headers == map["Prediction-Key" := c.predictionKey]
    ensures isFile ==> req.url == PredictionEndpoint(c, "image", modelId) && req.body == OpaqueFile(image)
    ensures !isFile ==> req.url == PredictionEndpoint(c, "url", modelId) && req.body == JsonUrl(image)
  {
    if isFile {
      req := MakeJsonRequest(c.Base(), "post", PredictionEndpoint(c, "image", modelId), None, OpaqueFile(image));
    } else {
      req := MakeJsonRequest(c.Base(), "post", PredictionEndpoint(c, "url", modelId), None, JsonUrl(image));
    }
  }

  /** `[Prediction(**_) for _ in response['Predictions']]`: one prediction per element of the
      reply's list, in the same order, each with the element's fields; every failure other than
      a missing "Predictions" key is a TypeError. */
  function Predictions(response: Json): (r: Result<seq<Prediction>, Error>)
    ensures response.JObj? && "Predictions" !in response.fields ==> r == Failure(KeyError("Predictions"))
    ensures !response.JObj? ==> r.Failure? && r.error.TypeError?
    ensures response.JObj? && "Predictions" in response.fields && response.fields["Predictions"].JArr? ==>
      var xs := response.fields["Predictions"].items;
      && (r.Success? <==> forall i :: 0 <= i < |xs| ==> xs[i].JObj? && xs[i].fields.Keys == PredictionFields)
      && (r.Success? ==>
            |r.value| == |xs| &&
            forall i :: 0 <= i < |xs| ==>
              r.value[i] == Prediction(xs[i].fields["TagId"], xs[i].fields["Tag"], xs[i].fields["Probability"]))
    ensures response.JObj? && "Predictions" in response.fields && !response.fields["Predictions"].JArr? ==>
      (r.Success? <==> response.fields["Predictions"] in {JObj(map[]), JStr("")}) && (r.Success? ==> r.value == [])
    ensures r.Failure? && !r.error.TypeError? ==> r == Failure(KeyError("Predictions")) && "Predictions" !in response.fields
  {
    var items :- Item(response, "Predictions");
    Records(items, PredictionOf)
  }

  /** `classify_image`: the request made for the image, and the predictions read from the reply. */
  method ClassifyImage(c: PredictionClient, image: string, modelId: Option<string>, isFile: bool, response: Json)
    returns (req: Request, predictions: Result<seq<Prediction>, Error>)
    ensures req.verb == "post" && req.headers == map["Prediction-Key" := c.predictionKey]
    ensures req.url == PredictionEndpoint(c, if isFile then "image" else "url", modelId)
    ensures req.body == if isFile then OpaqueFile(image) else JsonUrl(image)
    ensures predictions == Predictions(response)
  {
    req := ClassifyRequest(c, image, modelId, isFile);
    predictions := Predictions(response);
  }
}
