/** The record shapes the service's JSON is read into (namedtuples in the client),
    and how `Record(**d)` builds them: only from a dict whose keys are exactly the fields. */
module Models {
  import opened Wrappers
  import opened JsonValues
  import opened Exceptions

  datatype Tag = Tag(Description: Json, Id: Json, ImageCount: Json, Name: Json)

  datatype Project = Project(
    Created: Json, CurrentIterationId: Json, Description: Json, Id: Json,
    LastModified: Json, Name: Json, Settings: Json, ThumbnailUri: Json)

  datatype AddImageResponse = AddImageResponse(IsBatchSuccessful: Json, Images: Json)

  datatype Prediction = Prediction(TagId: Json, Tag: Json, Probability: Json)

  const TagFields: set<string> := {"Description", "Id", "ImageCount", "Name"}
  const ProjectFields: set<string> :=
    {"Created", "CurrentIterationId", "Description", "Id", "LastModified", "Name", "Settings", "ThumbnailUri"}
  const AddImageResponseFields: set<string> := {"IsBatchSuccessful", "Images"}
  const PredictionFields: set<string> := {"TagId", "Tag", "Probability"}

  /** The keyword arguments `**j` passes to a record with the given fields: `j` must be a dict,
      and a missing or an unexpected key is a TypeError. */
  function Keywords(j: Json, fields: set<string>): (r: Result<map<string, Json>, Error>)
    ensures r.Success? <==> j.JObj? && j.fields.Keys == fields
    ensures r.Success? ==> r.value == j.fields
    ensures r.Failure? ==> r.error.TypeError?
  {
    if !j.JObj? then Failure(TypeError("argument after ** must be a mapping"))
    else if j.fields.Keys - fields != {} then Failure(TypeError("unexpected keyword argument"))
    else if fields - j.fields.Keys != {} then Failure(TypeError("missing required argument"))
    else Success(j.fields)
  }

  /** `Tag(**j)`. */
  function TagOf(j: Json): (r: Result<Tag, Error>)
    ensures r.Success? <==> j.JObj? && j.fields.Keys == TagFields
    ensures r.Failure? ==> r.error.TypeError?
    ensures r.Success? ==>
      r.value.Description == j.fields["Description"] && r.value.Id == j.fields["Id"] &&
      r.value.ImageCount == j.fields["ImageCount"] && r.value.Name == j.fields["Name"]
  {
    var m :- Keywords(j, TagFields);
    Success(Tag(m["Description"], m["Id"], m["ImageCount"], m["Name"]))
  }

  /** `Project(**j)`. */
  function ProjectOf(j: Json): (r: Result<Project, Error>)
    ensures r.Success? <==> j.JObj? && j.fields.Keys == ProjectFields
    ensures r.Failure? ==> r.error.TypeError?
    ensures r.Success? ==>
      r.value.Id == j.fields["Id"] && r.value.Name == j.fields["Name"] &&
      r.value.Created == j.fields["Created"] && r.value.CurrentIterationId == j.fields["CurrentIterationId"] &&
      r.value.Description == j.fields["Description"] && r.value.LastModified == j.fields["LastModified"] &&
      r.value.Settings == j.fields["Settings"] && r.value.ThumbnailUri == j.fields["ThumbnailUri"]
  {
    var m :- Keywords(j, ProjectFields);
    Success(Project(m["Created"], m["CurrentIterationId"], m["Description"], m["Id"],
                    m["LastModified"], m["Name"], m["Settings"], m["ThumbnailUri"]))
  }

  /** `AddImageResponse(**j)`. */
  function AddImageResponseOf(j: Json): (r: Result<AddImageResponse, Error>)
    ensures r.Success? <==> j.JObj? && j.fields.Keys == AddImageResponseFields
    ensures r.Failure? ==> r.error.TypeError?
    ensures r.Success? ==>
      r.value.IsBatchSuccessful == j.fields["IsBatchSuccessful"] && r.value.Images == j.fields["Images"]
  {
    var m :- Keywords(j, AddImageResponseFields);
    Success(AddImageResponse(m["IsBatchSuccessful"], m["Images"]))
  }

  /** `Prediction(**j)`. */
  function PredictionOf(j: Json): (r: Result<Prediction, Error>)
    ensures r.Success? <==> j.JObj? && j.fields.Keys == PredictionFields
    ensures r.Failure? ==> r.error.TypeError?
    ensures r.Success? ==>
      r.value.TagId == j.fields["TagId"] && r.value.Tag == j.fields["Tag"] &&
      r.value.Probability == j.fields["Probability"]
  {
    var m :- Keywords(j, PredictionFields);
    Success(Prediction(m["TagId"], m["Tag"], m["Probability"]))
  }

  /** `j[key]` on a decoded JSON value. */
  function Item(j: Json, key: string): (r: Result<Json, Error>)
    ensures r.Success? <==> j.JObj? && key in j.fields
    ensures r.Success? ==> r.value == j.fields[key]
    ensures j.JObj? && key !in j.fields ==> r == Failure(KeyError(key))
    ensures !j.JObj? ==> r.Failure? && r.error.TypeError?
  {
    match j
    case JObj(m) => if key in m then Success(m[key]) else Failure(KeyError(key))
    case JArr(_) => Failure(TypeError("list indices must be integers or slices, not str"))
    case JStr(_) => Failure(TypeError("string indices must be integers"))
    case _ => Failure(TypeError("object is not subscriptable"))
  }

  /** `[make(**x) for x in j]`. Iterating a list gives its elements; iterating a dict gives its
      keys and a string its characters, and neither is a mapping, so either fails unless it is
      empty; any other value is not iterable. */
  function Records<T>(j: Json, make: Json -> Result<T, Error>): (r: Result<seq<T>, Error>)
    ensures j.JArr? ==> r == MapAll(j.items, make)
    ensures j.JObj? ==> (r.Success? <==> j.fields == map[])
    ensures j.JStr? ==> (r.Success? <==> j.s == "")
    ensures r.Success? && !j.JArr? ==> r.value == []
    ensures j.JNull? || j.JBool? || j.JNum? ==> r.Failure?
  {
    match j
    case JArr(xs) => MapAll(xs, make)
    case JObj(m) => if m == map[] then Success([]) else Failure(TypeError("argument after ** must be a mapping"))
    case JStr(s) => if s == "" then Success([]) else Failure(TypeError("argument after ** must be a mapping"))
    case _ => Failure(TypeError("object is not iterable"))
  }
}
