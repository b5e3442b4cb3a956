/** The stand-alone client module: a configuration read from arguments or the environment,
    and functions that fetch projects and tags, trigger training and upload an image, each
    building its own URL and headers. */
module Service {
  import opened Wrappers
  import opened JsonValues
  import opened Exceptions
  import opened Strings
  import opened Models
  import opened Lookup
  import opened Client
  import Training

  const RegionVariable := "VISION_SERVICE_REGION"
  const TrainingKeyVariable := "VISION_SERVICE_TRAINING_KEY"
  const ProjectNameVariable := "VISION_SERVICE_PROJECT_NAME"

  datatype VisionServiceConfig = VisionServiceConfig(region: string, trainingKey: string, projectName: string)

  /** `arg or environ[variable]`: the environment is read only when the argument is falsy. */
  function Setting(arg: Option<string>, env: map<string, string>, variable: string): (r: Result<string, Error>)
    ensures GivenText(arg) ==> r == Success(arg.value)
    ensures !GivenText(arg) && variable in env ==> r == Success(env[variable])
    ensures !GivenText(arg) && variable !in env ==> r == Failure(KeyError(variable))
  {
    if GivenText(arg) then Success(arg.value)
    else if variable in env then Success(env[variable])
    else Failure(KeyError(variable))
  }

  /** `VisionServiceConfig(region, training_key, project_name)` with the environment `env`:
      each setting is the argument when it is truthy, else the environment's value; the first
      setting, in the order region, training key, project name, that has neither raises KeyError
      naming its variable. */
  function NewConfig(region: Option<string>, trainingKey: Option<string>, projectName: Option<string>,
                     env: map<string, string>): (r: Result<VisionServiceConfig, Error>)
    ensures r.Success? <==>
      (GivenText(region) || RegionVariable in env) &&
      (GivenText(trainingKey) || TrainingKeyVariable in env) &&
      (GivenText(projectName) || ProjectNameVariable in env)
    ensures r.Success? ==>
      && r.value.region == (if GivenText(region) then region.value else env[RegionVariable])
      && r.value.trainingKey == (if GivenText(trainingKey) then trainingKey.value else env[TrainingKeyVariable])
      && r.value.projectName == (if GivenText(projectName) then projectName.value else env[ProjectNameVariable])
    ensures !GivenText(region) && RegionVariable !in env ==> r == Failure(KeyError(RegionVariable))
    ensures (GivenText(region) || RegionVariable in env) && !GivenText(trainingKey) && TrainingKeyVariable !in env ==>
      r == Failure(KeyError(TrainingKeyVariable))
    ensures (GivenText(region) || RegionVariable in env) && (GivenText(trainingKey) || TrainingKeyVariable in env) &&
            !GivenText(projectName) && ProjectNameVariable !in env ==>
      r == Failure(KeyError(ProjectNameVariable))
  {
    var reg :- Setting(region, env, RegionVariable);
    var key :- Setting(trainingKey, env, TrainingKeyVariable);
    var name :- Setting(projectName, env, ProjectNameVariable);
    Success(VisionServiceConfig(reg, key, name))
  }

  /** `_fetch_project`: the first fetched project with the configured name; taking `[0]` of the
      empty list raises IndexError. */
  function FetchProject(config: VisionServiceConfig, projects: seq<Project>): (r: Result<Project, Error>)
    ensures r.Failure? <==> forall i :: 0 <= i < |projects| ==> projects[i].Name != JStr(config.projectName)
    ensures r.Failure? ==> r.error == IndexError
    ensures r.Success? ==>
      exists i :: 0 <= i < |projects| && projects[i] == r.value && r.value.Name == JStr(config.projectName) &&
        forall j :: 0 <= j < i ==> projects[j].Name != JStr(config.projectName)
  {
    match FirstNamed(projects, config.projectName)
    case Some(p) => Success(p)
    case None => Failure(IndexError)
  }

  /** The `project_id` property: the Id of the first project with the configured name. */
  function ProjectId(config: VisionServiceConfig, projects: seq<Project>): (r: Result<Json, Error>)
    ensures FirstNamed(projects, config.projectName).None? ==> r == Failure(IndexError)
    ensures FirstNamed(projects, config.projectName).Some? ==>
      r == Success(FirstNamed(projects, config.projectName).value.Id)
    ensures FirstNamed(projects, config.projectName).Some? ==>
      r == Training.FetchProjectId(Training.TrainingClient(config.region, config.projectName, config.trainingKey), projects)
  {
    var p :- FetchProject(config, projects);
    Success(p.Id)
  }

  /** The projects URL of `_fetch_projects`. */
  function ProjectsUrl(config: VisionServiceConfig): string
  {
    "https://" + config.region + ".api.cognitive.microsoft.com" + "/customvision/v1.0/Training/projects"
  }

  /** The URL of one project's resources: `.../projects/<project_id>`, the id formatted with `str()`. */
  function ProjectUrl(config: VisionServiceConfig, projects: seq<Project>): Result<string, Error>
  {
    var id :- ProjectId(config, projects);
    var text :- Rendered(id);
    Success(ProjectsUrl(config) + "/" + text)
  }

  /** The tags URL of `_fetch_project_tags`. */
  function TagsUrl(config: VisionServiceConfig, projects: seq<Project>): Result<string, Error>
  {
    var base :- ProjectUrl(config, projects);
    Success(base + "/tags")
  }

  /** The training URL of `trigger_training`. */
  function TrainUrl(config: VisionServiceConfig, projects: seq<Project>): Result<string, Error>
  {
    var base :- ProjectUrl(config, projects);
    Success(base + "/train")
  }

  /** The upload URL of `add_training_image`: the project id is read before the tag Ids are joined. */
  function ImageUrl(config: VisionServiceConfig, projects: seq<Project>, tags: seq<Tag>): Result<string, Error>
  {
    var base :- ProjectUrl(config, projects);
    var ids :- IdTexts(tags);
    Success(base + "/images/image?tagIds=" + Join("&tagIds=", ids))
  }

  /** This module's URLs are the ones the training client builds for the same region and
      project name; only the exception for a project that is not found differs (IndexError
      here, StopIteration there). */
  lemma SameUrlsAsTrainingClient(config: VisionServiceConfig, projects: seq<Project>, tags: seq<Tag>)
    ensures var c := Training.TrainingClient(config.region, config.projectName, config.trainingKey);
      && ProjectsUrl(config) == Training.ProjectsEndpoint(c)
      && (FirstNamed(projects, config.projectName).Some? ==>
            && ProjectUrl(config, projects) == Training.ProjectEndpoint(c, projects)
            && TagsUrl(config, projects) == Training.TagsEndpoint(c, projects)
            && TrainUrl(config, projects) == Training.TrainingEndpoint(c, projects)
            && ImageUrl(config, projects, tags) == Training.ImageUrl(c, projects, tags))
      && (FirstNamed(projects, config.projectName).None? ==>
            && ProjectUrl(config, projects) == Failure(IndexError)
            && Training.ProjectEndpoint(c, projects) == Failure(StopIteration))
  {
    var c := Training.TrainingClient(config.region, config.projectName, config.trainingKey);
    Training.ProjectsEndpointShape(c);
    Training.EndpointShapes(c, projects, "");
    var first := FirstNamed(projects, config.projectName);
    if first.Some? {
      var p := FetchProject(config, projects);
      var i :| 0 <= i < |projects| && projects[i] == p.value && p.value.Name == JStr(config.projectName) &&
        forall j :: 0 <= j < i ==> projects[j].Name != JStr(config.projectName);
      var k :| 0 <= k < |projects| && projects[k] == first.value && first.value.Name == JStr(config.projectName) &&
        forall j :: 0 <= j < k ==> projects[j].Name != JStr(config.projectName);
      assert i == k;
    }
  }

  /** `[Project(**_) for _ in json_response]` in `_fetch_projects`. */
  function FetchProjects(response: Json): (r: Result<seq<Project>, Error>)
    ensures response.JArr? ==>
      (r.Success? <==> forall i :: 0 <= i < |response.items| ==>
         response.items[i].JObj? && response.items[i].fields.Keys == ProjectFields)
    ensures response.JArr? && r.Success? ==>
      |r.value| == |response.items| &&
      forall i :: 0 <= i < |response.items| ==> ProjectOf(response.items[i]) == Success(r.value[i])
    ensures !response.JArr? ==> (r.Success? <==> response in {JObj(map[]), JStr("")})
    ensures r.Success? && !response.JArr? ==> r.value == []
    ensures r.Failure? ==> r.error.TypeError?
  {
    Records(response, ProjectOf)
  }

  /** `[Tag(**_) for _ in json_response['Tags']]` in `_fetch_project_tags`. */
  function FetchProjectTags(response: Json): (r: Result<seq<Tag>, Error>)
    ensures !response.JObj? ==> r.Failure? && r.error.TypeError?
    ensures response.JObj? && "Tags" !in response.fields ==> r == Failure(KeyError("Tags"))
    ensures response.JObj? && "Tags" in response.fields && response.fields["Tags"].JArr? ==>
      var xs := response.fields["Tags"].items;
      && (r.Success? <==> forall i :: 0 <= i < |xs| ==> xs[i].JObj? && xs[i].fields.Keys == TagFields)
      && (r.Success? ==> |r.value| == |xs| && forall i :: 0 <= i < |xs| ==> TagOf(xs[i]) == Success(r.value[i]))
    ensures response.JObj? && "Tags" in response.fields && !response.fields["Tags"].JArr? ==>
      (r.Success? <==> response.fields["Tags"] in {JObj(map[]), JStr("")}) && (r.Success? ==> r.value == [])
    ensures r.Failure? && !r.error.TypeError? ==> r == Failure(KeyError("Tags")) && "Tags" !in response.fields
  {
    var items :- Item(response, "Tags");
    Records(items, TagOf)
  }

  /** The `TrainingResponse` record of this module (six fields). */
  datatype TrainingResponse = TrainingResponse(
    Id: Json, Name: Json, Status: Json, Created: Json, LastModified: Json, IsDefault: Json)

  const TrainingResponseFields: set<string> := {"Id", "Name", "Status", "Created", "LastModified", "IsDefault"}

  /** The status a failed training reply reports: `statusCode` if truthy, else `Code`. */
  function ErrorStatus(m: map<string, Json>): Json
  {
    if Truthy(Get(m, "statusCode")) then Get(m, "statusCode") else Get(m, "Code")
  }

  /** The message a failed training reply reports: `message` if truthy, else `Message`. */
  function ErrorMessage(m: map<string, Json>): Json
  {
    if Truthy(Get(m, "message")) then Get(m, "message") else Get(m, "Message")
  }

  /** The reply of `trigger_training` read as a `TrainingResponse`. A dict with other fields raises
      `TrainingError`; a reply that is not a dict makes `**` raise TypeError too, and then the
      handler's `.get` raises AttributeError. */
  function TriggerTraining(response: Json): (r: Result<TrainingResponse, Error>)
    ensures r.Success? <==> response.JObj? && response.fields.Keys == TrainingResponseFields
    ensures r.Success? ==>
      var m := response.fields;
      r.value == TrainingResponse(m["Id"], m["Name"], m["Status"], m["Created"], m["LastModified"], m["IsDefault"])
    ensures response.JObj? && response.fields.Keys != TrainingResponseFields ==>
      var m := response.fields;
      && r.Failure? && r.error.Training?
      && r.error.error.status == (if "statusCode" in m && Truthy(m["statusCode"]) then m["statusCode"]
                                  else if "Code" in m then m["Code"] else JNull)
      && r.error.error.message == (if "message" in m && Truthy(m["message"]) then m["message"]
                                   else if "Message" in m then m["Message"] else JNull)
    ensures !response.JObj? ==> r == Failure(AttributeError("get"))
  {
    match response
    case JObj(m) =>
      if m.Keys == TrainingResponseFields then
        Success(TrainingResponse(m["Id"], m["Name"], m["Status"], m["Created"], m["LastModified"], m["IsDefault"]))
      else
        Failure(Training(TrainingError(ErrorStatus(m), ErrorMessage(m))))
    case _ => Failure(AttributeError("get"))
  }

  /** The multipart upload of `add_training_image`: the tags of the requested names (a missing
      name raises KeyError), the upload URL, the training key and the image's file description. */
  function Upload(config: VisionServiceConfig, projects: seq<Project>, tags: seq<Tag>,
                  imagePath: string, tagNames: seq<string>): Result<Request, Error>
  {
    var resolved :- TagsForNames(tags, tagNames);
    var url :- ImageUrl(config, projects, resolved);
    Success(Request("post", url, map["Training-Key" := config.trainingKey], Files([FileEntry(imagePath)])))
  }

  /** When the upload fails: with hashable tag names, it raises KeyError exactly when some
      requested name is the name of no tag. */
  lemma UploadErrors(config: VisionServiceConfig, projects: seq<Project>, tags: seq<Tag>,
                     imagePath: string, tagNames: seq<string>)
    requires forall i :: 0 <= i < |tags| ==> Hashable(tags[i].Name)
    ensures (Upload(config, projects, tags, imagePath, tagNames).Failure? &&
             Upload(config, projects, tags, imagePath, tagNames).error.KeyError?) <==>
            exists k :: 0 <= k < |tagNames| && !Named(tags, tagNames[k])
  {
    var t := TagsForNames(tags, tagNames);
    if t.Success? {
      var u := ImageUrl(config, projects, t.value);
      if u.Failure? {
        assert !u.error.KeyError? by {
          var base := ProjectUrl(config, projects);
          if base.Success? {
            assert IdTexts(t.value).Failure?;
          } else {
            var id := ProjectId(config, projects);
            if id.Success? {
              assert Rendered(id.value).Failure?;
            }
          }
        }
      }
    }
  }

  /** What a successful upload sends: a POST with the training key and exactly one file,
      described by its basename and extension, to a URL holding one `tagIds` value per
      requested name, in request order, each the Id of the LAST tag with that name. */
  lemma UploadMeaning(config: VisionServiceConfig, projects: seq<Project>, tags: seq<Tag>,
                      imagePath: string, tagNames: seq<string>)
    requires Upload(config, projects, tags, imagePath, tagNames).Success?
    ensures var req := Upload(config, projects, tags, imagePath, tagNames).value;
      && req.verb == "post"
      && req.headers == map["Training-Key" := config.trainingKey]
      && req.body == Files([FileEntry(imagePath)])
      && exists ids: seq<string> ::
           && LastIds(tags, tagNames, ids)
           && req.url == ProjectUrl(config, projects).value + "/images/image?tagIds=" + Join("&tagIds=", ids)
  {
    var t := TagsForNames(tags, tagNames);
    var ids := IdTexts(t.value);
    TagIdsForNames(tags, tagNames);
    assert ImageUrl(config, projects, t.value).value ==
      ProjectUrl(config, projects).value + "/images/image?tagIds=" + Join("&tagIds=", ids.value);
  }

  /** `add_training_image`: the project's tags are fetched first (which finds the project),
      then the image is uploaded and the reply read as an `AddImageResponse`. */
  function AddTrainingImage(config: VisionServiceConfig, projects: seq<Project>, tagsResponse: Json,
                            imagePath: string, tagNames: seq<string>, uploadResponse: Json)
    : (r: Result<(Request, AddImageResponse), Error>)
    ensures FirstNamed(projects, config.projectName).None? ==> r == Failure(IndexError)
    ensures r.Success? <==>
      && TagsUrl(config, projects).Success?
      && FetchProjectTags(tagsResponse).Success?
      && Upload(config, projects, FetchProjectTags(tagsResponse).value, imagePath, tagNames).Success?
      && AddImageResponseOf(uploadResponse).Success?
    ensures r.Success? ==>
      && Upload(config, projects, FetchProjectTags(tagsResponse).value, imagePath, tagNames) == Success(r.value.0)
      && uploadResponse.JObj? && uploadResponse.fields.Keys == AddImageResponseFields
      && r.value.1 == AddImageResponse(uploadResponse.fields["IsBatchSuccessful"], uploadResponse.fields["Images"])
    ensures TagsUrl(config, projects).Failure? ==> r == Failure(TagsUrl(config, projects).error)
    ensures TagsUrl(config, projects).Success? && FetchProjectTags(tagsResponse).Failure? ==>
      r == Failure(FetchProjectTags(tagsResponse).error)
    ensures (&& TagsUrl(config, projects).Success?
             && FetchProjectTags(tagsResponse).Success?
             && Upload(config, projects, FetchProjectTags(tagsResponse).value, imagePath, tagNames).Failure?) ==>
      r == Failure(Upload(config, projects, FetchProjectTags(tagsResponse).value, imagePath, tagNames).error)
    ensures (&& r.Failure?
             && TagsUrl(config, projects).Success?
             && FetchProjectTags(tagsResponse).Success?
             && Upload(config, projects, FetchProjectTags(tagsResponse).value, imagePath, tagNames).Success?) ==>
      r == Failure(AddImageResponseOf(uploadResponse).error) && r.error.TypeError?
  {
    var _ :- TagsUrl(config, projects);
    var tags :- FetchProjectTags(tagsResponse);
    var req :- Upload(config, projects, tags, imagePath, tagNames);
    var reply :- AddImageResponseOf(uploadResponse);
    Success((req, reply))
  }
}
