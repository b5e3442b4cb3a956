/** `TrainingClient`: the training half of the service. It finds the configured project by
    name, builds the project's endpoints under the training API, resolves tag names to tags,
    and forms the requests for each operation. */
module Training {
  import opened Wrappers
  import opened JsonValues
  import opened Exceptions
  import opened Models
  import opened Lookup
  import opened Strings
  import opened Client

  /** A training client, built from a `TrainingConfig(region, project_name, training_key)`. */
  datatype TrainingClient = TrainingClient(region: string, projectName: string, trainingKey: string) {
    /** The `BaseClient` part: the training key goes in the "Training-Key" header. */
    function Base(): BaseClient {
      BaseClient(region, trainingKey, "Training-Key")
    }
  }

  /** `fetch_project_id`: the Id of the first fetched project with the configured name;
      `next` on the empty generator raises StopIteration. */
  function FetchProjectId(c: TrainingClient, projects: seq<Project>): (r: Result<Json, Error>)
    ensures r.Failure? <==> forall i :: 0 <= i < |projects| ==> projects[i].Name != JStr(c.projectName)
    ensures r.Failure? ==> r.error == StopIteration
    ensures r.Success? ==>
      exists i :: 0 <= i < |projects| && projects[i].Id == r.value && projects[i].Name == JStr(c.projectName) &&
        forall j :: 0 <= j < i ==> projects[j].Name != JStr(c.projectName)
  {
    match FirstNamed(projects, c.projectName)
    case Some(p) => Success(p.Id)
    case None => Failure(StopIteration)
  }

  /** `_format_projects_endpoint`. */
  function ProjectsEndpoint(c: TrainingClient): string
  {
    ApiBase(c.Base()) + "/customvision/v1.0/Training/projects"
  }

  /** The query `_format_new_project_endpoint` sends. */
  function NewProjectQuery(projectName: string): seq<(string, string)>
  {
    [("name", projectName), ("description", ""), ("classifier", "MultiLabel"), ("useNegativeSet", "true")]
  }

  /** `_format_new_project_endpoint`. */
  function NewProjectEndpoint(c: TrainingClient, projectName: string): string
  {
    ProjectsEndpoint(c) + "?" + QueryString(NewProjectQuery(projectName))
  }

  /** `_format_project_endpoint`: the fetched project Id, formatted with `str()`. */
  function ProjectEndpoint(c: TrainingClient, projects: seq<Project>): Result<string, Error>
  {
    var id :- FetchProjectId(c, projects);
    var text :- Rendered(id);
    Success(ProjectsEndpoint(c) + "/" + text)
  }

  /** `_format_tags_endpoint`. */
  function TagsEndpoint(c: TrainingClient, projects: seq<Project>): Result<string, Error>
  {
    var base :- ProjectEndpoint(c, projects);
    Success(base + "/tags")
  }

  /** `_format_tag_endpoint`. */
  function TagEndpoint(c: TrainingClient, projects: seq<Project>, tagName: string): Result<string, Error>
  {
    var base :- TagsEndpoint(c, projects);
    Success(base + "?name=" + tagName)
  }

  /** `_format_training_endpoint`. */
  function TrainingEndpoint(c: TrainingClient, projects: seq<Project>): Result<string, Error>
  {
    var base :- ProjectEndpoint(c, projects);
    Success(base + "/train")
  }

  /** `_format_image_url`: the project endpoint is formatted first, then the tag Ids are joined. */
  function ImageUrl(c: TrainingClient, projects: seq<Project>, tags: seq<Tag>): Result<string, Error>
  {
    var base :- ProjectEndpoint(c, projects);
    var ids :- IdTexts(tags);
    Success(base + "/images/image?tagIds=" + Join("&tagIds=", ids))
  }

  /** The projects endpoint is the API base of the client's region followed by the training path. */
  lemma ProjectsEndpointShape(c: TrainingClient)
    ensures ProjectsEndpoint(c) ==
      "https://" + c.region + ".api.cognitive.microsoft.com" + "/customvision/v1.0/Training/projects"
  {
  }

  /** A new project is created with exactly four query pairs in a fixed order: the name as given,
      not escaped, an empty description, a multi-label classifier and the negative set in use. */
  lemma NewProjectEndpointShape(c: TrainingClient, projectName: string)
    ensures NewProjectEndpoint(c, projectName) ==
      ProjectsEndpoint(c) + "?" +
      ("name=" + projectName + "&" + "description=" + "&" + "classifier=MultiLabel" + "&" + "useNegativeSet=true")
  {
    NewProjectPairs(projectName);
    JoinFour("&", "name=" + projectName, "description=", "classifier=MultiLabel", "useNegativeSet=true");
  }

  /** The texts of the four pairs of the new-project query. */
  lemma {:induction false} NewProjectPairs(projectName: string)
    ensures PairTexts(NewProjectQuery(projectName)) ==
      ["name=" + projectName, "description=", "classifier=MultiLabel", "useNegativeSet=true"]
  {
    var q := NewProjectQuery(projectName);
    assert q[1..][1..][1..] == [("useNegativeSet", "true")];
    assert q[1..][1..][1..][1..] == [];
    assert PairTexts(q[1..][1..][1..]) == ["useNegativeSet" + "=" + "true"];
    assert PairTexts(q[1..][1..]) == ["classifier" + "=" + "MultiLabel", "useNegativeSet" + "=" + "true"];
    assert PairTexts(q[1..]) ==
      ["description" + "=" + "", "classifier" + "=" + "MultiLabel", "useNegativeSet" + "=" + "true"];
    assert "name" + "=" + projectName == "name=" + projectName;
    assert "description" + "=" + "" == "description=";
    assert "classifier" + "=" + "MultiLabel" == "classifier=MultiLabel";
    assert "useNegativeSet" + "=" + "true" == "useNegativeSet=true";
  }

  /** The project endpoint exists exactly when a project has the configured name and an Id
      `str()` can format (in the model: not a list or dict); it is then the projects endpoint,
      '/', and the Id of the FIRST such project. Every other endpoint extends it. */
  lemma EndpointShapes(c: TrainingClient, projects: seq<Project>, tagName: string)
    ensures ProjectEndpoint(c, projects).Success? <==>
      FirstNamed(projects, c.projectName).Some? && Hashable(FirstNamed(projects, c.projectName).value.Id)
    ensures ProjectEndpoint(c, projects).Success? ==>
      && ProjectEndpoint(c, projects).value ==
           ProjectsEndpoint(c) + "/" + Render(FirstNamed(projects, c.projectName).value.Id).value
      && TagsEndpoint(c, projects) == Success(ProjectEndpoint(c, projects).value + "/tags")
      && TagEndpoint(c, projects, tagName) == Success(ProjectEndpoint(c, projects).value + "/tags" + "?name=" + tagName)
      && TrainingEndpoint(c, projects) == Success(ProjectEndpoint(c, projects).value + "/train")
    ensures ProjectEndpoint(c, projects).Failure? ==>
      && TagsEndpoint(c, projects) == ProjectEndpoint(c, projects)
      && TagEndpoint(c, projects, tagName) == ProjectEndpoint(c, projects)
      && TrainingEndpoint(c, projects) == ProjectEndpoint(c, projects)
    ensures FirstNamed(projects, c.projectName).None? ==> ProjectEndpoint(c, projects) == Failure(StopIteration)
  {
    var first := FirstNamed(projects, c.projectName);
    if first.Some? {
      var i :| 0 <= i < |projects| && projects[i].Id == FetchProjectId(c, projects).value &&
        projects[i].Name == JStr(c.projectName) && forall j :: 0 <= j < i ==> projects[j].Name != JStr(c.projectName);
      var k :| 0 <= k < |projects| && projects[k] == first.value && first.value.Name == JStr(c.projectName) &&
        forall j :: 0 <= j < k ==> projects[j].Name != JStr(c.projectName);
      assert i == k;
    }
  }

  /** The upload URL fails as the project endpoint does, then with TypeError when a tag's Id is
      not a string; with no tags, `tagIds` is present but empty. */
  lemma ImageUrlShape(c: TrainingClient, projects: seq<Project>, tags: seq<Tag>)
    ensures ProjectEndpoint(c, projects).Failure? ==> ImageUrl(c, projects, tags) == ProjectEndpoint(c, projects)
    ensures ProjectEndpoint(c, projects).Success? ==>
      (ImageUrl(c, projects, tags).Success? <==> forall i :: 0 <= i < |tags| ==> tags[i].Id.JStr?)
    ensures ProjectEndpoint(c, projects).Success? && ImageUrl(c, projects, tags).Failure? ==>
      ImageUrl(c, projects, tags).error.TypeError?
    ensures ImageUrl(c, projects, tags).Success? && tags == [] ==>
      ImageUrl(c, projects, tags).value == ProjectEndpoint(c, projects).value + "/images/image?tagIds="
  {
  }

  /** The upload URL with tags: the project endpoint, "/images/image", and a query that repeats
      the pair `tagIds=<Id>` once per tag, in the order of the tags. */
  lemma ImageUrlQuery(c: TrainingClient, projects: seq<Project>, tags: seq<Tag>)
    requires ImageUrl(c, projects, tags).Success? && tags != []
    ensures ImageUrl(c, projects, tags).value ==
      ProjectEndpoint(c, projects).value + "/images/image?" + QueryString(Repeated("tagIds", IdTexts(tags).value))
  {
    var ids := IdTexts(tags).value;
    var base := ProjectEndpoint(c, projects).value;
    assert ImageUrl(c, projects, tags).value == base + "/images/image?tagIds=" + Join("&tagIds=", ids);
    TagIdsQuery(base, ids);
  }

  /** Joining the Ids with "&tagIds=" after "tagIds=" is the query repeating `tagIds` per Id. */
  lemma TagIdsQuery(base: string, ids: seq<string>)
    requires ids != []
    ensures base + "/images/image?tagIds=" + Join("&tagIds=", ids) ==
      base + "/images/image?" + QueryString(Repeated("tagIds", ids))
  {
    RepeatedQuery("tagIds", ids);
    assert "&" + "tagIds" + "=" == "&tagIds=";
    var joined := Join("&tagIds=", ids);
    assert "/images/image?tagIds=" == "/images/image?" + "tagIds" + "=";
    assert base + "/images/image?tagIds=" + joined == base + "/images/image?" + ("tagIds" + "=" + joined);
  }

  /** The tags of the names given to `add_training_image`, in request order: the tags are
      fetched from the project's tags endpoint, so the project must be found first. */
  function TagsForUpload(c: TrainingClient, projects: seq<Project>, tags: seq<Tag>, names: seq<string>): Result<seq<Tag>, Error>
  {
    var _ :- TagsEndpoint(c, projects);
    TagsForNames(tags, names)
  }

  /** The URL `add_training_image` posts to: `_format_image_url(_fetch_tags_for_names(tag_names))`. */
  function AddTrainingImageUrl(c: TrainingClient, projects: seq<Project>, tags: seq<Tag>, names: seq<string>): Result<string, Error>
  {
    var resolved :- TagsForUpload(c, projects, tags, names);
    ImageUrl(c, projects, resolved)
  }

  /** Where the upload URL fails: a project that is not found fails first (StopIteration);
      with the project found and every tag name hashable, a KeyError comes exactly from a
      requested name that no tag has. */
  lemma AddTrainingImageUrlErrors(c: TrainingClient, projects: seq<Project>, tags: seq<Tag>, names: seq<string>)
    ensures FirstNamed(projects, c.projectName).None? ==> AddTrainingImageUrl(c, projects, tags, names) == Failure(StopIteration)
    ensures ProjectEndpoint(c, projects).Success? && (forall i :: 0 <= i < |tags| ==> Hashable(tags[i].Name)) ==>
      ((AddTrainingImageUrl(c, projects, tags, names).Failure? && AddTrainingImageUrl(c, projects, tags, names).error.KeyError?) <==>
       exists k :: 0 <= k < |names| && !Named(tags, names[k]))
  {
    EndpointShapes(c, projects, "");
    if ProjectEndpoint(c, projects).Success? && (forall i :: 0 <= i < |tags| ==> Hashable(tags[i].Name)) {
      var t := TagsForNames(tags, names);
      if t.Success? {
        ImageUrlShape(c, projects, t.value);
        assert TagsForUpload(c, projects, tags, names) == t;
      }
    }
  }

  /** What the upload URL is: one `tagIds` value per requested name, in request order, each
      the Id of the tag LAST in the project's tag list with that name. */
  lemma AddTrainingImageUrlMeaning(c: TrainingClient, projects: seq<Project>, tags: seq<Tag>, names: seq<string>)
    requires AddTrainingImageUrl(c, projects, tags, names).Success?
    ensures exists ids: seq<string> ::
      && LastIds(tags, names, ids)
      && AddTrainingImageUrl(c, projects, tags, names).value ==
           ProjectEndpoint(c, projects).value + "/images/image?tagIds=" + Join("&tagIds=", ids)
  {
    var r := AddTrainingImageUrl(c, projects, tags, names);
    var resolved := TagsForNames(tags, names).value;
    var ids := IdTexts(resolved).value;
    TagIdsForNames(tags, names);
    assert r.value == ProjectEndpoint(c, projects).value + "/images/image?tagIds=" + Join("&tagIds=", ids);
  }

  /** `_fetch_projects`: a GET of the projects endpoint with only the training key. */
  method ProjectsRequest(c: TrainingClient) returns (req: Request)
    ensures req == Request("get", ProjectsEndpoint(c), map["Training-Key" := c.trainingKey], NoBody)
  {
    req := MakeJsonRequest(c.Base(), "get", ProjectsEndpoint(c), None, NoBody);
  }

  /** `_fetch_project_tags`: a GET of the tags endpoint with only the training key. */
  method ProjectTagsRequest(c: TrainingClient, projects: seq<Project>) returns (r: Result<Request, Error>)
    ensures r.Success? <==> TagsEndpoint(c, projects).Success?
    ensures r.Failure? ==> r.error == TagsEndpoint(c, projects).error
    ensures r.Success? ==> r.value == Request("get", TagsEndpoint(c, projects).value, map["Training-Key" := c.trainingKey], NoBody)
  {
    var url := TagsEndpoint(c, projects);
    if url.Failure? {
      return Failure(url.error);
    }
    var req := MakeJsonRequest(c.Base(), "get", url.value, None, NoBody);
    r := Success(req);
  }

  /** `create_project`: a POST of the new-project endpoint; the caller's Content-Length of 0
      is sent beside the training key. */
  method CreateProjectRequest(c: TrainingClient, projectName: string) returns (req: Request)
    ensures req == Request("post", NewProjectEndpoint(c, projectName),
                           map["Training-Key" := c.trainingKey, "Content-Length" := "0"], NoBody)
  {
    var kv := [("Content-Length", "0")];
    assert kv[..0] == [];
    req := MakeJsonRequest(c.Base(), "post", NewProjectEndpoint(c, projectName), Some(kv), NoBody);
  }

  /** `create_tag`: a POST of the tag endpoint with only the training key. */
  method CreateTagRequest(c: TrainingClient, projects: seq<Project>, tagName: string) returns (r: Result<Request, Error>)
    ensures r.Success? <==> TagEndpoint(c, projects, tagName).Success?
    ensures r.Failure? ==> r.error == TagEndpoint(c, projects, tagName).error
    ensures r.Success? ==>
      r.value == Request("post", TagEndpoint(c, projects, tagName).value, map["Training-Key" := c.trainingKey], NoBody)
  {
    var url := TagEndpoint(c, projects, tagName);
    if url.Failure? {
      return Failure(url.error);
    }
    var req := MakeJsonRequest(c.Base(), "post", url.value, None, NoBody);
    r := Success(req);
  }

  /** `trigger_training`: a POST of the training endpoint with Content-Length 0. */
  method TriggerTrainingRequest(c: TrainingClient, projects: seq<Project>) returns (r: Result<Request, Error>)
    ensures r.Success? <==> TrainingEndpoint(c, projects).Success?
    ensures r.Failure? ==> r.error == TrainingEndpoint(c, projects).error
    ensures r.Success? ==>
      r.value == Request("post", TrainingEndpoint(c, projects).value,
                         map["Training-Key" := c.trainingKey, "Content-Length" := "0"], NoBody)
  {
    var url := TrainingEndpoint(c, projects);
    if url.Failure? {
      return Failure(url.error);
    }
    var kv := [("Content-Length", "0")];
    assert kv[..0] == [];
    var req := MakeJsonRequest(c.Base(), "post", url.value, Some(kv), NoBody);
    r := Success(req);
  }

  /** `add_training_image`: a POST of the upload URL carrying the image file. */
  method AddTrainingImageRequest(c: TrainingClient, projects: seq<Project>, tags: seq<Tag>, imagePath: string, names: seq<string>)
    returns (r: Result<Request, Error>)
    ensures r.Success? <==> AddTrainingImageUrl(c, projects, tags, names).Success?
    ensures r.Failure? ==> r.error == AddTrainingImageUrl(c, projects, tags, names).error
    ensures r.Success? ==>
      r.value == Request("post", AddTrainingImageUrl(c, projects, tags, names).value,
                         map["Training-Key" := c.trainingKey], OpaqueFile(imagePath))
  {
    var url := AddTrainingImageUrl(c, projects, tags, names);
    if url.Failure? {
      return Failure(url.error);
    }
    var req := MakeJsonRequest(c.Base(), "post", url.value, None, OpaqueFile(imagePath));
    r := Success(req);
  }
}
