# A model of py_custom_vision_client in Dafny

This project models the client side of the Custom Vision REST service, both the
`custom_vision_client` package and the stand-alone `custom_vision_client.py` module.
The client itself computes little:

- it finds the configured project by name;
- it resolves tag names to the project's tags;
- it formats the training and prediction endpoints, with their query strings;
- it merges the authentication header with the caller's headers;
- it describes an uploaded file by its basename and an `application/<extension>` content type;
- it reads JSON replies into fixed-shape records;
- it turns a failed training reply into a `TrainingError`.

The model states and proves these rules.

There is no batching in the code. Each upload sends one file with the resolved tag Ids, and
its reply is read as one `AddImageResponse` record.

Modules, one per source file plus shared helpers:

| module | file | models |
|---|---|---|
| `Wrappers` | wrappers.dfy | `Option`, `Result`, and `MapAll` (a list comprehension whose element may raise) |
| `JsonValues` | json.dfy | decoded JSON values, Python truthiness, hashability and `str()` |
| `Strings` | strings.dfy | `str.join`, `str.rfind`, URL query strings |
| `Paths` | paths.dfy | `posixpath.basename` and `posixpath.splitext` |
| `Exceptions` | exceptions.dfy | the exceptions raised; `TrainingError` and its `__str__` |
| `Models` | models.dfy | the namedtuple records and `Record(**d)` |
| `Lookup` | lookup.dfy | tag lookup by name, and finding a project by name |
| `Client` | client.dfy | `BaseClient` (client.py) |
| `Training` | training.dfy | `TrainingClient` |
| `Prediction` | prediction.dfy | `PredictionClient` |
| `Service` | service.dfy | the stand-alone `custom_vision_client.py` |

I/O is represented by values:

- An HTTP reply is a `Json` parameter.
- An outgoing request is a `Request` value: verb, URL, headers and body.
- The environment is a `map<string, string>`.
- A file is its path.
- `os.path.isfile(image)` is a boolean parameter.
- The projects and tags a client fetched are parameters.

## Model

| member | source | states |
|---|---|---|
| `Wrappers.MapAll` | custom_vision_client/training.py:80 | a list comprehension gives every element in order, or the error of the first element that raises, with every earlier element succeeding |
| `JsonValues.NatText` | custom_vision_client/training.py:48-50 | as used by the `format` of a numeric project Id (here and at custom_vision_client.py:69-72) and by the corrected `__str__` of exceptions.py:7, `str()` of a non-negative integer is a non-empty string of decimal digits with no leading zero ("0" only for zero) |
| `JsonValues.NatTextValue` | custom_vision_client/training.py:48-50 | for the `format` of a numeric project Id (here and at custom_vision_client.py:69-72) and the corrected `__str__` of exceptions.py:7, the decimal digits `str()` prints for a non-negative integer denote that integer |
| `Paths.Basename` | custom_vision_client/client.py:37 | the basename is the suffix after the last '/', holds no '/', and is the whole path or preceded by '/' |
| `Paths.BasenameUnique` | custom_vision_client/client.py:37 | that description of a basename admits only one string |
| `Paths.SplitExtMeaning` | custom_vision_client/client.py:38 | about `SplitExt`: root + extension is the name; the extension is non-empty iff the last component has a dot with a non-dot before it; it then starts at the last dot, dot included |
| `Strings.RepeatedQuery` | custom_vision_client/training.py:63-66 | for a non-empty list of values, `key=` followed by the values joined with `&key=` is the query repeating the pair (key, value) once per value, in order |
| `Exceptions.StrCases` | custom_vision_client/exceptions.py:6-7 | about `Str`: `__str__` (corrected) is status, one space, message when both are truthy; the truthy one alone when only one is; "" when neither is; it fails only on a truthy part whose text is not modelled |
| `Exceptions.StrAsWrittenCases` | custom_vision_client/exceptions.py:7 | about `StrAsWritten`: `__str__` as written returns a value iff every truthy part is a string |
| `Exceptions.StrAgreesWhereDefined` | custom_vision_client/exceptions.py:7 | about `Str`, `StrAsWritten`: wherever `__str__` as written returns a value, the corrected version returns the same value |
| `Exceptions.NumericStatusBreaksStr` | custom_vision_client/exceptions.py:7 | with status 401 and any non-empty message, such as "Access denied", `__str__` as written raises, while the corrected version gives "401 " followed by the message |
| `Models.Keywords` | custom_vision_client.py:64 | `**j` succeeds iff `j` is a dict whose keys are exactly the record's fields, and then passes `j` unchanged; otherwise TypeError |
| `Models.TagOf` | custom_vision_client.py:74 | `Tag(**j)` succeeds iff the keys are exactly Description, Id, ImageCount, Name, each field taken unchanged |
| `Models.ProjectOf` | custom_vision_client.py:64 | `Project(**j)` succeeds iff the keys are exactly the eight project fields, each field taken unchanged |
| `Models.AddImageResponseOf` | custom_vision_client.py:106 | `AddImageResponse(**j)` succeeds iff the keys are exactly IsBatchSuccessful and Images |
| `Models.PredictionOf` | custom_vision_client/prediction.py:52 | `Prediction(**j)` succeeds iff the keys are exactly TagId, Tag and Probability |
| `Models.Item` | custom_vision_client.py:73 | `j[key]` is the value for a present key, KeyError for a missing one, TypeError on a value that is not a dict |
| `Models.Records` | custom_vision_client.py:64 | a comprehension over a list reads every element; over a dict or a string it succeeds only when empty; any other value is not iterable |
| `Lookup.NameIndexKeys` | custom_vision_client/training.py:79 | about `NameIndex`: a name is in the name index iff some tag has it |
| `Lookup.NameIndexLast` | custom_vision_client/training.py:79 | about `NameIndex`: each name of the index maps to the last tag of the list with that name |
| `Lookup.NameIndexMeaning` | custom_vision_client/training.py:79 | about `NameIndex`: both facts for every name at once |
| `Lookup.TagsForNames` | custom_vision_client/training.py:78-80 | succeeds iff every tag name is hashable and every requested name is a tag's name; gives one tag per requested name, in order, named as requested, the last with that name; otherwise KeyError with the first missing name, and no partial list, or TypeError for an unhashable name |
| `Lookup.TagsForNamesLastWins` | custom_vision_client/training.py:79 | among duplicate names, the tag returned is the one last in the project's tag list |
| `Lookup.TagIdsForNames` | custom_vision_client/training.py:66-80 | the Ids of the looked-up tags are one per requested name, in request order, each the Id of the last tag with that name |
| `Lookup.FirstNamed` | custom_vision_client/training.py:30-31 | none iff no project has the name; else the first project with it |
| `Lookup.IdTexts` | custom_vision_client/training.py:66 | the tag Ids to join, in order, iff every Id is a string; otherwise TypeError |
| `Client.ApiBase` | custom_vision_client/client.py:23-25 | the base is "https://", the region, and ".api.cognitive.microsoft.com", nothing else |
| `Client.MergedKeys` | custom_vision_client/client.py:27-31 | about `Merged`: the merged headers' names are exactly the auth header name plus the caller's keys |
| `Client.MergedLastWins` | custom_vision_client/client.py:29-30 | about `Merged`: each caller key has the value of its last pair, which can override the auth header |
| `Client.MergedAuthDefault` | custom_vision_client/client.py:28 | about `Merged`: when no pair names the auth header, it holds the client's key |
| `Client.FormatHeaders` | custom_vision_client/client.py:27-31 | the loop builds exactly the merged headers |
| `Client.FileEntryMeaning` | custom_vision_client/client.py:37-40 | a file's description has field "file", the basename, the file and "application/" + the basename's extension (dot included, empty when there is none) |
| `Client.FormatFiles` | custom_vision_client/client.py:34-41 | one description per file, in input order, as many as inputs |
| `Client.MakeJsonRequest` | custom_vision_client/client.py:49-51 | the request keeps verb, URL and body; its headers are the merge of the auth header with the caller's headers (none given: []) |
| `Training.FetchProjectId` | custom_vision_client/training.py:28-31 | the Id of the first project with the configured name; StopIteration iff none has it |
| `Training.ProjectsEndpointShape` | custom_vision_client/training.py:33-35 | about `ProjectsEndpoint`: the projects endpoint is the region's API base + "/customvision/v1.0/Training/projects" |
| `Training.NewProjectEndpointShape` | custom_vision_client/training.py:37-45 | about `NewProjectEndpoint`: the new-project query is exactly name=<name, unescaped>&description=&classifier=MultiLabel&useNegativeSet=true |
| `Training.NewProjectPairs` | custom_vision_client/training.py:38-45 | about `NewProjectQuery`: the four query pairs render as name=<name>, description=, classifier=MultiLabel and useNegativeSet=true, in that order |
| `Training.EndpointShapes` | custom_vision_client/training.py:47-61 | about `ProjectEndpoint`, `TagsEndpoint`, `TagEndpoint`, `TrainingEndpoint`: the project endpoint exists iff a project has the name and its Id can be formatted; it is then projects/<first such Id>; tags adds "/tags", tag adds "/tags?name=<tag>", training adds "/train"; their errors are the project endpoint's |
| `Training.ImageUrlShape` | custom_vision_client/training.py:63-66 | about `ImageUrl`: the upload URL fails as the project endpoint does, then with TypeError iff some Id is not a string; with no tags it ends in "/images/image?tagIds=" |
| `Training.ImageUrlQuery` | custom_vision_client/training.py:63-66 | about `ImageUrl`: with tags, the upload URL is the project endpoint + "/images/image?" + the query repeating tagIds=<Id> once per tag, in order |
| `Training.TagIdsQuery` | custom_vision_client/training.py:64-66 | for a non-empty list of Ids, "tagIds=" followed by the Ids joined with "&tagIds=" is that repeated query |
| `Training.AddTrainingImageUrlErrors` | custom_vision_client/training.py:99-100 | about `AddTrainingImageUrl`, `TagsForUpload` (the tags fetch of `_fetch_tags_for_names`, training.py:73-80): no project with the name gives StopIteration; with the project found, its Id formattable and every tag name hashable, KeyError iff some requested name is no tag's
| `Training.AddTrainingImageUrlMeaning` | custom_vision_client/training.py:99-100 | about `AddTrainingImageUrl`: the upload URL carries one Id per requested name, in request order, each from the last tag with that name |
| `Training.ProjectsRequest` | custom_vision_client/training.py:68-70 | GET of the projects endpoint with only the training key |
| `Training.ProjectTagsRequest` | custom_vision_client/training.py:73-75 | GET of the tags endpoint with only the training key; the endpoint's error otherwise |
| `Training.CreateProjectRequest` | custom_vision_client/training.py:82-84 | POST of the new-project endpoint with the training key and Content-Length 0 |
| `Training.CreateTagRequest` | custom_vision_client/training.py:87-89 | POST of the tag endpoint with only the training key |
| `Training.TriggerTrainingRequest` | custom_vision_client/training.py:92-94 | POST of the training endpoint with the training key and Content-Length 0 |
| `Training.AddTrainingImageRequest` | custom_vision_client/training.py:99-102 | POST of the upload URL with the training key and the image file; the URL's error otherwise |
| `Prediction.PredictionEndpointShape` | custom_vision_client/prediction.py:25-33 | about `PredictionEndpoint`: the endpoint is the API base + "/customvision/v1.0/Prediction/" + project id + "/" + api, then "?iterationId=<id>" exactly when a model id is truthy |
| `Prediction.QueryIffModelId` | custom_vision_client/prediction.py:31-33 | about `PredictionEndpoint`: with no '?' in region, project id or api, the endpoint has a query iff the model id is truthy (None and "" add nothing) |
| `Prediction.ClassifyRequest` | custom_vision_client/prediction.py:35-51 | a file on disk is posted to the "image" api with the file; anything else to the "url" api with {'Url': image}; only the prediction key is sent |
| `Prediction.Predictions` | custom_vision_client/prediction.py:52 | KeyError without "Predictions", TypeError for a reply that is not a dict; a list under "Predictions" gives one prediction per element, in order, with its three fields, iff every element has exactly the prediction fields; anything else under "Predictions" succeeds, with no predictions, only when an empty dict or string; every other failure is TypeError
| `Prediction.ClassifyImage` | custom_vision_client/prediction.py:45-52 | the request follows the isfile choice, and the result is the reply's predictions |
| `Service.Setting` | custom_vision_client.py:44-46 | a truthy argument wins; otherwise the environment's value; KeyError naming the variable when it is absent |
| `Service.NewConfig` | custom_vision_client.py:42-46 | each field is its truthy argument or the environment's value; the first setting (region, training key, project name) with neither raises KeyError for its variable |
| `Service.FetchProject` | custom_vision_client.py:48-51 | the first project with the configured name; IndexError iff there is none |
| `Service.ProjectId` | custom_vision_client.py:53-55 | the Id of the first project with the configured name, IndexError when there is none; when there is one, the same Id the training client's `fetch_project_id` gives |
| `Service.SameUrlsAsTrainingClient` | custom_vision_client.py:58-100 | about `ProjectsUrl`, `ProjectUrl`, `TagsUrl`, `TrainUrl`, `ImageUrl`: this module's projects, project, tags, train and upload URLs equal the training client's; a project that is not found gives IndexError here, StopIteration there |
| `Service.FetchProjects` | custom_vision_client.py:58-64 | a list reply gives one project per element, each `Project(**element)` with all eight fields copied, iff every element has exactly the project fields; a dict or string reply succeeds, with no projects, only when empty; every failure is TypeError
| `Service.FetchProjectTags` | custom_vision_client.py:67-74 | a reply that is not a dict gives TypeError, one without "Tags" KeyError; a list under "Tags" gives one `Tag(**element)` per element, all four fields copied, iff every element has exactly the tag fields; anything else under "Tags" succeeds, with no tags, only when an empty dict or string; every other failure is TypeError
| `Service.TriggerTraining` | custom_vision_client.py:84-89 | a reply with exactly the six fields becomes a TrainingResponse; another dict raises TrainingError with status = statusCode if truthy else Code and message = message if truthy else Message (absent keys give None); a non-dict reply fails at `.get` |
| `Service.UploadErrors` | custom_vision_client.py:93-100 | about `Upload`: with hashable tag names, the upload fails with KeyError iff some requested name is no tag's |
| `Service.UploadMeaning` | custom_vision_client.py:92-105 | about `Upload`: a successful upload is a POST with the training key, exactly one file described by (basename, file, application/<ext>) and a URL with one Id per requested name, in order, from the last tag with the name |
| `Service.AddTrainingImage` | custom_vision_client.py:92-106 | IndexError when no project has the name; it succeeds iff the tags URL, the tag reply, the upload and the reply record all succeed, and then returns that upload and the reply's two fields; otherwise it fails with the error of the first of these steps that fails (so the KeyError of a missing tag name, and the TypeError of a reply with other fields)

## Left out

- The stand-alone module's requests are modelled by their URLs only: `ProjectsUrl`, `TagsUrl` and `TrainUrl`. Their headers and HTTP calls, at custom_vision_client.py:59-63, 68-73 and 78-83, are not `Request` values; only the upload is (`Service.Upload`).
- custom_vision_client.py:9 imports `TrainingError` from a top-level `exceptions` module, which no modelled file defines. The model takes it to be custom_vision_client/exceptions.py: `Service.TriggerTraining` raises `Exceptions.TrainingError`, and the finding below reaches its `__str__` through that import (custom_vision_client.py:87-89).
- HTTP transport is not modelled. This covers `requests.get`/`post`, `raise_for_status` and `.json()`. Replies are parameters and requests are values.
- Opening image files is not modelled; a file is its path. `os.path.isfile` is a boolean parameter.
- Reading environment variables is a map parameter.
- The `lru_cache` memo on `fetch_project_id` and `_fetch_project` is not modelled. Each lookup is a function of the fetched projects.
- `create`, imported at custom_vision_client/training.py:12, is defined by no modelled file. So the training client's record reading (training.py:71, 76, 85, 90, 97, 103) is not modelled. Its requests are modelled, and its tags and projects are parameters.
- `_format_file`, called at training.py:102 and prediction.py:42, is defined by no modelled file. Its result is the opaque body `OpaqueFile(path)`.
- `TrainingError.has_error` and `TrainingError.from_response`, used at training.py:95-96, are defined by no modelled file. The training client's reading of a training reply is not modelled; `Service.TriggerTraining` models the stand-alone module's reading.
- The abstract `_auth_keyname` property of `BaseClient` is not modelled as such. It is a field that each concrete client sets.
- JSON numbers with a fraction are not modelled; JSON numbers are integers.
- Python's `str()` of a JSON array or dict is not modelled. Formatting such a project Id into a URL, or such a status into a message, gives the model's `Unrendered` error, where Python would print its repr.
- Python's equality of `True` with `1` in a dict keyed by tag names is not modelled. `Lookup.NameIndex` keeps only string keys, which are the only keys a tag name can look up.
- models.py's nine-field `TrainingResponse` is not modelled. It is only ever built through `create`.
- setup.py is out of scope: it is packaging.

## Findings

| source | as written | input that shows it | evidently intended | confidence | as-written member | corrected member |
|---|---|---|---|---|---|---|
| custom_vision_client/exceptions.py:7 | `' '.join` over the raw status and message, which `str.join` accepts only as strings | a reply `{"statusCode": 401, "message": "Access denied"}` (statusCode is numeric) makes `str(TrainingError)` raise TypeError | "401 Access denied": each truthy part shown with `str()` | medium, not executed | `Exceptions.NumericStatusBreaksStr` (on `Exceptions.StrAsWritten`) | `Exceptions.Str`, proved by `Exceptions.StrCases` and `Exceptions.StrAgreesWhereDefined` |
