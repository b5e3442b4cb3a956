/** The two lookups the client does on fetched records: tags by name, through a dict built
    from the project's tag list, and the first project with a given name. */
module Lookup {
  import opened Wrappers
  import opened JsonValues
  import opened Exceptions
  import opened Models

  /** Some tag of `tags` is named `n`. */
  ghost predicate Named(tags: seq<Tag>, n: string) {
    exists i :: 0 <= i < |tags| && tags[i].Name == JStr(n)
  }

  /** `tags[i]` is named `n` and no later tag is. */
  ghost predicate LastNamed(tags: seq<Tag>, i: int, n: string) {
    && 0 <= i < |tags|
    && tags[i].Name == JStr(n)
    && forall j :: i < j < |tags| ==> tags[j].Name != JStr(n)
  }

  /** `dict((tag.Name, tag) for tag in tags)`, restricted to the keys a string can look up
      (a string is never equal to a key of another kind). Later tags overwrite earlier ones. */
  function NameIndex(tags: seq<Tag>): map<string, Tag>
  {
    if tags == [] then map[]
    else
      var last := tags[|tags| - 1];
      var prev := NameIndex(tags[..|tags| - 1]);
      if last.Name.JStr? then prev[last.Name.s := last] else prev
  }

  /** The name index holds exactly the names some tag has. */
  lemma {:induction false} NameIndexKeys(tags: seq<Tag>, n: string)
    ensures n in NameIndex(tags) <==> Named(tags, n)
  {
    if tags != [] {
      var init := tags[..|tags| - 1];
      NameIndexKeys(init, n);
      if Named(tags, n) && tags[|tags| - 1].Name != JStr(n) {
        var i :| 0 <= i < |tags| && tags[i].Name == JStr(n);
        assert init[i] == tags[i];
      }
      if Named(init, n) {
        var i :| 0 <= i < |init| && init[i].Name == JStr(n);
        assert tags[i] == init[i];
      }
    }
  }

  /** Each name of the index is mapped to the LAST tag with that name. */
  lemma {:induction false} NameIndexLast(tags: seq<Tag>, n: string)
    requires n in NameIndex(tags)
    ensures exists i :: LastNamed(tags, i, n) && tags[i] == NameIndex(tags)[n]
  {
    var init := tags[..|tags| - 1];
    var last := tags[|tags| - 1];
    if last.Name == JStr(n) {
      assert LastNamed(tags, |tags| - 1, n);
    } else {
      NameIndexLast(init, n);
      var i :| LastNamed(init, i, n) && init[i] == NameIndex(init)[n];
      assert tags[i] == init[i];
      assert LastNamed(tags, i, n);
    }
  }

  /** The name index holds exactly the names some tag has, each mapped to the LAST tag with
      that name. */
  lemma NameIndexMeaning(tags: seq<Tag>)
    ensures forall n :: n in NameIndex(tags) <==> Named(tags, n)
    ensures forall n :: n in NameIndex(tags) ==> exists i :: LastNamed(tags, i, n) && tags[i] == NameIndex(tags)[n]
  {
    forall n ensures n in NameIndex(tags) <==> Named(tags, n) {
      NameIndexKeys(tags, n);
    }
    forall n | n in NameIndex(tags) ensures exists i :: LastNamed(tags, i, n) && tags[i] == NameIndex(tags)[n] {
      NameIndexLast(tags, n);
    }
  }

  /** `all_tags[name]` for each requested name, in order. */
  function LookUp(idx: map<string, Tag>, name: string): Result<Tag, Error>
  {
    if name in idx then Success(idx[name]) else Failure(KeyError(name))
  }

  /** `_fetch_tags_for_names`: build the name index of the project's tags (a list or dict name
      cannot be a key: TypeError), then `[all_tags[name] for name in names]`. */
  function TagsForNames(tags: seq<Tag>, names: seq<string>): (r: Result<seq<Tag>, Error>)
    ensures r.Success? <==>
      (forall i :: 0 <= i < |tags| ==> Hashable(tags[i].Name)) &&
      (forall k :: 0 <= k < |names| ==> Named(tags, names[k]))
    ensures r.Success? ==>
      |r.value| == |names| &&
      forall k :: 0 <= k < |names| ==>
        r.value[k].Name == JStr(names[k]) &&
        exists i :: LastNamed(tags, i, names[k]) && tags[i] == r.value[k]
    ensures r.Failure? && (forall i :: 0 <= i < |tags| ==> Hashable(tags[i].Name)) ==>
      exists k :: 0 <= k < |names| && !Named(tags, names[k]) && r.error == KeyError(names[k]) &&
        forall j :: 0 <= j < k ==> Named(tags, names[j])
    ensures (exists i :: 0 <= i < |tags| && !Hashable(tags[i].Name)) ==> r.Failure? && r.error.TypeError?
  {
    if exists i :: 0 <= i < |tags| && !Hashable(tags[i].Name) then
      Failure(TypeError("unhashable type"))
    else
      var idx := NameIndex(tags);
      NameIndexMeaning(tags);
      MapAll(names, n => LookUp(idx, n))
  }

  /** With duplicate names, the requested tag is the one LAST in the project's tag list. */
  lemma TagsForNamesLastWins(tags: seq<Tag>, names: seq<string>, k: int, i: int)
    requires TagsForNames(tags, names).Success?
    requires 0 <= k < |names| && LastNamed(tags, i, names[k])
    ensures TagsForNames(tags, names).value[k] == tags[i]
  {
    var r := TagsForNames(tags, names).value;
    var i' :| LastNamed(tags, i', names[k]) && tags[i'] == r[k];
  }

  /** `ids` holds one Id per requested name, in request order, each the Id of the LAST tag
      with that name. */
  ghost predicate LastIds(tags: seq<Tag>, names: seq<string>, ids: seq<string>) {
    && |ids| == |names|
    && forall k :: 0 <= k < |names| ==> exists i :: LastNamed(tags, i, names[k]) && tags[i].Id == JStr(ids[k])
  }

  /** The Ids of the tags looked up by name are the Ids of the last tags with those names. */
  lemma TagIdsForNames(tags: seq<Tag>, names: seq<string>)
    requires TagsForNames(tags, names).Success?
    requires IdTexts(TagsForNames(tags, names).value).Success?
    ensures LastIds(tags, names, IdTexts(TagsForNames(tags, names).value).value)
  {
    var t := TagsForNames(tags, names).value;
    var ids := IdTexts(t).value;
    forall k | 0 <= k < |names| ensures exists i :: LastNamed(tags, i, names[k]) && tags[i].Id == JStr(ids[k]) {
      var i :| LastNamed(tags, i, names[k]) && tags[i] == t[k];
    }
  }

  /** The first project of `projects` whose Name is `name`, if any. */
  function FirstNamed(projects: seq<Project>, name: string): (r: Option<Project>)
    ensures r.None? <==> forall i :: 0 <= i < |projects| ==> projects[i].Name != JStr(name)
    ensures r.Some? ==>
      exists i :: 0 <= i < |projects| && projects[i] == r.value && r.value.Name == JStr(name) &&
        forall j :: 0 <= j < i ==> projects[j].Name != JStr(name)
  {
    if projects == [] then None
    else if projects[0].Name == JStr(name) then Some(projects[0])
    else
      var r := FirstNamed(projects[1..], name);
      assert forall i :: 1 <= i < |projects| ==> projects[i] == projects[1..][i - 1];
      r
  }

  /** The text a tag's Id contributes to `'&tagIds='.join(tag.Id for tag in tags)`:
      `str.join` takes only strings. */
  function IdText(t: Tag): Result<string, Error>
  {
    if t.Id.JStr? then Success(t.Id.s) else Failure(TypeError("sequence item: expected str instance"))
  }

  /** The tag Ids to be joined, in order, or TypeError at the first Id that is not a string. */
  function IdTexts(tags: seq<Tag>): (r: Result<seq<string>, Error>)
    ensures r.Success? <==> forall i :: 0 <= i < |tags| ==> tags[i].Id.JStr?
    ensures r.Success? ==> |r.value| == |tags| && forall i :: 0 <= i < |tags| ==> tags[i].Id == JStr(r.value[i])
    ensures r.Failure? ==> r.error.TypeError?
  {
    MapAll(tags, IdText)
  }
}
