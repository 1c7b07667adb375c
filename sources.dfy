/** Source resolution and the identifier cache (slackcli/utils.py): turning
    channel, group and user names into the platform's ids, from the cache file
    id-cache.json when it has a match and from the live directory otherwise. */
module Sources {
  import opened Base

  /** One object of a directory listing. For a member of the live listing
      `displayName` is `profile.display_name`, for a cached member it is
      `display_name`; channels and groups have none. `extra` stands for every
      other attribute the platform sends with the object. */
  datatype Entry = Entry(id: string, name: string, displayName: Option<string>, extra: map<string, string>)

  /** The three lists of a listing, in the order the resolver reads them. */
  datatype Lists = Lists(channels: seq<Entry>, groups: seq<Entry>, members: seq<Entry>)

  /** id-cache.json as `load_lists` finds it: no file, a file that does not
      load as the three lists, or the three lists. */
  datatype CacheFile = Absent | Malformed(reason: string) | Present(lists: Lists)

  /** Indexing the empty list that `load_lists` returns when there is no cache file. */
  const NoCacheFile := Crash("TypeError: list indices must be integers, not str")

  /** The name test of `filter_objects`: an empty name list selects everything. */
  predicate Selected(names: seq<string>, e: Entry) {
    |names| == 0 || e.name in names
  }

  /** `filter_objects`: the objects whose name is requested, in listing order. */
  function FilterObjects(names: seq<string>, objects: seq<Entry>): (r: seq<Entry>)
    ensures |names| == 0 ==> r == objects
    ensures |r| <= |objects|
  {
    if objects == [] then []
    else
      (if Selected(names, objects[0]) then [objects[0]] else []) + FilterObjects(names, objects[1..])
  }

  /** `filter_objects` keeps exactly the selected objects, each as often as
      the listing holds it. */
  lemma {:induction false} FilterKeepsExactly(names: seq<string>, objects: seq<Entry>)
    ensures forall e ::
              multiset(FilterObjects(names, objects))[e] == if Selected(names, e) then multiset(objects)[e] else 0
    ensures forall e :: e in FilterObjects(names, objects) <==> e in objects && Selected(names, e)
  {
    if objects != [] {
      assert objects == [objects[0]] + objects[1..];
      FilterKeepsExactly(names, objects[1..]);
    }
  }

  /** Filtering commutes with concatenation, so the kept objects keep their
      relative order. */
  lemma {:induction false} FilterAppend(names: seq<string>, a: seq<Entry>, b: seq<Entry>)
    ensures FilterObjects(names, a + b) == FilterObjects(names, a) + FilterObjects(names, b)
  {
    if a == [] {
      assert a + b == b;
    } else {
      var head := if Selected(names, a[0]) then [a[0]] else [];
      assert (a + b)[0] == a[0];
      assert (a + b)[1..] == a[1..] + b;
      FilterAppend(names, a[1..], b);
      calc {
        FilterObjects(names, a + b);
        head + FilterObjects(names, a[1..] + b);
        head + (FilterObjects(names, a[1..]) + FilterObjects(names, b));
        (head + FilterObjects(names, a[1..])) + FilterObjects(names, b);
        FilterObjects(names, a) + FilterObjects(names, b);
      }
    }
  }

  /** Channels, then groups, then members, each filtered. */
  function FilterLists(names: seq<string>, l: Lists): seq<Entry> {
    FilterObjects(names, l.channels) + FilterObjects(names, l.groups) + FilterObjects(names, l.members)
  }

  predicate Listed(l: Lists, e: Entry) {
    e in l.channels || e in l.groups || e in l.members
  }

  lemma FilterListsKeepsExactly(names: seq<string>, l: Lists)
    ensures forall e :: e in FilterLists(names, l) <==> Listed(l, e) && Selected(names, e)
  {
    FilterKeepsExactly(names, l.channels);
    FilterKeepsExactly(names, l.groups);
    FilterKeepsExactly(names, l.members);
  }

  /** What `get_sources` returns or raises. */
  function Sources(cache: CacheFile, live: Lists, names: seq<string>): (r: Result<seq<Entry>>)
    ensures r.Err? <==> !cache.Present?
  {
    match cache
    case Absent => Err(NoCacheFile)
    case Malformed(why) => Err(Crash(why))
    case Present(lists) =>
      var cached := FilterLists(names, lists);
      if |cached| > 0 then Ok(cached) else Ok(FilterLists(names, live))
  }

  /** Every source returned is selected by name. When the cache holds a
      selected object, only cached objects are returned; otherwise the result
      is exactly the selected objects of the live directory. */
  lemma SourcesSelect(cache: CacheFile, live: Lists, names: seq<string>)
    requires cache.Present?
    ensures var r := Sources(cache, live, names).value;
      (forall e :: e in r ==> Selected(names, e)) &&
      ((exists e :: Listed(cache.lists, e) && Selected(names, e)) ==>
        r != [] && forall e :: e in r ==> Listed(cache.lists, e)) &&
      (!(exists e :: Listed(cache.lists, e) && Selected(names, e)) ==>
        forall e :: e in r <==> Listed(live, e) && Selected(names, e))
  {
    FilterListsKeepsExactly(names, cache.lists);
    FilterListsKeepsExactly(names, live);
    var cached := FilterLists(names, cache.lists);
    if |cached| > 0 {
      assert cached[0] in cached;
    }
  }

  /** `get_sources`, which builds its result with `+=`. `liveQueried` says
      whether the live directory was listed. */
  method GetSources(cache: CacheFile, live: Lists, names: seq<string>)
    returns (sources: Result<seq<Entry>>, liveQueried: bool)
    ensures sources == Sources(cache, live, names)
    ensures liveQueried <==> cache.Present? && FilterLists(names, cache.lists) == []
  {
    liveQueried := false;
    var lists;
    match cache {
      case Absent => return Err(NoCacheFile), false;
      case Malformed(why) => return Err(Crash(why)), false;
      case Present(l) => lists := l;
    }
    var found: seq<Entry> := [];
    found := found + FilterObjects(names, lists.channels);
    found := found + FilterObjects(names, lists.groups);
    found := found + FilterObjects(names, lists.members);
    assert found == FilterLists(names, lists);
    if |found| > 0 {
      return Ok(found), false;
    }
    found := [];
    found := found + FilterObjects(names, live.channels);
    found := found + FilterObjects(names, live.groups);
    found := found + FilterObjects(names, live.members);
    assert found == FilterLists(names, live);
    return Ok(found), true;
  }

  /** What `get_source_id` returns or raises. */
  function SourceId(cache: CacheFile, live: Lists, name: string): Result<string> {
    match Sources(cache, live, [name])
    case Err(e) => Err(e)
    case Ok(found) => if found == [] then Err(SourceDoesNotExist(name)) else Ok(found[0].id)
  }

  /** `get_source_id` */
  method GetSourceId(cache: CacheFile, live: Lists, name: string) returns (id: Result<string>)
    ensures id == SourceId(cache, live, name)
    ensures id.Err? && id.error.SourceDoesNotExist? ==> id.error.name == name
    ensures id.Ok? ==> exists e :: (Listed(cache.lists, e) || Listed(live, e)) && e.name == name && e.id == id.value
  {
    var sources, _ := GetSources(cache, live, [name]);
    match sources {
      case Err(e) => return Err(e);
      case Ok(found) =>
        SourcesSelect(cache, live, [name]);
        if found == [] {
          return Err(SourceDoesNotExist(name));
        }
        assert found[0] in found;
        return Ok(found[0].id);
    }
  }

  /** A reference definition of the single lookup: the first object called
      `name` in a list. */
  function FirstNamed(objects: seq<Entry>, name: string): (r: Option<Entry>)
    ensures r.Some? ==> r.value in objects && r.value.name == name
    ensures r.None? <==> forall e :: e in objects ==> e.name != name
  {
    if objects == [] then None
    else if objects[0].name == name then Some(objects[0])
    else FirstNamed(objects[1..], name)
  }

  /** The first object called `name`, channels before groups before members. */
  function FirstInLists(l: Lists, name: string): Option<Entry> {
    var c := FirstNamed(l.channels, name);
    var g := FirstNamed(l.groups, name);
    if c.Some? then c else if g.Some? then g else FirstNamed(l.members, name)
  }

  lemma {:induction false} FilterOneName(objects: seq<Entry>, name: string)
    ensures var f := FilterObjects([name], objects);
      (f == [] <==> FirstNamed(objects, name).None?) &&
      (f != [] ==> f[0] == FirstNamed(objects, name).value)
  {
    if objects != [] {
      FilterOneName(objects[1..], name);
    }
  }

  /** The single lookup resolves to the first match in the cache, channels
      first; with no match in the cache, to the first match in the live
      directory; with neither, it raises `SourceDoesNotExist` carrying the
      name it was given. */
  lemma SourceIdIsFirstMatch(lists: Lists, live: Lists, name: string)
    ensures SourceId(Present(lists), live, name) ==
      if FirstInLists(lists, name).Some? then Ok(FirstInLists(lists, name).value.id)
      else if FirstInLists(live, name).Some? then Ok(FirstInLists(live, name).value.id)
      else Err(SourceDoesNotExist(name))
  {
    FilterOneName(lists.channels, name);
    FilterOneName(lists.groups, name);
    FilterOneName(lists.members, name);
    FilterOneName(live.channels, name);
    FilterOneName(live.groups, name);
    FilterOneName(live.members, name);
  }

  /** The dictionary comprehension of `get_source_ids`: each id maps to a
      name, a later object overriding an earlier one with the same id. */
  function IdNames(objects: seq<Entry>): map<string, string> {
    if objects == [] then map[]
    else IdNames(objects[..|objects| - 1])[objects[|objects| - 1].id := objects[|objects| - 1].name]
  }

  /** The keys are exactly the ids of the objects, and each id maps to the
      name of the last object that carries it. */
  lemma {:induction false} IdNamesLastWins(objects: seq<Entry>)
    ensures IdNames(objects).Keys == set e | e in objects :: e.id
    ensures forall i :: 0 <= i < |objects| ==>
      (forall j :: i < j < |objects| ==> objects[j].id != objects[i].id) ==> IdNames(objects)[objects[i].id] == objects[i].name
  {
    if objects != [] {
      var init := objects[..|objects| - 1];
      var last := objects[|objects| - 1];
      assert objects == init + [last];
      IdNamesLastWins(init);
      forall i | 0 <= i < |objects| - 1 && (forall j :: i < j < |objects| ==> objects[j].id != objects[i].id)
        ensures IdNames(objects)[objects[i].id] == objects[i].name
      {
        assert init[i] == objects[i];
        assert forall j :: i < j < |init| ==> init[j].id != init[i].id;
        assert objects[|objects| - 1].id != objects[i].id;
      }
    }
  }

  /** `get_source_ids` */
  method GetSourceIds(cache: CacheFile, live: Lists, names: seq<string>)
    returns (ids: Result<map<string, string>>)
    ensures ids.Err? <==> !cache.Present?
    ensures ids.Ok? ==> ids.value.Keys == set e | e in Sources(cache, live, names).value :: e.id
    ensures ids.Ok? ==> forall id :: id in ids.value ==>
      exists e :: e in Sources(cache, live, names).value && e.id == id && e.name == ids.value[id]
  {
    var sources, _ := GetSources(cache, live, names);
    match sources {
      case Err(e) => return Err(e);
      case Ok(found) =>
        IdNamesLastWins(found);
        IdNamesFromObjects(found);
        return Ok(IdNames(found));
    }
  }

  lemma {:induction false} IdNamesFromObjects(objects: seq<Entry>)
    ensures forall id :: id in IdNames(objects) ==>
      exists e :: e in objects && e.id == id && e.name == IdNames(objects)[id]
  {
    if objects != [] {
      var init := objects[..|objects| - 1];
      var last := objects[|objects| - 1];
      assert objects == init + [last];
      IdNamesFromObjects(init);
      assert IdNames(objects) == IdNames(init)[last.id := last.name];
      forall id | id in IdNames(objects)
        ensures exists e :: e in objects && e.id == id && e.name == IdNames(objects)[id]
      {
        if id == last.id {
          assert last in objects;
        } else {
          var e :| e in init && e.id == id && e.name == IdNames(init)[id];
          assert e in objects;
        }
      }
    }
  }

  // The cache rebuild.

  /** A cached channel or group: `{'id': .., 'name': ..}`. */
  function IdAndName(e: Entry): Entry {
    Entry(e.id, e.name, None, map[])
  }

  /** A cached member: `{'id': .., 'name': .., 'display_name': ..}`. */
  function IdNameAndDisplay(e: Entry): Entry {
    Entry(e.id, e.name, e.displayName, map[])
  }

  /** Every member of a users listing carries `profile.display_name`. */
  predicate MembersHaveProfiles(live: Lists) {
    forall m :: m in live.members ==> m.displayName.Some?
  }

  /** The projection part of `cache_source_ids`: three `append` loops, one per
      list. */
  method CacheSourceIds(live: Lists) returns (lists: Lists)
    requires MembersHaveProfiles(live)
    ensures |lists.channels| == |live.channels| && |lists.groups| == |live.groups|
    ensures |lists.members| == |live.members|
    ensures forall i :: 0 <= i < |live.channels| ==> lists.channels[i] == IdAndName(live.channels[i])
    ensures forall i :: 0 <= i < |live.groups| ==> lists.groups[i] == IdAndName(live.groups[i])
    ensures forall i :: 0 <= i < |live.members| ==>
      lists.members[i] == IdNameAndDisplay(live.members[i]) && lists.members[i].displayName.Some?
  {
    var channels: seq<Entry> := [];
    for i := 0 to |live.channels|
      invariant |channels| == i
      invariant forall k :: 0 <= k < i ==> channels[k] == IdAndName(live.channels[k])
    {
      var obj := live.channels[i];
      channels := channels + [Entry(obj.id, obj.name, None, map[])];
    }
    var groups: seq<Entry> := [];
    for i := 0 to |live.groups|
      invariant |groups| == i
      invariant forall k :: 0 <= k < i ==> groups[k] == IdAndName(live.groups[k])
    {
      var obj := live.groups[i];
      groups := groups + [Entry(obj.id, obj.name, None, map[])];
    }
    var members: seq<Entry> := [];
    for i := 0 to |live.members|
      invariant |members| == i
      invariant forall k :: 0 <= k < i ==> members[k] == IdNameAndDisplay(live.members[k])
    {
      var obj := live.members[i];
      assert obj in live.members;
      members := members + [Entry(obj.id, obj.name, Some(obj.displayName.value), map[])];
    }
    lists := Lists(channels, groups, members);
  }

  /** The snapshot `cache_source_ids` writes, as a function. */
  function Snapshot(live: Lists): Lists {
    Lists(Project(live.channels, false), Project(live.groups, false), Project(live.members, true))
  }

  function Project(objects: seq<Entry>, keepDisplay: bool): (r: seq<Entry>)
    ensures |r| == |objects|
    ensures forall i :: 0 <= i < |objects| ==>
      r[i] == if keepDisplay then IdNameAndDisplay(objects[i]) else IdAndName(objects[i])
  {
    if objects == [] then []
    else
      var head := if keepDisplay then IdNameAndDisplay(objects[0]) else IdAndName(objects[0]);
      [head] + Project(objects[1..], keepDisplay)
  }

  /** The snapshot is exactly what the rebuild writes. */
  lemma CacheSourceIdsWritesSnapshot(live: Lists, lists: Lists)
    requires |lists.channels| == |live.channels| && |lists.groups| == |live.groups|
    requires |lists.members| == |live.members|
    requires forall i :: 0 <= i < |live.channels| ==> lists.channels[i] == IdAndName(live.channels[i])
    requires forall i :: 0 <= i < |live.groups| ==> lists.groups[i] == IdAndName(live.groups[i])
    requires forall i :: 0 <= i < |live.members| ==> lists.members[i] == IdNameAndDisplay(live.members[i])
    ensures lists == Snapshot(live)
  {
  }

  /** Projection keeps names, so filtering by name commutes with it. */
  lemma {:induction false} FilterProject(names: seq<string>, objects: seq<Entry>, keepDisplay: bool)
    ensures FilterObjects(names, Project(objects, keepDisplay)) == Project(FilterObjects(names, objects), keepDisplay)
  {
    if objects != [] {
      FilterProject(names, objects[1..], keepDisplay);
      assert Project(objects, keepDisplay)[1..] == Project(objects[1..], keepDisplay);
    }
  }

  /** A freshly rebuilt cache resolves every name list to the projection of
      what the live directory resolves it to: same ids, same names, same
      order. */
  lemma FreshCacheResolvesLikeLive(live: Lists, names: seq<string>)
    ensures Sources(Present(Snapshot(live)), live, names) ==
      Ok(Project(FilterObjects(names, live.channels), false)
         + Project(FilterObjects(names, live.groups), false)
         + Project(FilterObjects(names, live.members), true))
  {
    FilterProject(names, live.channels, false);
    FilterProject(names, live.groups, false);
    FilterProject(names, live.members, true);
  }

  /** In particular the single lookup through a freshly rebuilt cache finds
      the same id as a lookup that has to go to the live directory. */
  lemma FreshCacheSameIds(live: Lists, name: string)
    ensures SourceId(Present(Snapshot(live)), live, name) == SourceId(Present(Lists([], [], [])), live, name)
  {
    FreshCacheResolvesLikeLive(live, [name]);
    var c := FilterObjects([name], live.channels);
    var g := FilterObjects([name], live.groups);
    var m := FilterObjects([name], live.members);
    assert FilterLists([name], Lists([], [], [])) == [];
    if c != [] {
      assert (Project(c, false) + Project(g, false) + Project(m, true))[0] == Project(c, false)[0];
    } else if g != [] {
      assert (Project(c, false) + Project(g, false) + Project(m, true))[0] == Project(g, false)[0];
    } else if m != [] {
      assert (Project(c, false) + Project(g, false) + Project(m, true))[0] == Project(m, true)[0];
    }
  }
}
