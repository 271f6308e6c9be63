/** One character's enrichment step, `extract_data`: fetch the character,
    fan out over its reference URLs, gather the referenced objects, slice
    them back into the four reference categories by offsets, and overwrite
    each reference field with the `", "`-joined display names. */
module Enrichment {
  import opened Wrappers
  import opened Strings

  /** The JSON values the step reads. `Links` is a JSON array of URL strings. */
  datatype Value = Null | Number(n: int) | Str(s: string) | Links(urls: seq<string>)

  /** A decoded JSON object (a Python dict). */
  type Object = map<string, Value>

  /** The exceptions that end the processing of one id. */
  datatype Error =
    | NetworkError(url: string)   // whatever `fetch` raises: transport or decoding
    | KeyError(key: string)       // `d[key]` on a missing key
    | TypeError(key: string)      // a value of the wrong JSON type under `key`
    | DataError(column: string)   // a query parameter the driver cannot encode
    | InterfaceError(expected: nat, passed: nat)  // wrong number of query arguments

  /** `await fetch(session, url)`: the decoded object, or the exception raised. */
  type Fetch = string -> Result<Object, Error>

  /** One value per reference category, in the fixed category order. */
  datatype ByCategory<T> = ByCategory(films: T, species: T, starships: T, vehicles: T)

  /** The four reference fields of a character, in category order. */
  const RefKeys: seq<string> := ["films", "species", "starships", "vehicles"]

  /** `f'https://swapi.dev/api/people/{id}/'`. */
  function PeopleUrl(id: nat): string {
    "https://swapi.dev/api/people/" + NatToString(id) + "/"
  }

  /** `character_data[key]`, taken as a list of URLs. */
  function RefUrls(character: Object, key: string): Result<seq<string>, Error> {
    if key !in character then Failure(KeyError(key))
    else match character[key]
      case Links(urls) => Success(urls)
      case _ => Failure(TypeError(key))
  }

  /** `[u for u in urls if 'name' in u]`: a test on the URL text itself. */
  function KeepNamed(urls: seq<string>): seq<string> {
    if |urls| == 0 then []
    else (if Contains(urls[0], "name") then [urls[0]] else []) + KeepNamed(urls[1..])
  }

  /** Every kept URL contains `"name"`, and each URL that does is kept as
      many times as it occurs; no other URL is kept. */
  lemma {:induction false} KeepNamedSound(urls: seq<string>)
    ensures forall i :: 0 <= i < |KeepNamed(urls)| ==> Contains(KeepNamed(urls)[i], "name")
    ensures forall u :: multiset(KeepNamed(urls))[u] ==
                        if Contains(u, "name") then multiset(urls)[u] else 0
  {
    if |urls| > 0 {
      KeepNamedSound(urls[1..]);
      assert urls == [urls[0]] + urls[1..];
    }
  }

  /** Filtering a concatenation filters each part and keeps their order. */
  lemma {:induction false} KeepNamedAppend(a: seq<string>, b: seq<string>)
    ensures KeepNamed(a + b) == KeepNamed(a) + KeepNamed(b)
  {
    if |a| > 0 {
      assert (a + b)[0] == a[0];
      assert (a + b)[1..] == a[1..] + b;
      KeepNamedAppend(a[1..], b);
      var h := if Contains(a[0], "name") then [a[0]] else [];
      assert KeepNamed(a + b) == h + KeepNamed(a[1..] + b);
      assert KeepNamed(a) == h + KeepNamed(a[1..]);
    } else {
      assert a + b == b;
    }
  }

  /** A list whose every URL contains `"name"` is kept whole, in order. */
  lemma {:induction false} KeepNamedAll(urls: seq<string>)
    requires forall i :: 0 <= i < |urls| ==> Contains(urls[i], "name")
    ensures KeepNamed(urls) == urls
  {
    if |urls| > 0 {
      KeepNamedAll(urls[1..]);
    }
  }

  /** The task lists of lines 37-40: every film URL, and of the other three
      categories only the URLs whose text contains `"name"`. */
  function TaskLists(character: Object): Result<ByCategory<seq<string>>, Error> {
    var films :- RefUrls(character, "films");
    var species :- RefUrls(character, "species");
    var starships :- RefUrls(character, "starships");
    var vehicles :- RefUrls(character, "vehicles");
    Success(ByCategory(films, KeepNamed(species), KeepNamed(starships), KeepNamed(vehicles)))
  }

  /** The combined task sequence: film tasks, then species, starships, vehicles. */
  function AllTasks(t: ByCategory<seq<string>>): seq<string> {
    t.films + t.species + t.starships + t.vehicles
  }

  /** `await asyncio.gather(*tasks)`: the fetched objects in task order, or a
      failure as soon as one fetch fails (the whole batch fails with it). */
  function Gather(fetch: Fetch, tasks: seq<string>): (r: Result<seq<Object>, Error>)
    ensures r.Success? <==> forall i :: 0 <= i < |tasks| ==> fetch(tasks[i]).Success?
    ensures r.Success? ==>
      |r.value| == |tasks| && forall i :: 0 <= i < |tasks| ==> r.value[i] == fetch(tasks[i]).value
    ensures r.Failure? ==> exists i :: 0 <= i < |tasks| && fetch(tasks[i]) == Failure(r.error)
  {
    if |tasks| == 0 then Success([])
    else
      var first :- fetch(tasks[0]);
      var rest :- Gather(fetch, tasks[1..]);
      Success([first] + rest)
  }

  /** Python's `s[lo:hi]` for non-negative bounds: both are clamped to
      `len(s)`, and the slice is empty when `lo >= hi`. */
  function PySlice<T>(s: seq<T>, lo: nat, hi: nat): seq<T> {
    var a := if lo < |s| then lo else |s|;
    var b := if hi < |s| then hi else |s|;
    if a < b then s[a..b] else []
  }

  /** Lines 49-52: the four category slices of the gathered results, cut at
      `f`, `f + s` and `f + s + k`. */
  function Slices<T>(g: seq<T>, f: nat, s: nat, k: nat): ByCategory<seq<T>> {
    ByCategory(PySlice(g, 0, f), PySlice(g, f, f + s), PySlice(g, f + s, f + s + k),
               PySlice(g, f + s + k, |g|))
  }

  lemma PySliceSplit<T>(g: seq<T>, lo: nat, mid: nat, hi: nat)
    requires lo <= mid <= hi
    ensures PySlice(g, lo, mid) + PySlice(g, mid, hi) == PySlice(g, lo, hi)
  {
    var a := if lo < |g| then lo else |g|;
    var m := if mid < |g| then mid else |g|;
    var b := if hi < |g| then hi else |g|;
    assert a <= m <= b;
    if a < m && m < b {
      assert g[a..m] + g[m..b] == g[a..b];
    }
  }

  lemma PySliceWhole<T>(g: seq<T>, hi: nat)
    requires |g| <= hi
    ensures PySlice(g, 0, hi) == g
  {
    assert g[0..|g|] == g;
  }

  /** Whatever the offsets, the four slices put back together are exactly
      the gathered sequence: nothing lost, nothing duplicated. */
  lemma SlicesTile<T>(g: seq<T>, f: nat, s: nat, k: nat)
    ensures var sl := Slices(g, f, s, k); sl.films + sl.species + sl.starships + sl.vehicles == g
  {
    var sl := Slices(g, f, s, k);
    var m := f + s + k;
    PySliceSplit(g, 0, f, f + s);
    PySliceSplit(g, 0, f + s, m);
    assert sl.films + sl.species + sl.starships == PySlice(g, 0, m);
    if m <= |g| {
      PySliceSplit(g, 0, m, |g|);
    } else {
      PySliceWhole(g, m);
      assert sl.vehicles == [];
    }
    PySliceWhole(g, |g|);
  }

  /** Cut at the true per-category counts, the slices are the categories'
      own results. */
  lemma SlicesExact<T>(a: seq<T>, b: seq<T>, c: seq<T>, d: seq<T>)
    ensures Slices(a + b + c + d, |a|, |b|, |c|) == ByCategory(a, b, c, d)
  {
    var g := a + b + c + d;
    var i, j, k := |a|, |a| + |b|, |a| + |b| + |c|;
    assert g[0..i] == a;
    assert g[i..j] == b;
    assert g[j..k] == c;
    assert g[k..|g|] == d;
    assert PySlice(g, 0, i) == a;
    assert PySlice(g, i, j) == b;
    assert PySlice(g, j, k) == c;
    assert PySlice(g, k, |g|) == d;
  }

  /** Cut with a films count equal to the whole length, the films slice is
      everything and the other three are empty. */
  lemma SlicesCollapse<T>(g: seq<T>, s: nat, k: nat)
    ensures Slices(g, |g|, s, k) == ByCategory(g, [], [], [])
  {
    assert g[0..|g|] == g;
  }

  /** The display value an object contributes: none when it lacks `key`, a
      `TypeError` when the value is not a string (`', '.join` rejects it). */
  function Shown(o: Object, key: string): Result<seq<string>, Error> {
    if key !in o then Success([])
    else match o[key]
      case Str(t) => Success([t])
      case _ => Failure(TypeError(key))
  }

  /** `[o[key] for o in objs if key in o]`, as `', '.join` receives it. */
  function DisplayNames(objs: seq<Object>, key: string): (r: Result<seq<string>, Error>)
    ensures r.Success? <==> forall i :: 0 <= i < |objs| && key in objs[i] ==> objs[i][key].Str?
    ensures r.Success? ==> |r.value| <= |objs|
    ensures r.Failure? ==> r.error == TypeError(key)
  {
    if |objs| == 0 then Success([])
    else
      var head :- Shown(objs[0], key);
      var rest :- DisplayNames(objs[1..], key);
      Success(head + rest)
  }

  /** The names of a concatenation are the names of each part, in order. */
  lemma {:induction false} DisplayNamesAppend(a: seq<Object>, b: seq<Object>, key: string)
    ensures DisplayNames(a + b, key).Success? <==>
            DisplayNames(a, key).Success? && DisplayNames(b, key).Success?
    ensures DisplayNames(a + b, key).Success? ==>
            DisplayNames(a + b, key).value == DisplayNames(a, key).value + DisplayNames(b, key).value
  {
    if |a| > 0 {
      assert (a + b)[1..] == a[1..] + b;
      assert (a + b)[0] == a[0];
      DisplayNamesAppend(a[1..], b, key);
      var head := Shown(a[0], key);
      if head.Success? {
        assert DisplayNames(a + b, key) ==
          (var rest :- DisplayNames(a[1..] + b, key); Success(head.value + rest));
        assert DisplayNames(a, key) ==
          (var rest :- DisplayNames(a[1..], key); Success(head.value + rest));
      }
    } else {
      assert a + b == b;
    }
  }

  /** `', '.join(display names of objs)` as the new field value. */
  function JoinedField(objs: seq<Object>, key: string): Result<Value, Error> {
    var names :- DisplayNames(objs, key);
    Success(Str(Join(names, ", ")))
  }

  /** `', '.join(...) if objs else None`. */
  function OptionalField(objs: seq<Object>, key: string): Result<Value, Error> {
    if |objs| == 0 then Success(Null) else JoinedField(objs, key)
  }

  lemma DisplayNamesSingle(o: Object, key: string)
    ensures DisplayNames([o], key) == Shown(o, key)
  {
    assert [o][1..] == [];
    var h := Shown(o, key);
    if h.Success? {
      assert h.value + [] == h.value;
    }
  }

  /** An object lacking the display key adds no token and no separator. */
  lemma JoinedFieldSkipsMissing(objs: seq<Object>, o: Object, key: string)
    requires key !in o
    ensures JoinedField(objs + [o], key) == JoinedField(objs, key)
  {
    DisplayNamesAppend(objs, [o], key);
    DisplayNamesSingle(o, key);
    var d := DisplayNames(objs, key);
    if d.Success? {
      assert d.value + [] == d.value;
    }
  }

  /** An object carrying a string display value adds exactly `", "` and that
      value, or just the value when it is the first name. */
  lemma JoinedFieldAddsName(objs: seq<Object>, o: Object, key: string)
    requires JoinedField(objs, key).Success?
    requires key in o && o[key].Str?
    ensures JoinedField(objs + [o], key) ==
      if DisplayNames(objs, key).value == [] then Success(Str(o[key].s))
      else Success(Str(JoinedField(objs, key).value.s + ", " + o[key].s))
  {
    DisplayNamesAppend(objs, [o], key);
    DisplayNamesSingle(o, key);
    var names := DisplayNames(objs, key).value;
    if names != [] {
      JoinSnoc(names, o[key].s, ", ");
    }
  }

  /** With no object carrying the key the joined field is the empty string,
      never `None`. */
  lemma {:induction false} JoinedFieldNoKey(objs: seq<Object>, key: string)
    requires forall i :: 0 <= i < |objs| ==> key !in objs[i]
    ensures JoinedField(objs, key) == Success(Str(""))
  {
    if |objs| > 0 {
      JoinedFieldNoKey(objs[1..], key);
    }
  }

  /** Lines 54-57: the character with its four reference fields replaced. */
  function Flatten(character: Object, sl: ByCategory<seq<Object>>): (r: Result<Object, Error>)
    ensures r.Success? ==> r.value.Keys == character.Keys + {"films", "species", "starships", "vehicles"}
    ensures r.Success? ==>
      forall k :: k in character && k !in RefKeys ==> r.value[k] == character[k]
    ensures r.Success? <==>
      && DisplayNames(sl.films, "title").Success?
      && (sl.species == [] || DisplayNames(sl.species, "name").Success?)
      && (sl.starships == [] || DisplayNames(sl.starships, "name").Success?)
      && (sl.vehicles == [] || DisplayNames(sl.vehicles, "name").Success?)
    ensures r.Failure? ==>
      r.error == if DisplayNames(sl.films, "title").Failure? then TypeError("title") else TypeError("name")
    ensures r.Success? ==> r.value["films"] == Str(Join(DisplayNames(sl.films, "title").value, ", "))
    ensures r.Success? ==> (r.value["species"] == Null <==> sl.species == [])
    ensures r.Success? && sl.species != [] ==>
      r.value["species"] == Str(Join(DisplayNames(sl.species, "name").value, ", "))
    ensures r.Success? ==> (r.value["starships"] == Null <==> sl.starships == [])
    ensures r.Success? && sl.starships != [] ==>
      r.value["starships"] == Str(Join(DisplayNames(sl.starships, "name").value, ", "))
    ensures r.Success? ==> (r.value["vehicles"] == Null <==> sl.vehicles == [])
    ensures r.Success? && sl.vehicles != [] ==>
      r.value["vehicles"] == Str(Join(DisplayNames(sl.vehicles, "name").value, ", "))
  {
    var films :- JoinedField(sl.films, "title");
    var species :- OptionalField(sl.species, "name");
    var starships :- OptionalField(sl.starships, "name");
    var vehicles :- OptionalField(sl.vehicles, "name");
    Success(character["films" := films]["species" := species]
                     ["starships" := starships]["vehicles" := vehicles])
  }

  /** `extract_data(session, id)`. Because `tasks` is the very list object
      `film_tasks`, the films count read at line 49 is the total task count. */
  function Extract(fetch: Fetch, id: nat): Result<Object, Error> {
    var character :- fetch(PeopleUrl(id));
    Enrich(fetch, character)
  }

  /** Lines 37-59 for an already fetched character. */
  function Enrich(fetch: Fetch, character: Object): Result<Object, Error> {
    var t :- TaskLists(character);
    var tasks := AllTasks(t);
    var gathered :- Gather(fetch, tasks);
    Flatten(character, Slices(gathered, |tasks|, |t.species|, |t.starships|))
  }

  /** As written, the species, starships and vehicles fields always come out
      `None`, and the films field joins the titles of every gathered object,
      whatever its category. */
  lemma ExtractCollapses(fetch: Fetch, id: nat)
    requires Extract(fetch, id).Success?
    ensures var character := fetch(PeopleUrl(id)).value;
            var gathered := Gather(fetch, AllTasks(TaskLists(character).value)).value;
            var r := Extract(fetch, id).value;
            && r["species"] == Null && r["starships"] == Null && r["vehicles"] == Null
            && DisplayNames(gathered, "title").Success?
            && r["films"] == Str(Join(DisplayNames(gathered, "title").value, ", "))
  {
    var character := fetch(PeopleUrl(id)).value;
    var t := TaskLists(character).value;
    var gathered := Gather(fetch, AllTasks(t)).value;
    SlicesCollapse(gathered, |t.species|, |t.starships|);
  }

  /** `film_tasks`, the one Python list that `tasks` is bound to as well. */
  class TaskList {
    var urls: seq<string>

    constructor (urls0: seq<string>)
      ensures urls == urls0
    {
      urls := urls0;
    }

    /** `self += more`: extends the list in place. */
    method Extend(more: seq<string>)
      modifies this
      ensures urls == old(urls) + more
    {
      urls := urls + more;
    }
  }

  /** `extract_data`, step by step. */
  method ExtractData(fetch: Fetch, id: nat) returns (r: Result<Object, Error>)
    ensures r == Extract(fetch, id)
  {
    var character :- fetch(PeopleUrl(id));
    r := EnrichData(fetch, character);
  }

  /** Lines 37-59, with `tasks` an alias of `film_tasks`. */
  method EnrichData(fetch: Fetch, character: Object) returns (r: Result<Object, Error>)
    ensures r == Enrich(fetch, character)
  {
    var filmUrls :- RefUrls(character, "films");
    var filmTasks := new TaskList(filmUrls);
    var speciesUrls :- RefUrls(character, "species");
    var speciesTasks := KeepNamed(speciesUrls);
    var starshipUrls :- RefUrls(character, "starships");
    var starshipTasks := KeepNamed(starshipUrls);
    var vehicleUrls :- RefUrls(character, "vehicles");
    var vehicleTasks := KeepNamed(vehicleUrls);

    var tasks := filmTasks;
    if |speciesTasks| > 0 { tasks.Extend(speciesTasks); }
    assert filmTasks.urls == filmUrls + speciesTasks;
    if |starshipTasks| > 0 { tasks.Extend(starshipTasks); }
    assert filmTasks.urls == filmUrls + speciesTasks + starshipTasks;
    if |vehicleTasks| > 0 { tasks.Extend(vehicleTasks); }
    ghost var t := ByCategory(filmUrls, speciesTasks, starshipTasks, vehicleTasks);
    assert TaskLists(character) == Success(t);
    assert filmTasks.urls == AllTasks(t);

    var gathered :- Gather(fetch, tasks.urls);

    r := Normalize(character, gathered, |filmTasks.urls|, |speciesTasks|, |starshipTasks|);
  }

  /** Lines 49-57: slice the gathered objects at the given counts and
      overwrite the four reference fields of `character` one by one. */
  method Normalize(character: Object, gathered: seq<Object>, f: nat, s: nat, k: nat)
    returns (r: Result<Object, Error>)
    ensures r == Flatten(character, Slices(gathered, f, s, k))
  {
    var films := PySlice(gathered, 0, f);
    var species := PySlice(gathered, f, f + s);
    var starships := PySlice(gathered, f + s, f + s + k);
    var vehicles := PySlice(gathered, f + s + k, |gathered|);

    var flat := character;
    var filmsField :- JoinedField(films, "title");
    flat := flat["films" := filmsField];
    var speciesField :- OptionalField(species, "name");
    flat := flat["species" := speciesField];
    var starshipsField :- OptionalField(starships, "name");
    flat := flat["starships" := starshipsField];
    var vehiclesField :- OptionalField(vehicles, "name");
    flat := flat["vehicles" := vehiclesField];
    return Success(flat);
  }

  /** A character with two films, no species, one starship and two vehicles. */
  const Luke: Object := map[
    "name" := Str("Luke Skywalker"),
    "films" := Links(["fA", "fB"]),
    "species" := Links([]),
    "starships" := Links(["nameC"]),
    "vehicles" := Links(["nameD", "vE"])]

  function LukeFetch(url: string): Result<Object, Error> {
    if url == PeopleUrl(1) then Success(Luke)
    else if url == "fA" then Success(map["title" := Str("A New Hope")])
    else if url == "fB" then Success(map["title" := Str("Empire")])
    else if url == "nameC" then Success(map["name" := Str("X-wing")])
    else if url == "nameD" then Success(map["model" := Str("T-47")])
    else if url == "vE" then Success(map["name" := Str("Snowspeeder")])
    else Failure(NetworkError(url))
  }

  /** The objects the worked example's fetch returns for its reference URLs. */
  const LukeRefs: seq<Object> := [
    map["title" := Str("A New Hope")], map["title" := Str("Empire")],
    map["name" := Str("X-wing")], map["model" := Str("T-47")]]

  lemma LukeFilters()
    ensures KeepNamed([]) == [] && KeepNamed(["nameC"]) == ["nameC"]
    ensures KeepNamed(["nameD", "vE"]) == ["nameD"]
  {
    assert Contains("nameC", "name") && Contains("nameD", "name");
    ContainsIff("vE", "name");
    assert ["nameD", "vE"][1..] == ["vE"] && ["vE"][1..] == [] && ["nameC"][1..] == [];
    assert KeepNamed(["vE"]) == [];
  }

  lemma LukeTasks()
    ensures LukeFetch(PeopleUrl(1)) == Success(Luke)
    ensures TaskLists(Luke) == Success(ByCategory(["fA", "fB"], [], ["nameC"], ["nameD"]))
  {
    assert NatToString(1) == "1";
    LukeFilters();
    assert RefUrls(Luke, "films") == Success(["fA", "fB"]);
    assert RefUrls(Luke, "species") == Success([]);
    assert RefUrls(Luke, "starships") == Success(["nameC"]);
    assert RefUrls(Luke, "vehicles") == Success(["nameD", "vE"]);
  }

  lemma LukeGather()
    ensures Gather(LukeFetch, ["fA", "fB", "nameC", "nameD"]) == Success(LukeRefs)
  {
    var g := LukeRefs;
    assert LukeFetch("fA") == Success(g[0]) && LukeFetch("fB") == Success(g[1]);
    assert LukeFetch("nameC") == Success(g[2]) && LukeFetch("nameD") == Success(g[3]);
    assert ["nameD"][1..] == [] && [g[3]] + [] == [g[3]];
    assert Gather(LukeFetch, ["nameD"]) == Success([g[3]]);
    assert ["nameC", "nameD"][1..] == ["nameD"];
    assert [g[2]] + [g[3]] == [g[2], g[3]];
    assert Gather(LukeFetch, ["nameC", "nameD"]) == Success([g[2], g[3]]);
    assert ["fB", "nameC", "nameD"][1..] == ["nameC", "nameD"];
    assert [g[1]] + [g[2], g[3]] == [g[1], g[2], g[3]];
    assert Gather(LukeFetch, ["fB", "nameC", "nameD"]) == Success([g[1], g[2], g[3]]);
    assert [g[0]] + [g[1], g[2], g[3]] == g;
    assert ["fA", "fB", "nameC", "nameD"][1..] == ["fB", "nameC", "nameD"];
    assert g == [g[0], g[1], g[2], g[3]];
  }

  lemma LukeTitles()
    ensures JoinedField(LukeRefs, "title") == Success(Str("A New Hope, Empire"))
  {
    var g := LukeRefs;
    assert g == [g[0], g[1], g[2], g[3]];
    assert [g[1], g[2], g[3]][1..] == [g[2], g[3]];
    assert [g[2], g[3]][1..] == [g[3]];
    assert [g[3]][1..] == [];
    assert g[1..] == [g[1], g[2], g[3]];
    assert Shown(g[0], "title") == Success(["A New Hope"]);
    assert Shown(g[1], "title") == Success(["Empire"]);
    assert Shown(g[2], "title") == Success([]);
    assert Shown(g[3], "title") == Success([]);
    assert DisplayNames([g[3]], "title") == Success([]);
    assert DisplayNames([g[2], g[3]], "title") == Success([]);
    assert ["Empire"] + [] == ["Empire"];
    assert DisplayNames([g[1], g[2], g[3]], "title") == Success(["Empire"]);
    assert ["A New Hope"] + ["Empire"] == ["A New Hope", "Empire"];
    assert DisplayNames(g, "title") == Success(["A New Hope", "Empire"]);
    assert ["A New Hope", "Empire"][1..] == ["Empire"];
    assert Join(["A New Hope", "Empire"], ", ") == "A New Hope, Empire";
  }

  /** The worked example: the starship and the vehicles are lost, the films
      field keeps only the two titles, and `"vE"` is never fetched. */
  lemma LukeScenario()
    ensures Extract(LukeFetch, 1) ==
      Success(Luke["films" := Str("A New Hope, Empire")]["species" := Null]
                  ["starships" := Null]["vehicles" := Null])
  {
    LukeTasks();
    var t := ByCategory(["fA", "fB"], [], ["nameC"], ["nameD"]);
    assert AllTasks(t) == ["fA", "fB", "nameC", "nameD"];
    LukeGather();
    LukeTitles();
    SlicesCollapse(LukeRefs, 0, 1);
  }
}
