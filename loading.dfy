/** The configuration files the programs read. The file system is an oracle:
    a map from (directory, basename) to the parsed contents of that file. A
    file that is absent cannot be opened, which ends the run. */
module Loading {
  import opened Data

  type Files = map<(string, string), Json>

  /** `load_yaml(directory, basename)` of main.py, calcule.py and
      cook-recipes.py, and the file-reading part of `load_json` in prod.py. */
  function Load(files: Files, directory: string, basename: string): (r: Result<Json>)
    ensures r.Ok? <==> basename in Directory(files, directory)
    ensures r.Ok? ==> r.value == Directory(files, directory)[basename]
    ensures r.Err? ==> r.error == NotFound(basename)
  {
    if (directory, basename) in files then Ok(files[(directory, basename)]) else Err(NotFound(basename))
  }

  /** The files of one directory, by basename. */
  function Directory(files: Files, directory: string): (r: map<Name, Json>)
    ensures forall b :: b in r <==> (directory, b) in files
    ensures forall b :: b in r ==> r[b] == files[(directory, b)]
  {
    map b | b in (set p | p in files && p.0 == directory :: p.1) :: files[(directory, b)]
  }

  /** The keys of the items of a mapping. */
  function KeysOf(members: seq<(string, Json)>): set<string> {
    set i | 0 <= i < |members| :: members[i].0
  }

  /** A loaded mapping as a dictionary, for `name in d` and `d[name]`. */
  function AsMap(j: Json, owner: Name): (r: Result<map<Name, Json>>)
    ensures r.Ok? <==> j.Obj?
    ensures r.Ok? ==> forall k :: k in r.value <==> HasKey(j, k)
    ensures r.Ok? ==> forall k :: k in r.value ==> Lookup(j.members, k) == Some(r.value[k])
  {
    if j.Obj? then
      var m := map k | k in KeysOf(j.members) :: Lookup(j.members, k).value;
      assert forall k :: HasKey(j, k) ==> k in KeysOf(j.members) by {
        forall k | HasKey(j, k) ensures k in KeysOf(j.members) {
          var i :| 0 <= i < |j.members| && j.members[i].0 == k;
        }
      }
      Ok(m)
    else Err(WrongType(owner))
  }

  /** What `load_json(directory, basename)` returns from cache contents `c`:
      the cached value when the basename was read before, from whatever
      directory, and the file's contents otherwise. */
  function Cached(c: map<string, Json>, files: Files, directory: string, basename: string): (r: Result<Json>)
    ensures r.Err? <==> basename !in c && basename !in Directory(files, directory)
    ensures r.Err? ==> r.error == NotFound(basename)
    ensures basename in c ==> r == Ok(c[basename])
    ensures r.Ok? && basename !in c ==> r.value == Directory(files, directory)[basename]
  {
    if basename in c then Ok(c[basename]) else Load(files, directory, basename)
  }

  /** The cache contents after that call. */
  function Remember(c: map<string, Json>, files: Files, directory: string, basename: string): (r: map<string, Json>)
    ensures r.Keys == c.Keys + (if Cached(c, files, directory, basename).Ok? then {basename} else {})
    ensures forall b :: b in c ==> r[b] == c[b]
    ensures Cached(c, files, directory, basename).Ok? ==> r[basename] == Cached(c, files, directory, basename).value
  {
    if basename !in c && (directory, basename) in files then c[basename := files[(directory, basename)]] else c
  }

  /** A basename is read at most once: once `load_json` has returned a value
      for it, every later call returns that value from the cache, whatever
      directory it names, and the cache stays as it is. */
  lemma ReadOnce(c: map<string, Json>, files: Files, directory: string, later: string, basename: string)
    requires Cached(c, files, directory, basename).Ok?
    ensures var c' := Remember(c, files, directory, basename);
      && Cached(c', files, later, basename) == Cached(c, files, directory, basename)
      && Remember(c', files, later, basename) == c'
  {
  }

  /** The recipe files as `load_json(directory, ...)` sees them from cache
      contents `c`: a cached basename shadows the file of that directory. */
  function View(c: map<string, Json>, files: Files, directory: string): (r: map<Name, Json>)
    ensures forall b :: b in r <==> b in c || (directory, b) in files
    ensures forall b :: b in r ==> Cached(c, files, directory, b) == Ok(r[b])
    ensures forall b :: b !in r ==> Cached(c, files, directory, b) == Err(NotFound(b))
    ensures forall b :: b in r ==> r[b] == if b in c then c[b] else files[(directory, b)]
  {
    var d := Directory(files, directory);
    map b | b in c.Keys + d.Keys :: if b in c then c[b] else d[b]
  }

  /** Reading from `directory` through the cache does not change what later
      reads from that directory return. */
  lemma ViewRemember(c: map<string, Json>, files: Files, directory: string, basename: string)
    ensures View(Remember(c, files, directory, basename), files, directory) == View(c, files, directory)
  {
  }

  /** The cache of prod.py: `load_json` reads each basename once and remembers it
      under the basename alone. `origin` records the directory a cached value was
      read from. */
  class CacheJson {
    var cache: map<string, Json>
    ghost var origin: map<string, string>
    const files: Files

    /** Every cached value is what its file held. */
    ghost predicate Valid()
      reads this
    {
      && cache.Keys == origin.Keys
      && forall b :: b in cache ==> (origin[b], b) in files && files[(origin[b], b)] == cache[b]
    }

    constructor(files: Files)
      ensures Valid() && cache == map[] && this.files == files
    {
      this.files := files;
      cache := map[];
      origin := map[];
    }

    method LoadJson(directory: string, basename: string) returns (r: Result<Json>)
      requires Valid()
      modifies this
      ensures Valid()
      ensures r == Cached(old(cache), files, directory, basename)
      ensures cache == Remember(old(cache), files, directory, basename)
    {
      if basename !in cache {
        if (directory, basename) !in files {
          return Err(NotFound(basename));
        }
        cache := cache[basename := files[(directory, basename)]];
        origin := origin[basename := directory];
      }
      return Ok(cache[basename]);
    }
  }
}
