/**
 * The context manager: a store of project contexts, one JSON file per project id, in
 * front of which sits an in-memory cache.
 *   - Saving stamps the context, raises its version by one and writes it to both.
 *   - Loading answers from the cache when it can and otherwise reads the file into it.
 *   - Deleting removes both.
 *
 * The store directory is the map `disk` from project id to the context its file holds.
 * The cache is the map `cache`. The id derivation (an MD5 digest of the path, cut to 16
 * hex digits) is the parameter `idOf`. The clock is the parameter `now`.
 */
module ContextManager {
  import opened Wrappers
  import opened Values
  import Strings
  import Lists
  import Sorting

  /** `ProjectContext`; the dictionary- and list-valued attributes not named here live in `other`. */
  datatype Context = Context(
    projectId: string,
    projectName: string,
    projectPath: string,
    repositoryUrl: Option<string>,
    analyzedAt: real,
    completionPercentage: real,
    totalFeatures: int,
    completedFeatures: int,
    domainKnowledge: map<string, Value>,
    createdAt: real,
    lastUpdated: real,
    version: int,
    other: map<string, Value>)

  /** The attributes held in `other`; one that was never assigned still has its empty default. */
  const OtherAttributes: set<string> := {
    "codebase_structure", "features_found", "gaps_identified", "industry_standards", "requirements",
    "tech_stack", "dependencies", "database_schema", "api_endpoints", "missing_features"}

  /** A fresh context: version 1, created and updated at `now`, everything else empty. */
  function NewContext(projectId: string, projectName: string, projectPath: string, repositoryUrl: Option<string>, now: real): Context
  {
    Context(projectId, projectName, projectPath, repositoryUrl, 0.0, 0.0, 0, 0, map[], now, now, 1, map[])
  }

  /** Whether `key` names a data attribute of a context (its methods, which `hasattr` also finds, are not among them). */
  predicate IsAttribute(key: string)
  {
    key in {"project_id", "project_name", "project_path", "repository_url", "analyzed_at",
            "completion_percentage", "total_features", "completed_features", "domain_knowledge",
            "created_at", "last_updated", "version"} || key in OtherAttributes
  }

  /**
   * `if hasattr(context, key): setattr(context, key, value)`, for a value of the kind the
   * attribute holds; a key that is not an attribute changes nothing.
   */
  function SetAttribute(c: Context, key: string, v: Value): (r: Context)
    ensures !IsAttribute(key) ==> r == c
    ensures r.version != c.version ==> key == "version"
    ensures r.projectId != c.projectId ==> key == "project_id"
    ensures r.lastUpdated != c.lastUpdated ==> key == "last_updated"
  {
    if key == "project_id" then (if v.Str? then c.(projectId := v.s) else c)
    else if key == "project_name" then (if v.Str? then c.(projectName := v.s) else c)
    else if key == "project_path" then (if v.Str? then c.(projectPath := v.s) else c)
    else if key == "repository_url" then (if AsOptionalString(v).Some? then c.(repositoryUrl := AsOptionalString(v).value) else c)
    else if key == "analyzed_at" then (if AsReal(v).Some? then c.(analyzedAt := AsReal(v).value) else c)
    else if key == "completion_percentage" then (if AsReal(v).Some? then c.(completionPercentage := AsReal(v).value) else c)
    else if key == "total_features" then (if v.Int? then c.(totalFeatures := v.i) else c)
    else if key == "completed_features" then (if v.Int? then c.(completedFeatures := v.i) else c)
    else if key == "domain_knowledge" then (if v.Record? then c.(domainKnowledge := v.fields) else c)
    else if key == "created_at" then (if AsReal(v).Some? then c.(createdAt := AsReal(v).value) else c)
    else if key == "last_updated" then (if AsReal(v).Some? then c.(lastUpdated := AsReal(v).value) else c)
    else if key == "version" then (if v.Int? then c.(version := v.i) else c)
    else if key in OtherAttributes then c.(other := c.other[key := v])
    else c
  }

  /** The updates applied one after another, in dictionary order. */
  function ApplyUpdates(c: Context, updates: seq<(string, Value)>): Context
  {
    if updates == [] then c
    else
      var last := updates[|updates| - 1];
      SetAttribute(ApplyUpdates(c, updates[..|updates| - 1]), last.0, last.1)
  }

  predicate IsAttributeUpdate(u: (string, Value))
  {
    IsAttribute(u.0)
  }

  lemma ApplyUpdatesSnoc(c: Context, updates: seq<(string, Value)>, u: (string, Value))
    ensures ApplyUpdates(c, updates + [u]) == SetAttribute(ApplyUpdates(c, updates), u.0, u.1)
  {
    assert (updates + [u])[..|updates|] == updates;
  }

  /** Keys that are not attributes are skipped: only the known ones take effect. */
  lemma {:induction false} UnknownKeysIgnored(c: Context, updates: seq<(string, Value)>)
    ensures ApplyUpdates(c, updates) == ApplyUpdates(c, Lists.Where(updates, IsAttributeUpdate))
  {
    if updates != [] {
      var init, last := updates[..|updates| - 1], updates[|updates| - 1];
      assert updates == init + [last];
      UnknownKeysIgnored(c, init);
      ApplyUpdatesSnoc(c, init, last);
      var w := Lists.Where(init, IsAttributeUpdate);
      if IsAttributeUpdate(last) {
        assert Lists.Where(updates, IsAttributeUpdate) == w + [last];
        ApplyUpdatesSnoc(c, w, last);
      } else {
        assert Lists.Where(updates, IsAttributeUpdate) == w;
      }
    }
  }

  /**
   * `update_completion`'s percentage: completed over total, times 100, and 0 when the
   * total is not positive.
   */
  function CompletionPercentage(completed: int, total: int): (r: real)
    ensures total <= 0 ==> r == 0.0
    ensures total > 0 ==> r * (total as real) == (completed as real) * 100.0
    ensures 0 <= completed <= total ==> 0.0 <= r <= 100.0
  {
    if total > 0 then (completed as real) / (total as real) * 100.0 else 0.0
  }

  lemma CompletionUpdates(c: Context, completed: int, total: int)
    ensures ApplyUpdates(c, [("completed_features", Int(completed)), ("total_features", Int(total)),
                             ("completion_percentage", Real(CompletionPercentage(completed, total)))])
         == c.(completedFeatures := completed, totalFeatures := total, completionPercentage := CompletionPercentage(completed, total))
  {
    var u := [("completed_features", Int(completed)), ("total_features", Int(total)),
              ("completion_percentage", Real(CompletionPercentage(completed, total)))];
    assert ApplyUpdates(c, []) == c;
    ApplyUpdatesSnoc(c, [], u[0]);
    assert [] + [u[0]] == [u[0]];
    ApplyUpdatesSnoc(c, [u[0]], u[1]);
    assert [u[0]] + [u[1]] == [u[0], u[1]];
    ApplyUpdatesSnoc(c, [u[0], u[1]], u[2]);
    assert [u[0], u[1]] + [u[2]] == u;
  }

  /** One entry of `list_projects`. */
  datatype Summary = Summary(projectId: string, projectName: string, projectPath: string,
                             completionPercentage: real, lastUpdated: real, version: int)

  function SummaryOf(c: Context): Summary
  {
    Summary(c.projectId, c.projectName, c.projectPath, c.completionPercentage, c.lastUpdated, c.version)
  }

  /** The sort key of `list_projects`: most recently updated first. */
  function Recency(s: Summary): real
  {
    -s.lastUpdated
  }

  /** The context a load of `id` finds: the cached one, else the stored one. */
  function Lookup(cache: map<string, Context>, disk: map<string, Context>, id: string): (r: Option<Context>)
    ensures r.Some? <==> id in cache || id in disk
  {
    if id in cache then Some(cache[id]) else if id in disk then Some(disk[id]) else None
  }

  /** The project id a store file name stands for: the name without `.json`. */
  function FileId(name: string): (id: string)
    requires Strings.EndsWith(name, ".json")
    ensures id + ".json" == name
  {
    name[..|name| - 5]
  }

  /** The summaries of the listed store files that load, in listing order. */
  function Listed(cache: map<string, Context>, disk: map<string, Context>, listing: seq<string>): (r: seq<Summary>)
    ensures |r| <= |listing|
  {
    if listing == [] then []
    else
      var rest := Listed(cache, disk, listing[..|listing| - 1]);
      var name := listing[|listing| - 1];
      if Strings.EndsWith(name, ".json") && Lookup(cache, disk, FileId(name)).Some? then
        rest + [SummaryOf(Lookup(cache, disk, FileId(name)).value)]
      else rest
  }

  class Manager {
    const idOf: string -> string
    var cache: map<string, Context>
    var disk: map<string, Context>

    constructor (idOf: string -> string, disk: map<string, Context>)
      ensures this.idOf == idOf && this.disk == disk && cache == map[]
    {
      this.idOf := idOf;
      this.disk := disk;
      cache := map[];
    }

    /** What a load of `id` finds now. */
    function Found(id: string): Option<Context>
      reads this
    {
      Lookup(cache, disk, id)
    }

    /** Writing a context: stamped, one version later, to its file and to the cache. */
    method Save(c: Context, now: real) returns (saved: Context)
      modifies this
      ensures saved == c.(lastUpdated := now, version := c.version + 1)
      ensures disk == old(disk)[c.projectId := saved] && cache == old(cache)[c.projectId := saved]
    {
      saved := c.(lastUpdated := now, version := c.version + 1);
      disk := disk[c.projectId := saved];
      cache := cache[c.projectId := saved];
    }

    /** `save_context` given a context object. */
    method SaveContext(c: Context, now: real) returns (ok: bool, saved: Context)
      modifies this
      ensures ok && saved.version == c.version + 1 && saved.lastUpdated == now
      ensures saved == c.(lastUpdated := now, version := c.version + 1)
      ensures disk == old(disk)[c.projectId := saved] && cache == old(cache)[c.projectId := saved]
      ensures Found(c.projectId) == Some(saved)
    {
      saved := Save(c, now);
      ok := true;
    }

    /** `save_context` given a project id: only a cached context can be saved this way. */
    method SaveContextById(id: string, now: real) returns (ok: bool)
      modifies this
      ensures ok <==> id in old(cache)
      ensures !ok ==> cache == old(cache) && disk == old(disk)
      ensures ok ==> var c := old(cache)[id];
        disk == old(disk)[c.projectId := c.(lastUpdated := now, version := c.version + 1)] &&
        cache == old(cache)[c.projectId := c.(lastUpdated := now, version := c.version + 1)]
    {
      if id !in cache {
        return false;
      }
      var _ := Save(cache[id], now);
      ok := true;
    }

    /** `load_context`: the cached context without reading the file, else the file's, now cached. */
    method LoadContext(id: string) returns (r: Option<Context>)
      modifies this
      ensures r == old(Found(id))
      ensures disk == old(disk)
      ensures id in old(cache) || id !in disk ==> cache == old(cache)
      ensures id !in old(cache) && id in disk ==> cache == old(cache)[id := disk[id]]
      ensures Found(id) == r
    {
      if id in cache {
        return Some(cache[id]);
      }
      if id !in disk {
        return None;
      }
      cache := cache[id := disk[id]];
      r := Some(disk[id]);
    }

    /** `create_context`: a fresh context saved once, so at version 2, and found again by its path. */
    method CreateContext(projectName: string, projectPath: string, repositoryUrl: Option<string>, now: real)
      returns (c: Context)
      modifies this
      ensures c == NewContext(idOf(projectPath), projectName, projectPath, repositoryUrl, now).(version := 2)
      ensures c.version == 2 && c.projectId == idOf(projectPath)
      ensures disk == old(disk)[c.projectId := c] && cache == old(cache)[c.projectId := c]
      ensures Found(idOf(projectPath)) == Some(c)
    {
      var initial := NewContext(idOf(projectPath), projectName, projectPath, repositoryUrl, now);
      var _, saved := SaveContext(initial, now);
      c := saved;
    }

    /** `get_project_by_path`: the load of the id the path derives. */
    method GetProjectByPath(projectPath: string) returns (r: Option<Context>)
      modifies this
      ensures r == old(Found(idOf(projectPath)))
      ensures disk == old(disk) && Found(idOf(projectPath)) == r
    {
      r := LoadContext(idOf(projectPath));
    }

    /**
     * `update_context`: False for a context that does not load; otherwise the attributes
     * are assigned and the context saved. The cache keeps it under the id it was loaded
     * by as well, since that entry is the same object.
     */
    method UpdateContext(id: string, updates: seq<(string, Value)>, now: real) returns (ok: bool)
      modifies this
      ensures ok <==> old(Found(id)).Some?
      ensures !ok ==> cache == old(cache) && disk == old(disk)
      ensures ok ==> var u := ApplyUpdates(old(Found(id)).value, updates);
        var saved := u.(lastUpdated := now, version := u.version + 1);
        disk == old(disk)[u.projectId := saved] &&
        cache == old(cache)[id := saved][u.projectId := saved]
    {
      var found := LoadContext(id);
      if found.None? {
        return false;
      }
      var c := found.value;
      for i := 0 to |updates|
        invariant c == ApplyUpdates(found.value, updates[..i])
      {
        assert updates[..i + 1][..i] == updates[..i];
        c := SetAttribute(c, updates[i].0, updates[i].1);
      }
      assert updates[..|updates|] == updates;
      var saved := Save(c, now);
      cache := cache[id := saved][c.projectId := saved];
      ok := true;
    }

    /** `update_completion`: the two counts and the percentage they give. */
    method UpdateCompletion(id: string, completed: int, total: int, now: real) returns (ok: bool)
      modifies this
      ensures ok <==> old(Found(id)).Some?
      ensures !ok ==> cache == old(cache) && disk == old(disk)
      ensures ok ==> var c := old(Found(id)).value;
        var saved := c.(completedFeatures := completed, totalFeatures := total,
                        completionPercentage := CompletionPercentage(completed, total),
                        lastUpdated := now, version := c.version + 1);
        disk == old(disk)[c.projectId := saved] && cache == old(cache)[id := saved][c.projectId := saved]
    {
      if old(Found(id)).Some? {
        CompletionUpdates(Found(id).value, completed, total);
      }
      ok := UpdateContext(id, [("completed_features", Int(completed)), ("total_features", Int(total)),
                               ("completion_percentage", Real(CompletionPercentage(completed, total)))], now);
    }

    /** `update_analysis`: the analysis time and the three analysis results. */
    method UpdateAnalysis(id: string, structure: Value, featuresFound: Value, gapsIdentified: Value, now: real)
      returns (ok: bool)
      modifies this
      ensures ok <==> old(Found(id)).Some?
      ensures !ok ==> cache == old(cache) && disk == old(disk)
      ensures ok ==> var u := ApplyUpdates(old(Found(id)).value,
          [("analyzed_at", Real(now)), ("codebase_structure", structure),
           ("features_found", featuresFound), ("gaps_identified", gapsIdentified)]);
        disk == old(disk)[u.projectId := u.(lastUpdated := now, version := u.version + 1)]
    {
      ok := UpdateContext(id, [("analyzed_at", Real(now)), ("codebase_structure", structure),
                               ("features_found", featuresFound), ("gaps_identified", gapsIdentified)], now);
    }

    /** `add_domain_knowledge`: one entry of the domain knowledge set, then saved. */
    method AddDomainKnowledge(id: string, knowledgeType: string, knowledge: Value, now: real) returns (ok: bool)
      modifies this
      ensures ok <==> old(Found(id)).Some?
      ensures !ok ==> cache == old(cache) && disk == old(disk)
      ensures ok ==> var c := old(Found(id)).value;
        var saved := c.(domainKnowledge := c.domainKnowledge[knowledgeType := knowledge],
                        lastUpdated := now, version := c.version + 1);
        disk == old(disk)[c.projectId := saved] && cache == old(cache)[id := saved][c.projectId := saved]
    {
      var found := LoadContext(id);
      if found.None? {
        return false;
      }
      var c := found.value;
      c := c.(domainKnowledge := c.domainKnowledge[knowledgeType := knowledge]);
      var saved := Save(c, now);
      cache := cache[id := saved][c.projectId := saved];
      ok := true;
    }

    /** `delete_context`: the file and the cache entry go; nothing is found under the id afterwards. */
    method DeleteContext(id: string) returns (ok: bool)
      modifies this
      ensures ok
      ensures disk == old(disk) - {id} && cache == old(cache) - {id}
      ensures Found(id) == None
    {
      disk := disk - {id};
      cache := cache - {id};
      ok := true;
    }

    /**
     * `list_projects` over the store directory `listing`: a summary per listed file that
     * loads, most recently updated first, ties in listing order.
     */
    method ListProjects(listing: seq<string>) returns (r: seq<Summary>)
      modifies this
      ensures disk == old(disk)
      ensures r == Sorting.SortBy(Listed(old(cache), old(disk), listing), Recency)
      ensures Sorting.SortedBy(r, Recency) && |r| == |Listed(old(cache), old(disk), listing)|
    {
      var projects: seq<Summary> := [];
      for i := 0 to |listing|
        invariant disk == old(disk)
        invariant forall id :: Lookup(cache, disk, id) == Lookup(old(cache), old(disk), id)
        invariant projects == Listed(old(cache), old(disk), listing[..i])
      {
        assert listing[..i + 1][..i] == listing[..i];
        var name := listing[i];
        if Strings.EndsWith(name, ".json") {
          var loaded := LoadContext(FileId(name));
          if loaded.Some? {
            projects := projects + [SummaryOf(loaded.value)];
          }
        }
      }
      assert listing[..|listing|] == listing;
      r := Sorting.SortBy(projects, Recency);
    }
  }
}
