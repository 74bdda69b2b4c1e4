/**
 * The FastAPI model registry (fastapi_backend/models_manager.py): a Python
 * dict from model name to configuration dict.  Configurations are objects
 * the caller keeps references to, so `Config` is a class, and the dict's key
 * order (insertion order) is kept as `names`.
 */
module ModelsManager {
  import opened Tables

  /** A value stored in a configuration dict. */
  datatype Setting = Flag(b: bool) | Text(s: string) | Number(n: int)

  /** Key set by `activate_model` / `deactivate_model`. */
  const ActiveKey: string := "active"

  /** A configuration dict; callers may keep and later read the same object. */
  class Config {
    var fields: map<string, Setting>

    constructor (fields: map<string, Setting>)
      ensures this.fields == fields
    {
      this.fields := fields;
    }
  }

  class ModelManager {
    var models: map<string, Config>
    /** The dict's keys in insertion order. */
    var names: seq<string>

    /** `names` lists every key of `models` exactly once. */
    predicate Valid()
      reads this
    {
      models.Keys == (set n | n in names) && Distinct(names)
    }

    constructor ()
      ensures models == map[] && names == []
      ensures Valid()
    {
      models := map[];
      names := [];
    }

    /**
     * `add_model`: stores the caller's config object itself under `name`,
     * replacing an earlier one; a new name goes last, a re-added name keeps
     * its place.
     */
    method AddModel(name: string, config: Config)
      requires Valid()
      modifies this
      ensures Valid()
      ensures models == old(models)[name := config]
      ensures names == if name in old(models) then old(names) else old(names) + [name]
    {
      if name !in models {
        names := names + [name];
      }
      models := models[name := config];
    }

    /** `get_model`: the stored object for a known name, a new empty dict otherwise. */
    method GetModel(name: string) returns (c: Config)
      ensures name in models ==> c == models[name]
      ensures name !in models ==> fresh(c) && c.fields == map[]
    {
      if name in models {
        c := models[name];
      } else {
        c := new Config(map[]);
      }
    }

    /** `list_models`: every registered name once, in insertion order. */
    method ListModels() returns (ns: seq<string>)
      requires Valid()
      ensures ns == names
      ensures Distinct(ns) && (forall n :: n in ns <==> n in models)
    {
      ns := names;
    }

    /**
     * `activate_model`: sets `active` to true in the config of a known name;
     * nothing else is written, and an unknown name changes nothing.
     */
    method ActivateModel(name: string)
      modifies if name in models then {models[name]} else {}
      ensures name in models ==> models[name].fields == old(models[name].fields)[ActiveKey := Flag(true)]
    {
      if name in models {
        var c := models[name];
        c.fields := c.fields[ActiveKey := Flag(true)];
      }
    }

    /** `deactivate_model`: as `ActivateModel`, with false. */
    method DeactivateModel(name: string)
      modifies if name in models then {models[name]} else {}
      ensures name in models ==> models[name].fields == old(models[name].fields)[ActiveKey := Flag(false)]
    {
      if name in models {
        var c := models[name];
        c.fields := c.fields[ActiveKey := Flag(false)];
      }
    }
  }

  /**
   * The registry keeps the caller's dict: activating a model right after
   * adding it is visible through the caller's own reference, and the
   * registry still holds that same object.
   */
  method AddThenActivate(m: ModelManager, name: string, config: Config)
    requires m.Valid()
    modifies m, config
    ensures m.Valid() && m.models == old(m.models)[name := config]
    ensures config.fields == old(config.fields)[ActiveKey := Flag(true)]
  {
    m.AddModel(name, config);
    m.ActivateModel(name);
  }
}
