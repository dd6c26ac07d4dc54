/**
 * The alias store: a configuration file holding, under the top-level key
 * "aliases", a mapping from alias name to template reference. Every
 * operation loads the whole file (creating it empty when it is missing) and
 * the updating ones write the whole mapping back.
 */
module Config {
  import opened Wrappers

  /** Alias name to template reference (a path, URL or repository locator). */
  type AliasMap = map<string, string>

  /** The loaded document: top-level keys, of which "aliases" is the one this tool uses. */
  type ConfigMap = map<string, map<string, string>>

  const AliasesKey := "aliases"

  /** The reference value that marks a name as a builtin template rather than an alias. */
  const BuiltinTag := "builtin"

  /** What the configuration file holds: a document that loads as nothing (empty or null), or a mapping. */
  datatype Document = NullDocument | Mapping(config: ConfigMap)

  /** `yaml.safe_load(f) or {}`: a document that loads as nothing, or as an empty mapping, gives the empty mapping. */
  function Loaded(doc: Document): (cfg: ConfigMap)
    ensures doc.NullDocument? ==> cfg == map[]
    ensures doc.Mapping? ==> cfg == doc.config
  {
    match doc
    case NullDocument => map[]
    case Mapping(config) => config
  }

  /** The file after `_ensure_config_file`: a missing file is created holding `{}`. */
  function Ensured(file: Option<Document>): (f: Option<Document>)
    ensures f.Some?
    ensures file.None? ==> f == Some(Mapping(map[]))
    ensures file.Some? ==> f == file
  {
    if file.None? then Some(Mapping(map[])) else file
  }

  /** `cfg.get("aliases", {})`. */
  function AliasesOf(cfg: ConfigMap): AliasMap {
    if AliasesKey in cfg then cfg[AliasesKey] else map[]
  }

  /** The reference stored for `name`, or `None` when there is no such alias. */
  function Lookup(cfg: ConfigMap, name: string): (r: Option<string>)
    ensures r.Some? <==> AliasesKey in cfg && name in cfg[AliasesKey]
    ensures r.Some? ==> r.value == cfg[AliasesKey][name]
  {
    var aliases := AliasesOf(cfg);
    if name in aliases then Some(aliases[name]) else None
  }

  /** The document after `add_alias(name, ref)`: the alias mapping, created if absent, maps `name` to `ref`. */
  function WithAlias(cfg: ConfigMap, name: string, ref: string): ConfigMap {
    cfg[AliasesKey := AliasesOf(cfg)[name := ref]]
  }

  /** The document after `remove_alias(name)` removed a present alias. */
  function WithoutAlias(cfg: ConfigMap, name: string): ConfigMap
    requires name in AliasesOf(cfg)
  {
    cfg[AliasesKey := AliasesOf(cfg) - {name}]
  }

  /**
   * `list_templates`: the loop that copies the alias mapping entry by entry
   * into a fresh result. Nothing but the aliases is added.
   */
  method CopyAliases(aliases: AliasMap) returns (result: AliasMap)
    ensures result == aliases
  {
    result := map[];
    var todo := aliases.Keys;
    while todo != {}
      invariant todo <= aliases.Keys
      invariant result.Keys == aliases.Keys - todo
      invariant forall name :: name in result ==> result[name] == aliases[name]
      decreases |todo|
    {
      var name :| name in todo;
      result := result[name := aliases[name]];
      todo := todo - {name};
    }
  }

  /**
   * The configuration file of one user. `file` is `None` while the file does
   * not exist; every load goes through `Ensured` first.
   */
  class ConfigStore {
    var file: Option<Document>

    constructor (file: Option<Document>)
      ensures this.file == file
    {
      this.file := file;
    }

    /** The configuration a load would return now. */
    function Contents(): ConfigMap
      reads this
    {
      match file
      case None => map[]
      case Some(doc) => Loaded(doc)
    }

    /** The alias mapping a load would return now. */
    function Aliases(): AliasMap
      reads this
    {
      AliasesOf(Contents())
    }

    /** `_ensure_config_file`: creates the file holding `{}` when it is missing. */
    method EnsureConfigFile()
      modifies this
      ensures file == Ensured(old(file))
      ensures Contents() == old(Contents())
    {
      if file.None? {
        SaveConfig(map[]);
      }
    }

    /** `load_config`: the whole document, an empty one read as `{}`. */
    method LoadConfig() returns (cfg: ConfigMap)
      modifies this
      ensures file == Ensured(old(file))
      ensures cfg == old(Contents())
    {
      EnsureConfigFile();
      cfg := Loaded(file.value);
    }

    /** `save_config`: the file is overwritten with the whole document. */
    method SaveConfig(cfg: ConfigMap)
      modifies this
      ensures file == Some(Mapping(cfg))
      ensures Contents() == cfg
    {
      file := Some(Mapping(cfg));
    }

    /**
     * `add_alias`: upsert, last write wins. The alias mapping is created when
     * absent; every other alias and every other top-level key is kept.
     */
    method AddAlias(name: string, ref: string)
      modifies this
      ensures file == Some(Mapping(WithAlias(old(Contents()), name, ref)))
      ensures Aliases() == old(Aliases())[name := ref]
      ensures Lookup(Contents(), name) == Some(ref)
      ensures forall key :: key != AliasesKey ==>
                (key in Contents() <==> key in old(Contents())) &&
                (key in Contents() ==> Contents()[key] == old(Contents())[key])
    {
      var cfg := LoadConfig();
      var aliases := AliasesOf(cfg);
      aliases := aliases[name := ref];
      cfg := cfg[AliasesKey := aliases];
      SaveConfig(cfg);
    }

    /**
     * `remove_alias`: true exactly when `name` was an alias; then it is deleted
     * and the document saved. Otherwise nothing is saved and the file is only
     * created if it was missing.
     */
    method RemoveAlias(name: string) returns (removed: bool)
      modifies this
      ensures removed <==> name in old(Aliases())
      ensures removed ==> file == Some(Mapping(WithoutAlias(old(Contents()), name)))
      ensures !removed ==> file == Ensured(old(file))
      ensures Aliases() == old(Aliases()) - {name}
      ensures Lookup(Contents(), name) == None
      ensures forall key :: key != AliasesKey ==>
                (key in Contents() <==> key in old(Contents())) &&
                (key in Contents() ==> Contents()[key] == old(Contents())[key])
    {
      var cfg := LoadConfig();
      var aliases := AliasesOf(cfg);
      if name in aliases {
        aliases := aliases - {name};
        cfg := cfg[AliasesKey := aliases];
        SaveConfig(cfg);
        return true;
      }
      assert old(Aliases()) - {name} == old(Aliases());
      return false;
    }

    /** `get_alias`: the stored reference, `None` without an alias mapping or without the name. */
    method GetAlias(name: string) returns (r: Option<string>)
      modifies this
      ensures file == Ensured(old(file))
      ensures r == Lookup(old(Contents()), name)
      ensures r.Some? <==> name in old(Aliases())
    {
      var cfg := LoadConfig();
      var aliases := AliasesOf(cfg);
      r := if name in aliases then Some(aliases[name]) else None;
    }

    /** `list_templates`: a copy of the alias mapping, nothing else. */
    method ListTemplates() returns (result: AliasMap)
      modifies this
      ensures file == Ensured(old(file))
      ensures result == old(Aliases())
    {
      var cfg := LoadConfig();
      result := CopyAliases(AliasesOf(cfg));
    }
  }

  // ---------------------------------------------------------------------
  // Properties of the stored document across operations
  // ---------------------------------------------------------------------

  /** After `add_alias(name, ref)`, `get_alias(name)` is `ref`, and every other name reads as before. */
  lemma GetAfterAdd(cfg: ConfigMap, name: string, ref: string, other: string)
    ensures Lookup(WithAlias(cfg, name, ref), name) == Some(ref)
    ensures other != name ==> Lookup(WithAlias(cfg, name, ref), other) == Lookup(cfg, other)
  {
  }

  /** Adding the same pair twice leaves what adding it once leaves; a later reference replaces an earlier one. */
  lemma AddIdempotentLastWriteWins(cfg: ConfigMap, name: string, ref1: string, ref2: string)
    ensures WithAlias(WithAlias(cfg, name, ref1), name, ref1) == WithAlias(cfg, name, ref1)
    ensures WithAlias(WithAlias(cfg, name, ref1), name, ref2) == WithAlias(cfg, name, ref2)
  {
    var once := WithAlias(cfg, name, ref1);
    assert AliasesOf(once) == AliasesOf(cfg)[name := ref1];
    assert AliasesOf(once)[name := ref1] == AliasesOf(cfg)[name := ref1];
    assert AliasesOf(once)[name := ref2] == AliasesOf(cfg)[name := ref2];
  }

  /** After `remove_alias(name)`, `get_alias(name)` is absent, and every other name reads as before. */
  lemma GetAfterRemove(cfg: ConfigMap, name: string, other: string)
    requires name in AliasesOf(cfg)
    ensures Lookup(WithoutAlias(cfg, name), name) == None
    ensures other != name ==> Lookup(WithoutAlias(cfg, name), other) == Lookup(cfg, other)
  {
  }

  /** Removing an alias that was just added under a new name restores the alias mapping. */
  lemma RemoveUndoesAdd(cfg: ConfigMap, name: string, ref: string)
    requires name !in AliasesOf(cfg)
    ensures AliasesOf(WithoutAlias(WithAlias(cfg, name, ref), name)) == AliasesOf(cfg)
  {
  }

  /** A store used by two `add_alias` calls with distinct names lists both, each with its own reference. */
  method AddTwiceThenList(store: ConfigStore, a: string, refA: string, b: string, refB: string)
    returns (listed: AliasMap)
    requires a != b
    modifies store
    ensures listed == old(store.Aliases())[a := refA][b := refB]
    ensures a in listed && listed[a] == refA && b in listed && listed[b] == refB
  {
    store.AddAlias(a, refA);
    store.AddAlias(b, refB);
    listed := store.ListTemplates();
  }
}
