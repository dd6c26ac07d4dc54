/**
 * The subcommands of `workdir` that carry decisions: `new` (resolve the
 * template, assemble the extra context with the allocated prefix, hand both
 * to the template renderer), `list`, `add-alias` and `remove-alias`. The
 * renderer, the file system and the terminal are outside the model: what
 * they report comes in as parameters, what is handed to them goes out as
 * results.
 */
module Commands {
  import opened Wrappers
  import opened Prefix
  import opened Config
  import opened ExtraContext
  import opened Listing

  /** The context key under which the allocated prefix reaches the templates. */
  const PrefixKey := "wkdir_prefix"

  /**
   * `_resolve_template` on a loaded configuration: an alias with a non-empty
   * reference wins; then a template listed as "builtin" resolves to its
   * packaged location (`packaged`, computed outside the model); otherwise the
   * name is taken as a path or URL. The listed templates are exactly the
   * aliases, so a name listed as "builtin" is an alias whose reference is the
   * non-empty string "builtin", which the first step already returns. The
   * builtin step can therefore never be reached: the result is the alias
   * reference when there is a non-empty one, and the name otherwise.
   */
  function ResolveTemplate(cfg: ConfigMap, name: string, packaged: string -> string): (ref: string)
    ensures Lookup(cfg, name).Some? && Lookup(cfg, name).value != "" ==> ref == Lookup(cfg, name).value
    ensures Lookup(cfg, name).None? || Lookup(cfg, name).value == "" ==> ref == name
  {
    var aliasRef := Lookup(cfg, name);
    if aliasRef.Some? && aliasRef.value != "" then aliasRef.value
    else
      var builtinMap := AliasesOf(cfg);
      if name in builtinMap && builtinMap[name] == BuiltinTag then packaged(name)
      else name
  }

  /** The packaged-template location never influences the resolved reference. */
  lemma PackagedLocationUnused(cfg: ConfigMap, name: string, packaged1: string -> string, packaged2: string -> string)
    ensures ResolveTemplate(cfg, name, packaged1) == ResolveTemplate(cfg, name, packaged2)
  {
  }

  /** `_resolve_template` against the store: one `get_alias`, then at most one `list_templates`. */
  method Resolve(store: ConfigStore, name: string, packaged: string -> string) returns (ref: string)
    modifies store
    ensures ref == ResolveTemplate(old(store.Contents()), name, packaged)
    ensures store.file == Ensured(old(store.file))
  {
    var aliasRef := store.GetAlias(name);
    if aliasRef.Some? && aliasRef.value != "" {
      return aliasRef.value;
    }
    var builtinMap := store.ListTemplates();
    if name in builtinMap && builtinMap[name] == BuiltinTag {
      return packaged(name);
    }
    return name;
  }

  /**
   * The extra context handed to the renderer: the parsed options, plus the
   * allocated prefix under `wkdir_prefix` unless an option already set it.
   */
  function RenderContext(items: Option<seq<string>>, entries: seq<Entry>): (ctx: map<string, string>)
    ensures PrefixKey in ctx
    ensures PrefixKey in Context(items) ==> ctx[PrefixKey] == Context(items)[PrefixKey]
    ensures PrefixKey !in Context(items) ==> ctx[PrefixKey] == NextPrefix(entries)
    ensures forall key :: key != PrefixKey ==>
              (key in ctx <==> key in Context(items)) && (key in ctx ==> ctx[key] == Context(items)[key])
  {
    var parsed := Context(items);
    if PrefixKey in parsed then parsed else parsed[PrefixKey := NextPrefix(entries)]
  }

  /**
   * When an option already sets `wkdir_prefix`, the directory contents play
   * no part: the context is the parsed options, whatever the listing.
   */
  lemma UserPrefixSkipsAllocator(items: Option<seq<string>>, e1: seq<Entry>, e2: seq<Entry>)
    ensures PrefixKey in Context(items) ==> RenderContext(items, e1) == Context(items)
    ensures PrefixKey in Context(items) ==> RenderContext(items, e1) == RenderContext(items, e2)
  {
  }

  /** The part of `cmd_new` that builds the context: the allocator runs only when the key is absent. */
  method PrepareContext(items: Option<seq<string>>, entries: seq<Entry>) returns (ctx: map<string, string>)
    ensures ctx == RenderContext(items, entries)
  {
    ctx := ParseExtraContext(items);
    if PrefixKey !in ctx {
      var prefix := NextPrefixFromDirectory(entries);
      ctx := ctx[PrefixKey := prefix];
    }
  }

  /** The arguments of `workdir new`. */
  datatype NewArgs = NewArgs(templateType: string, output: string, useInput: bool, extraContext: Option<seq<string>>)

  /** What the file system reports about the output path: whether it is a directory, and its children. */
  datatype OutputDir = OutputDir(isDir: bool, entries: seq<Entry>)

  /** The call made to the template renderer. */
  datatype RenderRequest = RenderRequest(
    template: string,
    noInput: bool,
    extraContext: map<string, string>,
    outputDir: string,
    overwriteIfExists: bool)

  /**
   * `cmd_new`. Exit code 1, with no template resolved and no renderer call,
   * when the template type is empty or the output is not a directory.
   * Otherwise the renderer is called with the resolved reference, the
   * context, the output directory and overwriting off; the exit code is 1
   * exactly when the renderer fails (`renderFails`).
   */
  method CmdNew(store: ConfigStore, args: NewArgs, output: OutputDir, packaged: string -> string, renderFails: bool)
    returns (code: int, request: Option<RenderRequest>)
    modifies store
    ensures args.templateType == "" || !output.isDir ==>
              code == 1 && request == None && store.file == old(store.file)
    ensures args.templateType != "" && output.isDir ==>
              && request == Some(RenderRequest(
                   ResolveTemplate(old(store.Contents()), args.templateType, packaged),
                   !args.useInput,
                   RenderContext(args.extraContext, output.entries),
                   args.output,
                   false))
              && store.file == Ensured(old(store.file))
              && code == (if renderFails then 1 else 0)
  {
    var tmplName := args.templateType;
    if tmplName == "" {
      return 1, None;
    }
    if !output.isDir {
      return 1, None;
    }
    var templateRef := Resolve(store, tmplName, packaged);
    var extraCtx := PrepareContext(args.extraContext, output.entries);
    request := Some(RenderRequest(templateRef, !args.useInput, extraCtx, args.output, false));
    if renderFails {
      return 1, request;
    }
    return 0, request;
  }

  /** `cmd_list`: the lines printed for the current aliases; always exit code 0. */
  method CmdList(store: ConfigStore) returns (code: int, lines: seq<string>)
    modifies store
    ensures code == 0
    ensures lines == TemplateTable(old(store.Aliases()))
    ensures lines == [] <==> |old(store.Aliases())| == 0
    ensures store.file == Ensured(old(store.file))
  {
    var templates := store.ListTemplates();
    lines := RenderTable(templates);
    return 0, lines;
  }

  /** `cmd_add_alias`: records the alias; always exit code 0. */
  method CmdAddAlias(store: ConfigStore, alias: string, ref: string) returns (code: int)
    modifies store
    ensures code == 0
    ensures store.file == Some(Mapping(WithAlias(old(store.Contents()), alias, ref)))
    ensures store.Aliases() == old(store.Aliases())[alias := ref]
  {
    store.AddAlias(alias, ref);
    return 0;
  }

  /** `cmd_remove_alias`: exit code 0 exactly when the alias existed and was removed, 1 otherwise. */
  method CmdRemoveAlias(store: ConfigStore, alias: string) returns (code: int)
    modifies store
    ensures code == 0 <==> alias in old(store.Aliases())
    ensures code == 0 || code == 1
    ensures code == 0 ==> store.file == Some(Mapping(WithoutAlias(old(store.Contents()), alias)))
    ensures code == 1 ==> store.file == Ensured(old(store.file))
    ensures store.Aliases() == old(store.Aliases()) - {alias}
  {
    var removed := store.RemoveAlias(alias);
    if removed {
      return 0;
    } else {
      return 1;
    }
  }
}
