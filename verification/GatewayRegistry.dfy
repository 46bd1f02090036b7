/**
  The agent registry of the gateway: the dictionaries of pools, descriptions and metadata, the list
  of runtime definitions, and the file that list is saved to.
 */
module GatewayRegistry {
  import opened TextTools

  datatype Option<T> = None | Some(value: T)

  /** Routing tags arrive as a list or, from a model, as one comma-separated text. */
  datatype Tags = TagList(tags: seq<string>) | TagText(text: string)

  datatype Def = Def(name: string, description: string, systemPrompt: string, instructions: string, tags: seq<string>, tools: seq<string>)

  datatype Owner = RuntimeOwned | ConfigOwned | DomainOwned

  datatype Meta = Meta(tags: seq<string>, domain: string, owner: Owner, visibility: string)

  /** What a pool's agent was built from. */
  datatype Pool = Pool(description: string, systemPrompt: string, instructions: string, tools: seq<string>)

  // ------------------------------------------------------------------ tags

  function CommaParts(s: string): (r: seq<string>)
    ensures r != []
  {
    if s == "" then [""]
    else if s[0] == ',' then [""] + CommaParts(s[1..])
    else
      var rest := CommaParts(s[1..]);
      [[s[0]] + rest[0]] + rest[1..]
  }

  function NonBlank(parts: seq<string>): seq<string> {
    if parts == [] then []
    else (if Strip(parts[0]) != "" then [Strip(parts[0])] else []) + NonBlank(parts[1..])
  }

  function TagsOf(t: Tags): seq<string> {
    match t
    case TagList(tags) => tags
    case TagText(s) => NonBlank(CommaParts(s))
  }

  /** Trimmed, non-blank tags, each where it first occurs. */
  function Normalized(tags: seq<string>, seen: set<string>): seq<string> {
    if tags == [] then []
    else
      var val := Strip(tags[0]);
      if val != "" && val !in seen then [val] + Normalized(tags[1..], seen + {val})
      else Normalized(tags[1..], seen)
  }

  predicate NormalTags(tags: seq<string>) {
    && (forall i :: 0 <= i < |tags| ==> tags[i] != "" && Strip(tags[i]) == tags[i])
    && (forall i, j :: 0 <= i < j < |tags| ==> tags[i] != tags[j])
  }

  lemma {:induction false} NormalizedIsNormal(tags: seq<string>, seen: set<string>)
    ensures NormalTags(Normalized(tags, seen))
    ensures forall i :: 0 <= i < |Normalized(tags, seen)| ==> Normalized(tags, seen)[i] !in seen
  {
    if tags != [] {
      var val := Strip(tags[0]);
      if val != "" && val !in seen {
        NormalizedIsNormal(tags[1..], seen + {val});
        StripIdempotent(tags[0]);
      } else {
        NormalizedIsNormal(tags[1..], seen);
      }
    }
  }

  /** Normalizing keeps normal tags, so doing it twice changes nothing. */
  lemma {:induction false} NormalTagsStay(tags: seq<string>, seen: set<string>)
    requires NormalTags(tags) && forall i :: 0 <= i < |tags| ==> tags[i] !in seen
    ensures Normalized(tags, seen) == tags
  {
    if tags != [] {
      NormalTagsStay(tags[1..], seen + {tags[0]});
      assert tags == [tags[0]] + tags[1..];
    }
  }

  /** Nothing but blanks and repeats is dropped. */
  lemma {:induction false} NormalizedKeeps(tags: seq<string>, seen: set<string>, tag: string)
    requires tag in tags
    ensures Strip(tag) == "" || Strip(tag) in seen || Strip(tag) in Normalized(tags, seen)
  {
    var val := Strip(tags[0]);
    if tag != tags[0] {
      assert tags == [tags[0]] + tags[1..];
      NormalizedKeeps(tags[1..], if val != "" && val !in seen then seen + {val} else seen, tag);
    }
  }

  lemma NormalizedStep(tags: seq<string>, i: nat, seen: set<string>, out: seq<string>)
    requires i < |tags|
    ensures var val := Strip(tags[i]);
            out + Normalized(tags[i..], seen) ==
            if val != "" && val !in seen then out + [val] + Normalized(tags[i + 1..], seen + {val})
            else out + Normalized(tags[i + 1..], seen)
  {
    assert tags[i..][0] == tags[i] && tags[i..][1..] == tags[i + 1..];
  }

  /** `_normalize_tags` */
  method NormalizeTags(t: Tags) returns (out: seq<string>)
    ensures out == Normalized(TagsOf(t), {}) && NormalTags(out)
  {
    var tags := TagsOf(t);
    var seen: set<string> := {};
    out := [];
    for i := 0 to |tags|
      invariant out + Normalized(tags[i..], seen) == Normalized(tags, {})
    {
      NormalizedStep(tags, i, seen, out);
      var val := Strip(tags[i]);
      if val != "" && val !in seen {
        seen := seen + {val};
        out := out + [val];
      }
    }
    NormalizedIsNormal(tags, {});
  }

  // ------------------------------------------------------------------ names

  predicate NameChar(c: char) {
    'A' <= c <= 'Z' || 'a' <= c <= 'z' || '0' <= c <= '9' || c == '_' || c == '.' || c == '-'
  }

  /** `_validate_agent_name` */
  function ValidName(name: string): Option<string> {
    var clean := Strip(name);
    if clean == "" || clean == "default" || exists i :: 0 <= i < |clean| && !NameChar(clean[i]) then None
    else Some(clean)
  }

  // ------------------------------------------------------------------ definitions

  predicate DistinctNames(defs: seq<Def>) {
    forall i, j :: 0 <= i < j < |defs| ==> defs[i].name != defs[j].name
  }

  function DefNames(defs: seq<Def>): set<string> {
    set d | d in defs :: d.name
  }

  function PoolOf(d: Def): Pool {
    Pool(d.description, d.systemPrompt, d.instructions, d.tools)
  }

  function Restored(d: Def): Def {
    d.(tags := Normalized(d.tags, {}))
  }

  /** What loading takes from a file: the first definition of each name that is not taken. */
  function Loaded(defs: seq<Def>, taken: set<string>): seq<Def> {
    if defs == [] then []
    else if defs[0].name in taken then Loaded(defs[1..], taken)
    else [Restored(defs[0])] + Loaded(defs[1..], taken + {defs[0].name})
  }

  predicate NormalDefs(defs: seq<Def>) {
    forall i :: 0 <= i < |defs| ==> NormalTags(defs[i].tags)
  }

  lemma {:induction false} LoadedShorter(defs: seq<Def>, taken: set<string>)
    ensures |Loaded(defs, taken)| <= |defs|
  {
    if defs != [] {
      LoadedShorter(defs[1..], if defs[0].name in taken then taken else taken + {defs[0].name});
    }
  }

  /** Loading gives back what was saved exactly when the names are distinct and none is taken. */
  lemma {:induction false} LoadedIff(defs: seq<Def>, taken: set<string>)
    requires NormalDefs(defs)
    ensures Loaded(defs, taken) == defs <==> DistinctNames(defs) && DefNames(defs) !! taken
  {
    if defs != [] {
      var first, rest := defs[0], defs[1..];
      assert defs == [first] + rest && first in defs;
      assert DistinctNames(defs) <==> DistinctNames(rest) && first.name !in DefNames(rest) by {
        if DistinctNames(rest) && first.name !in DefNames(rest) {
          assert forall j :: 0 < j < |defs| ==> defs[j] == rest[j - 1] && rest[j - 1] in rest;
        }
        if DistinctNames(defs) {
          forall d | d in rest ensures d.name != first.name {
            var j :| 0 <= j < |rest| && rest[j] == d;
            assert defs[j + 1] == d;
          }
        }
      }
      assert DefNames(defs) == {first.name} + DefNames(rest);
      if first.name in taken {
        LoadedShorter(rest, taken);
      } else {
        NormalTagsStay(first.tags, {});
        LoadedIff(rest, taken + {first.name});
        assert Loaded(defs, taken)[1..] == Loaded(rest, taken + {first.name});
      }
    }
  }

  function Without(defs: seq<Def>, name: string): seq<Def> {
    if defs == [] then [] else (if defs[0].name == name then [] else [defs[0]]) + Without(defs[1..], name)
  }

  lemma {:induction false} WithoutIs(defs: seq<Def>, name: string)
    ensures forall d :: d in Without(defs, name) <==> d in defs && d.name != name
    ensures DistinctNames(defs) ==> DistinctNames(Without(defs, name))
    ensures NormalDefs(defs) ==> NormalDefs(Without(defs, name))
  {
    if defs != [] {
      assert defs == [defs[0]] + defs[1..];
      WithoutIs(defs[1..], name);
      var rest := Without(defs[1..], name);
      if DistinctNames(defs) && defs[0].name != name {
        forall j | 0 <= j < |rest| ensures rest[j].name != defs[0].name {
          assert rest[j] in defs[1..];
          var i :| 0 <= i < |defs[1..]| && defs[1..][i] == rest[j];
          assert defs[i + 1] == rest[j];
        }
      }
    }
  }

  function IndexOf(defs: seq<Def>, name: string): (i: int)
    ensures -1 <= i < |defs|
    ensures i >= 0 ==> defs[i].name == name
    ensures i < 0 ==> name !in DefNames(defs)
  {
    if defs == [] then -1
    else if defs[0].name == name then 0
    else
      var i := IndexOf(defs[1..], name);
      assert defs == [defs[0]] + defs[1..];
      if i < 0 then -1 else i + 1
  }

  datatype Outcome = Accepted | Rejected

  class Gateway {
    var pools: map<string, Pool>
    var descriptions: map<string, string>
    var meta: map<string, Meta>
    var runtimeDefs: seq<Def>
    /** The file of dynamic agents, if there is a place for one. */
    const persistent: bool
    var file: Option<seq<Def>>

    /** The three dictionaries have the same keys, "default" among them. */
    ghost predicate Keyed()
      reads this
    {
      && pools.Keys == descriptions.Keys == meta.Keys
      && "default" in meta && meta["default"].owner != DomainOwned
    }

    /** Besides, every runtime definition has a name of its own, is in normal form, and has a live pool
        that was built from it. */
    ghost predicate Valid()
      reads this
    {
      && Keyed()
      && DistinctNames(runtimeDefs) && NormalDefs(runtimeDefs)
      && (forall i :: 0 <= i < |runtimeDefs| ==> Live(runtimeDefs[i]))
    }

    ghost predicate Live(d: Def)
      reads this
    {
      && d.name in pools && d.name in descriptions && d.name in meta && d.name != "default"
      && pools[d.name] == PoolOf(d) && descriptions[d.name] == d.description
      && meta[d.name] == Meta(d.tags, "", RuntimeOwned, "")
    }

    predicate Editable(name: string)
      reads this
    {
      name in DefNames(runtimeDefs)
    }

    /** A domain's agents, and the configured ones, are never editable. */
    lemma OnlyRuntimeIsEditable(name: string)
      requires Valid() && Editable(name)
      ensures name in meta && meta[name].owner == RuntimeOwned && name != "default"
    {
      var d :| d in runtimeDefs && d.name == name;
      assert Live(d);
    }

    /** The configured agents, then those of the file whose names are still free. */
    constructor (configured: seq<(Def, Tags)>, persistent: bool, file: Option<seq<Def>>)
      ensures Valid() && this.persistent == persistent && this.file == file
      ensures runtimeDefs == if persistent && file.Some? then Loaded(file.value, {"default"} + ConfigNames(configured)) else []
      ensures pools.Keys == {"default"} + ConfigNames(configured) + DefNames(runtimeDefs)
    {
      this.persistent, this.file := persistent, file;
      pools := map["default" := Pool("Default agent", "", "", [])];
      descriptions := map["default" := "Default agent"];
      meta := map["default" := Meta([], "", RuntimeOwned, "")];
      runtimeDefs := [];
      new;
      assert pools.Keys == {"default"};
      BuildPools(configured);
      if persistent && file.Some? {
        LoadDynamicAgents(file.value);
      }
    }

    /** `_build_pools` */
    method BuildPools(configured: seq<(Def, Tags)>)
      requires Valid() && runtimeDefs == []
      modifies this`pools, this`descriptions, this`meta
      ensures Valid() && pools.Keys == old(pools.Keys) + ConfigNames(configured)
    {
      for i := 0 to |configured|
        invariant Valid() && pools.Keys == old(pools.Keys) + ConfigNames(configured[..i])
      {
        assert configured[..i + 1] == configured[..i] + [configured[i]];
        ConfigNamesMore(configured[..i], configured[i]);
        BuildOne(configured[i].0, configured[i].1);
      }
      assert configured[..|configured|] == configured;
    }

    method BuildOne(d: Def, tags: Tags)
      requires Valid() && runtimeDefs == []
      modifies this`pools, this`descriptions, this`meta
      ensures Valid() && pools.Keys == old(pools.Keys) + {d.name}
      ensures meta == old(meta)[d.name := Meta(Normalized(TagsOf(tags), {}), "", ConfigOwned, "")]
    {
      var normal := NormalizeTags(tags);
      pools := pools[d.name := PoolOf(d)];
      descriptions := descriptions[d.name := d.description];
      meta := meta[d.name := Meta(normal, "", ConfigOwned, "")];
      assert Keyed();
    }

    static function ConfigNames(configured: seq<(Def, Tags)>): set<string> {
      set c | c in configured :: c.0.name
    }

    static lemma ConfigNamesMore(configured: seq<(Def, Tags)>, c: (Def, Tags))
      ensures ConfigNames(configured + [c]) == ConfigNames(configured) + {c.0.name}
    {
      assert c in configured + [c];
      forall x | x in configured ensures x in configured + [c] {
      }
    }

    /** `_load_dynamic_agents` */
    method LoadDynamicAgents(defs: seq<Def>)
      requires Valid() && runtimeDefs == []
      modifies this`pools, this`descriptions, this`meta, this`runtimeDefs
      ensures Valid()
      ensures runtimeDefs == Loaded(defs, old(pools.Keys))
      ensures pools.Keys == old(pools.Keys) + DefNames(runtimeDefs)
    {
      ghost var all, configured := Loaded(defs, pools.Keys), pools.Keys;
      assert defs[0..] == defs;
      for i := 0 to |defs|
        invariant Valid()
        invariant runtimeDefs + Loaded(defs[i..], pools.Keys) == all
        invariant pools.Keys == configured + DefNames(runtimeDefs)
      {
        LoadedStep(defs, i, pools.Keys, runtimeDefs);
        LoadOne(defs[i], configured);
      }
    }

    static lemma LoadedStep(defs: seq<Def>, i: nat, taken: set<string>, sofar: seq<Def>)
      requires i < |defs|
      ensures sofar + Loaded(defs[i..], taken) ==
              if defs[i].name in taken then sofar + Loaded(defs[i + 1..], taken)
              else sofar + [Restored(defs[i])] + Loaded(defs[i + 1..], taken + {defs[i].name})
    {
      assert defs[i..][0] == defs[i] && defs[i..][1..] == defs[i + 1..];
    }

    method LoadOne(d: Def, ghost configured: set<string>)
      requires Valid() && pools.Keys == configured + DefNames(runtimeDefs)
      modifies this`pools, this`descriptions, this`meta, this`runtimeDefs
      ensures Valid()
      ensures runtimeDefs == if d.name in old(pools) then old(runtimeDefs) else old(runtimeDefs) + [Restored(d)]
      ensures pools.Keys == if d.name in old(pools) then old(pools.Keys) else old(pools.Keys) + {d.name}
      ensures pools.Keys == configured + DefNames(runtimeDefs)
    {
      if d.name in pools {
        return;
      }
      var tags := NormalizeTags(TagList(d.tags));
      Add(d.(tags := tags));
    }

    /** `_register_agent` for a runtime definition that then joins the list. */
    method Add(d: Def)
      requires Valid() && d.name !in pools && NormalTags(d.tags)
      modifies this`pools, this`descriptions, this`meta, this`runtimeDefs
      ensures Valid() && runtimeDefs == old(runtimeDefs) + [d]
      ensures pools == old(pools)[d.name := PoolOf(d)]
      ensures meta == old(meta)[d.name := Meta(d.tags, "", RuntimeOwned, "")]
      ensures descriptions == old(descriptions)[d.name := d.description]
      ensures DefNames(runtimeDefs) == old(DefNames(runtimeDefs)) + {d.name}
    {
      Register(d, "", RuntimeOwned, "");
      assert forall i :: 0 <= i < |runtimeDefs| ==> runtimeDefs[i].name != d.name;
      runtimeDefs := runtimeDefs + [d];
      assert d in runtimeDefs;
    }

    /** `_register_agent`, registration itself succeeding. */
    method Register(d: Def, domain: string, owner: Owner, visibility: string)
      modifies this`pools, this`descriptions, this`meta
      ensures pools == old(pools)[d.name := PoolOf(d)]
      ensures descriptions == old(descriptions)[d.name := d.description]
      ensures meta == old(meta)[d.name := Meta(Normalized(d.tags, {}), domain, owner, visibility)]
      ensures NormalTags(d.tags) ==> Normalized(d.tags, {}) == d.tags
    {
      pools := pools[d.name := PoolOf(d)];
      descriptions := descriptions[d.name := d.description];
      var tags := NormalizeTags(TagList(d.tags));
      meta := meta[d.name := Meta(tags, domain, owner, visibility)];
      if NormalTags(d.tags) {
        NormalTagsStay(d.tags, {});
      }
    }

    /** `_save_dynamic_agents` */
    method Save()
      modifies this`file
      ensures file == if persistent then Some(runtimeDefs) else old(file)
    {
      if persistent {
        file := Some(runtimeDefs);
      }
    }

    /** `create_agent` */
    method CreateAgent(d: Def, tags: Tags) returns (o: Outcome)
      requires Valid()
      modifies this
      ensures Valid()
      ensures o.Accepted? <==> ValidName(d.name).Some? && ValidName(d.name).value !in old(pools)
      ensures o.Rejected? ==> Unmoved(old(pools), old(meta), old(runtimeDefs), old(file))
      ensures o.Accepted? ==>
                var added := Def(ValidName(d.name).value, d.description, d.systemPrompt, d.instructions,
                                 Normalized(TagsOf(tags), {}), d.tools);
                && runtimeDefs == old(runtimeDefs) + [added] && pools == old(pools)[added.name := PoolOf(added)]
                && meta == old(meta)[added.name := Meta(added.tags, "", RuntimeOwned, "")]
                && (persistent ==> file == Some(runtimeDefs))
    {
      var name := ValidName(d.name);
      if name.None? || name.value in pools {
        return Rejected;
      }
      var normal := NormalizeTags(tags);
      Add(d.(name := name.value, tags := normal));
      Save();
      o := Accepted;
    }

    ghost predicate Unmoved(pools': map<string, Pool>, meta': map<string, Meta>, defs': seq<Def>, file': Option<seq<Def>>)
      reads this
    {
      pools == pools' && meta == meta' && runtimeDefs == defs' && file == file'
    }

    /** `register_domain_agent`: a name that some domain already has is silently left alone. */
    method RegisterDomainAgent(d: Def, tags: Tags, domain: string, visibility: string) returns (o: Outcome)
      requires Valid()
      modifies this`pools, this`descriptions, this`meta
      ensures Valid()
      ensures o.Accepted? <==>
                ValidName(d.name).Some?
                && (ValidName(d.name).value in old(pools) ==> old(meta)[ValidName(d.name).value].owner == DomainOwned)
      ensures runtimeDefs == old(runtimeDefs)
      ensures o.Rejected? || ValidName(d.name).value in old(pools) ==> pools == old(pools) && meta == old(meta)
      ensures o.Accepted? && ValidName(d.name).value !in old(pools) ==>
                var name := ValidName(d.name).value;
                pools.Keys == old(pools).Keys + {name} && !Editable(name)
                && meta == old(meta)[name := Meta(Normalized(TagsOf(tags), {}), domain, DomainOwned,
                                                  if visibility == "" then "employee_visible" else visibility)]
    {
      var name := ValidName(d.name);
      if name.None? {
        return Rejected;
      }
      if name.value in pools {
        return if meta[name.value].owner == DomainOwned then Accepted else Rejected;
      }
      var normal := NormalizeTags(tags);
      AddForDomain(d.(name := name.value, tags := normal), domain, if visibility == "" then "employee_visible" else visibility);
      o := Accepted;
    }

    /** `_register_agent` for an agent of a domain. */
    method AddForDomain(d: Def, domain: string, visibility: string)
      requires Valid() && d.name !in pools && NormalTags(d.tags)
      modifies this`pools, this`descriptions, this`meta
      ensures Valid() && !Editable(d.name)
      ensures pools.Keys == old(pools).Keys + {d.name}
      ensures meta == old(meta)[d.name := Meta(d.tags, domain, DomainOwned, visibility)]
    {
      assert forall i :: 0 <= i < |runtimeDefs| ==> runtimeDefs[i].name != d.name;
      Register(d, domain, DomainOwned, visibility);
    }

    /** `unregister_domain_agents` */
    method UnregisterDomainAgents(domain: string)
      requires Valid()
      modifies this`pools, this`descriptions, this`meta
      ensures Valid() && runtimeDefs == old(runtimeDefs)
      ensures forall n :: n in pools <==> n in old(pools) && !(old(meta)[n].owner == DomainOwned && old(meta)[n].domain == domain)
      ensures forall n :: n in pools ==> pools[n] == old(pools)[n] && meta[n] == old(meta)[n]
    {
      var names := set n | n in meta && meta[n].owner == DomainOwned && meta[n].domain == domain;
      pools, descriptions, meta := pools - names, descriptions - names, meta - names;
    }

    /** `delete_agent`: whatever its owner, any agent but the default one. */
    method DeleteAgent(name: string) returns (o: Outcome)
      requires Valid()
      modifies this
      ensures Valid()
      ensures o.Accepted? <==> name != "default" && name in old(pools)
      ensures o.Rejected? ==> Unmoved(old(pools), old(meta), old(runtimeDefs), old(file))
      ensures o.Accepted? ==>
                && pools == old(pools) - {name} && meta == old(meta) - {name}
                && runtimeDefs == Without(old(runtimeDefs), name) && !Editable(name)
                && (persistent ==> file == Some(runtimeDefs))
    {
      if name == "default" || name !in pools {
        return Rejected;
      }
      Remove(name);
      Save();
      o := Accepted;
    }

    method Remove(name: string)
      requires Valid() && name != "default" && name in pools
      modifies this`pools, this`descriptions, this`meta, this`runtimeDefs
      ensures Valid() && runtimeDefs == Without(old(runtimeDefs), name) && !Editable(name)
      ensures pools == old(pools) - {name} && meta == old(meta) - {name}
    {
      WithoutIs(runtimeDefs, name);
      ghost var before := runtimeDefs;
      assert forall d :: d in before ==> Live(d);
      ghost var pools', meta', descriptions' := pools, meta, descriptions;
      pools, descriptions, meta := pools - {name}, descriptions - {name}, meta - {name};
      runtimeDefs := Without(runtimeDefs, name);
      forall i | 0 <= i < |runtimeDefs| ensures Live(runtimeDefs[i]) {
        var d := runtimeDefs[i];
        assert d in runtimeDefs && d in before && d.name != name;
        assert d.name in pools' && d.name in meta' && d.name in descriptions';
      }
    }

    function Changed(d: Def, description: Option<string>, systemPrompt: Option<string>, instructions: Option<string>,
                     tags: Option<Tags>, tools: Option<seq<string>>): Def {
      Def(d.name,
          if description.Some? then description.value else d.description,
          if systemPrompt.Some? then systemPrompt.value else d.systemPrompt,
          if instructions.Some? then instructions.value else d.instructions,
          if tags.Some? then Normalized(TagsOf(tags.value), {}) else d.tags,
          if tools.Some? then tools.value else d.tools)
    }

    /** `update_agent`: the definition changes in place and its pool is rebuilt from it. */
    method UpdateAgent(name: string, description: Option<string>, systemPrompt: Option<string>, instructions: Option<string>,
                       tags: Option<Tags>, tools: Option<seq<string>>)
      returns (o: Outcome)
      requires Valid()
      modifies this
      ensures Valid()
      ensures o.Accepted? <==> old(Editable(name))
      ensures o.Rejected? ==> Unmoved(old(pools), old(meta), old(runtimeDefs), old(file))
      ensures o.Accepted? ==>
                && pools.Keys == old(pools).Keys && |runtimeDefs| == |old(runtimeDefs)|
                && (forall i :: 0 <= i < |runtimeDefs| ==>
                      runtimeDefs[i] == if old(runtimeDefs)[i].name == name
                                        then Changed(old(runtimeDefs)[i], description, systemPrompt, instructions, tags, tools)
                                        else old(runtimeDefs)[i])
                && (persistent ==> file == Some(runtimeDefs))
    {
      if Editable(name) {
        OnlyRuntimeIsEditable(name);
      }
      var i := IndexOf(runtimeDefs, name);
      if name == "default" || name !in pools || i < 0 {
        return Rejected;
      }
      assert runtimeDefs[i] in runtimeDefs;
      var d := Changed(runtimeDefs[i], description, systemPrompt, instructions, tags, tools);
      if tags.Some? {
        NormalizedIsNormal(TagsOf(tags.value), {});
      }
      Replace(i, d);
      Save();
      o := Accepted;
    }

    /** The pool is torn down and registered again from the new definition. */
    method Replace(i: nat, d: Def)
      requires Valid() && i < |runtimeDefs| && runtimeDefs[i].name == d.name && NormalTags(d.tags)
      modifies this`pools, this`descriptions, this`meta, this`runtimeDefs
      ensures Valid() && pools.Keys == old(pools).Keys && runtimeDefs == old(runtimeDefs)[i := d]
    {
      assert Live(runtimeDefs[i]);
      runtimeDefs := runtimeDefs[i := d];
      pools, descriptions, meta := pools - {d.name}, descriptions - {d.name}, meta - {d.name};
      Register(d, "", RuntimeOwned, "");
    }
  }

  /** Saving and starting again with a new configuration: the runtime agents come back exactly when
      no configured agent has taken one of their names. */
  method Restart(g: Gateway, configured: seq<(Def, Tags)>) returns (next: Gateway)
    requires g.Valid() && g.persistent
    modifies g`file
    ensures next.Valid()
    ensures next.runtimeDefs == g.runtimeDefs <==> DefNames(g.runtimeDefs) !! Gateway.ConfigNames(configured)
    ensures DefNames(g.runtimeDefs) !! Gateway.ConfigNames(configured) ==>
              forall d :: d in g.runtimeDefs ==> d.name in next.pools && next.pools[d.name] == PoolOf(d)
  {
    g.Save();
    next := new Gateway(configured, true, g.file);
    ghost var taken := {"default"} + Gateway.ConfigNames(configured);
    LoadedIff(g.runtimeDefs, taken);
    assert "default" !in DefNames(g.runtimeDefs) by {
      assert forall d :: d in g.runtimeDefs ==> g.Live(d);
    }
    assert forall d :: d in next.runtimeDefs ==> next.Live(d);
  }

  // ------------------------------------------------------------------ runs of operations

  datatype Op =
    | Create(d: Def, tags: Tags)
    | Update(name: string, description: Option<string>, systemPrompt: Option<string>, instructions: Option<string>,
             newTags: Option<Tags>, tools: Option<seq<string>>)
    | Delete(name: string)
    | RegisterDomain(d: Def, tags: Tags, domain: string, visibility: string)
    | UnregisterDomain(domain: string)

  /** The file, if there is one, holds the runtime agents. */
  predicate Saved(g: Gateway)
    reads g
  {
    g.persistent ==> g.file == Some(g.runtimeDefs)
  }

  /** Over any sequence of operations, accepted or rejected: the three dictionaries agree and contain
      "default", runtime names are unique and live, no agent of a domain or of the configuration is
      ever editable, and the file keeps up, so that a restart afterwards loses no runtime agent. */
  method Run(g: Gateway, ops: seq<Op>)
    requires g.Valid() && Saved(g)
    modifies g
    ensures g.Valid() && Saved(g)
    ensures forall n :: n in g.meta && g.meta[n].owner != RuntimeOwned ==> !g.Editable(n)
  {
    for i := 0 to |ops|
      invariant g.Valid() && Saved(g)
    {
      Apply(g, ops[i]);
    }
    forall n | n in g.meta && g.Editable(n) ensures g.meta[n].owner == RuntimeOwned {
      g.OnlyRuntimeIsEditable(n);
    }
  }

  method Apply(g: Gateway, op: Op)
    requires g.Valid() && Saved(g)
    modifies g
    ensures g.Valid() && Saved(g)
  {
    match op {
      case Create(d, tags) =>
        var _ := g.CreateAgent(d, tags);
      case Update(name, description, systemPrompt, instructions, newTags, tools) =>
        var _ := g.UpdateAgent(name, description, systemPrompt, instructions, newTags, tools);
      case Delete(name) =>
        var _ := g.DeleteAgent(name);
      case RegisterDomain(d, tags, domain, visibility) =>
        var _ := g.RegisterDomainAgent(d, tags, domain, visibility);
      case UnregisterDomain(domain) =>
        g.UnregisterDomainAgents(domain);
    }
  }
}
