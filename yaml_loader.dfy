/**
  The method-file loader: YAML documents in which a node tagged
  `!include:<file>:<key>:...` is replaced by (a branch of) another document,
  searched for in an ordered list of folders, and merged with the tagged node
  itself. The file system is a map from path to the parsed document; parsing
  YAML text is not modelled.
*/
module YamlLoader {
  import opened Wrappers
  import opened YearRanges

  /**
    A parsed YAML node. `Tagged(suffix, node)` is `node` carrying the tag
    `!include:<suffix>`; the tagged node is a mapping, a sequence or a scalar
    (a node carries one tag, so it is never itself tagged).
  */
  datatype Yaml =
    | Scalar(text: string)
    | Mapping(entries: seq<(string, Yaml)>)
    | Sequence(items: seq<Yaml>)
    | Tagged(suffix: string, node: Yaml)

  /**
    The files the loader can see, the folders a loader instance searches
    before the built-in ones (`external_paths_to_search`), and the built-in
    method and data folders.
  */
  datatype Env = Env(files: map<string, Yaml>, externalPaths: seq<string>, methodPath: string, dataPath: string)

  // ---------------------------------------------------------------- paths and the suffix

  /** `os.path.join(a, b)` on POSIX paths. */
  function PathJoin(a: string, b: string): (r: string)
    ensures |b| > 0 && b[0] == '/' ==> r == b
  {
    if |b| > 0 && b[0] == '/' then b
    else if a == [] || a[|a| - 1] == '/' then a + b
    else a + "/" + b
  }

  /** `s.split(sep)`: the pieces between the separators, at least one. */
  function Split(s: string, sep: char): (r: seq<string>)
    ensures |r| >= 1
    ensures forall i :: 0 <= i < |r| ==> sep !in r[i]
  {
    if s == [] then [""]
    else
      var rest := Split(s[1..], sep);
      if s[0] == sep then [""] + rest
      else [[s[0]] + rest[0]] + rest[1..]
  }

  /** `sep.join(parts)` */
  function JoinWith(parts: seq<string>, sep: char): string
    requires |parts| >= 1
  {
    if |parts| == 1 then parts[0] else parts[0] + [sep] + JoinWith(parts[1..], sep)
  }

  /** Splitting loses nothing: joining the pieces gives back the suffix. */
  lemma {:induction false} SplitJoin(s: string, sep: char)
    ensures JoinWith(Split(s, sep), sep) == s
  {
    if s != [] {
      var rest := Split(s[1..], sep);
      SplitJoin(s[1..], sep);
      if s[0] == sep {
        assert Split(s, sep)[1..] == rest;
      } else {
        var r := Split(s, sep);
        if |rest| == 1 {
          assert r == [[s[0]] + rest[0]];
        } else {
          assert r[1..] == rest[1..];
          assert JoinWith(rest, sep) == rest[0] + [sep] + JoinWith(rest[1..], sep);
        }
      }
    }
  }

  /** The folders `include` searches, in order. */
  function SearchFolders(env: Env): seq<string> {
    env.externalPaths + [env.methodPath, env.dataPath]
  }

  /** The first folder holding `file`, if any. */
  function FirstFolder(files: map<string, Yaml>, folders: seq<string>, file: string): (r: Option<string>)
    ensures r.None? <==> forall i :: 0 <= i < |folders| ==> PathJoin(folders[i], file) !in files
    ensures r.Some? ==> exists i :: 0 <= i < |folders| && folders[i] == r.value && PathJoin(r.value, file) in files
                                    && forall j :: 0 <= j < i ==> PathJoin(folders[j], file) !in files
  {
    if folders == [] then None
    else if PathJoin(folders[0], file) in files then Some(folders[0])
    else
      var r := FirstFolder(files, folders[1..], file);
      assert forall j :: 1 <= j < |folders| ==> folders[j] == folders[1..][j - 1];
      r
  }

  // ---------------------------------------------------------------- narrowing and merging

  /**
    `while keys: branch = branch[keys.pop(0)]`: a missing key is a KeyError;
    indexing a list or a scalar with a string is a TypeError.
  */
  function Narrow(branch: Yaml, keys: seq<string>): (r: Result<Yaml>)
    ensures keys == [] ==> r == Ok(branch)
    ensures keys != [] && !branch.Mapping? ==> r == Err(TypeError)
    ensures keys != [] && branch.Mapping? && Get(branch.entries, keys[0]).None? ==> r == Err(KeyError)
    decreases |keys|
  {
    if keys == [] then Ok(branch)
    else if !branch.Mapping? then Err(TypeError)
    else match Get(branch.entries, keys[0])
      case None => Err(KeyError)
      case Some(v) => Narrow(v, keys[1..])
  }

  /** `branch.update(context)`: each context key in turn replaces or appends. */
  function Update(branch: Dict<Yaml>, context: Dict<Yaml>): Dict<Yaml>
    decreases |context|
  {
    if context == [] then branch else Update(Put(branch, context[0].0, context[0].1), context[1..])
  }

  /** After `update`, a key of the context has the context's value; every other key keeps the included value. */
  lemma {:induction false} UpdateGet(branch: Dict<Yaml>, context: Dict<Yaml>, k: string)
    requires DistinctKeys(context)
    ensures Get(Update(branch, context), k) == if Get(context, k).Some? then Get(context, k) else Get(branch, k)
    decreases |context|
  {
    if context != [] {
      var (k0, v0) := context[0];
      assert DistinctKeys(context[1..]) by {
        forall i, j | 0 <= i < j < |context[1..]|
          ensures context[1..][i].0 != context[1..][j].0
        {
          assert context[1..][i] == context[i + 1] && context[1..][j] == context[j + 1];
        }
      }
      UpdateGet(Put(branch, k0, v0), context[1..], k);
      GetPut(branch, k0, v0, k);
      if k == k0 {
        GetMissingAfterFirst(context, k);
      }
    }
  }

  /** In a dict with distinct keys, the first key appears nowhere after the first entry. */
  lemma GetMissingAfterFirst(d: Dict<Yaml>, k: string)
    requires d != [] && DistinctKeys(d) && d[0].0 == k
    ensures Get(d[1..], k).None?
  {
    forall j | 0 <= j < |d[1..]|
      ensures d[1..][j].0 != k
    {
      assert d[1..][j] == d[j + 1];
    }
    GetNoneWhenAbsent(d[1..], k);
  }

  lemma {:induction false} GetNoneWhenAbsent(d: Dict<Yaml>, k: string)
    requires forall j :: 0 <= j < |d| ==> d[j].0 != k
    ensures Get(d, k).None?
  {
    if d != [] {
      assert forall j :: 0 <= j < |d[1..]| ==> d[1..][j] == d[j + 1];
      GetNoneWhenAbsent(d[1..], k);
    }
  }

  // ---------------------------------------------------------------- construction

  /**
    The document with every `!include:` resolved. `fuel` bounds the depth of
    nested includes: an include cycle, which Python ends with a
    RecursionError, ends here when the fuel runs out.
  */
  function Resolve(env: Env, y: Yaml, fuel: nat): Result<Yaml>
    decreases fuel, y, 2, 0
  {
    match y
    case Scalar(_) => Ok(y)
    case Mapping(entries) =>
      var d :- ResolveEntries(env, y, 0, fuel, []);
      Ok(Mapping(d))
    case Sequence(items) =>
      var xs :- ResolveItems(env, y, 0, fuel);
      Ok(Sequence(xs))
    case Tagged(suffix, node) => Include(env, suffix, node, fuel)
  }

  /**
    `construct_mapping` from entry i of a mapping node on: the values in
    order, a repeated key keeping its first place and its last value.
  */
  function ResolveEntries(env: Env, owner: Yaml, i: nat, fuel: nat, acc: Dict<Yaml>): Result<Dict<Yaml>>
    requires owner.Mapping? && i <= |owner.entries|
    decreases fuel, owner, 1, |owner.entries| - i
  {
    if i == |owner.entries| then Ok(acc)
    else
      var entry := owner.entries[i];
      assert entry in owner.entries;
      var v :- Resolve(env, entry.1, fuel);
      ResolveEntries(env, owner, i + 1, fuel, Put(acc, entry.0, v))
  }

  /** `construct_sequence` from item i of a sequence node on: the items in order. */
  function ResolveItems(env: Env, owner: Yaml, i: nat, fuel: nat): Result<seq<Yaml>>
    requires owner.Sequence? && i <= |owner.items|
    decreases fuel, owner, 1, |owner.items| - i
  {
    if i == |owner.items| then Ok([])
    else
      assert owner.items[i] in owner.items;
      var x :- Resolve(env, owner.items[i], fuel);
      var rest :- ResolveItems(env, owner, i + 1, fuel);
      Ok([x] + rest)
  }

  /**
    `lfgLoader.include`: find the file in the first folder that has it
    (FileNotFoundError when none does), load it, narrow it by the key path,
    then merge the tagged node into it.
  */
  function Include(env: Env, suffix: string, node: Yaml, fuel: nat): Result<Yaml>
    decreases fuel, node, 3, 0
  {
    var parts := Split(suffix, ':');
    var folder :- match FirstFolder(env.files, SearchFolders(env), parts[0])
      case None => Err(FileNotFoundError)
      case Some(f) => Ok(f);
    if fuel == 0 then Err(RecursionError)
    else
      var loaded :- Resolve(env, env.files[PathJoin(folder, parts[0])], fuel - 1);
      var branch :- Narrow(loaded, parts[1..]);
      MergeNode(env, node, branch, fuel)
  }

  /**
    The merge of the tagged node into the narrowed branch: a mapping node
    updates a dict branch (its keys win), a sequence node extends a list
    branch, a scalar node leaves the branch as it is; any other pairing is a
    TypeError.
  */
  function MergeNode(env: Env, node: Yaml, branch: Yaml, fuel: nat): Result<Yaml>
    decreases fuel, node, 2, 0
  {
    match node
    case Mapping(_) =>
      if !branch.Mapping? then Err(TypeError)
      else
        var context :- ResolveEntries(env, node, 0, fuel, []);
        Ok(Mapping(Update(branch.entries, context)))
    case Sequence(_) =>
      if !branch.Sequence? then Err(TypeError)
      else
        var context :- ResolveItems(env, node, 0, fuel);
        Ok(Sequence(branch.items + context))
    case _ => Ok(branch)
  }

  /** The `for`-`else` search: the first folder holding the file, or None. */
  method FindFolder(files: map<string, Yaml>, folders: seq<string>, file: string) returns (found: Option<string>)
    ensures found == FirstFolder(files, folders, file)
  {
    found := None;
    var i := 0;
    while i < |folders|
      invariant 0 <= i <= |folders|
      invariant forall j :: 0 <= j < i ==> PathJoin(folders[j], file) !in files
    {
      if PathJoin(folders[i], file) in files {
        found := Some(folders[i]);
        FirstFolderIsFirst(files, folders, file, i);
        return;
      }
      i := i + 1;
    }
  }

  /** `while keys: branch = branch[keys.pop(0)]` */
  method NarrowScript(loaded: Yaml, keys: seq<string>) returns (r: Result<Yaml>)
    ensures r == Narrow(loaded, keys)
  {
    var branch := loaded;
    var rest := keys;
    while rest != []
      invariant Narrow(loaded, keys) == Narrow(branch, rest)
      decreases |rest|
    {
      if !branch.Mapping? {
        return Err(TypeError);
      }
      var next := Get(branch.entries, rest[0]);
      if next.None? {
        return Err(KeyError);
      }
      branch := next.value;
      rest := rest[1..];
    }
    return Ok(branch);
  }

  /** `branch.update(context)`, key by key. */
  method UpdateScript(branch: Dict<Yaml>, context: Dict<Yaml>) returns (merged: Dict<Yaml>)
    ensures merged == Update(branch, context)
  {
    merged := branch;
    var c := 0;
    while c < |context|
      invariant 0 <= c <= |context|
      invariant Update(merged, context[c..]) == Update(branch, context)
    {
      assert context[c..][1..] == context[c + 1..];
      merged := Put(merged, context[c].0, context[c].1);
      c := c + 1;
    }
    assert context[c..] == [];
  }

  /**
    `include` as the loader runs it: the search loop with its `for`-`else`,
    the key-path loop, and the in-place `update` or `extend` of the branch.
  */
  method IncludeScript(env: Env, suffix: string, node: Yaml, fuel: nat) returns (r: Result<Yaml>)
    ensures r == Include(env, suffix, node, fuel)
  {
    var parts := Split(suffix, ':');
    var file := parts[0];
    var found := FindFolder(env.files, SearchFolders(env), file);
    if found.None? {
      return Err(FileNotFoundError);
    }
    if fuel == 0 {
      return Err(RecursionError);
    }
    var loaded := Resolve(env, env.files[PathJoin(found.value, file)], fuel - 1);
    if loaded.Err? {
      return Err(loaded.error);
    }
    var narrowed := NarrowScript(loaded.value, parts[1..]);
    if narrowed.Err? {
      return Err(narrowed.error);
    }
    var branch := narrowed.value;
    match node {
      case Mapping(_) =>
        if !branch.Mapping? {
          return Err(TypeError);
        }
        var context := ResolveEntries(env, node, 0, fuel, []);
        if context.Err? {
          return Err(context.error);
        }
        var merged := UpdateScript(branch.entries, context.value);
        r := Ok(Mapping(merged));
      case Sequence(_) =>
        if !branch.Sequence? {
          return Err(TypeError);
        }
        var context := ResolveItems(env, node, 0, fuel);
        if context.Err? {
          return Err(context.error);
        }
        r := Ok(Sequence(branch.items + context.value));
      case _ =>
        r := Ok(branch);
    }
  }

  lemma {:induction false} FirstFolderIsFirst(files: map<string, Yaml>, folders: seq<string>, file: string, i: nat)
    requires i < |folders| && PathJoin(folders[i], file) in files
    requires forall j :: 0 <= j < i ==> PathJoin(folders[j], file) !in files
    ensures FirstFolder(files, folders, file) == Some(folders[i])
  {
    if i > 0 {
      FirstFolderIsFirst(files, folders[1..], file, i - 1);
    }
  }

  // ---------------------------------------------------------------- properties of include

  /** The file name is the suffix up to its first ':'; the key path is the rest, split on ':'. */
  lemma SuffixParts(file: string, keys: seq<string>)
    requires ':' !in file && forall i :: 0 <= i < |keys| ==> ':' !in keys[i]
    ensures Split(JoinWith([file] + keys, ':'), ':') == [file] + keys
  {
    SplitOfJoin([file] + keys);
  }

  lemma {:induction false} SplitOfJoin(parts: seq<string>)
    requires |parts| >= 1 && forall i :: 0 <= i < |parts| ==> ':' !in parts[i]
    ensures Split(JoinWith(parts, ':'), ':') == parts
    decreases |parts|, |parts[0]|
  {
    if |parts| == 1 {
      SplitWithoutSeparator(parts[0]);
    } else if parts[0] == [] {
      assert JoinWith(parts, ':') == [':'] + JoinWith(parts[1..], ':');
      SplitOfJoin(parts[1..]);
      assert JoinWith(parts, ':')[1..] == JoinWith(parts[1..], ':');
    } else {
      var shorter := [parts[0][1..]] + parts[1..];
      assert shorter[1..] == parts[1..];
      SplitOfJoin(shorter);
      var s := JoinWith(parts, ':');
      assert s == [parts[0][0]] + JoinWith(shorter, ':');
      assert s[1..] == JoinWith(shorter, ':');
      assert [parts[0][0]] + parts[0][1..] == parts[0];
    }
  }

  lemma {:induction false} SplitWithoutSeparator(s: string)
    requires ':' !in s
    ensures Split(s, ':') == [s]
  {
    if s != [] {
      SplitWithoutSeparator(s[1..]);
      assert [s[0]] + s[1..] == s;
    }
  }

  /** No folder holds the file: FileNotFoundError, before anything is loaded. */
  lemma MissingFileIsFileNotFound(env: Env, suffix: string, node: Yaml, fuel: nat)
    requires forall f :: f in SearchFolders(env) ==> PathJoin(f, Split(suffix, ':')[0]) !in env.files
    ensures Include(env, suffix, node, fuel) == Err(FileNotFoundError)
  {
    var folders := SearchFolders(env);
    var file := Split(suffix, ':')[0];
    assert forall i :: 0 <= i < |folders| ==> PathJoin(folders[i], file) !in env.files by {
      forall i | 0 <= i < |folders|
        ensures PathJoin(folders[i], file) !in env.files
      {
        assert folders[i] in folders;
      }
    }
  }

  /**
    The file loaded is the one in the first folder, in search order, that
    holds it: an external path before the method folder before the data
    folder.
  */
  lemma SearchOrder(env: Env, file: string)
    requires PathJoin(env.methodPath, file) in env.files
    requires forall f :: f in env.externalPaths ==> PathJoin(f, file) !in env.files
    ensures FirstFolder(env.files, SearchFolders(env), file) == Some(env.methodPath)
  {
    var folders := SearchFolders(env);
    var i := |env.externalPaths|;
    assert folders[i] == env.methodPath;
    forall j | 0 <= j < i
      ensures PathJoin(folders[j], file) !in env.files
    {
      assert folders[j] == env.externalPaths[j];
      assert env.externalPaths[j] in env.externalPaths;
    }
    FirstFolderIsFirst(env.files, folders, file, i);
  }

  /** `construct_mapping` gives a dict: its keys are distinct. */
  lemma {:induction false} ResolveEntriesDistinct(env: Env, owner: Yaml, i: nat, fuel: nat, acc: Dict<Yaml>)
    requires owner.Mapping? && i <= |owner.entries|
    requires DistinctKeys(acc) && ResolveEntries(env, owner, i, fuel, acc).Ok?
    ensures DistinctKeys(ResolveEntries(env, owner, i, fuel, acc).value)
    decreases |owner.entries| - i
  {
    if i < |owner.entries| {
      var entry := owner.entries[i];
      var v := Resolve(env, entry.1, fuel).value;
      PutKeepsDistinct(acc, entry.0, v);
      ResolveEntriesDistinct(env, owner, i + 1, fuel, Put(acc, entry.0, v));
    }
  }

  /**
    A mapping node merged into a dict branch: a key of the node has the
    node's value (the host wins), any other key keeps the included value.
  */
  lemma MappingHostWins(env: Env, node: Yaml, branch: Dict<Yaml>, fuel: nat, k: string)
    requires node.Mapping? && ResolveEntries(env, node, 0, fuel, []).Ok?
    ensures var context := ResolveEntries(env, node, 0, fuel, []).value;
      && MergeNode(env, node, Mapping(branch), fuel) == Ok(Mapping(Update(branch, context)))
      && Get(Update(branch, context), k) == if Get(context, k).Some? then Get(context, k) else Get(branch, k)
  {
    var context := ResolveEntries(env, node, 0, fuel, []).value;
    ResolveEntriesDistinct(env, node, 0, fuel, []);
    UpdateGet(branch, context, k);
  }

  /** A sequence node merged into a list branch: the included items, then the node's own, one for one. */
  lemma SequenceHostAppends(env: Env, node: Yaml, branch: seq<Yaml>, fuel: nat)
    requires node.Sequence? && ResolveItems(env, node, 0, fuel).Ok?
    ensures var context := ResolveItems(env, node, 0, fuel).value;
      && MergeNode(env, node, Sequence(branch), fuel) == Ok(Sequence(branch + context))
      && |context| == |node.items|
  {
    ResolveItemsLength(env, node, 0, fuel);
  }

  lemma {:induction false} ResolveItemsLength(env: Env, owner: Yaml, i: nat, fuel: nat)
    requires owner.Sequence? && i <= |owner.items| && ResolveItems(env, owner, i, fuel).Ok?
    ensures |ResolveItems(env, owner, i, fuel).value| == |owner.items| - i
    decreases |owner.items| - i
  {
    if i < |owner.items| {
      ResolveItemsLength(env, owner, i + 1, fuel);
    }
  }

  /** The other pairings of node and branch are a TypeError; a scalar node returns the branch unchanged. */
  lemma MergeMismatch(env: Env, node: Yaml, branch: Yaml, fuel: nat)
    ensures node.Mapping? && !branch.Mapping? ==> MergeNode(env, node, branch, fuel) == Err(TypeError)
    ensures node.Sequence? && !branch.Sequence? ==> MergeNode(env, node, branch, fuel) == Err(TypeError)
    ensures node.Scalar? ==> MergeNode(env, node, branch, fuel) == Ok(branch)
  {
  }

  /**
    No cycle check: a file whose document is an include of itself never
    resolves, whatever the depth allowed.
  */
  lemma {:induction false} SelfIncludeNeverResolves(env: Env, file: string, node: Yaml, fuel: nat)
    requires ':' !in file
    requires PathJoin(env.methodPath, file) in env.files
    requires forall f :: f in env.externalPaths ==> PathJoin(f, file) !in env.files
    requires env.files[PathJoin(env.methodPath, file)] == Tagged(file, node)
    ensures Include(env, file, node, fuel) == Err(RecursionError)
  {
    SplitWithoutSeparator(file);
    SearchOrder(env, file);
    if fuel > 0 {
      SelfIncludeNeverResolves(env, file, node, fuel - 1);
      assert Resolve(env, Tagged(file, node), fuel - 1) == Include(env, file, node, fuel - 1);
    }
  }

  // ---------------------------------------------------------------- the loader

  /** The constructors a loader registers when it is created, by the attribute each one names. */
  datatype Registration = Registration(tag: string, attribute: string)

  /** The attributes an `lfgLoader` has: `include` (the `external_config` method is commented out). */
  const LoaderAttributes: set<string> := {"include"}

  /** `lfgLoader.__init__` as written: `!include:` and then `!external_config`. */
  const RegistrationsAsWritten: seq<Registration> :=
    [Registration("!include:", "include"), Registration("!external_config", "external_config")]

  /** The registrations of a loader that registers only the constructor it defines. */
  const Registrations: seq<Registration> := [Registration("!include:", "include")]

  /** Creating a loader: each registration looks up its attribute; a missing one is an AttributeError. */
  function NewLoader(registrations: seq<Registration>): (r: Result<()>)
    ensures r.Ok? <==> forall i :: 0 <= i < |registrations| ==> registrations[i].attribute in LoaderAttributes
    ensures r.Err? ==> r.error == AttributeError
  {
    if registrations == [] then Ok(())
    else if registrations[0].attribute !in LoaderAttributes then Err(AttributeError)
    else
      var r := NewLoader(registrations[1..]);
      assert forall i :: 1 <= i < |registrations| ==> registrations[i] == registrations[1..][i - 1];
      r
  }

  /** `load(stream)` as written: the loader's creation fails before the document is read. */
  function LoadAsWritten(env: Env, doc: Yaml, fuel: nat): Result<Yaml> {
    var _ :- NewLoader(RegistrationsAsWritten);
    Resolve(env, doc, fuel)
  }

  /** `load(stream)`: a loader registering `!include:` only, then the resolved document. */
  function Load(env: Env, doc: Yaml, fuel: nat): Result<Yaml> {
    var _ :- NewLoader(Registrations);
    Resolve(env, doc, fuel)
  }

  /** As written, every load raises AttributeError, whatever the document. */
  lemma LoadAsWrittenAlwaysFails(env: Env, doc: Yaml, fuel: nat)
    ensures LoadAsWritten(env, doc, fuel) == Err(AttributeError)
  {
    assert RegistrationsAsWritten[1].attribute !in LoaderAttributes;
  }

  /** Without the dangling registration, a load is exactly the resolution of the document. */
  lemma LoadResolves(env: Env, doc: Yaml, fuel: nat)
    ensures Load(env, doc, fuel) == Resolve(env, doc, fuel)
    ensures doc.Scalar? ==> Load(env, doc, fuel) == Ok(doc)
  {
    assert Registrations[0].attribute in LoaderAttributes;
  }
}
