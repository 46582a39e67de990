/**
  `load_yaml_dict`: the method-file name loses any version suffix, the folder
  is chosen, and the document at `<folder>/<name>.yaml` is loaded; a missing
  file is reported as a KeyError.
*/
module Common {
  import opened Wrappers
  import opened Text
  import opened YamlLoader

  /** `_v` followed by a digit starts at position i: where the pattern `_v[0-9].*` can match. */
  predicate MarkerAt(s: string, i: int) {
    0 <= i && i + 2 < |s| && s[i] == '_' && s[i + 1] == 'v' && IsDigit(s[i + 2])
  }

  predicate NoMarker(s: string) {
    forall i :: 0 <= i < |s| ==> !MarkerAt(s, i)
  }

  /** Where `.*` stops: the first newline at or after i, or the end of the string. */
  function LineEnd(s: string, i: nat): (j: nat)
    requires i <= |s|
    ensures i <= j <= |s|
    ensures j < |s| ==> s[j] == '\n'
    ensures forall k :: i <= k < j ==> s[k] != '\n'
    decreases |s| - i
  {
    if i == |s| || s[i] == '\n' then i else LineEnd(s, i + 1)
  }

  /**
    `re.sub('_v[0-9].*', '', s)`: scanning left to right, every match (from a
    `_v<digit>` to the end of its line) is removed; the rest is kept.
  */
  function StripVersion(s: string): string
    decreases |s|
  {
    if s == [] then []
    else if MarkerAt(s, 0) then StripVersion(s[LineEnd(s, 3)..])
    else [s[0]] + StripVersion(s[1..])
  }

  /** A name without the pattern is unchanged. */
  lemma {:induction false} NoMarkerUnchanged(s: string)
    requires NoMarker(s)
    ensures StripVersion(s) == s
  {
    if s != [] {
      assert !MarkerAt(s, 0);
      assert NoMarker(s[1..]) by {
        forall i
          ensures !MarkerAt(s[1..], i)
        {
          if MarkerAt(s[1..], i) {
            assert MarkerAt(s, i + 1);
          }
        }
      }
      NoMarkerUnchanged(s[1..]);
      assert [s[0]] + s[1..] == s;
    }
  }

  /**
    With its first `_v<digit>` at i and no newline after it, the name is cut
    just before i.
  */
  lemma {:induction false} TruncatedAtFirstMarker(s: string, i: nat)
    requires MarkerAt(s, i)
    requires forall j :: 0 <= j < i ==> !MarkerAt(s, j)
    requires forall k :: i <= k < |s| ==> s[k] != '\n'
    ensures StripVersion(s) == s[..i]
  {
    if i == 0 {
      assert LineEnd(s, 3) == |s|;
      assert s[|s|..] == [];
    } else {
      assert !MarkerAt(s, 0);
      assert MarkerAt(s[1..], i - 1);
      forall j | 0 <= j < i - 1
        ensures !MarkerAt(s[1..], j)
      {
        assert !MarkerAt(s, j + 1);
      }
      TruncatedAtFirstMarker(s[1..], i - 1);
      assert [s[0]] + s[1..][..i - 1] == s[..i];
    }
  }

  /**
    Round trip: a name without the pattern, given a version suffix `_v`
    plus a digit-led single-line tail, strips back to the name.
  */
  lemma StripVersionRoundTrip(name: string, tail: string)
    requires NoMarker(name)
    requires |tail| > 0 && IsDigit(tail[0]) && '\n' !in tail
    ensures StripVersion(name + "_v" + tail) == name
  {
    var s := name + "_v" + tail;
    var i := |name|;
    assert MarkerAt(s, i);
    forall j | 0 <= j < i
      ensures !MarkerAt(s, j)
    {
      if j + 2 < i {
        assert !MarkerAt(name, j);
      }
    }
    forall k | i <= k < |s|
      ensures s[k] != '\n'
    {
      if k >= i + 2 {
        assert s[k] == tail[k - i - 2];
      }
    }
    TruncatedAtFirstMarker(s, i);
    assert s[..i] == name;
  }

  /** `f'{folder}/{filename}.yaml'` */
  function YamlPath(folder: string, filename: string): string {
    folder + "/" + filename + ".yaml"
  }

  /**
    The folder: the method folder when no path is given; the given path
    when it holds `<filename>.yaml`; a KeyError otherwise.
  */
  function ConfigFolder(env: Env, filename: string, filepath: Option<string>): (r: Result<string>)
    ensures filepath.None? ==> r == Ok(env.methodPath)
    ensures filepath.Some? ==>
      r == if PathJoin(filepath.value, filename + ".yaml") in env.files then Ok(filepath.value) else Err(KeyError)
  {
    match filepath
    case None => Ok(env.methodPath)
    case Some(p) => if PathJoin(p, filename + ".yaml") in env.files then Ok(p) else Err(KeyError)
  }

  /** The `except FileNotFoundError: raise KeyError` around opening and loading the file. */
  function NotFoundAsKeyError(r: Result<Yaml>): (q: Result<Yaml>)
    ensures r == Err(FileNotFoundError) ==> q == Err(KeyError)
    ensures r != Err(FileNotFoundError) ==> q == r
  {
    if r == Err(FileNotFoundError) then Err(KeyError) else r
  }

  /**
    `load_yaml_dict(filename, filepath)`, loading with a loader that
    registers only `!include:` (see `YamlLoader.Load`). A file missing at
    open, or a FileNotFoundError from a nested include, is a KeyError.
  */
  function LoadYamlDict(env: Env, name: string, filepath: Option<string>, fuel: nat): Result<Yaml> {
    var filename := StripVersion(name);
    var folder :- ConfigFolder(env, filename, filepath);
    var path := YamlPath(folder, filename);
    if path !in env.files then Err(KeyError)
    else NotFoundAsKeyError(Load(env, env.files[path], fuel))
  }

  /**
    The path and the errors: the file read is `<folder>/<stripped name>.yaml`
    with the folder as chosen, and what is loaded is that file's document.
  */
  lemma LoadYamlDictReads(env: Env, name: string, filepath: Option<string>, fuel: nat)
    ensures var filename := StripVersion(name);
      var folder := ConfigFolder(env, filename, filepath);
      && (folder.Err? ==> LoadYamlDict(env, name, filepath, fuel) == Err(KeyError))
      && (folder.Ok? && YamlPath(folder.value, filename) !in env.files ==> LoadYamlDict(env, name, filepath, fuel) == Err(KeyError))
      && (folder.Ok? && YamlPath(folder.value, filename) in env.files ==>
            LoadYamlDict(env, name, filepath, fuel)
            == NotFoundAsKeyError(Resolve(env, env.files[YamlPath(folder.value, filename)], fuel)))
      && LoadYamlDict(env, name, filepath, fuel) != Err(FileNotFoundError)
  {
    var filename := StripVersion(name);
    var folder := ConfigFolder(env, filename, filepath);
    if folder.Ok? && YamlPath(folder.value, filename) in env.files {
      LoadResolves(env, env.files[YamlPath(folder.value, filename)], fuel);
    }
  }

  /** A versioned name loads the same file as the bare name. */
  lemma VersionedNameLoadsBareFile(env: Env, name: string, tail: string, filepath: Option<string>, fuel: nat)
    requires NoMarker(name)
    requires |tail| > 0 && IsDigit(tail[0]) && '\n' !in tail
    ensures LoadYamlDict(env, name + "_v" + tail, filepath, fuel) == LoadYamlDict(env, name, filepath, fuel)
  {
    StripVersionRoundTrip(name, tail);
    NoMarkerUnchanged(name);
  }
}
