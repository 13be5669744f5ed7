/**
 * The manifest editor `Construction\Composer`: it reads `composer.json`
 * from the application directory once, keeps the decoded manifest, merges
 * the configured runtime and development packages and the configured
 * autoload entries into it (reporting one comment per merged item), and
 * serialises it back, to a string or to the file.
 */
module Construction {
  import opened Json
  import opened Collaborators

  /** One configured package: a name and a version constraint, both opaque. */
  datatype Dependency = Dependency(package: string, version: string)

  /**
   * The editor's configuration. A section the configuration does not have
   * is an empty sequence here. The two namespace mappings keep the
   * configuration's own iteration order.
   */
  datatype Config = Config(
    require: seq<Dependency>,
    requireDev: seq<Dependency>,
    classmap: seq<string>,
    psr0: seq<(string, string)>,
    psr4: seq<(string, string)>)

  /**
   * The JSON library the editor relies on: associative decoding, which
   * fails on malformed text, and pretty-printed encoding without escaped
   * slashes.
   */
  datatype Codec = Codec(decode: string -> Option<Json>, encode: Json -> string)

  /**
   * Associative decoding never yields an object with a repeated key: a PHP
   * array holds each key once.
   */
  ghost predicate DecodesWellFormed(codec: Codec) {
    forall text {:trigger WellFormed(codec.decode(text).value)} | codec.decode(text).Some? ::
      WellFormed(codec.decode(text).value)
  }

  datatype LoadError = FileNotFound(path: string) | MalformedJson(path: string)

  datatype Result<+T> = Ok(value: T) | Err(error: LoadError)

  const ManifestFile: string := "composer.json"
  /** The platform's directory separator, fixed to the POSIX one. */
  const Separator: string := "/"

  /** The key paths of the editor's dotted constants. */
  const RequirePath: seq<string> := ["require"]
  const RequireDevPath: seq<string> := ["require-dev"]
  const ClassmapPath: seq<string> := ["autoload", "classmap"]
  const Psr0Path: seq<string> := ["autoload", "psr-0"]
  const Psr4Path: seq<string> := ["autoload", "psr-4"]

  /** The manifest file inside the application directory. */
  function ManifestPath(appDir: string): (r: string)
    ensures |r| == |appDir| + 14
    ensures r[..|appDir|] == appDir && r[|appDir|..] == "/composer.json"
  {
    appDir + Separator + ManifestFile
  }

  function DependencyEntries(deps: seq<Dependency>): seq<(string, string)> {
    seq(|deps|, i requires 0 <= i < |deps| => (deps[i].package, deps[i].version))
  }

  /**
   * The manifest after setting `section.name` to `value` for each configured
   * `(name, value)`, one after the other.
   */
  function MergeEntries(j: Json, section: seq<string>, entries: seq<(string, string)>): Json
    decreases |entries|
  {
    if |entries| == 0 then j
    else
      var last := entries[|entries| - 1];
      SetPath(MergeEntries(j, section, entries[..|entries| - 1]), section + [last.0], JString(last.1))
  }

  /** An object's members after setting each configured `(name, value)` in turn. */
  function MergeFields(fields: seq<(string, Json)>, entries: seq<(string, string)>): seq<(string, Json)>
    decreases |entries|
  {
    if |entries| == 0 then fields
    else
      var last := entries[|entries| - 1];
      Put(MergeFields(fields, entries[..|entries| - 1]), last.0, JString(last.1))
  }

  /** Merging one more entry is one more `Put` on the merged members. */
  lemma MergeFieldsAppend(fields: seq<(string, Json)>, entries: seq<(string, string)>, e: (string, string))
    ensures MergeFields(fields, entries + [e]) == Put(MergeFields(fields, entries), e.0, JString(e.1))
  {
    assert (entries + [e])[..|entries|] == entries;
  }

  /** The configured entries as object members, in configuration order. */
  function EntryFields(entries: seq<(string, string)>): seq<(string, Json)> {
    seq(|entries|, i requires 0 <= i < |entries| => (entries[i].0, JString(entries[i].1)))
  }

  /**
   * Merging names the section does not have yet, none of them repeated,
   * appends one member per entry after the existing ones, in configuration
   * order.
   */
  lemma {:induction false} MergeFieldsFresh(fields: seq<(string, Json)>, entries: seq<(string, string)>)
    requires forall i | 0 <= i < |entries| :: entries[i].0 !in Keys(fields)
    requires forall i, m | 0 <= i < m < |entries| :: entries[i].0 != entries[m].0
    ensures MergeFields(fields, entries) == fields + EntryFields(entries)
    decreases |entries|
  {
    if |entries| > 0 {
      var init := entries[..|entries| - 1];
      var last := entries[|entries| - 1];
      MergeFieldsFresh(fields, init);
      LastIsFresh(entries);
      KeysConcat(fields, EntryFields(init));
      PutAppends(fields + EntryFields(init), last.0, JString(last.1));
      EntryFieldsLast(entries);
    }
  }

  lemma LastIsFresh(entries: seq<(string, string)>)
    requires |entries| > 0
    requires forall i, m | 0 <= i < m < |entries| :: entries[i].0 != entries[m].0
    ensures entries[|entries| - 1].0 !in Keys(EntryFields(entries[..|entries| - 1]))
  {
    var init := EntryFields(entries[..|entries| - 1]);
    KeysAt(init);
    assert forall idx | 0 <= idx < |init| :: Keys(init)[idx] != entries[|entries| - 1].0;
  }

  lemma EntryFieldsLast(entries: seq<(string, string)>)
    requires |entries| > 0
    ensures EntryFields(entries) ==
              EntryFields(entries[..|entries| - 1]) + [(entries[|entries| - 1].0, JString(entries[|entries| - 1].1))]
  {
    var init := EntryFields(entries[..|entries| - 1]);
    assert forall i | 0 <= i < |init| :: EntryFields(entries)[i] == init[i];
  }

  /** The configured entries as a dictionary; a later entry wins over an earlier one. */
  ghost function EntriesMap(entries: seq<(string, string)>): map<string, Json>
    decreases |entries|
  {
    if |entries| == 0 then map[]
    else
      var last := entries[|entries| - 1];
      EntriesMap(entries[..|entries| - 1])[last.0 := JString(last.1)]
  }

  /** The comments a merge reports, one per entry: `<caption><name><sep><value>`. */
  function MergeComments(caption: string, sep: string, entries: seq<(string, string)>): seq<(string, string)> {
    seq(|entries|, i requires 0 <= i < |entries| => ("Composer", caption + entries[i].0 + sep + entries[i].1))
  }

  lemma MergeEntriesExtend(j: Json, section: seq<string>, entries: seq<(string, string)>, i: nat)
    requires i < |entries|
    ensures MergeEntries(j, section, entries[..i + 1]) ==
            SetPath(MergeEntries(j, section, entries[..i]), section + [entries[i].0], JString(entries[i].1))
  {
    assert entries[..i + 1][..i] == entries[..i];
  }

  lemma MergeCommentsExtend(said: seq<(string, string)>, caption: string, sep: string, entries: seq<(string, string)>, i: nat)
    requires i < |entries|
    ensures said + MergeComments(caption, sep, entries[..i + 1]) ==
            said + MergeComments(caption, sep, entries[..i]) + [("Composer", caption + entries[i].0 + sep + entries[i].1)]
  {
    assert MergeComments(caption, sep, entries[..i + 1]) ==
           MergeComments(caption, sep, entries[..i]) + [("Composer", caption + entries[i].0 + sep + entries[i].1)];
  }

  function ClassmapComments(paths: seq<string>): seq<(string, string)> {
    seq(|paths|, i requires 0 <= i < |paths| => ("Composer", "Autoload Classmap adding: " + paths[i]))
  }

  lemma ClassmapCommentsExtend(paths: seq<string>, i: nat)
    requires i < |paths|
    ensures ClassmapComments(paths[..i + 1]) ==
            ClassmapComments(paths[..i]) + [("Composer", "Autoload Classmap adding: " + paths[i])]
  {
  }

  function Strings(paths: seq<string>): seq<Json> {
    seq(|paths|, i requires 0 <= i < |paths| => JString(paths[i]))
  }

  /**
   * The manifest after the classmap merge: the configured list replaces
   * `autoload.classmap`; an empty configuration changes nothing.
   */
  function ReplaceClassmap(j: Json, paths: seq<string>): Json {
    if |paths| == 0 then j else SetPath(j, ClassmapPath, JArray(Strings(paths)))
  }

  /**
   * A merge edits the section object, and only by key: existing names are
   * overwritten where they stand, new names are appended in configuration
   * order, other members stay as and where they were.
   */
  lemma {:induction false} MergedSection(j: Json, section: seq<string>, entries: seq<(string, string)>)
    ensures ObjectAt(MergeEntries(j, section, entries), section) == MergeFields(ObjectAt(j, section), entries)
    ensures |entries| > 0 ==>
              GetPath(MergeEntries(j, section, entries), section) == Some(JObject(MergeFields(ObjectAt(j, section), entries)))
    decreases |entries|
  {
    if |entries| > 0 {
      var init := entries[..|entries| - 1];
      var last := entries[|entries| - 1];
      assert MergeEntries(j, section, entries) ==
             SetPath(MergeEntries(j, section, init), section + [last.0], JString(last.1));
      assert MergeFields(ObjectAt(j, section), entries) ==
             Put(MergeFields(ObjectAt(j, section), init), last.0, JString(last.1));
      MergedSection(j, section, init);
      ObjectAfterSet(MergeEntries(j, section, init), section, last.0, JString(last.1));
    }
  }

  /**
   * Seen as a dictionary, the merged object is its old entries overridden
   * by the configured ones: every configured name maps to its (last)
   * configured value, nothing else is added, removed or changed.
   */
  lemma {:induction false} MergeFieldsOverrides(fields: seq<(string, Json)>, entries: seq<(string, string)>)
    ensures AsMap(MergeFields(fields, entries)) == AsMap(fields) + EntriesMap(entries)
    decreases |entries|
  {
    if |entries| > 0 {
      var init := entries[..|entries| - 1];
      var last := entries[|entries| - 1];
      MergeFieldsOverrides(fields, init);
      AsMapPut(MergeFields(fields, init), last.0, JString(last.1));
      UnionUpdate(AsMap(fields), EntriesMap(init), last.0, JString(last.1));
    }
  }

  /** Merging never gives the section a duplicate key. */
  lemma {:induction false} MergeFieldsUnique(fields: seq<(string, Json)>, entries: seq<(string, string)>)
    requires UniqueKeys(fields)
    ensures UniqueKeys(MergeFields(fields, entries))
    decreases |entries|
  {
    if |entries| > 0 {
      var init := entries[..|entries| - 1];
      var last := entries[|entries| - 1];
      MergeFieldsUnique(fields, init);
      PutUniqueKeys(MergeFields(fields, init), last.0, JString(last.1));
    }
  }

  lemma UnionUpdate(a: map<string, Json>, b: map<string, Json>, k: string, v: Json)
    ensures (a + b)[k := v] == a + b[k := v]
  {
  }

  /** A merge leaves every path outside its section as it was. */
  lemma {:induction false} MergeLeavesOthers(j: Json, section: seq<string>, entries: seq<(string, string)>, q: seq<string>)
    requires Diverge(section, q)
    ensures GetPath(MergeEntries(j, section, entries), q) == GetPath(j, q)
    decreases |entries|
  {
    if |entries| > 0 {
      var init := entries[..|entries| - 1];
      var last := entries[|entries| - 1];
      MergeLeavesOthers(j, section, init, q);
      var i :| 0 <= i < |section| && i < |q| && section[i] != q[i];
      assert (section + [last.0])[i] == section[i];
      GetAfterSetOther(MergeEntries(j, section, init), section + [last.0], JString(last.1), q);
    }
  }

  /** A merge never introduces a duplicate key anywhere in the manifest. */
  lemma {:induction false} MergeWellFormed(j: Json, section: seq<string>, entries: seq<(string, string)>)
    requires WellFormed(j)
    ensures WellFormed(MergeEntries(j, section, entries))
    decreases |entries|
  {
    if |entries| > 0 {
      var init := entries[..|entries| - 1];
      var last := entries[|entries| - 1];
      MergeWellFormed(j, section, init);
      SetPathWellFormed(MergeEntries(j, section, init), section + [last.0], JString(last.1));
    }
  }

  /**
   * A merge keeps the manifest's top-level keys in their order; the
   * section's key is appended at the end if it had to be created.
   */
  lemma {:induction false} MergeKeepsKeyOrder(j: Json, section: seq<string>, entries: seq<(string, string)>)
    requires |section| > 0
    ensures Keys(Members(MergeEntries(j, section, entries))) ==
              if |entries| == 0 || section[0] in Keys(Members(j)) then Keys(Members(j))
              else Keys(Members(j)) + [section[0]]
    decreases |entries|
  {
    if |entries| > 0 {
      var init := entries[..|entries| - 1];
      var last := entries[|entries| - 1];
      MergeKeepsKeyOrder(j, section, init);
      SetPathKeyOrder(MergeEntries(j, section, init), section + [last.0], JString(last.1));
    }
  }

  /**
   * After the classmap merge `autoload.classmap` is the configured list, in
   * the configured order, and nothing outside it has changed.
   */
  lemma ClassmapReplaced(j: Json, paths: seq<string>, q: seq<string>)
    requires |paths| > 0
    ensures GetPath(ReplaceClassmap(j, paths), ClassmapPath) == Some(JArray(Strings(paths)))
    ensures Diverge(ClassmapPath, q) ==> GetPath(ReplaceClassmap(j, paths), q) == GetPath(j, q)
  {
    GetAfterSet(j, ClassmapPath, JArray(Strings(paths)));
    if Diverge(ClassmapPath, q) {
      GetAfterSetOther(j, ClassmapPath, JArray(Strings(paths)), q);
    }
  }

  lemma ClassmapWellFormed(j: Json, paths: seq<string>)
    requires WellFormed(j)
    ensures WellFormed(ReplaceClassmap(j, paths))
  {
    if |paths| > 0 {
      SetPathWellFormed(j, ClassmapPath, JArray(Strings(paths)));
    }
  }

  /** The editor: the decoded manifest, edited in place, and its collaborators. */
  class Composer {
    const appDir: string
    const config: Config
    const codec: Codec
    const fs: FileSystem
    const reporter: Reporter
    var manifest: Json

    /** The manifest is what associative decoding can hold: no key repeats. */
    ghost predicate Valid()
      reads this
    {
      WellFormed(manifest)
    }

    constructor Loaded(appDir: string, config: Config, codec: Codec, fs: FileSystem, reporter: Reporter, manifest: Json)
      requires WellFormed(manifest)
      ensures Valid()
      ensures this.appDir == appDir && this.config == config && this.codec == codec
      ensures this.fs == fs && this.reporter == reporter && this.manifest == manifest
    {
      this.appDir := appDir;
      this.config := config;
      this.codec := codec;
      this.fs := fs;
      this.reporter := reporter;
      this.manifest := manifest;
    }

    /**
     * Construction: announces and performs the one read of
     * `<appDir>/composer.json`, and decodes it; a missing file or
     * malformed text is an error.
     */
    static method Open(appDir: string, config: Config, codec: Codec, fs: FileSystem, reporter: Reporter)
      returns (r: Result<Composer>)
      requires DecodesWellFormed(codec)
      modifies fs`gets, reporter
      ensures reporter.comments == old(reporter.comments) + [("Foreman", "Reading composer.json from " + ManifestPath(appDir))]
      ensures fs.gets == old(fs.gets) + [ManifestPath(appDir)]
      ensures ManifestPath(appDir) !in fs.files ==> r == Err(FileNotFound(ManifestPath(appDir)))
      ensures ManifestPath(appDir) in fs.files && codec.decode(fs.files[ManifestPath(appDir)]).None? ==>
                r == Err(MalformedJson(ManifestPath(appDir)))
      ensures ManifestPath(appDir) in fs.files && codec.decode(fs.files[ManifestPath(appDir)]).Some? ==>
                && r.Ok? && fresh(r.value)
                && r.value.manifest == codec.decode(fs.files[ManifestPath(appDir)]).value
                && r.value.appDir == appDir && r.value.config == config && r.value.codec == codec
                && r.value.fs == fs && r.value.reporter == reporter
                && r.value.Valid()
    {
      var path := ManifestPath(appDir);
      reporter.Comment("Foreman", "Reading composer.json from " + path);
      var text := fs.Get(path);
      if text.None? {
        return Err(FileNotFound(path));
      }
      var decoded := codec.decode(text.value);
      if decoded.None? {
        return Err(MalformedJson(path));
      }
      assert WellFormed(codec.decode(text.value).value);
      var c := new Composer.Loaded(appDir, config, codec, fs, reporter, decoded.value);
      r := Ok(c);
    }

    function Path(): string {
      ManifestPath(appDir)
    }

    /** The decoded manifest as it stands. */
    function ComposerArray(): (r: Json)
      requires Valid()
      reads this
      ensures WellFormed(r)
    {
      manifest
    }

    /** The manifest as it stands, encoded; text that decodes back to it whenever the library round-trips it. */
    function ComposerJson(): (r: string)
      reads this
      ensures codec.decode(codec.encode(manifest)) == Some(manifest) ==> codec.decode(r) == Some(manifest)
    {
      codec.encode(manifest)
    }

    /** Reports one configured entry and sets `section.name` to `value`. */
    method MergeOne(section: seq<string>, caption: string, sep: string, name: string, value: string)
      modifies this`manifest, reporter
      ensures manifest == SetPath(old(manifest), section + [name], JString(value))
      ensures reporter.comments == old(reporter.comments) + [("Composer", caption + name + sep + value)]
    {
      reporter.Comment("Composer", caption + name + sep + value);
      manifest := SetPath(manifest, section + [name], JString(value));
    }

    /** Sets `section.name := value` for each entry, reporting each one first. */
    method Merge(section: seq<string>, caption: string, sep: string, entries: seq<(string, string)>)
      modifies this`manifest, reporter
      ensures manifest == MergeEntries(old(manifest), section, entries)
      ensures reporter.comments == old(reporter.comments) + MergeComments(caption, sep, entries)
    {
      for i := 0 to |entries|
        invariant manifest == MergeEntries(old(manifest), section, entries[..i])
        invariant reporter.comments == old(reporter.comments) + MergeComments(caption, sep, entries[..i])
      {
        MergeEntryAt(section, caption, sep, entries, i, old(manifest), old(reporter.comments));
      }
      assert entries[..|entries|] == entries;
    }

    /** One turn of the merge loop: the `i`-th entry reported and set. */
    method MergeEntryAt(section: seq<string>, caption: string, sep: string, entries: seq<(string, string)>, i: nat,
                        ghost start: Json, ghost said: seq<(string, string)>)
      requires i < |entries|
      requires manifest == MergeEntries(start, section, entries[..i])
      requires reporter.comments == said + MergeComments(caption, sep, entries[..i])
      modifies this`manifest, reporter
      ensures manifest == MergeEntries(start, section, entries[..i + 1])
      ensures reporter.comments == said + MergeComments(caption, sep, entries[..i + 1])
    {
      MergeOne(section, caption, sep, entries[i].0, entries[i].1);
      MergeEntriesExtend(start, section, entries, i);
      MergeCommentsExtend(said, caption, sep, entries, i);
    }

    method RequirePackages()
      requires Valid()
      modifies this`manifest, reporter
      ensures Valid()
      ensures manifest == MergeEntries(old(manifest), RequirePath, DependencyEntries(config.require))
      ensures reporter.comments == old(reporter.comments) + MergeComments("Require: ", " ", DependencyEntries(config.require))
    {
      Merge(RequirePath, "Require: ", " ", DependencyEntries(config.require));
      MergeWellFormed(old(manifest), RequirePath, DependencyEntries(config.require));
    }

    method RequireDevPackages()
      requires Valid()
      modifies this`manifest, reporter
      ensures Valid()
      ensures manifest == MergeEntries(old(manifest), RequireDevPath, DependencyEntries(config.requireDev))
      ensures reporter.comments == old(reporter.comments) + MergeComments("Require Dev: ", " ", DependencyEntries(config.requireDev))
    {
      Merge(RequireDevPath, "Require Dev: ", " ", DependencyEntries(config.requireDev));
      MergeWellFormed(old(manifest), RequireDevPath, DependencyEntries(config.requireDev));
    }

    method AutoloadPsr0()
      requires Valid()
      modifies this`manifest, reporter
      ensures Valid()
      ensures manifest == MergeEntries(old(manifest), Psr0Path, config.psr0)
      ensures reporter.comments == old(reporter.comments) + MergeComments("Adding PSR0 entry ", " => ", config.psr0)
    {
      Merge(Psr0Path, "Adding PSR0 entry ", " => ", config.psr0);
      MergeWellFormed(old(manifest), Psr0Path, config.psr0);
    }

    method AutoloadPsr4()
      requires Valid()
      modifies this`manifest, reporter
      ensures Valid()
      ensures manifest == MergeEntries(old(manifest), Psr4Path, config.psr4)
      ensures reporter.comments == old(reporter.comments) + MergeComments("Adding PSR4 entry ", " => ", config.psr4)
    {
      Merge(Psr4Path, "Adding PSR4 entry ", " => ", config.psr4);
      MergeWellFormed(old(manifest), Psr4Path, config.psr4);
    }

    /** Reports every configured classmap path, then installs the list. */
    method AutoloadClassmap()
      requires Valid()
      modifies this`manifest, reporter
      ensures Valid()
      ensures manifest == ReplaceClassmap(old(manifest), config.classmap)
      ensures reporter.comments == old(reporter.comments) + ClassmapComments(config.classmap)
    {
      var paths := config.classmap;
      for i := 0 to |paths|
        invariant manifest == old(manifest)
        invariant reporter.comments == old(reporter.comments) + ClassmapComments(paths[..i])
      {
        reporter.Comment("Composer", "Autoload Classmap adding: " + paths[i]);
        ClassmapCommentsExtend(paths, i);
      }
      assert paths[..|paths|] == paths;
      if |paths| > 0 {
        manifest := SetPath(manifest, ClassmapPath, JArray(Strings(paths)));
      }
      ClassmapWellFormed(old(manifest), paths);
    }

    /** Announces the write, then replaces the manifest file with the encoded manifest. */
    method WriteComposerJson()
      modifies fs`files, fs`puts, reporter
      ensures reporter.comments == old(reporter.comments) + [("Foreman", "Writing composer file to " + Path())]
      ensures fs.puts == old(fs.puts) + [(Path(), ComposerJson())]
      ensures fs.files == old(fs.files)[Path() := ComposerJson()]
    {
      var path := Path();
      reporter.Comment("Foreman", "Writing composer file to " + path);
      fs.Put(path, ComposerJson());
    }
  }
}
