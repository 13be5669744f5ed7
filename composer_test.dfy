/**
 * The editor's unit tests as scenarios. Each one builds a filesystem that
 * holds the fixture manifest text at `/path/to/app/composer.json` and a
 * recording reporter, opens the editor on them with the fixture
 * configuration, runs one operation, and returns what the test inspects.
 * The JSON library is a parameter: each scenario only assumes that it
 * decodes the fixture text to the fixture manifest, that it never decodes
 * to an object with a repeated key (as PHP arrays cannot hold one), and,
 * where the test compares text, that it encodes the manifest back to the
 * same text.
 */
module ComposerTest {
  import opened Json
  import opened Collaborators
  import opened Construction

  const AppDir: string := "/path/to/app"
  /** The manifest path as the tests build it: directory, separator, file name. */
  const ComposerPath: string := AppDir + "/" + "composer.json"

  /** The test configuration (`getConfig`). */
  function FixtureConfig(): Config {
    Config(
      [Dependency("laravel/framework", "4.1.*"),
       Dependency("nesbot/Carbon", "*"),
       Dependency("doctrine/inflector", "1.0.*@dev")],
      [Dependency("mockery/mockery", "dev-master@dev"),
       Dependency("fzaninotto/faker", "1.3.*"),
       Dependency("squizlabs/php_codesniffer", "*")],
      FixtureClassmapConfig(),
      [("Acme", "app/lib")],
      [("Foo\\Bar\\", "src/Foo/Bar/")])
  }

  function FixtureClassmapConfig(): seq<string> {
    ["app/lib", "app/commands", "app/controllers", "app/models",
     "app/database/migrations", "app/database/seeds", "app/test/TestCase.php"]
  }

  /** The fixture manifest (`getComposerJson`), decoded. */
  function FixtureManifest(): Json {
    JObject(FixtureFields())
  }

  function FixtureFields(): seq<(string, Json)> {
    [("name", JString("laravel/laravel")),
     ("description", JString("The Laravel Framework.")),
     ("keywords", JArray([JString("framework"), JString("laravel")])),
     ("license", JString("MIT")),
     ("require", JObject(FixtureRequire())),
     ("autoload", JObject(FixtureAutoload())),
     ("scripts", FixtureScripts()),
     ("config", JObject([("preferred-install", JString("dist"))])),
     ("minimum-stability", JString("stable"))]
  }

  function FixtureRequire(): seq<(string, Json)> {
    [("laravel/framework", JString("4.1.*"))]
  }

  function FixtureAutoload(): seq<(string, Json)> {
    [("classmap", FixtureClassmap())]
  }

  function FixtureClassmap(): Json {
    JArray([
      JString("app/commands"), JString("app/controllers"), JString("app/models"),
      JString("app/database/migrations"), JString("app/database/seeds"),
      JString("app/tests/TestCase.php")])
  }

  function FixtureScripts(): Json {
    JObject([
      ("post-install-cmd", JArray([JString("php artisan clear-compiled"), JString("php artisan optimize")])),
      ("post-update-cmd", JArray([JString("php artisan clear-compiled"), JString("php artisan optimize")])),
      ("post-create-project-cmd", JArray([JString("php artisan key:generate")]))])
  }

  /** The manifest of the second `require-dev` test: the fixture plus one development package. */
  function ManifestWithRequireDev(): Json {
    SetPath(FixtureManifest(), RequireDevPath, JObject(ExistingRequireDev()))
  }

  function ExistingRequireDev(): seq<(string, Json)> {
    [("mockery/mockery", JString("dev-master@dev"))]
  }

  function RequireEntries(): seq<(string, string)> {
    [("laravel/framework", "4.1.*"), ("nesbot/Carbon", "*"), ("doctrine/inflector", "1.0.*@dev")]
  }

  function RequireDevEntries(): seq<(string, string)> {
    [("mockery/mockery", "dev-master@dev"), ("fzaninotto/faker", "1.3.*"), ("squizlabs/php_codesniffer", "*")]
  }

  /** The packages `testRequirePackages` expects under `require`. */
  function ExpectedRequire(): seq<(string, Json)> {
    [("laravel/framework", JString("4.1.*")),
     ("nesbot/Carbon", JString("*")),
     ("doctrine/inflector", JString("1.0.*@dev"))]
  }

  /** The packages both `require-dev` tests expect. */
  function ExpectedRequireDev(): seq<(string, Json)> {
    [("mockery/mockery", JString("dev-master@dev")),
     ("fzaninotto/faker", JString("1.3.*")),
     ("squizlabs/php_codesniffer", JString("*"))]
  }

  /** The list `testAutoloadClassmap` expects. */
  function ExpectedClassmap(): Json {
    JArray([
      JString("app/lib"), JString("app/commands"), JString("app/controllers"), JString("app/models"),
      JString("app/database/migrations"), JString("app/database/seeds"), JString("app/test/TestCase.php")])
  }

  // The comments the tests expect, written as the tests interpolate them.

  function ReadingComment(): (string, string) {
    ("Foreman", "Reading composer.json from " + ComposerPath)
  }

  function WritingComment(): (string, string) {
    ("Foreman", "Writing composer file to " + ComposerPath)
  }

  function RequireMessages(): seq<(string, string)> {
    [("Composer", "Require: " + "laravel/framework" + " " + "4.1.*"),
     ("Composer", "Require: " + "nesbot/Carbon" + " " + "*"),
     ("Composer", "Require: " + "doctrine/inflector" + " " + "1.0.*@dev")]
  }

  function RequireDevMessages(): seq<(string, string)> {
    [("Composer", "Require Dev: " + "mockery/mockery" + " " + "dev-master@dev"),
     ("Composer", "Require Dev: " + "fzaninotto/faker" + " " + "1.3.*"),
     ("Composer", "Require Dev: " + "squizlabs/php_codesniffer" + " " + "*")]
  }

  function ClassmapMessages(): seq<(string, string)> {
    [("Composer", "Autoload Classmap adding: " + "app/lib"),
     ("Composer", "Autoload Classmap adding: " + "app/commands"),
     ("Composer", "Autoload Classmap adding: " + "app/controllers"),
     ("Composer", "Autoload Classmap adding: " + "app/models"),
     ("Composer", "Autoload Classmap adding: " + "app/database/migrations"),
     ("Composer", "Autoload Classmap adding: " + "app/database/seeds"),
     ("Composer", "Autoload Classmap adding: " + "app/test/TestCase.php")]
  }

  // Facts about the fixture, one lookup or one merge at a time.

  lemma ManifestPathIs()
    ensures ManifestPath(AppDir) == ComposerPath
  {
  }

  lemma RequireFound()
    ensures Find(FixtureFields(), "require") == Some(JObject(FixtureRequire()))
  {
  }

  lemma AutoloadFound()
    ensures Find(FixtureFields(), "autoload") == Some(JObject(FixtureAutoload()))
  {
  }

  lemma RequireDevMissing()
    ensures Find(FixtureFields(), "require-dev") == None
  {
  }

  lemma RequireBefore()
    ensures ObjectAt(FixtureManifest(), RequirePath) == FixtureRequire()
  {
    RequireFound();
  }

  lemma RequireDevBefore()
    ensures GetPath(FixtureManifest(), RequireDevPath) == None
    ensures ObjectAt(FixtureManifest(), RequireDevPath) == []
  {
    RequireDevMissing();
  }

  lemma ClassmapBefore()
    ensures GetPath(FixtureManifest(), ClassmapPath) == Some(FixtureClassmap())
  {
    AutoloadFound();
  }

  lemma Psr0Before()
    ensures GetPath(FixtureManifest(), Psr0Path) == None
    ensures ObjectAt(FixtureManifest(), Psr0Path) == []
  {
    AutoloadFound();
  }

  lemma Psr4Before()
    ensures GetPath(FixtureManifest(), Psr4Path) == None
    ensures ObjectAt(FixtureManifest(), Psr4Path) == []
  {
    AutoloadFound();
  }

  // The fixture holds no repeated key, so a library that decodes faithfully can produce it.

  const FixtureKeyList: seq<string> :=
    ["name", "description", "keywords", "license", "require", "autoload", "scripts", "config", "minimum-stability"]

  lemma FixtureKeys()
    ensures Keys(FixtureFields()) == FixtureKeyList
  {
    NineKeys(FixtureFields());
  }

  /** The keys of a nine-member object, listed. */
  lemma NineKeys(fields: seq<(string, Json)>)
    requires |fields| == 9
    ensures Keys(fields) == [fields[0].0, fields[1].0, fields[2].0, fields[3].0, fields[4].0,
                             fields[5].0, fields[6].0, fields[7].0, fields[8].0]
  {
    KeysAt(fields);
  }

  /** The nine top-level keys start with nine different letters. */
  lemma FixtureKeysDistinct()
    ensures Distinct(FixtureKeyList)
  {
    var ks := FixtureKeyList;
    var initials := "ndklrascm";
    assert forall i | 0 <= i < |ks| :: |ks[i]| > 0 && ks[i][0] == initials[i];
    assert forall i, m | 0 <= i < m < |initials| :: initials[i] != initials[m];
    DistinctIf(ks);
  }

  lemma RequireWellFormed()
    ensures WellFormed(JObject(FixtureRequire()))
  {
    assert Keys(FixtureRequire()) == ["laravel/framework"];
  }

  lemma AutoloadWellFormed()
    ensures WellFormed(JObject(FixtureAutoload()))
  {
    assert Keys(FixtureAutoload()) == ["classmap"];
    assert WellFormed(FixtureClassmap());
  }

  lemma ScriptsWellFormed()
    ensures WellFormed(FixtureScripts())
  {
    var ks := ["post-install-cmd", "post-update-cmd", "post-create-project-cmd"];
    assert Keys(FixtureScripts().fields) == ks;
    assert ks[0][5] == 'i' && ks[1][5] == 'u' && ks[2][5] == 'c';
    DistinctIf(ks);
  }

  lemma KeywordsWellFormed()
    ensures WellFormed(JArray([JString("framework"), JString("laravel")]))
  {
  }

  lemma ConfigWellFormed()
    ensures WellFormed(JObject([("preferred-install", JString("dist"))]))
  {
    assert Keys([("preferred-install", JString("dist"))]) == ["preferred-install"];
  }

  lemma FixtureUniqueKeys()
    ensures UniqueKeys(FixtureFields())
  {
    FixtureKeys();
    FixtureKeysDistinct();
  }

  lemma FixtureValuesWellFormed()
    ensures WellFormed(FixtureFields()[0].1) && WellFormed(FixtureFields()[1].1) && WellFormed(FixtureFields()[2].1)
    ensures WellFormed(FixtureFields()[3].1) && WellFormed(FixtureFields()[4].1)
  {
    KeywordsWellFormed();
    RequireWellFormed();
  }

  lemma FixtureNestedWellFormed()
    ensures WellFormed(FixtureFields()[5].1) && WellFormed(FixtureFields()[6].1)
    ensures WellFormed(FixtureFields()[7].1) && WellFormed(FixtureFields()[8].1)
  {
    AutoloadWellFormed();
    ScriptsWellFormed();
    ConfigWellFormed();
  }

  lemma FixtureWellFormed()
    ensures WellFormed(FixtureManifest())
  {
    FixtureValuesWellFormed();
    FixtureNestedWellFormed();
    NineValuesWellFormed(FixtureFields());
    FixtureUniqueKeys();
    ObjectWellFormed(FixtureFields());
  }

  /** Nine member values that are each well formed, as one quantified fact. */
  lemma NineValuesWellFormed(fields: seq<(string, Json)>)
    requires |fields| == 9
    requires WellFormed(fields[0].1) && WellFormed(fields[1].1) && WellFormed(fields[2].1)
    requires WellFormed(fields[3].1) && WellFormed(fields[4].1) && WellFormed(fields[5].1)
    requires WellFormed(fields[6].1) && WellFormed(fields[7].1) && WellFormed(fields[8].1)
    ensures forall i | 0 <= i < |fields| :: WellFormed(fields[i].1)
  {
    forall i | 0 <= i < |fields|
      ensures WellFormed(fields[i].1)
    {
      if i == 0 {
      } else if i == 1 {
      } else if i == 2 {
      } else if i == 3 {
      } else if i == 4 {
      } else if i == 5 {
      } else if i == 6 {
      } else if i == 7 {
      } else {
        assert i == 8;
      }
    }
  }

  lemma ExistingRequireDevWellFormed()
    ensures WellFormed(JObject(ExistingRequireDev()))
  {
    assert Keys(ExistingRequireDev()) == ["mockery/mockery"];
  }

  lemma ManifestWithRequireDevWellFormed()
    ensures WellFormed(ManifestWithRequireDev())
  {
    FixtureWellFormed();
    ExistingRequireDevWellFormed();
    SetPathWellFormed(FixtureManifest(), RequireDevPath, JObject(ExistingRequireDev()));
  }

  /** A JSON library that knows one text: it decodes `text` to `m` and encodes everything as `text`. */
  function OneTextCodec(text: string, m: Json): Codec {
    Codec((t: string) => if t == text then Some(m) else None, (j: Json) => text)
  }

  /** Such a library meets what the scenarios ask of the JSON library whenever `m` is well formed. */
  lemma OneTextCodecFits(text: string, m: Json)
    requires WellFormed(m)
    ensures DecodesWellFormed(OneTextCodec(text, m))
    ensures OneTextCodec(text, m).decode(text) == Some(m) && OneTextCodec(text, m).encode(m) == text
  {
    var codec := OneTextCodec(text, m);
    forall t | codec.decode(t).Some?
      ensures WellFormed(codec.decode(t).value)
    {
      assert t == text;
    }
  }

  /** Every scenario can be entered: some library decodes some text to each fixture manifest. */
  lemma ScenariosSatisfiable(text: string)
    ensures DecodesWellFormed(OneTextCodec(text, FixtureManifest()))
    ensures OneTextCodec(text, FixtureManifest()).decode(text) == Some(FixtureManifest())
    ensures OneTextCodec(text, FixtureManifest()).encode(FixtureManifest()) == text
    ensures DecodesWellFormed(OneTextCodec(text, ManifestWithRequireDev()))
    ensures OneTextCodec(text, ManifestWithRequireDev()).decode(text) == Some(ManifestWithRequireDev())
  {
    FixtureWellFormed();
    OneTextCodecFits(text, FixtureManifest());
    ManifestWithRequireDevWellFormed();
    OneTextCodecFits(text, ManifestWithRequireDev());
  }

  lemma ConfiguredRequire()
    ensures DependencyEntries(FixtureConfig().require) == RequireEntries()
    ensures DependencyEntries(FixtureConfig().requireDev) == RequireDevEntries()
  {
  }

  /** Merging three entries is three `Put`s, in configuration order. */
  lemma MergeThree(fields: seq<(string, Json)>, a: (string, string), b: (string, string), c: (string, string))
    ensures MergeFields(fields, [a, b, c]) ==
              Put(Put(Put(fields, a.0, JString(a.1)), b.0, JString(b.1)), c.0, JString(c.1))
  {
    var one := Put(fields, a.0, JString(a.1));
    var two := Put(one, b.0, JString(b.1));
    assert MergeFields(fields, [a]) == one by {
      MergeFieldsAppend(fields, [], a);
      assert [] + [a] == [a];
    }
    assert MergeFields(fields, [a, b]) == two by {
      MergeFieldsAppend(fields, [a], b);
      assert [a] + [b] == [a, b];
    }
    MergeFieldsAppend(fields, [a, b], c);
    assert [a, b] + [c] == [a, b, c];
  }

  lemma RequireMerged()
    ensures MergeFields(FixtureRequire(), RequireEntries()) == ExpectedRequire()
  {
    MergeThree(FixtureRequire(), RequireEntries()[0], RequireEntries()[1], RequireEntries()[2]);
    PutRequire();
  }

  lemma PutRequire()
    ensures Put(FixtureRequire(), "laravel/framework", JString("4.1.*")) == FixtureRequire()
    ensures Put(FixtureRequire(), "nesbot/Carbon", JString("*")) == ExpectedRequire()[..2]
    ensures Put(ExpectedRequire()[..2], "doctrine/inflector", JString("1.0.*@dev")) == ExpectedRequire()
  {
  }

  lemma RequireDevCreated()
    ensures MergeFields([], RequireDevEntries()) == ExpectedRequireDev()
  {
    MergeThree([], RequireDevEntries()[0], RequireDevEntries()[1], RequireDevEntries()[2]);
    PutRequireDev();
    PutRequireDevLast();
  }

  /** The package already present keeps its place; the other two follow it. */
  lemma RequireDevOverwritten()
    ensures MergeFields(ExistingRequireDev(), RequireDevEntries()) == ExpectedRequireDev()
  {
    MergeThree(ExistingRequireDev(), RequireDevEntries()[0], RequireDevEntries()[1], RequireDevEntries()[2]);
    PutRequireDev();
    PutRequireDevLast();
  }

  lemma PutRequireDev()
    ensures Put([], "mockery/mockery", JString("dev-master@dev")) == ExistingRequireDev()
    ensures Put(ExistingRequireDev(), "mockery/mockery", JString("dev-master@dev")) == ExistingRequireDev()
    ensures Put(ExistingRequireDev(), "fzaninotto/faker", JString("1.3.*")) == ExpectedRequireDev()[..2]
  {
  }

  lemma PutRequireDevLast()
    ensures Put(ExpectedRequireDev()[..2], "squizlabs/php_codesniffer", JString("*")) == ExpectedRequireDev()
  {
  }

  lemma RequireDevExisting()
    ensures ObjectAt(ManifestWithRequireDev(), RequireDevPath) == ExistingRequireDev()
  {
    GetAfterSet(FixtureManifest(), RequireDevPath, JObject(ExistingRequireDev()));
  }

  lemma ClassmapStrings()
    ensures JArray(Strings(FixtureConfig().classmap)) == ExpectedClassmap()
  {
  }

  lemma RequireComments()
    ensures MergeComments("Require: ", " ", RequireEntries()) == RequireMessages()
  {
  }

  lemma RequireDevComments()
    ensures MergeComments("Require Dev: ", " ", RequireDevEntries()) == RequireDevMessages()
  {
  }

  lemma ClassmapCommentsAre()
    ensures ClassmapComments(FixtureConfig().classmap) == ClassmapMessages()
  {
  }

  /** `autoload.psr-0` and `autoload.psr-4` both part ways with `autoload.classmap`. */
  lemma AutoloadPathsDiverge()
    ensures Diverge(Psr0Path, ClassmapPath) && Diverge(Psr4Path, ClassmapPath)
  {
    assert Psr0Path[1] != ClassmapPath[1];
    assert Psr4Path[1] != ClassmapPath[1];
  }

  /** The editor opened, as every test opens it, on a filesystem holding `text` at the manifest path. */
  method OpenFixture(codec: Codec, text: string, m: Json) returns (c: Composer)
    requires DecodesWellFormed(codec) && codec.decode(text) == Some(m)
    ensures fresh(c) && fresh(c.fs) && fresh(c.reporter)
    ensures c.Valid()
    ensures c.appDir == AppDir && c.config == FixtureConfig() && c.codec == codec && c.manifest == m
    ensures c.reporter.comments == [ReadingComment()]
    ensures c.fs.files == map[ComposerPath := text] && c.fs.gets == [ComposerPath] && c.fs.puts == []
  {
    ManifestPathIs();
    var fs := new FileSystem(map[ComposerPath := text]);
    var reporter := new Reporter();
    var r := Composer.Open(AppDir, FixtureConfig(), codec, fs, reporter);
    c := r.value;
  }

  /** `testReadComposerJson`: one announced read of the manifest path, and the decoded manifest. */
  method TestReadComposerJson(codec: Codec, text: string) returns (manifest: Json, comments: seq<(string, string)>, gets: seq<string>)
    requires DecodesWellFormed(codec) && codec.decode(text) == Some(FixtureManifest())
    ensures manifest == FixtureManifest()
    ensures comments == [ReadingComment()]
    ensures gets == [ComposerPath]
  {
    var c := OpenFixture(codec, text, FixtureManifest());
    manifest := c.ComposerArray();
    comments := c.reporter.comments;
    gets := c.fs.gets;
  }

  /** `testRequirePackages`: the configured packages merged into `require`, one comment each. */
  method TestRequirePackages(codec: Codec, text: string) returns (require: Option<Json>, comments: seq<(string, string)>)
    requires DecodesWellFormed(codec) && codec.decode(text) == Some(FixtureManifest())
    ensures require == Some(JObject(ExpectedRequire()))
    ensures comments == [ReadingComment()] + RequireMessages()
  {
    var c := OpenFixture(codec, text, FixtureManifest());
    c.RequirePackages();
    require := GetPath(c.ComposerArray(), RequirePath);
    comments := c.reporter.comments;
    ConfiguredRequire();
    MergedSection(FixtureManifest(), RequirePath, RequireEntries());
    RequireBefore();
    RequireMerged();
    RequireComments();
  }

  /** `testRequireDevPackagesWithNoReqDevAlready`: `require-dev` is created with the three packages. */
  method TestRequireDevPackagesWithNoReqDevAlready(codec: Codec, text: string)
    returns (requireDev: Option<Json>, comments: seq<(string, string)>)
    requires DecodesWellFormed(codec) && codec.decode(text) == Some(FixtureManifest())
    ensures requireDev == Some(JObject(ExpectedRequireDev()))
    ensures comments == [ReadingComment()] + RequireDevMessages()
  {
    var c := OpenFixture(codec, text, FixtureManifest());
    c.RequireDevPackages();
    requireDev := GetPath(c.ComposerArray(), RequireDevPath);
    comments := c.reporter.comments;
    ConfiguredRequire();
    MergedSection(FixtureManifest(), RequireDevPath, RequireDevEntries());
    RequireDevBefore();
    RequireDevCreated();
    RequireDevComments();
  }

  /** `testRequireDevPackagesWithExistingReqDev`: the package already present is overwritten in place. */
  method TestRequireDevPackagesWithExistingReqDev(codec: Codec, text: string)
    returns (requireDev: Option<Json>, comments: seq<(string, string)>)
    requires DecodesWellFormed(codec) && codec.decode(text) == Some(ManifestWithRequireDev())
    ensures requireDev == Some(JObject(ExpectedRequireDev()))
    ensures comments == [ReadingComment()] + RequireDevMessages()
  {
    var c := OpenFixture(codec, text, ManifestWithRequireDev());
    c.RequireDevPackages();
    requireDev := GetPath(c.ComposerArray(), RequireDevPath);
    comments := c.reporter.comments;
    ConfiguredRequire();
    MergedSection(ManifestWithRequireDev(), RequireDevPath, RequireDevEntries());
    RequireDevExisting();
    RequireDevOverwritten();
    RequireDevComments();
  }

  /** `testAutoloadClassmap`: `autoload.classmap` becomes the configured list, one comment per path. */
  method TestAutoloadClassmap(codec: Codec, text: string) returns (classmap: Option<Json>, comments: seq<(string, string)>)
    requires DecodesWellFormed(codec) && codec.decode(text) == Some(FixtureManifest())
    ensures classmap == Some(ExpectedClassmap())
    ensures comments == [ReadingComment()] + ClassmapMessages()
  {
    var c := OpenFixture(codec, text, FixtureManifest());
    c.AutoloadClassmap();
    classmap := GetPath(c.ComposerArray(), ClassmapPath);
    comments := c.reporter.comments;
    ClassmapReplaced(FixtureManifest(), FixtureConfig().classmap, ClassmapPath);
    ClassmapStrings();
    ClassmapCommentsAre();
  }

  /** `testAutoloadPsr0`: `autoload.psr-0` is created with the mapping; the classmap beside it is kept. */
  method TestAutoloadPsr0(codec: Codec, text: string)
    returns (psr0: Option<Json>, classmap: Option<Json>, comments: seq<(string, string)>)
    requires DecodesWellFormed(codec) && codec.decode(text) == Some(FixtureManifest())
    ensures psr0 == Some(JObject([("Acme", JString("app/lib"))]))
    ensures classmap == Some(FixtureClassmap())
    ensures comments == [ReadingComment(), ("Composer", "Adding PSR0 entry " + "Acme" + " => " + "app/lib")]
  {
    var c := OpenFixture(codec, text, FixtureManifest());
    c.AutoloadPsr0();
    psr0 := GetPath(c.ComposerArray(), Psr0Path);
    classmap := GetPath(c.ComposerArray(), ClassmapPath);
    comments := c.reporter.comments;
    MergedSection(FixtureManifest(), Psr0Path, FixtureConfig().psr0);
    Psr0Before();
    AutoloadPathsDiverge();
    MergeLeavesOthers(FixtureManifest(), Psr0Path, FixtureConfig().psr0, ClassmapPath);
    ClassmapBefore();
  }

  /** `testAutoloadPsr4`: `autoload.psr-4` is created with the mapping; the classmap beside it is kept. */
  method TestAutoloadPsr4(codec: Codec, text: string)
    returns (psr4: Option<Json>, classmap: Option<Json>, comments: seq<(string, string)>)
    requires DecodesWellFormed(codec) && codec.decode(text) == Some(FixtureManifest())
    ensures psr4 == Some(JObject([("Foo\\Bar\\", JString("src/Foo/Bar/"))]))
    ensures classmap == Some(FixtureClassmap())
    ensures comments == [ReadingComment(), ("Composer", "Adding PSR4 entry " + "Foo\\Bar\\" + " => " + "src/Foo/Bar/")]
  {
    var c := OpenFixture(codec, text, FixtureManifest());
    c.AutoloadPsr4();
    psr4 := GetPath(c.ComposerArray(), Psr4Path);
    classmap := GetPath(c.ComposerArray(), ClassmapPath);
    comments := c.reporter.comments;
    MergedSection(FixtureManifest(), Psr4Path, FixtureConfig().psr4);
    Psr4Before();
    AutoloadPathsDiverge();
    MergeLeavesOthers(FixtureManifest(), Psr4Path, FixtureConfig().psr4, ClassmapPath);
    ClassmapBefore();
  }

  /**
   * `testGetComposerJson`: with nothing merged, the encoded manifest is the
   * text that was read, given a library that re-encodes the fixture as it was.
   */
  method TestGetComposerJson(codec: Codec, text: string) returns (json: string)
    requires DecodesWellFormed(codec) && codec.decode(text) == Some(FixtureManifest())
    requires codec.encode(FixtureManifest()) == text
    ensures json == text
  {
    var c := OpenFixture(codec, text, FixtureManifest());
    json := c.ComposerJson();
  }

  /**
   * `getComposerJson` for any application directory and configuration: an
   * editor opened on a manifest text that the library decodes to `m` and
   * encodes back from `m` hands out that same text.
   */
  method ComposerJsonRoundTrip(appDir: string, config: Config, codec: Codec, text: string, m: Json)
    returns (json: string)
    requires DecodesWellFormed(codec) && codec.decode(text) == Some(m) && codec.encode(m) == text
    ensures json == text
  {
    var fs := new FileSystem(map[ManifestPath(appDir) := text]);
    var reporter := new Reporter();
    var r := Composer.Open(appDir, config, codec, fs, reporter);
    json := r.value.ComposerJson();
  }

  /** `testWriteComposerJson`: one announced write of the encoded manifest to the manifest path. */
  method TestWriteComposerJson(codec: Codec, text: string)
    returns (puts: seq<(string, string)>, comments: seq<(string, string)>)
    requires DecodesWellFormed(codec) && codec.decode(text) == Some(FixtureManifest())
    requires codec.encode(FixtureManifest()) == text
    ensures puts == [(ComposerPath, text)]
    ensures comments == [ReadingComment(), WritingComment()]
  {
    var c := OpenFixture(codec, text, FixtureManifest());
    ManifestPathIs();
    c.WriteComposerJson();
    puts := c.fs.puts;
    comments := c.reporter.comments;
  }
}
