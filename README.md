# Composer manifest editor

A model of `Construction\Composer`, the class that a project-scaffolding
build command uses to edit an application's `composer.json`. Its
observable contract is fixed by the unit tests in
`tests/Construction/ComposerTest.php`. The class's own implementation
file is not part of this model; the behaviour modelled here is what those
tests require of the class.

The editor:

- is given an application directory, a configuration, a filesystem and the
  build command that receives its progress comments;
- announces and performs one read of `<appDir>/composer.json` and keeps
  the decoded manifest;
- merges five configured sections into the manifest in place, reporting
  one `comment("Composer", …)` per configured item:
  - runtime packages go into `require`;
  - development packages go into `require-dev`;
  - classmap paths go into `autoload.classmap`;
  - PSR-0 mappings go into `autoload.psr-0`;
  - PSR-4 mappings go into `autoload.psr-4`;
- returns the encoded manifest, or writes it back to the same path after
  announcing the write.

The model has four modules:

- `Json` (json.dfy) is the decoded manifest. A JSON value has objects as
  ordered key/value sequences. The module also has the two dotted-key
  helpers:
  - `GetPath` is `array_get`, the read the test of `autoloadClassmap`,
    `autoloadPsr0` and `autoloadPsr4` makes with the class's dotted
    constants;
  - `SetPath` is the matching dotted write. The tests show only reads, so
    this write is inferred from what they read back. It is get-or-create,
    in the manner of `array_set`: every step reuses the object found under
    the key, and replaces anything else with a fresh empty object.

  Setting one key (`Put`) overwrites an existing entry where it stands, or
  appends a new one at the end.
- `Collaborators` (collaborators.dfy) holds the filesystem and the
  reporter. Both are classes that record every call made on them.
- `Construction` (construction.dfy) holds:
  - the configuration;
  - the `Composer` class, whose manifest is a field its methods reassign
    and whose merge is a loop over the configured entries. Its invariant
    `Valid` says the manifest holds no repeated key, as a decoded PHP
    array cannot;
  - the functions that specify what each loop computes (`MergeEntries`,
    `MergeFields`, `MergeComments`, `ReplaceClassmap`);
  - the lemmas about them.
- `ComposerTest` (composer_test.dfy) holds:
  - the two fixtures (`getConfig`, `getComposerJson` decoded);
  - one scenario method per test, which opens the editor on a fresh
    filesystem and reporter, runs the operation, and returns what the test
    inspects;
  - the lemmas that compute the fixture's expected values step by step.

The JSON library is a parameter: a `Codec` holds a decoding function and
an encoding function. A scenario assumes only what its test relies on:

- that decoding the fixture text gives the fixture manifest;
- that the library never decodes to an object with a repeated key
  (`DecodesWellFormed`);
- where the test compares text, that encoding the fixture manifest gives
  the fixture text back.

These requirements can be met: the fixture manifests hold no repeated key,
and a library that knows only the fixture text (`OneTextCodec`) satisfies
every scenario's requirements.

## Model

| member | source | states |
|---|---|---|
| Json.Find | tests/Construction/ComposerTest.php:88 | a key lookup finds nothing exactly when the key is not among the object's keys |
| Json.FindAt | tests/Construction/ComposerTest.php:88 | the entry at the first position holding a key is the value looked up under that key |
| Json.Put | tests/Construction/ComposerTest.php:80-89 | after setting a key it maps to the new value; every other key maps to what it did before; the key sequence is unchanged when the key existed and gains the key at its end otherwise |
| Json.PutAppends | tests/Construction/ComposerTest.php:128-137 | setting a key that is not present appends exactly that entry after all existing ones |
| Json.PutInPlace | tests/Construction/ComposerTest.php:142-189 | setting a key that is present replaces its first entry where it stands and changes nothing else |
| Json.AsMapPut | tests/Construction/ComposerTest.php:86-89 | seen as the unordered dictionary `assertEquals` compares, setting a key is a dictionary update |
| Json.PutUniqueKeys | tests/Construction/ComposerTest.php:80-89 | setting a key never creates a duplicate key |
| Json.PutWellFormed | tests/Construction/ComposerTest.php:142-189 | setting a well-formed value in a well-formed object keeps every nested object free of duplicate keys |
| Json.FindWellFormed | tests/Construction/ComposerTest.php:88 | a value found in a well-formed object is itself well-formed |
| Json.ObjectAtWellFormed | tests/Construction/ComposerTest.php:236 | the object found at any path of a well-formed manifest has no duplicate key |
| Json.GetPath | tests/Construction/ComposerTest.php:236 | a dotted read of no keys is the whole value, and a read through anything but an object finds nothing |
| Json.GetAfterSet | tests/Construction/ComposerTest.php:222-236 | reading a dotted path right after writing it returns the written value, whatever was there before |
| Json.GetAfterSetOther | tests/Construction/ComposerTest.php:272-280 | a write leaves every path that parts ways with the written path reading as before, so `autoload.classmap` survives a write to `autoload.psr-0` |
| Json.ObjectAfterSet | tests/Construction/ComposerTest.php:272-280 | writing `prefix.k` leaves an object at `prefix` whose members are the old members with `k` set, and creates that object when it was absent |
| Json.SetPathWellFormed | tests/Construction/ComposerTest.php:142-189 | a dotted write of a well-formed value keeps the manifest free of duplicate keys |
| Json.SetPathKeyOrder | tests/Construction/ComposerTest.php:126-136 | a dotted write keeps the top-level keys in order and appends the first path key only when it was absent |
| Construction.MergeFieldsFresh | tests/Construction/ComposerTest.php:119-137 | merging distinct names the section does not have yet gives its old members followed by one member per configured entry, in configuration order |
| Construction.ManifestPath | tests/Construction/ComposerTest.php:17-18 | the manifest path is the application directory followed by `/composer.json` |
| Construction.MergedSection | tests/Construction/ComposerTest.php:46-89 | after a merge, the section is an object whose members are its old members with each configured entry set in configuration order |
| Construction.MergeFieldsOverrides | tests/Construction/ComposerTest.php:80-89 | as a dictionary, the merged section is the old section overridden by the configured entries, with the last of repeated names winning |
| Construction.MergeFieldsUnique | tests/Construction/ComposerTest.php:180-189 | merging never gives the section a duplicate name |
| Construction.MergeLeavesOthers | tests/Construction/ComposerTest.php:272-280 | a merge changes nothing at any path outside its section |
| Construction.MergeWellFormed | tests/Construction/ComposerTest.php:94-137 | a merge keeps a well-formed manifest free of duplicate keys |
| Construction.MergeKeepsKeyOrder | tests/Construction/ComposerTest.php:119-137 | a merge keeps the top-level keys in order and appends the section's key only when it had to be created by a non-empty merge |
| Construction.ClassmapReplaced | tests/Construction/ComposerTest.php:222-236 | after the classmap merge `autoload.classmap` is exactly the configured list in configured order, and every path outside it reads as before |
| Construction.ClassmapWellFormed | tests/Construction/ComposerTest.php:193-238 | the classmap merge keeps a well-formed manifest free of duplicate keys |
| Construction.Composer.Open | tests/Construction/ComposerTest.php:15-41 | construction comments `Reading composer.json from <appDir>/composer.json`, reads that path once, and holds the decoded manifest, which has no repeated key; a missing file or undecodable text is an error |
| Construction.Composer.ComposerArray | tests/Construction/ComposerTest.php:38-40 | the array handed out is the manifest as it stands, and it never holds a repeated key |
| Construction.Composer.MergeOne | tests/Construction/ComposerTest.php:61-69 | one configured item is reported, then written under the section |
| Construction.Composer.MergeEntryAt | tests/Construction/ComposerTest.php:61-69 | one turn of the merge loop extends both the merged manifest and the reported comments by the next configured entry |
| Construction.Composer.Merge | tests/Construction/ComposerTest.php:61-69 | the loop leaves the manifest equal to the configured entries set one after another under the section, and reports one comment per entry in configuration order |
| Construction.Composer.RequirePackages | tests/Construction/ComposerTest.php:46-89 | merges the configured packages into `require`, commenting `Require: <pkg> <ver>` for each, and keeps the manifest free of repeated keys |
| Construction.Composer.RequireDevPackages | tests/Construction/ComposerTest.php:94-189 | merges the configured development packages into `require-dev`, commenting `Require Dev: <pkg> <ver>` for each, and keeps the manifest free of repeated keys |
| Construction.Composer.AutoloadClassmap | tests/Construction/ComposerTest.php:193-238 | comments `Autoload Classmap adding: <path>` for each configured path and installs the configured list as `autoload.classmap`, keeping the manifest free of repeated keys |
| Construction.Composer.AutoloadPsr0 | tests/Construction/ComposerTest.php:243-283 | merges the configured mapping into `autoload.psr-0`, commenting `Adding PSR0 entry <name> => <value>` for each, and keeps the manifest free of repeated keys |
| Construction.Composer.AutoloadPsr4 | tests/Construction/ComposerTest.php:287-327 | merges the configured mapping into `autoload.psr-4`, commenting `Adding PSR4 entry <name> => <value>` for each, and keeps the manifest free of repeated keys |
| Construction.Composer.WriteComposerJson | tests/Construction/ComposerTest.php:358-387 | comments `Writing composer file to <path>`, then puts the encoded manifest at the manifest path exactly once |
| Collaborators.FileSystem.Get | tests/Construction/ComposerTest.php:20-24 | a read records the path and returns the file's contents, or nothing when there is no such file |
| Collaborators.FileSystem.Put | tests/Construction/ComposerTest.php:369-371 | a write records the path and text and replaces that file's contents |
| Collaborators.Reporter.Comment | tests/Construction/ComposerTest.php:26-29 | a comment is appended to the recorded comments |
| ComposerTest.RequireBefore | tests/Construction/ComposerTest.php:435-437 | the fixture's `require` holds only `laravel/framework: 4.1.*` |
| ComposerTest.RequireDevBefore | tests/Construction/ComposerTest.php:424-466 | the fixture has no `require-dev` key, so no members there |
| ComposerTest.ClassmapBefore | tests/Construction/ComposerTest.php:438-447 | the fixture's `autoload.classmap` is its six listed paths |
| ComposerTest.Psr0Before | tests/Construction/ComposerTest.php:438-447 | the fixture has no `autoload.psr-0` key, so no members there |
| ComposerTest.Psr4Before | tests/Construction/ComposerTest.php:438-447 | the fixture has no `autoload.psr-4` key, so no members there |
| ComposerTest.ConfiguredRequire | tests/Construction/ComposerTest.php:392-402 | the configured runtime and development packages are the three name/version pairs each that the tests iterate over, in order |
| ComposerTest.FixtureWellFormed | tests/Construction/ComposerTest.php:424-466 | the fixture manifest holds no repeated key at any depth: its nine top-level keys are distinct and so are those of every nested object |
| ComposerTest.ManifestWithRequireDevWellFormed | tests/Construction/ComposerTest.php:146-148 | the fixture with the one development package added under `require-dev` still holds no repeated key |
| ComposerTest.OneTextCodecFits | tests/Construction/ComposerTest.php:15-41 | a library that decodes one text to a well-formed manifest, and encodes every value as that text, never decodes to a repeated key and round-trips the manifest |
| ComposerTest.ScenariosSatisfiable | tests/Construction/ComposerTest.php:140-150 | for any text, some library meets each scenario's requirements on both fixture manifests, so none of the scenarios is vacuous |
| ComposerTest.OpenFixture | tests/Construction/ComposerTest.php:15-41 | the editor every test constructs: fresh collaborators, one announced read of `/path/to/app/composer.json`, no write, and the decoded manifest held under the class invariant |
| ComposerTest.RequireMerged | tests/Construction/ComposerTest.php:80-84 | merging the three configured packages over the fixture's `require` gives exactly the three expected pairs, `laravel/framework` overwritten in place |
| ComposerTest.RequireDevCreated | tests/Construction/ComposerTest.php:128-132 | merging the three development packages into nothing gives exactly the three expected pairs |
| ComposerTest.RequireDevOverwritten | tests/Construction/ComposerTest.php:148-149 | merging them over an existing `mockery/mockery` entry gives the same three pairs, that entry overwritten rather than duplicated |
| ComposerTest.ClassmapStrings | tests/Construction/ComposerTest.php:224-232 | the configured classmap becomes the seven-element list the test expects, in order |
| ComposerTest.TestReadComposerJson | tests/Construction/ComposerTest.php:15-41 | opening the editor makes one read of `/path/to/app/composer.json` and one `Foreman` comment, and the manifest is the decoded fixture |
| ComposerTest.TestRequirePackages | tests/Construction/ComposerTest.php:46-91 | `require` becomes exactly the three configured packages, with one `Require:` comment per package after the read comment |
| ComposerTest.TestRequireDevPackagesWithNoReqDevAlready | tests/Construction/ComposerTest.php:94-138 | a missing `require-dev` is created with exactly the three configured packages, one `Require Dev:` comment each |
| ComposerTest.TestRequireDevPackagesWithExistingReqDev | tests/Construction/ComposerTest.php:142-190 | an existing `require-dev` holding `mockery/mockery` ends with exactly the three configured packages, one `Require Dev:` comment each |
| ComposerTest.TestAutoloadClassmap | tests/Construction/ComposerTest.php:193-239 | `autoload.classmap` becomes the configured seven paths, dropping the fixture's `app/tests/TestCase.php`, with one comment per path |
| ComposerTest.TestAutoloadPsr0 | tests/Construction/ComposerTest.php:243-283 | `autoload.psr-0` is created as `{Acme: app/lib}`, the classmap beside it is kept, and one comment is made |
| ComposerTest.TestAutoloadPsr4 | tests/Construction/ComposerTest.php:287-327 | `autoload.psr-4` is created as `{Foo\Bar\: src/Foo/Bar/}`, the classmap beside it is kept, and one comment is made |
| ComposerTest.ComposerJsonRoundTrip | tests/Construction/ComposerTest.php:330-355 | for any application directory, configuration, library and text that the library decodes to a manifest and encodes back from it, the editor opened on that text hands out that same text |
| ComposerTest.TestGetComposerJson | tests/Construction/ComposerTest.php:330-355 | with nothing merged, the encoded manifest is the text that was read |
| ComposerTest.TestWriteComposerJson | tests/Construction/ComposerTest.php:358-387 | the write puts the fixture text at the manifest path exactly once, after a `Writing composer file to` comment |

## Left out

- JSON text itself is not modelled. Decoding (`json_decode` into associative arrays) and pretty-printed encoding without escaped slashes are the two functions of a `Codec` parameter. Formatting, escaping and the failure modes of the library are not modelled.
- Numbers are integers only; JSON floating point is not modelled.
- PHP arrays are both lists and dictionaries. Some ambiguities follow, for example an empty object decodes and re-encodes as `[]`. The model keeps lists and objects apart.
- The PHPUnit and Mockery machinery (`m::mock`, `shouldIgnoreMissing`, `tearDown`) is not modelled. The collaborators are recording classes instead. The reporter mock of `testReadComposerJson` allows exactly the one reading comment. The other tests ignore comments they do not expect, and no test checks message order. Each scenario states the whole comment sequence in order, so the scenarios say more than the tests assert.
- The real filesystem and console are not modelled. A filesystem write always succeeds, so a failed write, and the stale in-memory state it would leave, are not modelled.
- `DIRECTORY_SEPARATOR` is fixed to `/`.
- Names are single path segments. A configured package name or namespace that contains `.` stays one key. If the class builds dotted keys from such names, `array_set` would split them, and that split is not modelled.
- Reading is eager. The manifest is read when the editor is constructed, not on first access. Every test constructs the editor and then inspects it, so the two cannot be told apart there.
- Returning the raw text as last read, without re-encoding, is not part of the tested contract and is not modelled.
- Construction.Composer.AutoloadClassmap: it installs the configured list in place of the existing one. The test (ComposerTest.php:224-236) expects exactly the configured seven paths, with the fixture's `app/tests/TestCase.php` gone, so existing entries are not kept. With an empty configured list the manifest is left unchanged; no test covers that case.
- Construction.Composer.AutoloadClassmap: it reports every path, then writes the list once. With replacement semantics, the final manifest and the comment sequence are the same as when each report is followed by a write.
- Construction.Composer.WriteComposerJson: the comment is `Writing composer file to <path>`, in the `Foreman` category, as the test expects (ComposerTest.php:376-378).
- Json.SetPath: a JSON list found part-way along a write path is replaced by a fresh object, so `autoload: ["x"]` becomes `autoload: {classmap: …}`. PHP's `array_set` would reuse that array, list or not, and add the key to it. The fixture has no list on any path the editor writes, so the tests cannot tell the two apart.
- Json.SetPath, ComposerTest.FixtureConfig and ComposerTest.FixtureManifest carry no contract of their own. The dotted write is specified by the lemmas about it (GetAfterSet, GetAfterSetOther, ObjectAfterSet, SetPathKeyOrder, SetPathWellFormed). The fixtures are literal data whose content the fixture lemmas state (RequireBefore, ClassmapBefore, ConfiguredRequire and the others).
- Construction.Composer.ComposerJson: its own contract says only that its text decodes back to the manifest when the library round-trips it. The text is the library's encoding of the held manifest, and that encoding belongs to the `Codec`. The tested contract, which says the text read is the text handed back, is stated by ComposerTest.ComposerJsonRoundTrip.
- Construction.Composer.Open: a missing manifest and an undecodable one are distinct error results. An I/O error or parse exception raised to the caller is not modelled.
