# Build manifest model

A Dafny model of the build manifest of the OpenSearch bundle workflow
(`bundle-workflow/python/manifests/build_manifest.py`). A build manifest is an
immutable view of the output of a build step. It holds the product that was
built (`build`: name, version, architecture) and the components that went into
it. Each component has a name, a repository, a requested ref, a resolved
commit id and its artifacts.

The model has two directions:

- **Construction.** `BuildManifest.ManifestFrom` takes an already-parsed
  document (`Document.Value`: strings, other scalars, lists, string-keyed
  mappings) and returns either a `Manifest` or an `Error`. It first checks
  that `schema-version` renders as `"1.0"`. It then builds the `Build` record
  and the components, in document order. Any absent key at any level makes it
  fail.
- **Export.** The `ToDict` members of `Manifest`, `Build` and `Component`
  turn the records back into a document.

Files:

- `document.dfy`: the parsed tree, `Option` and `Result`, and `LeafText`.
  `LeafText` is Python's `str()` of a leaf. Non-string leaves (numbers,
  booleans, null) are `Scalar(text)`, where `text` is their `str()` rendering.
  So an unquoted YAML `1.0`, which loads as a float, is `Scalar("1.0")` and
  passes the gate, just as it does in the source.
- `build_manifest.dfy`: these records and the constructor and export functions.
  Python's subscripting and iteration are modelled as they behave:
  - subscripting something that is not a mapping fails;
  - iterating a string yields one-character strings;
  - iterating a mapping yields its keys;
  - iterating any other leaf fails.
- `build_manifest_laws.dfy`: an independent description of the accepted
  documents (`WellFormed`), the projection onto the known keys
  (`Projection`), and the laws tying construction and export together.

Where the documented format suggests more than the code does, the model follows the code:

- The code checks no types. `architecture` may be anything, not only
  `x64`/`arm64`, and `artifacts` is any value, not only a mapping to lists of
  strings.
- Export after construction gives back the input only for canonical inputs.
  Keys the manifest does not know are dropped, and the version is always
  written as the string `"1.0"`.
- For a `components` value, the code also accepts an empty mapping or an empty
  string, which yield no components. The model accepts them too.

## Model

| member | source | states |
|---|---|---|
| `Document.LeafText` | bundle-workflow/python/manifests/build_manifest.py:41 | `str()` of the schema-version leaf is defined exactly for string and scalar leaves; a string renders as itself and a scalar as its carried rendering (an unquoted `1.0` as "1.0") |
| `BuildManifest.Get` | bundle-workflow/python/manifests/build_manifest.py:58-60 | subscripting (as at lines 41, 44, 46, 58-60 and 71-75) succeeds exactly on a mapping holding the key and returns its value; otherwise MissingKey for a mapping (KeyError), NotAMapping for anything else (TypeError) |
| `BuildManifest.Build.ToDict` | bundle-workflow/python/manifests/build_manifest.py:62-67 | the export has exactly the keys name, version, architecture, and constructing a `Build` from it gives the same record back |
| `BuildManifest.Component.ToDict` | bundle-workflow/python/manifests/build_manifest.py:77-84 | the export has exactly the five component keys, and constructing a `Component` from it, at any position, gives the same record back |
| `BuildManifest.Manifest.ToDict` | bundle-workflow/python/manifests/build_manifest.py:48-54 | the export has exactly the keys schema-version, build and components; the version is always the string "1.0"; the components list has one exported component per component, in the same order |
| `BuildManifest.BuildFrom` | bundle-workflow/python/manifests/build_manifest.py:57-60 | succeeds exactly when the value is a mapping holding name, version and architecture; the values are passed through untouched, with no restriction on the architecture; on failure the error names the first absent key in lookup order, or reports that the value is not a mapping |
| `BuildManifest.ComponentFrom` | bundle-workflow/python/manifests/build_manifest.py:70-75 | succeeds exactly when the entry is a mapping holding all five component keys; all five values, including `artifacts` with any category keys and path order, are passed through verbatim; on failure the error names the first absent key in lookup order |
| `BuildManifest.Entries` | bundle-workflow/python/manifests/build_manifest.py:45-46 | iteration succeeds exactly for a list, a string and an empty mapping; a list yields its items in order; a string yields one one-character string per character; an empty mapping yields nothing; a non-empty mapping fails on its first key's `name` lookup; a non-string scalar is not iterable |
| `BuildManifest.ComponentsFrom` | bundle-workflow/python/manifests/build_manifest.py:45-46 | all or nothing: succeeds exactly when every entry is a complete component mapping; then it gives one component per entry, in order; otherwise the error is that of the first malformed entry |
| `BuildManifest.ManifestFrom` | bundle-workflow/python/manifests/build_manifest.py:40-46 | a non-mapping or an absent schema-version fails naming schema-version; a version that does not render as "1.0" fails with that value, whatever build and components hold; a constructed manifest has version "1.0" |
| `BuildManifestLaws.EntriesOfWellFormed` | bundle-workflow/python/manifests/build_manifest.py:45-46 | an acceptable components value (a list of complete entries, an empty mapping or an empty string) iterates to exactly its list items, and to none for the empty ones |
| `BuildManifestLaws.ConstructSucceedsIff` | bundle-workflow/python/manifests/build_manifest.py:40-46 | construction succeeds if and only if the document is well formed: every required key present at every level, the version "1.0", a mapping for build and for every component entry |
| `BuildManifestLaws.ConstructCarries` | bundle-workflow/python/manifests/build_manifest.py:40-75 | on a well-formed document the manifest has version "1.0", the build's three values, and exactly one component per entry, in document order, each holding that entry's five values |
| `BuildManifestLaws.VersionGate` | bundle-workflow/python/manifests/build_manifest.py:41-43 | for a document with a schema version, construction fails for its version if and only if the version does not render as "1.0" |
| `BuildManifestLaws.MissingTopLevelKey` | bundle-workflow/python/manifests/build_manifest.py:44-46 | once the version is accepted, an absent build key fails naming build; with a good build, an absent components key fails naming components |
| `BuildManifestLaws.BuildErrorPropagates` | bundle-workflow/python/manifests/build_manifest.py:44-60 | once the version is accepted, a malformed build section fails the manifest with the build's own error (for example the absent architecture key) |
| `BuildManifestLaws.ComponentErrorPropagates` | bundle-workflow/python/manifests/build_manifest.py:45-75 | one malformed entry in the components list fails the whole manifest, with the error of the first malformed entry |
| `BuildManifestLaws.EmptyComponents` | bundle-workflow/python/manifests/build_manifest.py:45-46 | an empty components list is accepted and gives an empty component sequence |
| `BuildManifestLaws.ExportBuildIsRestriction` | bundle-workflow/python/manifests/build_manifest.py:62-67 | exporting a build constructed from a section gives the section restricted to name, version and architecture |
| `BuildManifestLaws.ExportComponentIsRestriction` | bundle-workflow/python/manifests/build_manifest.py:77-84 | exporting a component built from an entry gives the entry restricted to the five component keys |
| `BuildManifestLaws.ExportAfterConstruct` | bundle-workflow/python/manifests/build_manifest.py:40-84 | for every document that constructs, exporting the manifest gives the document with every mapping restricted to the known keys and the version as the string "1.0" |
| `BuildManifestLaws.ExportAfterConstructExact` | bundle-workflow/python/manifests/build_manifest.py:40-84 | a document with only the known keys, the string version "1.0" and a components list is reproduced exactly by construction followed by export |
| `BuildManifestLaws.ConstructAfterExport` | bundle-workflow/python/manifests/build_manifest.py:48-84 | constructing from the export of any manifest succeeds and gives that manifest back, with its version set to "1.0" |
| `BuildManifestLaws.ExampleManifest` | bundle-workflow/python/manifests/build_manifest.py:11-32 | a one-component OpenSearch document in the documented format, with the version quoted as the string "1.0", constructs, has architecture x64, one component with its maven artifact list, and exports back to itself |
| `BuildManifestLaws.UnquotedVersionNormalised` | bundle-workflow/python/manifests/build_manifest.py:11-12 | the same kind of document with the version written unquoted as in the header (a number rendering as "1.0") is accepted too, and its export is not the input but the input with the version as the string "1.0" |

## Left out

- `from_file` (build_manifest.py:36-38): opening the file and parsing YAML are I/O and a foreign library. The model starts from the already-parsed tree.
- `Document.LeafText`: Python's `str()` of a list or a mapping is not modelled. It is always a bracketed rendering, never `"1.0"`, so the gate rejects it either way. `UnsupportedVersion` carries the offending value, not its rendering.
- Number formatting: a `Scalar` already carries its `str()` rendering. The model does not derive that rendering from the number.
- Mapping keys are strings, and the order of keys in a mapping is not modelled. Python dict equality ignores key order anyway.
- `BuildManifest.Entries`: for a non-empty mapping it returns the error its first key raises as a component entry. It does not list the keys, because key order is not modelled, and every key fails the same way.
- Binary YAML leaves (`bytes`) are not modelled. They are the one kind of scalar Python could iterate.
- Python's exception classes (`ValueError`, `KeyError`, `TypeError`) and their messages are not modelled; the `Error` variants stand for them. A `Section` adds the failing part of the document (top level, build, or component index) as context.
- Object identity: `artifacts` is stored by reference in the source, not copied. The model uses values.
