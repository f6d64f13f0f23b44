/** Laws of the build manifest: which documents the constructor accepts, what
    it reports when it rejects one, and the two round trips between
    construction and export. */
module BuildManifestLaws {
  import opened Document
  import opened BuildManifest

  /** The components value iterates to entries that are all complete
      component mappings: a list of them, or an empty mapping or string. */
  ghost predicate WellFormedComponents(v: Value) {
    match v
    case List(items) => forall i :: 0 <= i < |items| ==> HasFields(items[i], ComponentFields)
    case Map(m) => m == map[]
    case Str(s) => s == ""
    case Scalar(_) => false
  }

  /** A document the manifest constructor accepts, stated key by key. */
  ghost predicate WellFormed(data: Value) {
    && HasFields(data, TopFields)
    && LeafText(data.entries["schema-version"]) == Some(SupportedVersion)
    && HasFields(data.entries["build"], BuildFields)
    && WellFormedComponents(data.entries["components"])
  }

  /** The component entries of a well-formed components value. */
  function ComponentItems(v: Value): seq<Value> {
    if v.List? then v.items else []
  }

  /** `v` with every key outside `fields` dropped. */
  ghost function Restrict(v: Value, fields: seq<string>): Value
    requires v.Map?
  {
    Map(map k | k in v.entries && k in fields :: v.entries[k])
  }

  /** The document restricted to the keys the manifest knows, at every level,
      with the version written as the string "1.0". */
  ghost function Projection(data: Value): Value
    requires WellFormed(data)
  {
    var items := ComponentItems(data.entries["components"]);
    Map(map["schema-version" := Str(SupportedVersion),
            "build" := Restrict(data.entries["build"], BuildFields),
            "components" := List(seq(|items|, i requires 0 <= i < |items| => Restrict(items[i], ComponentFields)))])
  }

  /** A well-formed document that holds only the known keys, a string version
      and a list of components: export gives it back unchanged. */
  ghost predicate Canonical(data: Value) {
    && WellFormed(data)
    && data.entries.Keys == KeySet(TopFields)
    && data.entries["schema-version"] == Str(SupportedVersion)
    && data.entries["build"].entries.Keys == KeySet(BuildFields)
    && data.entries["components"].List?
    && forall i :: 0 <= i < |data.entries["components"].items| ==>
         data.entries["components"].items[i].entries.Keys == KeySet(ComponentFields)
  }

  /** Component `c` holds exactly the values of the entry's five keys. */
  ghost predicate Carries(c: Component, entry: Value)
    requires HasFields(entry, ComponentFields)
  {
    && c.name == entry.entries["name"]
    && c.repository == entry.entries["repository"]
    && c.ref == entry.entries["ref"]
    && c.commitid == entry.entries["commitid"]
    && c.artifacts == entry.entries["artifacts"]
  }

  /** The entries that iterating a components value yields, when that succeeds. */
  lemma EntriesOfWellFormed(v: Value)
    requires WellFormedComponents(v)
    ensures Entries(v) == Success(ComponentItems(v))
  {
    if v.Str? {
      assert Entries(v).value == [];
    }
  }

  /** Construction succeeds exactly on the well-formed documents. */
  lemma ConstructSucceedsIff(data: Value)
    ensures ManifestFrom(data).Success? <==> WellFormed(data)
  {
    if WellFormed(data) {
      EntriesOfWellFormed(data.entries["components"]);
    } else if HasFields(data, TopFields)
           && LeafText(data.entries["schema-version"]) == Some(SupportedVersion)
           && HasFields(data.entries["build"], BuildFields) {
      var v := data.entries["components"];
      match v
      case List(items) =>
      case Map(m) =>
      case Str(s) =>
        var entries := Entries(v).value;
        assert !HasFields(entries[0], ComponentFields);
      case Scalar(_) =>
    } else if data.Map? && "schema-version" in data.entries
              && LeafText(data.entries["schema-version"]) == Some(SupportedVersion)
              && "build" in data.entries && HasFields(data.entries["build"], BuildFields) {
      assert "components" !in data.entries by {
        assert forall k :: k in TopFields ==> k == "schema-version" || k == "build" || k == "components";
      }
    } else if data.Map? && "schema-version" in data.entries {
      assert !HasFields(data, TopFields) ==> "build" !in data.entries || "components" !in data.entries by {
        assert forall k :: k in TopFields ==> k == "schema-version" || k == "build" || k == "components";
      }
    }
  }

  /** On acceptance the manifest carries the document's values unchanged:
      the version "1.0", the build's three fields, and one component per
      entry, in document order. */
  lemma ConstructCarries(data: Value)
    requires WellFormed(data)
    ensures ManifestFrom(data).Success?
    ensures var m := ManifestFrom(data).value;
            var b := data.entries["build"];
            var items := ComponentItems(data.entries["components"]);
            && m.version == SupportedVersion
            && m.build == Build(b.entries["name"], b.entries["version"], b.entries["architecture"])
            && |m.components| == |items|
            && forall i :: 0 <= i < |items| ==> Carries(m.components[i], items[i])
  {
    EntriesOfWellFormed(data.entries["components"]);
  }

  /** The version gate: a document that has a schema version is rejected for
      its version exactly when that version does not render as "1.0", and
      then neither `build` nor `components` is consulted. */
  lemma VersionGate(data: Value)
    requires data.Map? && "schema-version" in data.entries
    ensures ManifestFrom(data).Failure? && ManifestFrom(data).error.UnsupportedVersion?
            <==> LeafText(data.entries["schema-version"]) != Some(SupportedVersion)
  {
    var r := ManifestFrom(data);
    if LeafText(data.entries["schema-version"]) == Some(SupportedVersion) && r.Failure? {
      var b := Get(data, "build", TopLevel);
      if b.Success? && BuildFrom(b.value).Success? {
        var c := Get(data, "components", TopLevel);
        if c.Success? && Entries(c.value).Success? {
          var entries := Entries(c.value).value;
          assert r.error == ComponentsFrom(entries).error;
        }
      }
    }
  }

  /** An absent `build` or `components` key, once the version is accepted,
      fails naming that key. */
  lemma MissingTopLevelKey(data: Value)
    requires data.Map? && "schema-version" in data.entries
    requires LeafText(data.entries["schema-version"]) == Some(SupportedVersion)
    ensures "build" !in data.entries ==> ManifestFrom(data) == Failure(MissingKey(TopLevel, "build"))
    ensures "build" in data.entries && HasFields(data.entries["build"], BuildFields)
            && "components" !in data.entries ==>
              ManifestFrom(data) == Failure(MissingKey(TopLevel, "components"))
  {
  }

  /** A malformed build section, once the version is accepted, fails with the
      error of its first absent key. */
  lemma BuildErrorPropagates(data: Value)
    requires data.Map? && "schema-version" in data.entries && "build" in data.entries
    requires LeafText(data.entries["schema-version"]) == Some(SupportedVersion)
    requires !HasFields(data.entries["build"], BuildFields)
    ensures ManifestFrom(data) == Failure(FieldError(data.entries["build"], BuildFields, BuildSection))
  {
  }

  /** All or nothing: one malformed entry in the components list fails the
      whole manifest, with the error of the first malformed entry. */
  lemma ComponentErrorPropagates(data: Value)
    requires data.Map? && "schema-version" in data.entries && "build" in data.entries
    requires "components" in data.entries && data.entries["components"].List?
    requires LeafText(data.entries["schema-version"]) == Some(SupportedVersion)
    requires HasFields(data.entries["build"], BuildFields)
    requires exists i :: 0 <= i < |data.entries["components"].items|
                         && !HasFields(data.entries["components"].items[i], ComponentFields)
    ensures var items := data.entries["components"].items;
            var k := FirstMalformed(items);
            ManifestFrom(data) == Failure(FieldError(items[k], ComponentFields, ComponentEntry(k)))
  {
  }

  /** An empty components list is accepted and gives no components. */
  lemma EmptyComponents(data: Value)
    requires data.Map? && "schema-version" in data.entries && "build" in data.entries
    requires LeafText(data.entries["schema-version"]) == Some(SupportedVersion)
    requires HasFields(data.entries["build"], BuildFields)
    requires "components" in data.entries && data.entries["components"] == List([])
    ensures ManifestFrom(data).Success? && ManifestFrom(data).value.components == []
  {
  }

  /** Exporting a component gives its entry back, restricted to the known keys. */
  lemma ExportComponentIsRestriction(c: Component, entry: Value)
    requires HasFields(entry, ComponentFields) && Carries(c, entry)
    ensures c.ToDict() == Restrict(entry, ComponentFields)
  {
    assert c.ToDict().entries.Keys == Restrict(entry, ComponentFields).entries.Keys;
  }

  /** Exporting a build constructed from a section gives the section back,
      restricted to the three build keys. */
  lemma ExportBuildIsRestriction(b: Build, section: Value)
    requires HasFields(section, BuildFields)
    requires b == Build(section.entries["name"], section.entries["version"], section.entries["architecture"])
    ensures b.ToDict() == Restrict(section, BuildFields)
  {
    assert b.ToDict().entries.Keys == Restrict(section, BuildFields).entries.Keys;
  }

  /** Export after construction: the document, projected onto the known keys. */
  lemma ExportAfterConstruct(data: Value)
    requires ManifestFrom(data).Success?
    ensures WellFormed(data) && ManifestFrom(data).value.ToDict() == Projection(data)
  {
    ConstructSucceedsIff(data);
    ConstructCarries(data);
    var m := ManifestFrom(data).value;
    var exportedDoc := m.ToDict();
    var projectedDoc := Projection(data);
    ExportBuildIsRestriction(m.build, data.entries["build"]);
    assert exportedDoc.entries["build"] == projectedDoc.entries["build"];
    var items := ComponentItems(data.entries["components"]);
    var exported := exportedDoc.entries["components"].items;
    var projected := projectedDoc.entries["components"].items;
    forall i | 0 <= i < |items|
      ensures exported[i] == projected[i]
    {
      ExportComponentIsRestriction(m.components[i], items[i]);
    }
    assert exported == projected;
    assert exportedDoc.entries.Keys == projectedDoc.entries.Keys;
  }

  /** Export after construction of a canonical document gives it back exactly. */
  lemma ExportAfterConstructExact(data: Value)
    requires Canonical(data)
    ensures ManifestFrom(data).Success? && ManifestFrom(data).value.ToDict() == data
  {
    ConstructSucceedsIff(data);
    ExportAfterConstruct(data);
    var b := data.entries["build"];
    assert Restrict(b, BuildFields) == b;
    var items := data.entries["components"].items;
    var projected := Projection(data).entries["components"].items;
    forall i | 0 <= i < |items|
      ensures projected[i] == items[i]
    {
      assert Restrict(items[i], ComponentFields).entries == items[i].entries;
    }
    assert projected == items;
    assert Projection(data).entries == data.entries;
  }

  /** Construction after export gives the manifest back, with its version
      normalised to "1.0" (which every constructed manifest already has). */
  lemma ConstructAfterExport(m: Manifest)
    ensures ManifestFrom(m.ToDict()) == Success(m.(version := SupportedVersion))
  {
    var d := m.ToDict();
    var exported := d.entries["components"].items;
    var r := ComponentsFrom(exported);
    assert r.Success?;
    assert |r.value| == |m.components|;
    forall i | 0 <= i < |m.components|
      ensures r.value[i] == m.components[i]
    {
      assert ComponentFrom(exported[i], i) == Success(m.components[i]);
    }
    assert r.value == m.components;
  }

  /** The documented header writes `schema-version: 1.0` unquoted, which loads
      as a number: that document is accepted too, and its export is the same
      document with the version written as the string "1.0". */
  lemma UnquotedVersionNormalised(data: Value)
    requires Canonical(data)
    ensures var unquoted := Map(data.entries["schema-version" := Scalar(SupportedVersion)]);
            && ManifestFrom(unquoted).Success?
            && ManifestFrom(unquoted).value.ToDict() == data
            && unquoted != data
  {
    var unquoted := Map(data.entries["schema-version" := Scalar(SupportedVersion)]);
    assert unquoted.entries["schema-version"] != data.entries["schema-version"];
    assert WellFormed(unquoted);
    ConstructSucceedsIff(unquoted);
    ExportAfterConstruct(unquoted);
    ExportAfterConstructExact(data);
    ExportAfterConstruct(data);
    assert Projection(unquoted) == Projection(data);
  }

  /** The end-to-end example of a single-component OpenSearch build. */
  lemma ExampleManifest()
    ensures var artifacts := Map(map["maven" := List([Str("maven/common-utils-2.0.0.jar")])]);
            var entry := Map(map["name" := Str("common-utils"),
                                 "repository" := Str("https://github.com/opensearch-project/common-utils"),
                                 "ref" := Str("main"),
                                 "commitid" := Str("abc123"),
                                 "artifacts" := artifacts]);
            var data := Map(map["schema-version" := Str("1.0"),
                                "build" := Map(map["name" := Str("opensearch"),
                                                   "version" := Str("2.0.0"),
                                                   "architecture" := Str("x64")]),
                                "components" := List([entry])]);
            var r := ManifestFrom(data);
            && r.Success?
            && r.value.build.architecture == Str("x64")
            && |r.value.components| == 1
            && r.value.components[0].artifacts.entries["maven"] == List([Str("maven/common-utils-2.0.0.jar")])
            && r.value.ToDict() == data
  {
    var artifacts := Map(map["maven" := List([Str("maven/common-utils-2.0.0.jar")])]);
    var entry := Map(map["name" := Str("common-utils"),
                         "repository" := Str("https://github.com/opensearch-project/common-utils"),
                         "ref" := Str("main"),
                         "commitid" := Str("abc123"),
                         "artifacts" := artifacts]);
    var data := Map(map["schema-version" := Str("1.0"),
                        "build" := Map(map["name" := Str("opensearch"),
                                           "version" := Str("2.0.0"),
                                           "architecture" := Str("x64")]),
                        "components" := List([entry])]);
    assert data.entries.Keys == KeySet(TopFields);
    assert data.entries["build"].entries.Keys == KeySet(BuildFields);
    assert entry.entries.Keys == KeySet(ComponentFields);
    ExportAfterConstructExact(data);
  }
}
