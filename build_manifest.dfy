/** A build manifest: the typed, immutable view of the output of a build step.
    `ManifestFrom` projects a parsed document onto the typed records, failing
    on an unsupported schema version or a missing key at any level, and the
    `ToDict` members export the records back to a document. */
module BuildManifest {
  import opened Document

  /** The only schema version this manifest format accepts. */
  const SupportedVersion: string := "1.0"

  /** Required keys, in the order the constructors look them up. */
  const TopFields: seq<string> := ["schema-version", "build", "components"]
  const BuildFields: seq<string> := ["name", "version", "architecture"]
  const ComponentFields: seq<string> := ["name", "repository", "ref", "commitid", "artifacts"]

  function KeySet(fields: seq<string>): set<string> {
    set k | k in fields
  }

  /** Where in the document a lookup failed. */
  datatype Section = TopLevel | BuildSection | ComponentEntry(index: nat)

  datatype Error =
    /** The schema-version value does not render as "1.0". */
    | UnsupportedVersion(found: Value)
    /** A mapping lacks a required key. */
    | MissingKey(section: Section, key: string)
    /** A required key was looked up in something that is not a mapping. */
    | NotAMapping(section: Section, key: string)
    /** The components value cannot be iterated. */
    | NotIterable(found: Value)

  /** The product that was built. The constructor checks no types, so every
      field is whatever the document held. */
  datatype Build = Build(name: Value, version: Value, architecture: Value) {

    /** Export: a mapping with exactly the three build keys, from which the
        same record is constructed again. */
    function ToDict(): (r: Value)
      ensures r.Map? && r.entries.Keys == KeySet(BuildFields)
      ensures BuildFrom(r) == Success(this)
    {
      Map(map["name" := name, "version" := version, "architecture" := architecture])
    }
  }

  /** One source repository that contributed to the build. `artifacts` is kept
      verbatim: any category keys, any path lists, in their order. */
  datatype Component = Component(name: Value, repository: Value, ref: Value, commitid: Value, artifacts: Value) {

    /** Export: a mapping with exactly the five component keys, from which the
        same record is constructed again, whatever its position. */
    function ToDict(): (r: Value)
      ensures r.Map? && r.entries.Keys == KeySet(ComponentFields)
      ensures forall index: nat :: ComponentFrom(r, index) == Success(this)
    {
      Map(map["name" := name, "repository" := repository, "ref" := ref,
              "commitid" := commitid, "artifacts" := artifacts])
    }
  }

  /** The manifest: the rendered schema version, the build and the components
      in document order. */
  datatype Manifest = Manifest(version: string, build: Build, components: seq<Component>) {

    /** Export: always version "1.0", whatever `version` holds; exactly the
        three top-level keys; one exported component per component, in order. */
    function ToDict(): (r: Value)
      ensures r.Map? && r.entries.Keys == KeySet(TopFields)
      ensures r.entries["schema-version"] == Str(SupportedVersion)
      ensures r.entries["build"] == build.ToDict()
      ensures r.entries["components"].List?
      ensures |r.entries["components"].items| == |components|
      ensures forall i :: 0 <= i < |components| ==>
                r.entries["components"].items[i] == components[i].ToDict()
    {
      Map(map["schema-version" := Str(SupportedVersion),
              "build" := build.ToDict(),
              "components" := List(seq(|components|, i requires 0 <= i < |components| => components[i].ToDict()))])
    }
  }

  /** `data` is a mapping holding every key of `fields`. */
  predicate HasFields(data: Value, fields: seq<string>) {
    data.Map? && forall k :: k in fields ==> k in data.entries
  }

  /** Position of the first key of `fields` that `m` lacks. */
  function FirstAbsent(m: map<string, Value>, fields: seq<string>): (i: nat)
    requires exists k :: k in fields && k !in m
    ensures i < |fields| && fields[i] !in m
    ensures forall j :: 0 <= j < i ==> fields[j] in m
  {
    if fields[0] !in m then 0
    else
      assert exists k :: k in fields[1..] && k !in m by {
        var k :| k in fields && k !in m;
        assert k != fields[0];
      }
      1 + FirstAbsent(m, fields[1..])
  }

  /** The error that looking up `fields` one after another in `data` raises:
      a non-mapping fails on the first key, a mapping on the first absent key. */
  function FieldError(data: Value, fields: seq<string>, at: Section): Error
    requires |fields| > 0 && !HasFields(data, fields)
  {
    if data.Map? then MissingKey(at, fields[FirstAbsent(data.entries, fields)])
    else NotAMapping(at, fields[0])
  }

  /** `data[key]`. */
  function Get(data: Value, key: string, at: Section): (r: Result<Value, Error>)
    ensures r.Success? <==> data.Map? && key in data.entries
    ensures r.Success? ==> r.value == data.entries[key]
    ensures r.Failure? ==> r.error == (if data.Map? then MissingKey(at, key) else NotAMapping(at, key))
  {
    match data
    case Map(m) => if key in m then Success(m[key]) else Failure(MissingKey(at, key))
    case _ => Failure(NotAMapping(at, key))
  }

  /** `Build(data)`: reads name, version and architecture and keeps them as they are. */
  function BuildFrom(data: Value): (r: Result<Build, Error>)
    ensures r.Success? <==> HasFields(data, BuildFields)
    ensures r.Success? ==>
              && r.value.name == data.entries["name"]
              && r.value.version == data.entries["version"]
              && r.value.architecture == data.entries["architecture"]
    ensures r.Failure? ==> r.error == FieldError(data, BuildFields, BuildSection)
  {
    assert BuildFields[1] == "version" && BuildFields[2] == "architecture";
    var name :- Get(data, "name", BuildSection);
    var version :- Get(data, "version", BuildSection);
    var architecture :- Get(data, "architecture", BuildSection);
    Success(Build(name, version, architecture))
  }

  /** `Component(data)` for the entry at position `index` of the components list. */
  function ComponentFrom(data: Value, index: nat): (r: Result<Component, Error>)
    ensures r.Success? <==> HasFields(data, ComponentFields)
    ensures r.Success? ==>
              && r.value.name == data.entries["name"]
              && r.value.repository == data.entries["repository"]
              && r.value.ref == data.entries["ref"]
              && r.value.commitid == data.entries["commitid"]
              && r.value.artifacts == data.entries["artifacts"]
    ensures r.Failure? ==> r.error == FieldError(data, ComponentFields, ComponentEntry(index))
  {
    assert ComponentFields[1] == "repository" && ComponentFields[2] == "ref";
    assert ComponentFields[3] == "commitid" && ComponentFields[4] == "artifacts";
    var name :- Get(data, "name", ComponentEntry(index));
    var repository :- Get(data, "repository", ComponentEntry(index));
    var ref :- Get(data, "ref", ComponentEntry(index));
    var commitid :- Get(data, "commitid", ComponentEntry(index));
    var artifacts :- Get(data, "artifacts", ComponentEntry(index));
    Success(Component(name, repository, ref, commitid, artifacts))
  }

  /** What Python's iteration yields for the components value: a list its
      items; a string its one-character strings; a mapping its keys, which
      are strings, so a non-empty mapping fails on its first entry's `name`;
      any other leaf is not iterable. */
  function Entries(v: Value): (r: Result<seq<Value>, Error>)
    ensures r.Success? <==> !v.Scalar? && (v.Map? ==> v.entries == map[])
    ensures v.List? ==> r == Success(v.items)
    ensures v.Str? && r.Success? ==> |r.value| == |v.s|
    ensures v.Str? && r.Success? ==> forall i :: 0 <= i < |v.s| ==> r.value[i] == Str([v.s[i]])
    ensures v.Map? && r.Success? ==> r.value == []
    ensures v.Map? && v.entries != map[] ==> r == Failure(NotAMapping(ComponentEntry(0), "name"))
    ensures v.Scalar? ==> r == Failure(NotIterable(v))
  {
    match v
    case List(items) => Success(items)
    case Str(s) => Success(seq(|s|, i requires 0 <= i < |s| => Str([s[i]])))
    case Map(m) => if m == map[] then Success([]) else Failure(NotAMapping(ComponentEntry(0), "name"))
    case Scalar(_) => Failure(NotIterable(v))
  }

  /** The position of the first entry that is not a mapping with every component key. */
  function FirstMalformed(entries: seq<Value>): (k: nat)
    requires exists i :: 0 <= i < |entries| && !HasFields(entries[i], ComponentFields)
    ensures k < |entries| && !HasFields(entries[k], ComponentFields)
    ensures forall j :: 0 <= j < k ==> HasFields(entries[j], ComponentFields)
  {
    if !HasFields(entries[0], ComponentFields) then 0
    else
      assert exists i :: 0 <= i < |entries[1..]| && !HasFields(entries[1..][i], ComponentFields) by {
        var i :| 0 <= i < |entries| && !HasFields(entries[i], ComponentFields);
        assert entries[1..][i - 1] == entries[i];
      }
      1 + FirstMalformed(entries[1..])
  }

  /** `list(map(Component, entries))`: all or nothing, in order; the first
      malformed entry decides the error. */
  function ComponentsFrom(entries: seq<Value>): (r: Result<seq<Component>, Error>)
    ensures r.Success? <==> forall i :: 0 <= i < |entries| ==> HasFields(entries[i], ComponentFields)
    ensures r.Success? ==> |r.value| == |entries|
    ensures r.Success? ==> forall i :: 0 <= i < |entries| ==> ComponentFrom(entries[i], i) == Success(r.value[i])
    ensures r.Failure? ==> r.error == FieldError(entries[FirstMalformed(entries)], ComponentFields,
                                                 ComponentEntry(FirstMalformed(entries)))
    decreases |entries|
  {
    if entries == [] then Success([])
    else
      var n := |entries| - 1;
      var init :- ComponentsFrom(entries[..n]);
      var last :- ComponentFrom(entries[n], n);
      Success(init + [last])
  }

  /** `BuildManifest(data)`: gate on the schema version, then build the
      `build` record, then the components in order. */
  function ManifestFrom(data: Value): (r: Result<Manifest, Error>)
    ensures !data.Map? ==> r == Failure(NotAMapping(TopLevel, "schema-version"))
    ensures data.Map? && "schema-version" !in data.entries ==>
              r == Failure(MissingKey(TopLevel, "schema-version"))
    ensures data.Map? && "schema-version" in data.entries
              && LeafText(data.entries["schema-version"]) != Some(SupportedVersion) ==>
              r == Failure(UnsupportedVersion(data.entries["schema-version"]))
    ensures r.Success? ==> r.value.version == SupportedVersion
  {
    var found :- Get(data, "schema-version", TopLevel);
    var version := LeafText(found);
    if version != Some(SupportedVersion) then Failure(UnsupportedVersion(found))
    else
      var buildData :- Get(data, "build", TopLevel);
      var build :- BuildFrom(buildData);
      var componentsData :- Get(data, "components", TopLevel);
      var entries :- Entries(componentsData);
      var components :- ComponentsFrom(entries);
      Success(Manifest(version.value, build, components))
  }
}
