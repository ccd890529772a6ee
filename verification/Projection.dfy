/**
  What the informer caches keep of a Cluster and of a Pod. A Cluster is a JSON object; the readers
  follow the accessors of unstructured objects, which treat a null on the way as absent and
  anything else that is not an object as an error.
 */
module Projection {
  import opened Keys
  import opened Metadata

  datatype JSON =
    | Null
    | Bool(value: bool)
    | Number(text: string)
    | Text(text: string)
    | Array(items: seq<JSON>)
    | Object(fields: Fields)

  type Fields = map<string, JSON>

  const PLUGIN := "connect.cnpg.io"
  const ENABLED := "connect.cnpg.io/enabled"
  const PARAMETERS := "connect.cnpg.io/parameters"
  const FENCED := "cnpg.io/fencedInstances"

  // ---- Reading ----

  datatype Lookup = Missing | Broken | Found(value: JSON)

  /** One step of a nested lookup. */
  function Step(l: Lookup, name: string): Lookup {
    if !l.Found? then l
    else if l.value.Null? then Missing
    else if !l.value.Object? then Broken
    else if name in l.value.fields then Found(l.value.fields[name])
    else Missing
  }

  function Nested(o: Fields, first: string, second: string): Lookup {
    Step(Step(Found(Object(o)), first), second)
  }

  /** A nested string, empty if it is absent, misplaced or not a string. */
  function TextOf(l: Lookup): string {
    if l.Found? && l.value.Text? then l.value.text else ""
  }

  predicate AllText(m: Fields) {
    forall k :: k in m ==> m[k].Text?
  }

  /** A string map is read whole or not at all. */
  function Texts(m: Fields): Option<map<string, string>> {
    if AllText(m) then Some(map k | k in m :: m[k].text) else None
  }

  /** Annotations are read whole or not at all too, but a null among them reads as empty. */
  predicate Readable(m: Fields) {
    forall k :: k in m ==> m[k].Text? || m[k].Null?
  }

  function TextOrEmpty(v: JSON): string {
    if v.Text? then v.text else ""
  }

  function Annotations(o: Fields): map<string, string> {
    var l := Nested(o, "metadata", "annotations");
    if l.Found? && l.value.Object? && Readable(l.value.fields)
    then map k | k in l.value.fields :: TextOrEmpty(l.value.fields[k]) else map[]
  }

  function Annotation(o: Fields, name: string): Option<string> {
    if name in Annotations(o) then Some(Annotations(o)[name]) else None
  }

  /** How a Cluster is enrolled, before its parameters are parsed. `Rejected` counts as not enabled,
      `Misconfigured` as enabled with an invalid configuration. */
  datatype Enrolment = OptedOut | Rejected | Misconfigured | Native(values: map<string,
      string>) | Annotated(raw: string)

  predicate IsOurs(v: JSON) {
    v.Object? && "name" in v.fields && v.fields["name"] == Text(PLUGIN)
  }

  /** The first plugin entry with our name. */
  function FirstOurs(items: seq<JSON>): Option<Fields> {
    if items == [] then None
    else if IsOurs(items[0]) then Some(items[0].fields)
    else FirstOurs(items[1..])
  }

  function NativeEnrolment(entry: Fields): Enrolment {
    if "enabled" in entry && !entry["enabled"].Bool? then Misconfigured
    else if "enabled" in entry && !entry["enabled"].value then OptedOut
    else if "parameters" !in entry then Native(map[])
    else if !entry["parameters"].Object? || Texts(entry["parameters"].fields).None? then Misconfigured
    else Native(Texts(entry["parameters"].fields).value)
  }

  function EnrolmentOf(o: Fields): Enrolment {
    if Annotation(o, ENABLED) == Some("false") then OptedOut else
    var l := Nested(o, "spec", "plugins");
    if l.Broken? || (l.Found? && !l.value.Array?) then Rejected else
    var entry := if l.Found? then FirstOurs(l.value.items) else None;
    if entry.Some? then NativeEnrolment(entry.value)
    else Annotated(if Annotation(o, PARAMETERS).Some? then Annotation(o, PARAMETERS).value else "")
  }

  const METHODS := ["recovery", "pg_basebackup", "initdb"]

  /** The first of the bootstrap methods that names a database. */
  function DatabaseOf(o: Fields, methods: seq<string>): string {
    if methods == [] then "" else
    var name := TextOf(Step(Step(Nested(o, "spec", "bootstrap"), methods[0]), "database"));
    if name != "" then name else DatabaseOf(o, methods[1..])
  }

  /** Two absent certificates and a null one compare equal. */
  function CertificatesOf(o: Fields): JSON {
    var l := Nested(o, "status", "certificates");
    if l.Found? then l.value else Null
  }

  datatype Identity = Identity(name: string, namespace: string, uid: string, deletion: string)
  datatype Notes = Notes(optOut: Option<string>, parameters: Option<string>, fencing: Option<string>)
  datatype Observed = Observed(current: string, target: string, caSecret: string, certificates: JSON)

  /** Everything that the observer reads from a Cluster. */
  datatype View = View(identity: Identity, notes: Notes, enrolment: Enrolment, database: string, observed: Observed)

  function IdentityOf(o: Fields): Identity {
    Identity(TextOf(Nested(o, "metadata", "name")), TextOf(Nested(o, "metadata", "namespace")),
             TextOf(Nested(o, "metadata", "uid")), TextOf(Nested(o, "metadata", "deletionTimestamp")))
  }

  function NotesOf(o: Fields): Notes {
    Notes(Annotation(o, ENABLED), Annotation(o, PARAMETERS), Annotation(o, FENCED))
  }

  function ObservedOf(o: Fields): Observed {
    Observed(TextOf(Nested(o, "status", "currentPrimary")), TextOf(Nested(o, "status", "targetPrimary")),
             TextOf(Step(Nested(o, "status", "certificates"), "serverCASecret")), CertificatesOf(o))
  }

  function ViewOf(o: Fields): View {
    View(IdentityOf(o), NotesOf(o), EnrolmentOf(o), DatabaseOf(o, METHODS), ObservedOf(o))
  }

  // ---- Projecting ----

  function Retained(m: Fields, names: seq<string>): Fields {
    map k | k in m && k in names :: m[k]
  }

  /** The fields of a value that is an object, nothing otherwise. */
  function FieldsAt(m: Fields, name: string): Fields {
    if name in m && m[name].Object? then m[name].fields else map[]
  }

  const METADATA := ["name", "namespace", "uid", "resourceVersion", "generation", "deletionTimestamp"]
  const ANNOTATIONS := [ENABLED, PARAMETERS, FENCED]
  const ENTRY := ["name", "enabled", "parameters"]
  const STATUS := ["currentPrimary", "targetPrimary", "certificates"]

  function KeptMetadata(metadata: Fields): Fields {
    Retained(metadata, METADATA)["annotations" := Object(Retained(FieldsAt(metadata, "annotations"), ANNOTATIONS))]
  }

  /** Our entry of a plugin list; a value that is not a list is kept as it is. */
  function KeptPlugins(plugins: JSON): JSON {
    if !plugins.Array? then plugins else
    var entry := FirstOurs(plugins.items);
    Array(if entry.None? then [] else [Object(Retained(entry.value, ENTRY))])
  }

  function KeptBootstrap(bootstrap: Fields): Fields {
    map k | k in METHODS && k in bootstrap
        && bootstrap[k].Object? :: Object(Retained(bootstrap[k].fields, ["database"]))
  }

  function KeptSpec(spec: Fields): Fields {
    (if "plugins" in spec then map["plugins" := KeptPlugins(spec["plugins"])] else map[])
    ["bootstrap" := Object(KeptBootstrap(FieldsAt(spec, "bootstrap")))]
  }

  function Kept(o: Fields): Fields {
    Retained(o, ["apiVersion", "kind"])
      ["metadata" := Object(KeptMetadata(FieldsAt(o, "metadata")))]
      ["spec" := Object(KeptSpec(FieldsAt(o, "spec")))]
      ["status" := Object(Retained(FieldsAt(o, "status"), STATUS))]
  }

  // ---- Projection keeps the meaning ----

  /** The parts of `Kept`, where lookups find them. */
  lemma KeptParts(o: Fields)
    ensures var k := Kept(o);
            && FieldsAt(k, "metadata") == KeptMetadata(FieldsAt(o, "metadata"))
            && FieldsAt(k, "spec") == KeptSpec(FieldsAt(o, "spec"))
            && FieldsAt(k, "status") == Retained(FieldsAt(o, "status"), STATUS)
            && "metadata" in k && k["metadata"].Object? && "spec" in k && k["spec"].Object? && "status" in k
               && k["status"].Object?
  {
  }

  lemma TextBelow(o: Fields, first: string, second: string)
    ensures TextOf(Nested(o, first, second)) ==
            (if second in FieldsAt(o, first) && FieldsAt(o, first)[second].Text? then FieldsAt(o, first)[second].text
                else "")
  {
  }

  lemma MetadataIsKept(o: Fields, name: string)
    requires name in METADATA
    ensures TextOf(Nested(Kept(o), "metadata", name)) == TextOf(Nested(o, "metadata", name))
  {
    KeptParts(o);
    TextBelow(o, "metadata", name);
    TextBelow(Kept(o), "metadata", name);
  }

  lemma IdentityIsKept(o: Fields)
    ensures IdentityOf(Kept(o)) == IdentityOf(o)
  {
    MetadataIsKept(o, "name");
    MetadataIsKept(o, "namespace");
    MetadataIsKept(o, "uid");
    MetadataIsKept(o, "deletionTimestamp");
  }

  lemma StatusIsKept(o: Fields, name: string)
    requires name in STATUS
    ensures Nested(o, "status", name).Found? ==> Nested(Kept(o), "status", name) == Nested(o, "status", name)
    ensures !Nested(o, "status", name).Found? ==> Nested(Kept(o), "status", name) == Missing
  {
  }

  lemma ObservedIsKept(o: Fields)
    ensures ObservedOf(Kept(o)) == ObservedOf(o)
  {
    StatusIsKept(o, "currentPrimary");
    StatusIsKept(o, "targetPrimary");
    StatusIsKept(o, "certificates");
  }

  function AnnotationFields(o: Fields): Fields {
    FieldsAt(FieldsAt(o, "metadata"), "annotations")
  }

  lemma AnnotationBelow(o: Fields, name: string)
    ensures var a := AnnotationFields(o);
            Annotation(o, name) == if Readable(a) && name in a then Some(TextOrEmpty(a[name])) else None
  {
  }

  /** Every annotation is a string or null; or none of the retained ones is there; or one of those is
      neither, so that neither form shows any. */
  ghost predicate AnnotationsSurvive(o: Fields) {
    var kept := Retained(AnnotationFields(o), ANNOTATIONS);
    Readable(AnnotationFields(o)) || kept == map[] || !Readable(kept)
  }

  lemma AnnotationsAreKept(o: Fields)
    ensures AnnotationsSurvive(o) <==> NotesOf(Kept(o)) == NotesOf(o)
  {
    var a, kept := AnnotationFields(o), Retained(AnnotationFields(o), ANNOTATIONS);
    KeptParts(o);
    assert AnnotationFields(Kept(o)) == kept;
    forall name | name in ANNOTATIONS
      ensures Annotation(Kept(o), name) == Annotation(o, name) <==> (Readable(a) || !Readable(kept) || name !in kept)
    {
      AnnotationBelow(o, name);
      AnnotationBelow(Kept(o), name);
      assert Readable(a) ==> Readable(kept);
    }
    assert kept == map[] <==> ENABLED !in kept && PARAMETERS !in kept && FENCED !in kept;
    assert ENABLED in ANNOTATIONS && PARAMETERS in ANNOTATIONS && FENCED in ANNOTATIONS;
  }

  /** The spec is an object, null or absent, or the Cluster has opted out anyway. */
  predicate SpecSurvives(o: Fields) {
    "spec" !in o || o["spec"].Null? || o["spec"].Object? || Annotation(o, ENABLED) == Some("false")
  }

  lemma PluginsAreKept(items: seq<JSON>)
    ensures var kept := KeptPlugins(Array(items)).items;
            FirstOurs(kept) == if FirstOurs(items).None? then None else Some(Retained(FirstOurs(items).value, ENTRY))
  {
  }

  lemma EntryIsKept(entry: Fields)
    ensures NativeEnrolment(Retained(entry, ENTRY)) == NativeEnrolment(entry)
  {
  }

  function PluginsAt(o: Fields): Lookup {
    Nested(o, "spec", "plugins")
  }

  lemma PluginLookupIsKept(o: Fields)
    ensures PluginsAt(o).Found? ==> PluginsAt(Kept(o)) == Found(KeptPlugins(PluginsAt(o).value))
    ensures !PluginsAt(o).Found? ==> PluginsAt(Kept(o)) == Missing
    ensures PluginsAt(o).Broken? <==> "spec" in o && !o["spec"].Null? && !o["spec"].Object?
  {
  }

  lemma EnrolmentIsKept(o: Fields)
    requires AnnotationsSurvive(o)
    ensures EnrolmentOf(Kept(o)) == EnrolmentOf(o) <==> SpecSurvives(o)
  {
    AnnotationsAreKept(o);
    PluginLookupIsKept(o);
    var l := PluginsAt(o);
    if l.Found? && l.value.Array? {
      PluginsAreKept(l.value.items);
      if FirstOurs(l.value.items).Some? {
        EntryIsKept(FirstOurs(l.value.items).value);
      }
    }
  }

  lemma DatabaseBelow(o: Fields, m: string)
    ensures var entry := FieldsAt(FieldsAt(FieldsAt(o, "spec"), "bootstrap"), m);
            TextOf(Step(Step(Nested(o, "spec", "bootstrap"), m), "database")) ==
            if "database" in entry && entry["database"].Text? then entry["database"].text else ""
  {
  }

  lemma {:induction false} DatabaseIsKept(o: Fields, methods: seq<string>)
    requires forall m :: m in methods ==> m in METHODS
    ensures DatabaseOf(Kept(o), methods) == DatabaseOf(o, methods)
    decreases methods
  {
    if methods != [] {
      var m := methods[0];
      KeptParts(o);
      var b := FieldsAt(FieldsAt(o, "spec"), "bootstrap");
      assert FieldsAt(FieldsAt(Kept(o), "spec"), "bootstrap") == KeptBootstrap(b);
      assert FieldsAt(KeptBootstrap(b), m) == Retained(FieldsAt(b, m), ["database"]);
      DatabaseBelow(o, m);
      DatabaseBelow(Kept(o), m);
      assert "database" in ["database"];
      DatabaseIsKept(o, methods[1..]);
    }
  }

  /** Projection keeps everything that the observer reads exactly when annotations and spec survive. */
  lemma ViewIsKeptIff(o: Fields)
    ensures ViewOf(Kept(o)) == ViewOf(o) <==> AnnotationsSurvive(o) && SpecSurvives(o)
  {
    AnnotationsAreKept(o);
    IdentityIsKept(o);
    ObservedIsKept(o);
    DatabaseIsKept(o, METHODS);
    if AnnotationsSurvive(o) {
      EnrolmentIsKept(o);
    }
  }

  // ---- Idempotence ----

  lemma RetainedTwice(m: Fields, names: seq<string>)
    ensures Retained(Retained(m, names), names) == Retained(m, names)
  {
  }

  lemma MetadataTwice(m: Fields)
    ensures KeptMetadata(KeptMetadata(m)) == KeptMetadata(m)
  {
    var k := KeptMetadata(m);
    assert FieldsAt(k, "annotations") == Retained(FieldsAt(m, "annotations"), ANNOTATIONS);
    RetainedTwice(FieldsAt(m, "annotations"), ANNOTATIONS);
    assert Retained(k, METADATA) == Retained(m, METADATA);
  }

  lemma PluginsTwice(plugins: JSON)
    ensures KeptPlugins(KeptPlugins(plugins)) == KeptPlugins(plugins)
  {
    if plugins.Array? {
      PluginsAreKept(plugins.items);
      var entry := FirstOurs(plugins.items);
      if entry.Some? {
        RetainedTwice(entry.value, ENTRY);
      }
    }
  }

  lemma BootstrapTwice(b: Fields)
    ensures KeptBootstrap(KeptBootstrap(b)) == KeptBootstrap(b)
  {
    forall k | k in KeptBootstrap(b)
      ensures KeptBootstrap(KeptBootstrap(b))[k] == KeptBootstrap(b)[k]
    {
      RetainedTwice(b[k].fields, ["database"]);
    }
  }

  lemma SpecTwice(spec: Fields)
    ensures KeptSpec(KeptSpec(spec)) == KeptSpec(spec)
  {
    var k := KeptSpec(spec);
    assert FieldsAt(k, "bootstrap") == KeptBootstrap(FieldsAt(spec, "bootstrap"));
    BootstrapTwice(FieldsAt(spec, "bootstrap"));
    if "plugins" in spec {
      PluginsTwice(spec["plugins"]);
    }
  }

  /** Projection is idempotent on every object. */
  lemma KeptTwice(o: Fields)
    ensures Kept(Kept(o)) == Kept(o)
  {
    KeptParts(o);
    MetadataTwice(FieldsAt(o, "metadata"));
    SpecTwice(FieldsAt(o, "spec"));
    RetainedTwice(FieldsAt(o, "status"), STATUS);
    assert Retained(Kept(o), ["apiVersion", "kind"]) == Retained(o, ["apiVersion", "kind"]);
  }

  // ---- What the observer makes of a Cluster ----

  /** Parsing that is not part of this model: timestamps, fencing lists, parameters and a faithful
      rendering of the certificates status. */
  datatype Decoders = Decoders(
    deleted: string -> bool, fence: string -> Fencing,
    unmarshal: string -> Option<map<string, string>>, parse: map<string, string> -> Option<Parameters>,
    render: JSON -> string)

  function ParametersOf(e: Enrolment, d: Decoders): Option<Parameters> {
    match e
    case OptedOut => Some(Parameters(map[], ""))
    case Native(values) => d.parse(values)
    case Annotated(raw) =>
      var values := if raw == "" then Some(map[]) else d.unmarshal(raw);
      if values.None? then None else d.parse(values.value)
    case _ => None
  }

  function ClusterOf(o: Fields, d: Decoders): Cluster {
    var v := ViewOf(o);
    Cluster(v.identity.namespace, v.identity.name, v.identity.uid, d.deleted(v.identity.deletion),
            v.observed.current, v.observed.target,
            !v.enrolment.OptedOut? && !v.enrolment.Rejected?, ParametersOf(v.enrolment, d),
            if v.notes.fencing.None? then Unfenced else if v.notes.fencing.value == "" then EmptyText
                else d.fence(v.notes.fencing.value),
            v.database, Certificates(v.observed.caSecret, d.render(v.observed.certificates)))
  }

  /** Annotations that are strings or null, and a spec that is an object if it is anything. */
  ghost predicate WellFormed(o: Fields) {
    Readable(AnnotationFields(o)) && ("spec" in o ==> o["spec"].Object? || o["spec"].Null?)
  }

  /** Whatever the parsers do, a well-formed Cluster and its projection are one to the observer. */
  lemma ClusterIsKept(o: Fields, d: Decoders)
    requires WellFormed(o)
    ensures ClusterOf(Kept(o), d) == ClusterOf(o, d)
  {
    ViewIsKeptIff(o);
  }

  /** So handlers compare routes of projected objects as they would the originals. */
  lemma RoutesAreKept(a: Fields, b: Fields, d: Decoders)
    requires WellFormed(a) && WellFormed(b)
    ensures SameClusterRoute(ClusterOf(Kept(a), d), ClusterOf(Kept(b), d)) <==>
              SameClusterRoute(ClusterOf(a, d), ClusterOf(b, d))
  {
    ClusterIsKept(a, d);
    ClusterIsKept(b, d);
  }

  const ODD_ANNOTATION: Fields :=
    map["metadata" := Object(map["annotations" := Object(map[ENABLED := Text("false"), "note" := Number("1")])])]
  const TEXT_SPEC: Fields := map["spec" := Text("")]

  /** An unrelated annotation that is no string hides an opt-out from the original only. */
  lemma OddAnnotationHidesOptOut()
    ensures EnrolmentOf(ODD_ANNOTATION) == Annotated("") && EnrolmentOf(Kept(ODD_ANNOTATION)) == OptedOut
  {
    var o := ODD_ANNOTATION;
    KeptParts(o);
    var a := AnnotationFields(o);
    assert a == map[ENABLED := Text("false"), "note" := Number("1")];
    assert "note" in a && !a["note"].Text? && !a["note"].Null?;
    var kept := AnnotationFields(Kept(o));
    assert kept == Retained(a, ANNOTATIONS) == map[ENABLED := Text("false")];
    AnnotationBelow(o, ENABLED);
    AnnotationBelow(o, PARAMETERS);
    AnnotationBelow(Kept(o), ENABLED);
  }

  /** A spec that is no object is rejected before projection and enrolled after it. */
  lemma TextSpecEnrols()
    ensures EnrolmentOf(TEXT_SPEC) == Rejected && EnrolmentOf(Kept(TEXT_SPEC)) == Annotated("")
  {
    var o := TEXT_SPEC;
    KeptParts(o);
    PluginLookupIsKept(o);
    AnnotationBelow(o, ENABLED);
    AnnotationBelow(Kept(o), ENABLED);
    AnnotationBelow(Kept(o), PARAMETERS);
    assert AnnotationFields(Kept(o)) == map[];
  }

  // ---- The transform ----

  method ProjectJSONFields(source: Fields, names: seq<string>) returns (result: Fields)
    ensures result == Retained(source, names)
  {
    result := map[];
    var i := 0;
    while i < |names|
      invariant 0 <= i <= |names|
      invariant result == Retained(source, names[..i])
    {
      var name := names[i];
      assert names[..i + 1] == names[..i] + [name];
      if name in source {
        result := result[name := source[name]];
      }
      i := i + 1;
    }
    assert names[..i] == names;
  }

  method SelectPlugin(plugins: seq<JSON>) returns (selected: seq<JSON>)
    ensures Array(selected) == KeptPlugins(Array(plugins))
  {
    selected := [];
    var i := 0;
    while i < |plugins|
      invariant 0 <= i <= |plugins| && selected == []
      invariant FirstOurs(plugins) == FirstOurs(plugins[i..])
    {
      var value := plugins[i];
      if value.Object? && "name" in value.fields && value.fields["name"] == Text(PLUGIN) {
        var entry := ProjectJSONFields(value.fields, ENTRY);
        selected := [Object(entry)];
        return;
      }
      i := i + 1;
    }
  }

  method ProjectBootstrap(bootstrap: Fields) returns (result: Fields)
    ensures result == KeptBootstrap(bootstrap)
  {
    result := map[];
    var i := 0;
    while i < |METHODS|
      invariant 0 <= i <= |METHODS|
      invariant forall k :: k in result <==> k in METHODS[..i] && k in bootstrap && bootstrap[k].Object?
      invariant forall k :: k in result ==> result[k] == Object(Retained(bootstrap[k].fields, ["database"]))
    {
      var name := METHODS[i];
      assert METHODS[..i + 1] == METHODS[..i] + [name];
      if name in bootstrap && bootstrap[name].Object? {
        var entry := ProjectJSONFields(bootstrap[name].fields, ["database"]);
        result := result[name := Object(entry)];
      }
      i := i + 1;
    }
    assert METHODS[..i] == METHODS;
  }

  /** `cluster` is None for anything but an unstructured object, which is an error. */
  method TransformClusterCache(cluster: Option<Fields>) returns (projected: Option<Fields>)
    ensures projected == if cluster.None? then None else Some(Kept(cluster.value))
  {
    if cluster.None? {
      return None;
    }
    var o := cluster.value;
    var result := ProjectJSONFields(o, ["apiVersion", "kind"]);
    var metadata := FieldsAt(o, "metadata");
    var keptMetadata := ProjectJSONFields(metadata, METADATA);
    var annotations := ProjectJSONFields(FieldsAt(metadata, "annotations"), ANNOTATIONS);
    keptMetadata := keptMetadata["annotations" := Object(annotations)];
    result := result["metadata" := Object(keptMetadata)];
    var spec := FieldsAt(o, "spec");
    var keptSpec: Fields := map[];
    if "plugins" in spec {
      if spec["plugins"].Array? {
        var selected := SelectPlugin(spec["plugins"].items);
        keptSpec := keptSpec["plugins" := Array(selected)];
      } else {
        keptSpec := keptSpec["plugins" := spec["plugins"]];
      }
    }
    var bootstrap := ProjectBootstrap(FieldsAt(spec, "bootstrap"));
    keptSpec := keptSpec["bootstrap" := Object(bootstrap)];
    result := result["spec" := Object(keptSpec)];
    var status := ProjectJSONFields(FieldsAt(o, "status"), STATUS);
    result := result["status" := Object(status)];
    projected := Some(result);
  }
}
