/** What the observer reads from a Cluster object, by the places where it is written. */
module Readers {
  import opened Keys
  import opened Metadata
  import opened Projection

  /** The value is written at that path, through objects only. */
  predicate Within(o: Fields, path: seq<string>, v: JSON)
    decreases path
  {
    && path != [] && path[0] in o
    && if |path| == 1 then o[path[0]] == v else o[path[0]].Object? && Within(o[path[0]].fields, path[1..], v)
  }

  /** The string at that path, which is empty if there is none. */
  ghost predicate Says(o: Fields, path: seq<string>, s: string) {
    Within(o, path, Text(s)) || (s == "" && forall t :: !Within(o, path, Text(t)))
  }

  lemma WithinTwo(o: Fields, first: string, second: string, v: JSON)
    ensures Within(o, [first, second], v) <==>
            first in o && o[first].Object? && second in o[first].fields && o[first].fields[second] == v
    ensures Nested(o, first, second) == Found(v) <==> Within(o, [first, second], v)
  {
    assert [first, second][1..] == [second];
    if first in o && o[first].Object? {
      assert Within(o, [first, second], v) <==> Within(o[first].fields, [second], v);
    }
  }

  lemma {:induction false} WithinBelow(o: Fields, path: seq<string>, last: string, v: JSON)
    requires path != []
    ensures Within(o, path + [last], v) <==>
            exists m :: Within(o, path, m) && m.Object? && last in m.fields && m.fields[last] == v
    decreases path
  {
    var whole := path + [last];
    if path[0] in o && o[path[0]].Object? {
      if |path| == 1 {
        assert whole[1..] == [last];
        assert Within(o, path, o[path[0]]);
        assert Within(o, whole, v) <==> Within(o[path[0]].fields, [last], v);
      } else {
        var rest := o[path[0]].fields;
        assert whole[1..] == path[1..] + [last];
        WithinBelow(rest, path[1..], last, v);
        assert forall m :: Within(o, path, m) <==> Within(rest, path[1..], m);
      }
    }
  }

  /** One more step of a lookup finds what is written below. */
  lemma StepIs(o: Fields, path: seq<string>, l: Lookup, last: string)
    requires path != [] && forall v :: l == Found(v) <==> Within(o, path, v)
    ensures forall v :: Step(l, last) == Found(v) <==> Within(o, path + [last], v)
  {
    forall v
      ensures Step(l, last) == Found(v) <==> Within(o, path + [last], v)
    {
      WithinBelow(o, path, last, v);
      if l.Found? {
        assert Within(o, path, l.value);
      }
    }
  }

  lemma NestedIs(o: Fields, first: string, second: string)
    ensures forall v :: Nested(o, first, second) == Found(v) <==> Within(o, [first, second], v)
  {
    forall v
      ensures Nested(o, first, second) == Found(v) <==> Within(o, [first, second], v)
    {
      WithinTwo(o, first, second, v);
    }
  }

  lemma TextIs(o: Fields, path: seq<string>, l: Lookup)
    requires forall v :: l == Found(v) <==> Within(o, path, v)
    ensures Says(o, path, TextOf(l))
  {
    if l.Found? && l.value.Text? {
      assert Within(o, path, Text(l.value.text));
    } else {
      forall t
        ensures !Within(o, path, Text(t))
      {
        assert l != Found(Text(t));
      }
    }
  }

  lemma SaysNested(o: Fields, first: string, second: string)
    ensures Says(o, [first, second], TextOf(Nested(o, first, second)))
  {
    NestedIs(o, first, second);
    TextIs(o, [first, second], Nested(o, first, second));
  }

  // ---- Identity, primaries and certificates ----

  lemma IdentityReads(o: Fields, d: Decoders)
    ensures
      var c := ClusterOf(o, d);
      && Says(o, ["metadata", "name"], c.name) && Says(o, ["metadata", "namespace"], c.namespace)
      && Says(o, ["metadata", "uid"], c.uid)
      && exists t :: Says(o, ["metadata", "deletionTimestamp"], t) && c.deleting == d.deleted(t)
  {
    SaysNested(o, "metadata", "name");
    SaysNested(o, "metadata", "namespace");
    SaysNested(o, "metadata", "uid");
    SaysNested(o, "metadata", "deletionTimestamp");
  }

  lemma StatusReads(o: Fields, d: Decoders)
    ensures
      var c := ClusterOf(o, d);
      && Says(o, ["status", "currentPrimary"], c.currentPrimary)
      && Says(o, ["status", "targetPrimary"], c.targetPrimary)
      && Says(o, ["status", "certificates", "serverCASecret"], c.certificates.serverCASecret)
      && (forall v :: Within(o, ["status", "certificates"], v) ==> c.certificates.other == d.render(v))
  {
    SaysNested(o, "status", "currentPrimary");
    SaysNested(o, "status", "targetPrimary");
    NestedIs(o, "status", "certificates");
    var l := Nested(o, "status", "certificates");
    StepIs(o, ["status", "certificates"], l, "serverCASecret");
    assert ["status", "certificates"] + ["serverCASecret"] == ["status", "certificates", "serverCASecret"];
    TextIs(o, ["status", "certificates", "serverCASecret"], Step(l, "serverCASecret"));
  }

  /** The database of the recovery, else of the base backup, else of the initialization. */
  lemma DatabaseReads(o: Fields, d: Decoders, recovery: string, backup: string, init: string)
    requires Says(o, ["spec", "bootstrap", "recovery", "database"], recovery)
    requires Says(o, ["spec", "bootstrap", "pg_basebackup", "database"], backup)
    requires Says(o, ["spec", "bootstrap", "initdb", "database"], init)
    ensures ClusterOf(o, d).database == if recovery != "" then recovery else if backup != "" then backup else init
  {
    MethodReads(o, "recovery", recovery);
    MethodReads(o, "pg_basebackup", backup);
    MethodReads(o, "initdb", init);
    var all, two, one := ["recovery", "pg_basebackup", "initdb"], ["pg_basebackup", "initdb"], ["initdb"];
    assert all[1..] == two && two[1..] == one && one[1..] == [];
    assert DatabaseOf(o, one) == init;
    assert DatabaseOf(o, two) == if backup != "" then backup else init;
    assert DatabaseOf(o, all) == if recovery != "" then recovery else DatabaseOf(o, two);
  }

  /** At most one string is read at a path. */
  lemma SaysOnce(o: Fields, path: seq<string>, s: string, t: string)
    requires Says(o, path, s) && Says(o, path, t)
    ensures s == t
  {
    if Within(o, path, Text(s)) && Within(o, path, Text(t)) {
      WithinOnce(o, path, Text(s), Text(t));
    }
  }

  lemma {:induction false} WithinOnce(o: Fields, path: seq<string>, v: JSON, w: JSON)
    requires Within(o, path, v) && Within(o, path, w)
    ensures v == w
    decreases path
  {
    if |path| > 1 {
      WithinOnce(o[path[0]].fields, path[1..], v, w);
    }
  }

  lemma MethodReads(o: Fields, m: string, name: string)
    requires Says(o, ["spec", "bootstrap", m, "database"], name)
    ensures name == TextOf(Step(Step(Nested(o, "spec", "bootstrap"), m), "database"))
  {
    NestedIs(o, "spec", "bootstrap");
    var l := Nested(o, "spec", "bootstrap");
    StepIs(o, ["spec", "bootstrap"], l, m);
    assert ["spec", "bootstrap"] + [m] == ["spec", "bootstrap", m];
    StepIs(o, ["spec", "bootstrap", m], Step(l, m), "database");
    assert ["spec", "bootstrap", m] + ["database"] == ["spec", "bootstrap", m, "database"];
    TextIs(o, ["spec", "bootstrap", m, "database"], Step(Step(l, m), "database"));
    SaysOnce(o, ["spec", "bootstrap", m, "database"], name, TextOf(Step(Step(l, m), "database")));
  }

  // ---- Annotations ----

  /** The annotation is a string or, as the empty string, null; and so are all others. */
  ghost predicate Noted(o: Fields, name: string, text: string) {
    exists a: Fields :: && Within(o, ["metadata", "annotations"], Object(a))
                && (forall k :: k in a ==> a[k].Text? || a[k].Null?)
                && name in a && (a[name] == Text(text) || (a[name].Null? && text == ""))
  }

  lemma NotedIff(o: Fields, name: string, text: string)
    ensures Annotation(o, name) == Some(text) <==> Noted(o, name, text)
  {
    NestedIs(o, "metadata", "annotations");
    var l := Nested(o, "metadata", "annotations");
    if l.Found? && l.value.Object? {
      assert Within(o, ["metadata", "annotations"], Object(l.value.fields));
      assert forall a :: Within(o, ["metadata", "annotations"], Object(a)) ==> a == l.value.fields;
    } else {
      forall a
        ensures !Within(o, ["metadata", "annotations"], Object(a))
      {
        assert l != Found(Object(a));
      }
    }
  }

  /** An absent annotation is no fence, an empty one does not parse, and any other is what it parses to. */
  lemma FencingReads(o: Fields, d: Decoders, text: string)
    ensures
      var f := ClusterOf(o, d).fencing;
      && (Noted(o, "cnpg.io/fencedInstances", text) ==> f == if text == "" then EmptyText else d.fence(text))
      && ((forall t :: !Noted(o, "cnpg.io/fencedInstances", t)) ==> f == Unfenced)
  {
    NotedIff(o, "cnpg.io/fencedInstances", text);
    var a := Annotation(o, "cnpg.io/fencedInstances");
    if a.Some? {
      NotedIff(o, "cnpg.io/fencedInstances", a.value);
    }
  }

  // ---- Enrolment ----

  predicate Ours(v: JSON) {
    v.Object? && "name" in v.fields && v.fields["name"] == Text("connect.cnpg.io")
  }

  /** The first entry of the plugin list with our name. */
  ghost predicate OurEntry(o: Fields, entry: Fields) {
    exists items, i: nat ::
      && Within(o, ["spec", "plugins"], Array(items)) && i < |items| && items[i] == Object(entry)
      && Ours(items[i]) && (forall j :: 0 <= j < i ==> !Ours(items[j]))
  }

  lemma {:induction false} FirstOursIs(items: seq<JSON>, i: nat)
    requires i < |items| && Ours(items[i]) && forall j :: 0 <= j < i ==> !Ours(items[j])
    ensures FirstOurs(items) == Some(items[i].fields)
    decreases items
  {
    if i > 0 {
      FirstOursIs(items[1..], i - 1);
    }
  }

  lemma {:induction false} FoundOurs(items: seq<JSON>) returns (i: nat)
    requires FirstOurs(items).Some?
    ensures i < |items| && Ours(items[i]) && (forall j :: 0 <= j < i ==> !Ours(items[j]))
    decreases items
  {
    if Ours(items[0]) {
      i := 0;
    } else {
      var k := FoundOurs(items[1..]);
      i := k + 1;
      assert forall j :: 0 < j < i ==> items[j] == items[1..][j - 1];
    }
  }

  lemma OurEntryIs(o: Fields, entry: Fields)
    ensures OurEntry(o, entry) <==>
            var l := Nested(o, "spec", "plugins"); l.Found? && l.value.Array? && FirstOurs(l.value.items) == Some(entry)
  {
    NestedIs(o, "spec", "plugins");
    var l := Nested(o, "spec", "plugins");
    if items, i: nat :| && Within(o, ["spec", "plugins"], Array(items)) && i < |items| && items[i] == Object(entry)
                        && Ours(items[i]) && (forall j :: 0 <= j < i ==> !Ours(items[j])) {
      FirstOursIs(items, i);
    }
    if l.Found? && l.value.Array? && FirstOurs(l.value.items) == Some(entry) {
      var i := FoundOurs(l.value.items);
      FirstOursIs(l.value.items, i);
      assert Within(o, ["spec", "plugins"], Array(l.value.items)) && l.value.items[i] == Object(entry);
    }
  }

  /** The spec is neither an object nor null, or its plugins are no list. */
  ghost predicate Unreadable(o: Fields) {
    || ("spec" in o && !o["spec"].Null? && !o["spec"].Object?)
    || (exists v :: Within(o, ["spec", "plugins"], v) && !v.Array?)
  }

  lemma UnreadableIs(o: Fields)
    ensures var l := Nested(o, "spec", "plugins"); Unreadable(o) <==> l.Broken? || (l.Found? && !l.value.Array?)
  {
    NestedIs(o, "spec", "plugins");
    var l := Nested(o, "spec", "plugins");
    if l.Found? {
      assert Within(o, ["spec", "plugins"], l.value);
    }
  }

  /** A Cluster takes part unless it is annotated out, its plugins cannot be read, or our entry is disabled. */
  lemma EnabledIff(o: Fields, d: Decoders)
    ensures ClusterOf(o, d).enabled <==>
            && !Noted(o, "connect.cnpg.io/enabled", "false") && !Unreadable(o)
            && (forall entry :: OurEntry(o, entry) ==> !("enabled" in entry && entry["enabled"] == Bool(false)))
  {
    NotedIff(o, "connect.cnpg.io/enabled", "false");
    UnreadableIs(o);
    forall entry
      ensures OurEntry(o, entry) <==>
              var l := Nested(o, "spec", "plugins");
              l.Found? && l.value.Array? && FirstOurs(l.value.items) == Some(entry)
    {
      OurEntryIs(o, entry);
    }
    var l := Nested(o, "spec", "plugins");
    if l.Found? && l.value.Array? && FirstOurs(l.value.items).Some? {
      assert OurEntry(o, FirstOurs(l.value.items).value);
    }
  }

  /** The parameters of our entry, if a Cluster that takes part has one: invalid if `enabled` is no boolean or
      they are not all strings. */
  lemma NativeParametersRead(o: Fields, d: Decoders, entry: Fields)
    requires ClusterOf(o, d).enabled && OurEntry(o, entry)
    ensures
      var params := ClusterOf(o, d).params;
      if "enabled" in entry && !entry["enabled"].Bool? then params.None?
      else if "parameters" !in entry then params == d.parse(map[])
      else if !entry["parameters"].Object? then params.None?
      else if exists k :: k in entry["parameters"].fields && !entry["parameters"].fields[k].Text?
      then params.None?
      else exists values ::
          && params == d.parse(values) && values.Keys == entry["parameters"].fields.Keys
          && forall k :: k in values ==> entry["parameters"].fields[k] == Text(values[k])
  {
    OurEntryIs(o, entry);
    UnreadableIs(o);
    if "parameters" in entry && entry["parameters"].Object? && Texts(entry["parameters"].fields).Some? {
      var values := Texts(entry["parameters"].fields).value;
      assert values.Keys == entry["parameters"].fields.Keys;
    }
  }

  /** Without our entry, the parameters of the annotation: none if it is absent or empty, invalid if it does
      not parse. */
  lemma AnnotatedParametersRead(o: Fields, d: Decoders, text: string)
    requires ClusterOf(o, d).enabled && forall entry :: !OurEntry(o, entry)
    ensures
      var params := ClusterOf(o, d).params;
      && (Noted(o, "connect.cnpg.io/parameters", text) && text != "" ==>
            params == if d.unmarshal(text).None? then None else d.parse(d.unmarshal(text).value))
      && ((forall t :: t != "" ==> !Noted(o, "connect.cnpg.io/parameters", t)) ==> params == d.parse(map[]))
  {
    NotedIff(o, "connect.cnpg.io/parameters", text);
    var a := Annotation(o, "connect.cnpg.io/parameters");
    if a.Some? {
      NotedIff(o, "connect.cnpg.io/parameters", a.value);
    }
    var l := Nested(o, "spec", "plugins");
    if l.Found? && l.value.Array? && FirstOurs(l.value.items).Some? {
      OurEntryIs(o, FirstOurs(l.value.items).value);
      assert false;
    }
  }

  // ---- What projection keeps, and nothing else ----

  const KEPT_METADATA: set<string> := {"name", "namespace", "uid", "resourceVersion", "generation", "deletionTimestamp"}
  const KEPT_ANNOTATIONS: set<string> :=
    {"connect.cnpg.io/enabled", "connect.cnpg.io/parameters", "cnpg.io/fencedInstances"}
  const KEPT_STATUS: set<string> := {"currentPrimary", "targetPrimary", "certificates"}

  /** At the top, of the metadata and of the status, exactly the named fields stay, as they were. */
  lemma FieldsKeptIff(o: Fields, k: string, v: JSON)
    ensures k !in {"metadata", "spec", "status"} ==>
              (Within(Kept(o), [k], v) <==> k in {"apiVersion", "kind"} && Within(o, [k], v))
    ensures k != "annotations" ==>
              (Within(Kept(o), ["metadata", k], v) <==> k in KEPT_METADATA && Within(o, ["metadata", k], v))
    ensures Within(Kept(o), ["status", k], v) <==> k in KEPT_STATUS && Within(o, ["status", k], v)
  {
    KeptParts(o);
    WithinTwo(o, "metadata", k, v);
    WithinTwo(Kept(o), "metadata", k, v);
    WithinTwo(o, "status", k, v);
    WithinTwo(Kept(o), "status", k, v);
  }

  /** Three annotations stay. */
  lemma AnnotationsKeptIff(o: Fields, k: string, v: JSON)
    ensures Within(Kept(o), ["metadata", "annotations", k], v) <==>
              k in KEPT_ANNOTATIONS && Within(o, ["metadata", "annotations", k], v)
  {
    KeptParts(o);
    WithinThree(o, "metadata", "annotations", k, v);
    WithinThree(Kept(o), "metadata", "annotations", k, v);
    assert AnnotationFields(Kept(o)) == Retained(AnnotationFields(o), ANNOTATIONS);
  }

  lemma WithinThree(o: Fields, first: string, second: string, third: string, v: JSON)
    ensures var m := FieldsAt(FieldsAt(o, first), second);
            Within(o, [first, second, third], v) <==> third in m && m[third] == v
  {
    assert [first, second, third][1..] == [second, third];
    if first in o && o[first].Object? {
      WithinTwo(o[first].fields, second, third, v);
    }
  }

  /** Of the bootstrap, the database of each method stays; of the rest of the spec, only the plugins. */
  lemma SpecKeptIff(o: Fields, m: string, k: string, v: JSON)
    ensures Within(Kept(o), ["spec", "bootstrap", m, k], v) <==>
              m in {"recovery", "pg_basebackup", "initdb"} && k == "database"
              && Within(o, ["spec", "bootstrap", m, k], v)
    ensures k !in {"plugins", "bootstrap"} ==> !Within(Kept(o), ["spec", k], v)
  {
    KeptParts(o);
    var b := FieldsAt(FieldsAt(o, "spec"), "bootstrap");
    assert FieldsAt(FieldsAt(Kept(o), "spec"), "bootstrap") == KeptBootstrap(b);
    WithinFour(o, "spec", "bootstrap", m, k, v);
    WithinFour(Kept(o), "spec", "bootstrap", m, k, v);
    WithinTwo(Kept(o), "spec", k, v);
    assert m in METHODS <==> m in {"recovery", "pg_basebackup", "initdb"};
  }

  lemma WithinFour(o: Fields, first: string, second: string, third: string, fourth: string, v: JSON)
    ensures var m := FieldsAt(FieldsAt(FieldsAt(o, first), second), third);
            Within(o, [first, second, third, fourth], v) <==> fourth in m && m[fourth] == v
  {
    assert [first, second, third, fourth][1..] == [second, third, fourth];
    if first in o && o[first].Object? {
      WithinThree(o[first].fields, second, third, fourth, v);
    }
  }

  /** The entry with three of its fields, all of them if it has them. */
  ghost predicate Trimmed(entry: Fields, kept: JSON) {
    && kept.Object?
    && (forall k :: k in kept.fields <==> k in entry && k in {"name", "enabled", "parameters"})
    && (forall k :: k in kept.fields ==> kept.fields[k] == entry[k])
  }

  /** Of a plugin list, our entry stays alone, with three of its fields; what is no list stays as it is. */
  lemma PluginsKeptIff(o: Fields, v: JSON)
    requires Within(o, ["spec", "plugins"], v)
    ensures !v.Array? ==> Within(Kept(o), ["spec", "plugins"], v)
    ensures v.Array? && (forall entry :: !OurEntry(o, entry)) ==> Within(Kept(o), ["spec", "plugins"], Array([]))
    ensures forall entry :: OurEntry(o, entry) ==>
              exists kept :: Within(Kept(o), ["spec", "plugins"], Array([kept])) && Trimmed(entry, kept)
  {
    NestedIs(o, "spec", "plugins");
    PluginLookupIsKept(o);
    var kept := KeptPlugins(v);
    WithinTwo(Kept(o), "spec", "plugins", kept);
    forall entry
      ensures OurEntry(o, entry) <==> v.Array? && FirstOurs(v.items) == Some(entry)
    {
      OurEntryIs(o, entry);
    }
    if v.Array? && FirstOurs(v.items).Some? {
      var entry := FirstOurs(v.items).value;
      assert Trimmed(entry, Object(Retained(entry, ENTRY)));
      assert kept == Array([Object(Retained(entry, ENTRY))]);
    }
  }
}
