/**
 * The binding specification of one host type (BundleSet) and its builder.  BundleSet and
 * FieldBundleBinding are modelled from the way the processor uses them: look a binding up by
 * key or by name, add a field, set the parent binding, build.
 */
module BundleSets {
  import opened Results
  import opened ProgramModel

  /** One annotated field: its name, annotation kind, container key, declared type and required flag. */
  datatype FieldBinding = FieldBinding(
    name: string,
    annotation: ValueKind,
    key: string,
    typeName: string,
    required: bool)

  /** A finished binding specification, linked to the specification of its nearest bound ancestor. */
  datatype BundleSet = BundleSet(host: TypeId, fields: seq<FieldBinding>, parent: Option<BundleSet>)

  /** No two fields share a container key, and no two share a name. */
  ghost predicate UniqueBindings(fields: seq<FieldBinding>) {
    forall i, j :: 0 <= i < j < |fields| ==> fields[i].key != fields[j].key && fields[i].name != fields[j].name
  }

  /** A binding specification under construction: fields in the order they were added. */
  datatype Builder = Builder(host: TypeId, fields: seq<FieldBinding>, parent: Option<BundleSet>) {

    /** The bound field that already uses container key `key`, if any. */
    function FindExistingBindingByValue(key: string): (r: Option<FieldBinding>)
      ensures r.Some? ==> r.value in fields && r.value.key == key
      ensures r.None? <==> forall f :: f in fields ==> f.key != key
    {
      FindByKey(fields, key)
    }

    /** The bound field that already has name `name`, if any. */
    function FindExistingBindingByName(name: string): (r: Option<FieldBinding>)
      ensures r.Some? ==> r.value in fields && r.value.name == name
      ensures r.None? <==> forall f :: f in fields ==> f.name != name
    {
      FindByName(fields, name)
    }

    /** `addField`: `f` becomes the last field; host, parent and earlier fields stay. */
    function AddField(f: FieldBinding): (r: Builder)
      ensures r.host == host && r.parent == parent
      ensures |r.fields| == |fields| + 1 && r.fields[..|fields|] == fields && r.fields[|fields|] == f
    {
      this.(fields := fields + [f])
    }

    /** `setParent`: links the builder to its parent's binding; host and fields stay. */
    function SetParent(p: BundleSet): (r: Builder)
      ensures r.parent == Some(p) && r.host == host && r.fields == fields
    {
      this.(parent := Some(p))
    }

    /** `build`: the finished specification keeps the builder's host, fields in order, and parent. */
    function Build(): (r: BundleSet)
      ensures r.host == host && r.fields == fields && r.parent == parent
    {
      BundleSet(host, fields, parent)
    }
  }

  /** `BundleSet.newBuilder(host)`: an empty, unlinked builder for `host`, in which no key or name is taken. */
  function NewBuilder(host: TypeId): (r: Builder)
    ensures r.host == host && r.fields == [] && r.parent.None?
    ensures UniqueBindings(r.fields)
  {
    Builder(host, [], None)
  }

  function FindByKey(fields: seq<FieldBinding>, key: string): (r: Option<FieldBinding>)
    ensures r.Some? ==> r.value in fields && r.value.key == key
    ensures r.None? <==> forall f :: f in fields ==> f.key != key
  {
    if fields == [] then None
    else if fields[0].key == key then Some(fields[0])
    else FindByKey(fields[1..], key)
  }

  function FindByName(fields: seq<FieldBinding>, name: string): (r: Option<FieldBinding>)
    ensures r.Some? ==> r.value in fields && r.value.name == name
    ensures r.None? <==> forall f :: f in fields ==> f.name != name
  {
    if fields == [] then None
    else if fields[0].name == name then Some(fields[0])
    else FindByName(fields[1..], name)
  }

  /**
   * Adding a field whose key and name are both unused keeps the builder's fields unique; the
   * field lands at the end and the earlier fields are untouched.
   */
  lemma AddFieldKeepsUnique(b: Builder, f: FieldBinding)
    requires UniqueBindings(b.fields)
    requires b.FindExistingBindingByValue(f.key).None? && b.FindExistingBindingByName(f.name).None?
    ensures UniqueBindings(b.AddField(f).fields)
    ensures b.AddField(f).fields[..|b.fields|] == b.fields && b.AddField(f).fields[|b.fields|] == f
    ensures b.AddField(f).host == b.host && b.AddField(f).parent == b.parent
  {
  }
}
