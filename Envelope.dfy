/**
 * The envelope protocol: a root ("container") message holds its payload in one of
 * several optional message-typed slots, either a direct field of the root type or
 * an extension field declared in the payload's own schema file. Unwrapping takes
 * the first populated slot; packing fills the first slot whose type matches.
 * The schema reflection layer is abstracted as descriptors carried by the values.
 */
module Envelope {
  import opened Wrappers

  /** Full schema name of a message type; the dispatch key everywhere. */
  type TypeKey = string

  /** A payload message: its schema type name and its (uninterpreted) content. */
  datatype Payload = Payload(typeName: TypeKey, data: seq<int>)

  /** A direct field of the root type: is it message-typed, and of which message type. */
  datatype FieldDescriptor = FieldDescriptor(isMessage: bool, messageType: TypeKey)

  /** A file-level extension field: its kind, the type it extends, and its message type. */
  datatype ExtensionDescriptor = ExtensionDescriptor(isMessage: bool, containingType: TypeKey, messageType: TypeKey)

  datatype Field = Field(descriptor: FieldDescriptor, value: Option<Payload>)

  /** An extension that is set on a container, with its value. */
  datatype ExtensionField = ExtensionField(descriptor: ExtensionDescriptor, value: Payload)

  /** A root message value: its type name, its direct fields, and its set extensions. */
  datatype Container = Container(typeName: TypeKey, fields: seq<Field>, extensions: seq<ExtensionField>)

  /** The root message type: its full name and its direct field declarations. */
  datatype Schema = Schema(typeName: TypeKey, fields: seq<FieldDescriptor>)

  /** A default-constructed root message: no field populated, no extension set. */
  function NewContainer(s: Schema): (c: Container)
    ensures c.typeName == s.typeName && |c.fields| == |s.fields| && c.extensions == []
    ensures forall i :: 0 <= i < |c.fields| ==> c.fields[i] == Field(s.fields[i], None)
  {
    Container(s.typeName, seq(|s.fields|, i requires 0 <= i < |s.fields| => Field(s.fields[i], None)), [])
  }

  /** No slot of c holds a payload. */
  predicate IsEmpty(c: Container)
  {
    (forall j :: 0 <= j < |c.fields| ==> c.fields[j].value.None?) && c.extensions == []
  }

  // ---------------------------------------------------------------- unwrap

  /** Index of the first populated direct field at or after `from`. */
  function FirstPopulated(fs: seq<Field>, from: nat): (r: Option<nat>)
    requires from <= |fs|
    ensures r.Some? ==> from <= r.value < |fs| && fs[r.value].value.Some?
    ensures r.Some? ==> forall j :: from <= j < r.value ==> fs[j].value.None?
    ensures r.None? ==> forall j :: from <= j < |fs| ==> fs[j].value.None?
    decreases |fs| - from
  {
    if from == |fs| then None
    else if fs[from].value.Some? then Some(from)
    else FirstPopulated(fs, from + 1)
  }

  /**
   * Unwraps a received root message: the payload of its first populated slot
   * (direct fields in declaration order, then set extensions), or None when
   * nothing is populated (the malformed, "arrived empty" message).
   */
  function OpenReq(c: Container): (r: Option<Payload>)
    ensures r.None? <==> IsEmpty(c)
    ensures forall i :: 0 <= i < |c.fields| && c.fields[i].value.Some?
                && (forall j :: 0 <= j < i ==> c.fields[j].value.None?)
              ==> r == c.fields[i].value
    ensures ((forall j :: 0 <= j < |c.fields| ==> c.fields[j].value.None?) && c.extensions != [])
            ==> r == Some(c.extensions[0].value)
  {
    match FirstPopulated(c.fields, 0)
    case Some(i) => c.fields[i].value
    case None => if c.extensions == [] then None else Some(c.extensions[0].value)
  }

  // ---------------------------------------------------------------- pack

  /** A direct field can carry a payload of type t when it is message-typed with that type. */
  predicate FieldMatches(d: FieldDescriptor, t: TypeKey)
  {
    d.isMessage && d.messageType == t
  }

  /** An extension can carry t in root type `root` when it extends `root` with message type t. */
  predicate ExtensionMatches(d: ExtensionDescriptor, root: TypeKey, t: TypeKey)
  {
    d.isMessage && d.containingType == root && d.messageType == t
  }

  /** Index of the first direct field at or after `from` that matches type t. */
  function FindField(fs: seq<Field>, t: TypeKey, from: nat): (r: Option<nat>)
    requires from <= |fs|
    ensures r.Some? ==> from <= r.value < |fs| && FieldMatches(fs[r.value].descriptor, t)
    ensures r.Some? ==> forall j :: from <= j < r.value ==> !FieldMatches(fs[j].descriptor, t)
    ensures r.None? ==> forall j :: from <= j < |fs| ==> !FieldMatches(fs[j].descriptor, t)
    decreases |fs| - from
  {
    if from == |fs| then None
    else if FieldMatches(fs[from].descriptor, t) then Some(from)
    else FindField(fs, t, from + 1)
  }

  /** Index of the first extension at or after `from` that extends `root` with message type t. */
  function FindExtension(exts: seq<ExtensionDescriptor>, root: TypeKey, t: TypeKey, from: nat): (r: Option<nat>)
    requires from <= |exts|
    ensures r.Some? ==> from <= r.value < |exts| && ExtensionMatches(exts[r.value], root, t)
    ensures r.Some? ==> forall j :: from <= j < r.value ==> !ExtensionMatches(exts[j], root, t)
    ensures r.None? ==> forall j :: from <= j < |exts| ==> !ExtensionMatches(exts[j], root, t)
    decreases |exts| - from
  {
    if from == |exts| then None
    else if ExtensionMatches(exts[from], root, t) then Some(from)
    else FindExtension(exts, root, t, from + 1)
  }

  /** The set extensions other than d. */
  function WithoutExtension(present: seq<ExtensionField>, d: ExtensionDescriptor): (r: seq<ExtensionField>)
    ensures forall e :: e in r <==> e in present && e.descriptor != d
  {
    if present == [] then []
    else if present[0].descriptor == d then WithoutExtension(present[1..], d)
    else [present[0]] + WithoutExtension(present[1..], d)
  }

  /** Sets extension d to p: any earlier value of d is replaced, other extensions stay set. */
  function SetExtension(present: seq<ExtensionField>, d: ExtensionDescriptor, p: Payload): (r: seq<ExtensionField>)
    ensures ExtensionField(d, p) in r
    ensures forall e :: e in r ==> e == ExtensionField(d, p) || (e in present && e.descriptor != d)
    ensures forall e :: e in present && e.descriptor != d ==> e in r
  {
    WithoutExtension(present, d) + [ExtensionField(d, p)]
  }

  /**
   * Packs payload `data` into root message `req`: into the first direct field of
   * its type; failing that, into the first extension of the payload's schema file
   * (`fileExtensions`) that extends the root type with that type; failing both,
   * `req` is returned unchanged.
   */
  function PackageIntoReq(req: Container, data: Payload, fileExtensions: seq<ExtensionDescriptor>): (r: Container)
    ensures r.typeName == req.typeName && |r.fields| == |req.fields|
    ensures forall i :: 0 <= i < |r.fields| ==> r.fields[i].descriptor == req.fields[i].descriptor
    ensures forall i :: 0 <= i < |r.fields| && r.fields[i] != req.fields[i]
              ==> FieldMatches(req.fields[i].descriptor, data.typeName)
                  && (forall j :: 0 <= j < i ==> !FieldMatches(req.fields[j].descriptor, data.typeName))
                  && r.fields[i].value == Some(data)
    ensures r.extensions != req.extensions ==>
              (forall j :: 0 <= j < |req.fields| ==> !FieldMatches(req.fields[j].descriptor, data.typeName))
                  && exists j :: 0 <= j < |fileExtensions| && ExtensionMatches(fileExtensions[j], req.typeName, data.typeName)
                                 && ExtensionField(fileExtensions[j], data) in r.extensions
    ensures var i := FindField(req.fields, data.typeName, 0);
            i.Some? ==> r.fields[i.value].value == Some(data)
    ensures var j := FindExtension(fileExtensions, req.typeName, data.typeName, 0);
            FindField(req.fields, data.typeName, 0).None? && j.Some? ==>
              (&& r.fields == req.fields && ExtensionField(fileExtensions[j.value], data) in r.extensions
               && (forall x :: x in req.extensions && x.descriptor != fileExtensions[j.value] ==> x in r.extensions))
    ensures (FindField(req.fields, data.typeName, 0).None?
             && FindExtension(fileExtensions, req.typeName, data.typeName, 0).None?) ==> r == req
  {
    match FindField(req.fields, data.typeName, 0)
    case Some(i) =>
      req.(fields := req.fields[i := Field(req.fields[i].descriptor, Some(data))])
    case None =>
      match FindExtension(fileExtensions, req.typeName, data.typeName, 0)
      case Some(j) => req.(extensions := SetExtension(req.extensions, fileExtensions[j], data))
      case None => req
  }

  /** Some slot of the root schema, direct or by extension, can carry payloads of type t. */
  predicate CanBundle(s: Schema, t: TypeKey, fileExtensions: seq<ExtensionDescriptor>)
  {
    (exists i :: 0 <= i < |s.fields| && FieldMatches(s.fields[i], t))
    || (exists j :: 0 <= j < |fileExtensions| && ExtensionMatches(fileExtensions[j], s.typeName, t))
  }

  /** Round trip: packing into a fresh root message and unwrapping it gives the payload back. */
  lemma PackThenOpen(s: Schema, data: Payload, fileExtensions: seq<ExtensionDescriptor>)
    requires CanBundle(s, data.typeName, fileExtensions)
    ensures OpenReq(PackageIntoReq(NewContainer(s), data, fileExtensions)) == Some(data)
  {
    var c := NewContainer(s);
    var r := PackageIntoReq(c, data, fileExtensions);
    match FindField(c.fields, data.typeName, 0)
    case Some(i) =>
      assert r.fields[i].value == Some(data);
      assert forall j :: 0 <= j < i ==> r.fields[j] == c.fields[j];
    case None =>
      var j :| 0 <= j < |fileExtensions| && ExtensionMatches(fileExtensions[j], s.typeName, data.typeName);
      assert r.fields == c.fields;
      assert r.extensions == [ExtensionField(fileExtensions[FindExtension(fileExtensions, c.typeName, data.typeName, 0).value], data)];
  }

  /**
   * A payload that no slot can carry is not bundled: the root message stays empty,
   * and unwrapping it yields nothing.
   */
  lemma PackWithoutMatchLeavesEmpty(s: Schema, data: Payload, fileExtensions: seq<ExtensionDescriptor>)
    requires !CanBundle(s, data.typeName, fileExtensions)
    ensures PackageIntoReq(NewContainer(s), data, fileExtensions) == NewContainer(s)
    ensures IsEmpty(NewContainer(s)) && OpenReq(NewContainer(s)).None?
  {
    var c := NewContainer(s);
    assert forall i :: 0 <= i < |c.fields| ==> c.fields[i].descriptor == s.fields[i];
  }

  /** Packing a fresh root message populates exactly one slot: the payload is its only content. */
  lemma PackPopulatesOneSlot(s: Schema, data: Payload, fileExtensions: seq<ExtensionDescriptor>)
    requires CanBundle(s, data.typeName, fileExtensions)
    ensures var r := PackageIntoReq(NewContainer(s), data, fileExtensions);
            |r.extensions| + |set i | 0 <= i < |r.fields| && r.fields[i].value.Some?| == 1
  {
    var c := NewContainer(s);
    var r := PackageIntoReq(c, data, fileExtensions);
    match FindField(c.fields, data.typeName, 0)
    case Some(i) =>
      assert (set k | 0 <= k < |r.fields| && r.fields[k].value.Some?) == {i};
    case None =>
      assert (set k | 0 <= k < |r.fields| && r.fields[k].value.Some?) == {};
  }
}
