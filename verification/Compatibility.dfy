/**
 tools/live_feed_compatibility.py: the fail-closed comparison of what a published release requires
 of its live-feed daemon with what a running daemon says of itself.
 */
module Compatibility {
  import opened Wrappers

  datatype Json =
    | Null
    | Bool(value: bool)
    | Int(number: int)
    | Str(text: string)
    | List(items: seq<Json>)
    | Object(fields: map<string, Json>)

  /** The generated wire inventory and the known NOTAM catalog schemas. */
  datatype Contract = Contract(inventory: Json, catalogSchemas: set<int>)

  /** Why evidence was refused. */
  datatype Why =
    | Malformed(what: string)
    | UnknownSchema
    | NoInventory
    | NotReady
    | ProductsUnavailable
    | RequirementMissing
    | EvidenceMissing
    | WireDiffers
    | CatalogDiffers

  datatype Decision = Compatible | Incompatible(why: Why)

  // ----- Shapes -----

  predicate IsSpace(c: char) { c == ' ' || '\t' <= c <= '\r' }

  predicate NonBlank(s: string) { exists i | 0 <= i < |s| :: !IsSpace(s[i]) }

  predicate IsText(v: Json) { v.Str? && NonBlank(v.text) }

  predicate IsSha256(v: Json) {
    v.Str? && |v.text| == 64 && forall i | 0 <= i < 64 :: '0' <= v.text[i] <= '9' || 'a' <= v.text[i] <= 'f'
  }

  predicate HasKeys(v: Json, keys: set<string>) { v.Object? && v.fields.Keys == keys }

  /** `_same_shape`: the value has exactly the keys of the inventory, with positive numbers and non-blank texts. */
  predicate SameShape(v: Json, expected: Json)
    decreases expected
  {
    match expected
    case Object(children) =>
      HasKeys(v, children.Keys) && forall key | key in children :: SameShape(v.fields[key], children[key])
    case Int(_) => v.Int? && 0 < v.number <= 0xFFFF_FFFF
    case Str(_) => IsText(v)
    case _ => false
  }

  predicate HasSchema(v: Json, schema: int) {
    v.Object? && "schema_version" in v.fields && v.fields["schema_version"] == Int(schema)
  }

  /** The inventory lists its products as an object; without that no evidence is accepted. */
  predicate HasProducts(v: Json) {
    v.Object? && "products" in v.fields && v.fields["products"].Object?
  }

  function ValidateWire(c: Contract, v: Json): Result<(), Why> {
    if !HasSchema(c.inventory, 1) || !HasProducts(c.inventory) then Failure(NoInventory)
    else if !SameShape(v, c.inventory) then Failure(Malformed("wire inventory"))
    else if !HasSchema(v, 1) then Failure(UnknownSchema)
    else Success(())
  }

  function ValidateCatalog(c: Contract, v: Json): Result<(), Why> {
    if !HasKeys(v, {"schema_version", "sha256", "airport_count"}) then Failure(Malformed("NOTAM catalog identity"))
    else if !v.fields["schema_version"].Int?
            || v.fields["schema_version"].number !in c.catalogSchemas then Failure(UnknownSchema)
    else if !IsSha256(v.fields["sha256"]) then Failure(Malformed("NOTAM catalog fingerprint"))
    else if !v.fields["airport_count"].Int? || !(0 < v.fields["airport_count"].number <= 0xFFFF_FFFF_FFFF_FFFF)
    then Failure(Malformed("NOTAM catalog airport count"))
    else Success(())
  }

  /** The part that starts here is `..`. */
  predicate IsParentPart(path: string, i: nat) {
    0 < i <= |path| - 2 && path[i..i + 2] == ".." && path[i - 1] == '/' && (i + 2 == |path| || path[i + 2] == '/')
  }

  /** An absolute path none of whose parts is `..`. */
  predicate SafePath(path: string) {
    path != "" && path[0] == '/' && forall i | 0 <= i < |path| :: !IsParentPart(path, i)
  }

  function ValidateStartup(v: Json): Result<(), Why> {
    if !HasKeys(v, {"path", "sha256"}) then Failure(Malformed("startup publication"))
    else if !IsText(v.fields["path"])
            || !SafePath(v.fields["path"].text) then Failure(Malformed("startup publication path"))
    else if !IsSha256(v.fields["sha256"]) then Failure(Malformed("startup publication identity"))
    else Success(())
  }

  const ENVELOPE_KEYS := {
    "schema_version", "executable_sha256", "release_tag", "launch_instance_id", "process_instance_id",
    "wire_contracts", "configured_products", "notam_catalog", "startup_publication", "projection_ready",
    "published_state_id", "ready"}

  /** A list of distinct known product names. */
  predicate ProductsWellFormed(products: Json, wire: Json)
    requires HasProducts(wire)
  {
    && products.List?
    && (forall i | 0 <= i < |products.items| :: products.items[i].Str?)
    && (forall i, j | 0 <= i < j < |products.items| :: products.items[i] != products.items[j])
    && (forall i | 0 <= i < |products.items| :: products.items[i].Str? ==>
          products.items[i].text in wire.fields["products"].fields)
  }

  predicate TextOrNull(v: Json) { v.Null? || IsText(v) }

  /** `validate_runtime_envelope`: well-formed evidence, whether or not the daemon is ready to be shared. */
  function ValidateEnvelope(c: Contract, v: Json): Result<(), Why> {
    if !HasKeys(v, ENVELOPE_KEYS) then Failure(Malformed("daemon compatibility metadata"))
    else if !HasSchema(v, 1) then Failure(UnknownSchema)
    else if !IsSha256(v.fields["executable_sha256"]) then Failure(Malformed("executable identity"))
    else if !IsText(v.fields["process_instance_id"]) then Failure(Malformed("process instance identity"))
    else if !TextOrNull(v.fields["release_tag"]) || !TextOrNull(v.fields["launch_instance_id"])
            || !TextOrNull(v.fields["published_state_id"]) then Failure(Malformed("identity"))
    else if !v.fields["ready"].Bool? || !v.fields["projection_ready"].Bool? then Failure(Malformed("readiness"))
    else
      var _ :- if v.fields["startup_publication"].Null? then Success(())
          else ValidateStartup(v.fields["startup_publication"]);
      var _ :- if v.fields["notam_catalog"].Null? then Success(()) else ValidateCatalog(c, v.fields["notam_catalog"]);
      var _ :- ValidateWire(c, v.fields["wire_contracts"]);
      if !HasProducts(v.fields["wire_contracts"])
         || !ProductsWellFormed(v.fields["configured_products"], v.fields["wire_contracts"])
      then Failure(Malformed("production product availability"))
      else Success(())
  }

  function Texts(products: Json): set<string>
    requires products.List?
  {
    set i | 0 <= i < |products.items| && products.items[i].Str? :: products.items[i].text
  }

  function CompareWireAndCatalog(c: Contract, clientWire: Json, required: Json, producerWire: Json,
                                 loaded: Json): Decision {
    var checks :=
      var _ :- ValidateWire(c, clientWire);
      var _ :- ValidateWire(c, producerWire);
      var _ :- ValidateCatalog(c, required);
      ValidateCatalog(c, loaded);
    if checks.Failure? then Incompatible(checks.error)
    else if clientWire != producerWire then Incompatible(WireDiffers)
    else if required != loaded then Incompatible(CatalogDiffers)
    else Compatible
  }

  function ValidateRequirement(v: Json): Result<(), Why> {
    if !HasKeys(v, {"schema_version", "wire_contracts", "notam_catalog", "startup_publication"})
    then Failure(Malformed("publication compatibility metadata"))
    else if !HasSchema(v, 1) then Failure(UnknownSchema)
    else ValidateStartup(v.fields["startup_publication"])
  }

  /** The daemon must be fully identified, ready, and have published a state. */
  function ValidateProvider(c: Contract, v: Json): (r: Result<(), Why>)
    ensures r.Success? ==> HasKeys(v, ENVELOPE_KEYS) && HasProducts(v.fields["wire_contracts"])
                           && ProductsWellFormed(v.fields["configured_products"], v.fields["wire_contracts"])
  {
    var _ :- ValidateEnvelope(c, v);
    var _ :- ValidateStartup(v.fields["startup_publication"]);
    if !IsText(v.fields["release_tag"]) || !IsText(v.fields["launch_instance_id"]) then Failure(Malformed("identity"))
    else if v.fields["ready"] != Bool(true) || v.fields["projection_ready"] != Bool(true) then Failure(NotReady)
    else if !IsText(v.fields["published_state_id"]) then Failure(Malformed("published projection state"))
    else Success(())
  }

  /** `compare_live_feed_compatibility`. */
  function Compare(c: Contract, requirement: Option<Json>, provider: Option<Json>): (d: Decision) {
    if requirement.None? then Incompatible(RequirementMissing)
    else if provider.None? then Incompatible(EvidenceMissing)
    else
      var r, p := requirement.value, provider.value;
      var checks :=
        var _ :- ValidateRequirement(r);
        var _ :- ValidateProvider(c, p);
        var _ :- ValidateWire(c, r.fields["wire_contracts"]);
        if !HasProducts(r.fields["wire_contracts"])
           || Texts(p.fields["configured_products"]) != r.fields["wire_contracts"].fields["products"].fields.Keys
        then Failure(ProductsUnavailable) else Success(());
      if checks.Failure? then Incompatible(checks.error)
      else CompareWireAndCatalog(c, r.fields["wire_contracts"], r.fields["notam_catalog"],
                                 p.fields["wire_contracts"], p.fields["notam_catalog"])
  }

  /** `verification_evidence`: the evidence without the state it happens to have published. */
  function VerificationEvidence(v: Json): Json {
    if !v.Object? then v
    else
      var state := if "published_state_id" in v.fields then v.fields["published_state_id"] else Null;
      Object((v.fields - {"published_state_id"})["published_state_present" := Bool(IsText(state))])
  }

  // ----- What sharing means -----

  /**
   A release is judged compatible only with a daemon that is ready, has published a state, serves
   every product the release knows, speaks exactly its wire formats and loaded exactly its catalog.
   */
  lemma CompatibleMeans(c: Contract, r: Json, p: Json)
    requires Compare(c, Some(r), Some(p)) == Compatible
    ensures r.Object? && "wire_contracts" in r.fields && "notam_catalog" in r.fields && HasKeys(p, ENVELOPE_KEYS)
    ensures p.fields["wire_contracts"] == r.fields["wire_contracts"]
    ensures p.fields["notam_catalog"] == r.fields["notam_catalog"]
    ensures p.fields["ready"] == Bool(true) && p.fields["projection_ready"] == Bool(true)
    ensures IsText(p.fields["published_state_id"])
    ensures HasProducts(p.fields["wire_contracts"]) && p.fields["configured_products"].List?
    ensures Texts(p.fields["configured_products"]) == p.fields["wire_contracts"].fields["products"].fields.Keys
  {}

  ghost predicate StartupFine(v: Json) {
    && HasKeys(v, {"path", "sha256"}) && IsText(v.fields["path"]) && SafePath(v.fields["path"].text)
    && IsSha256(v.fields["sha256"])
  }

  ghost predicate CatalogFine(c: Contract, v: Json) {
    && HasKeys(v, {"schema_version", "sha256", "airport_count"}) && IsSha256(v.fields["sha256"])
    && v.fields["schema_version"].Int? && v.fields["schema_version"].number in c.catalogSchemas
    && v.fields["airport_count"].Int? && 0 < v.fields["airport_count"].number <= 0xFFFF_FFFF_FFFF_FFFF
  }

  ghost predicate WireFine(c: Contract, v: Json) {
    HasSchema(c.inventory, 1) && HasProducts(c.inventory) && SameShape(v, c.inventory) && HasSchema(v, 1)
  }

  /** Every product of the inventory is served, each named once. */
  ghost predicate ServesAll(served: Json, wire: Json) {
    && HasProducts(wire) && served.List?
    && (forall name :: name in wire.fields["products"].fields <==> Str(name) in served.items)
    && (forall i | 0 <= i < |served.items| :: served.items[i].Str?)
    && (forall i, j | 0 <= i < j < |served.items| :: served.items[i] != served.items[j])
  }

  /** Complete evidence of a daemon that is ready and has published a state. */
  ghost predicate ProviderFine(c: Contract, p: Json) {
    && HasKeys(p, ENVELOPE_KEYS) && p.fields["schema_version"] == Int(1)
    && IsSha256(p.fields["executable_sha256"]) && IsText(p.fields["process_instance_id"])
    && IsText(p.fields["release_tag"]) && IsText(p.fields["launch_instance_id"])
    && p.fields["ready"] == Bool(true) && p.fields["projection_ready"] == Bool(true)
    && IsText(p.fields["published_state_id"]) && StartupFine(p.fields["startup_publication"])
  }

  ghost predicate RequirementFine(r: Json) {
    && HasKeys(r, {"schema_version", "wire_contracts", "notam_catalog", "startup_publication"})
    && r.fields["schema_version"] == Int(1) && StartupFine(r.fields["startup_publication"])
  }

  /** Both sides are complete, they speak the same formats about the same catalog, and every product is served. */
  ghost predicate Fits(c: Contract, r: Json, p: Json) {
    && RequirementFine(r) && ProviderFine(c, p)
    && p.fields["wire_contracts"] == r.fields["wire_contracts"] && WireFine(c, r.fields["wire_contracts"])
    && p.fields["notam_catalog"] == r.fields["notam_catalog"] && CatalogFine(c, r.fields["notam_catalog"])
    && ServesAll(p.fields["configured_products"], p.fields["wire_contracts"])
  }

  lemma PartsFine(c: Contract, v: Json)
    ensures StartupFine(v) <==> ValidateStartup(v).Success?
    ensures CatalogFine(c, v) <==> ValidateCatalog(c, v).Success?
    ensures WireFine(c, v) <==> ValidateWire(c, v).Success?
  {}

  lemma ServesAllIff(served: Json, wire: Json)
    requires HasProducts(wire)
    ensures ServesAll(served, wire)
       <==> ProductsWellFormed(served, wire) && Texts(served) == wire.fields["products"].fields.Keys
  {
    if ServesAll(served, wire) {
      forall i | 0 <= i < |served.items|
        ensures served.items[i].Str? && served.items[i].text in wire.fields["products"].fields
      {
        assert Str(served.items[i].text) in served.items;
      }
      forall name | name in wire.fields["products"].fields ensures name in Texts(served) {
        var i :| 0 <= i < |served.items| && served.items[i] == Str(name);
      }
    }
  }

  /** A release may use a daemon exactly if the two fit. */
  lemma CompatibleIff(c: Contract, r: Json, p: Json)
    ensures Compare(c, Some(r), Some(p)) == Compatible <==> Fits(c, r, p)
  {
    if RequirementFine(r) && ProviderFine(c, p) {
      PartsFine(c, r.fields["startup_publication"]);
      PartsFine(c, p.fields["startup_publication"]);
      PartsFine(c, r.fields["wire_contracts"]);
      PartsFine(c, r.fields["notam_catalog"]);
      if HasProducts(p.fields["wire_contracts"]) {
        ServesAllIff(p.fields["configured_products"], p.fields["wire_contracts"]);
      }
    }
  }

  /** What is recorded of evidence hides which state was published, and nothing else. */
  lemma RecordedIff(p: Json, q: Json)
    requires HasKeys(p, ENVELOPE_KEYS) && HasKeys(q, ENVELOPE_KEYS)
    ensures VerificationEvidence(p) == VerificationEvidence(q) <==>
              && (IsText(p.fields["published_state_id"]) <==> IsText(q.fields["published_state_id"]))
              && forall key | key in ENVELOPE_KEYS && key != "published_state_id" :: p.fields[key] == q.fields[key]
  {
    var r, s := VerificationEvidence(p), VerificationEvidence(q);
    assert r.fields["published_state_present"] == Bool(IsText(p.fields["published_state_id"]));
    assert s.fields["published_state_present"] == Bool(IsText(q.fields["published_state_id"]));
    forall key | key in ENVELOPE_KEYS && key != "published_state_id"
      ensures r.fields[key] == p.fields[key] && s.fields[key] == q.fields[key]
    {}
    assert r.fields.Keys == s.fields.Keys;
  }

  /** The whole shape is checked, however deep: nothing in an accepted inventory is missing, extra, blank or zero. */
  lemma {:induction false} ShapeIsComplete(v: Json, expected: Json, path: seq<string>)
    requires SameShape(v, expected)
    ensures At(v, path).Some? <==> At(expected, path).Some?
    ensures At(v, path).Some? ==>
              var x := At(v, path).value;
              match At(expected, path).value
              case Object(children) => HasKeys(x, children.Keys)
              case Int(_) => x.Int? && 0 < x.number <= 0xFFFF_FFFF
              case Str(_) => IsText(x)
              case _ => false
    decreases path
  {
    if path != [] && expected.Object? && path[0] in expected.fields {
      ShapeIsComplete(v.fields[path[0]], expected.fields[path[0]], path[1..]);
    }
  }

  /** The value at a path of keys. */
  function At(v: Json, path: seq<string>): Option<Json>
    decreases path
  {
    if path == [] then Some(v)
    else if v.Object? && path[0] in v.fields then At(v.fields[path[0]], path[1..])
    else None
  }

  /** A daemon that only moved on to another published state. */
  ghost predicate Advanced(p: Json, q: Json) {
    && p.Object? && q.Object? && "published_state_id" in p.fields && "published_state_id" in q.fields
    && q.fields == p.fields["published_state_id" := q.fields["published_state_id"]]
    && IsText(p.fields["published_state_id"]) && IsText(q.fields["published_state_id"])
  }

  lemma AdvancedFields(p: Json, q: Json)
    requires p.Object? && q.Object? && "published_state_id" in p.fields && "published_state_id" in q.fields
    requires q.fields == p.fields["published_state_id" := q.fields["published_state_id"]]
    ensures p.fields.Keys == q.fields.Keys
    ensures forall key | key in p.fields && key != "published_state_id" :: q.fields[key] == p.fields[key]
  {}

  /** Publishing a new state changes neither the decision nor the recorded verification. */
  lemma StateAdvanceIsInvisible(c: Contract, r: Option<Json>, p: Json, q: Json)
    requires Advanced(p, q)
    ensures Compare(c, r, Some(p)) == Compare(c, r, Some(q))
    ensures VerificationEvidence(p) == VerificationEvidence(q)
  {
    AdvancedFields(p, q);
    if HasKeys(p, ENVELOPE_KEYS) { EnvelopeInvisible(c, p, q); }
    assert p.fields - {"published_state_id"} == q.fields - {"published_state_id"};
  }

  lemma EnvelopeInvisible(c: Contract, p: Json, q: Json)
    requires HasKeys(p, ENVELOPE_KEYS) && HasKeys(q, ENVELOPE_KEYS)
    requires forall key | key in ENVELOPE_KEYS && key != "published_state_id" :: q.fields[key] == p.fields[key]
    requires IsText(p.fields["published_state_id"]) && IsText(q.fields["published_state_id"])
    ensures ValidateProvider(c, p) == ValidateProvider(c, q)
  {
    assert ValidateEnvelope(c, p) == ValidateEnvelope(c, q);
  }
}
