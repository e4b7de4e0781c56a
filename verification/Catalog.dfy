/** Versioned form definitions ("packs") and the JSON they are stored as. */
module Catalog {
  import opened Prelude
  import opened Domain

  datatype Json =
    | Null
    | Bool(b: bool)
    | Num(n: int)
    | Str(s: string)
    | Arr(items: seq<Json>)
    | Obj(entries: map<string, Json>)

  datatype FieldType = Text | Integer | Address | AssetReference | Route | Enum

  datatype FieldDefinition = FieldDefinition(
    key: string,
    caption: string,
    fieldType: FieldType,
    required: bool,
    choices: seq<string>,
    prompt: string,
    order: int)

  datatype Branding = Branding(name: string, greeting: string, support: string)

  datatype ServiceCategory = ServiceCategory(key: string, caption: string)

  datatype ServiceCatalog = ServiceCatalog(categories: seq<ServiceCategory>, multiSelect: bool)

  datatype PackDefinition = PackDefinition(
    branding: Branding,
    serviceCatalog: ServiceCatalog,
    fields: seq<FieldDefinition>,
    evidence: Evidence,
    roleLabels: map<string, string>,
    defaultPoolMode: PoolMode)

  // What the constructors demand ----------------------------------------------------------

  predicate FieldFormed(f: FieldDefinition) {
    f.key != "" && f.caption != "" && (f.fieldType.Enum? <==> f.choices != [])
  }

  predicate CategoryFormed(c: ServiceCategory) {
    c.key != "" && c.caption != ""
  }

  predicate DistinctCategories(categories: seq<ServiceCategory>) {
    forall i, j :: 0 <= i < j < |categories| ==> categories[i].key != categories[j].key
  }

  predicate Formed(p: PackDefinition) {
    && (forall f :: f in p.fields ==> FieldFormed(f))
    && (forall c :: c in p.serviceCatalog.categories ==> CategoryFormed(c))
    && DistinctCategories(p.serviceCatalog.categories)
  }

  const DEFAULT_ROLE_LABELS: map<string, string> := map["master" := "Мастер", "operator" := "Оператор", "client" := "Клиент"]

  predicate Labelled(p: PackDefinition) {
    DEFAULT_ROLE_LABELS.Keys <= p.roleLabels.Keys
  }

  function WithDefaults(p: PackDefinition): PackDefinition {
    p.(roleLabels := DEFAULT_ROLE_LABELS + p.roleLabels)
  }

  // Reading loosely typed values -----------------------------------------------------------

  function Get(o: map<string, Json>, key: string, default: Json): Json {
    if key in o then o[key] else default
  }

  /** Python's truth test. */
  predicate Truthy(j: Json) {
    match j
    case Null => false
    case Bool(b) => b
    case Num(n) => n != 0
    case Str(s) => s != ""
    case Arr(items) => items != []
    case Obj(entries) => entries != map[]
  }

  function AsInt(j: Json): Result<int> {
    match j
    case Num(n) => Success(n)
    case Bool(b) => Success(if b then 1 else 0)
    case _ => Failure(ValueError)
  }

  function AsString(j: Json): Result<string> {
    if j.Str? then Success(j.s) else Failure(ValueError)
  }

  function AsObject(j: Json): Result<map<string, Json>> {
    if j.Obj? then Success(j.entries) else Failure(ValueError)
  }

  function AsList(j: Json): Result<seq<Json>> {
    if j.Arr? then Success(j.items) else Failure(ValueError)
  }

  /** `x or ()` before the conversion to a tuple. */
  function AsOptionalList(j: Json): Result<seq<Json>> {
    if !Truthy(j) then Success([]) else AsList(j)
  }

  function Strings(items: seq<Json>): Result<seq<string>> {
    if items == [] then Success([])
    else
      match (AsString(items[0]), Strings(items[1..]))
      case (Success(s), Success(rest)) => Success([s] + rest)
      case _ => Failure(ValueError)
  }

  // Fields ---------------------------------------------------------------------------------

  function TypeName(t: FieldType): string {
    match t
    case Text => "text"
    case Integer => "integer"
    case Address => "address"
    case AssetReference => "asset_reference"
    case Route => "route"
    case Enum => "enum"
  }

  function TypeNamed(name: string): Result<FieldType> {
    if name == "text" then Success(Text)
    else if name == "integer" then Success(Integer)
    else if name == "address" then Success(Address)
    else if name == "asset_reference" then Success(AssetReference)
    else if name == "route" then Success(Route)
    else if name == "enum" then Success(Enum)
    else Failure(ValueError)
  }

  function FieldToJson(f: FieldDefinition): Json {
    Obj(map[
      "key" := Str(f.key),
      "label" := Str(f.caption),
      "type" := Str(TypeName(f.fieldType)),
      "required" := Bool(f.required),
      "choices" := Arr(StringsToJson(f.choices)),
      "prompt" := Str(f.prompt),
      "order" := Num(f.order)
    ])
  }

  function StringsToJson(strings: seq<string>): seq<Json> {
    if strings == [] then [] else [Str(strings[0])] + StringsToJson(strings[1..])
  }

  /** A missing key, caption or type is an error; everything else has a default. */
  function FieldFromJson(j: Json): Result<FieldDefinition> {
    match AsObject(j)
    case Failure(e) => Failure(e)
    case Success(o) =>
      if "key" !in o || "label" !in o || "type" !in o then Failure(ValueError)
      else
        match (AsString(o["key"]), AsString(o["label"]), AsString(o["type"]),
               AsOptionalList(Get(o, "choices", Arr([]))), AsString(Get(o, "prompt", Str(""))), AsInt(Get(o, "order", Num(0))))
        case (Success(key), Success(caption), Success(name), Success(items), Success(prompt), Success(order)) =>
          (match (TypeNamed(name), Strings(items))
           case (Success(t), Success(choices)) =>
             var f := FieldDefinition(key, caption, t, Truthy(Get(o, "required", Bool(false))), choices, prompt, order);
             if FieldFormed(f) then Success(f) else Failure(ValueError)
           case _ => Failure(ValueError))
        case _ => Failure(ValueError)
  }

  function FieldsToJson(fields: seq<FieldDefinition>): seq<Json> {
    if fields == [] then [] else [FieldToJson(fields[0])] + FieldsToJson(fields[1..])
  }

  function FieldsFromJson(items: seq<Json>): Result<seq<FieldDefinition>> {
    if items == [] then Success([])
    else
      match (FieldFromJson(items[0]), FieldsFromJson(items[1..]))
      case (Success(f), Success(rest)) => Success([f] + rest)
      case _ => Failure(ValueError)
  }

  // Services -------------------------------------------------------------------------------

  function CategoryToJson(c: ServiceCategory): Json {
    Obj(map["key" := Str(c.key), "label" := Str(c.caption)])
  }

  function CategoryFromJson(j: Json): Result<ServiceCategory> {
    match AsObject(j)
    case Failure(e) => Failure(e)
    case Success(o) =>
      if "key" !in o || "label" !in o then Failure(ValueError)
      else
        match (AsString(o["key"]), AsString(o["label"]))
        case (Success(key), Success(caption)) =>
          if key != "" && caption != "" then Success(ServiceCategory(key, caption)) else Failure(ValueError)
        case _ => Failure(ValueError)
  }

  function CategoriesToJson(categories: seq<ServiceCategory>): seq<Json> {
    if categories == [] then [] else [CategoryToJson(categories[0])] + CategoriesToJson(categories[1..])
  }

  function CategoriesFromJson(items: seq<Json>): Result<seq<ServiceCategory>> {
    if items == [] then Success([])
    else
      match (CategoryFromJson(items[0]), CategoriesFromJson(items[1..]))
      case (Success(c), Success(rest)) => Success([c] + rest)
      case _ => Failure(ValueError)
  }

  function CatalogToJson(c: ServiceCatalog): Json {
    Obj(map["multi_select" := Bool(c.multiSelect), "categories" := Arr(CategoriesToJson(c.categories))])
  }

  function CatalogFromJson(j: Json): Result<ServiceCatalog> {
    match AsObject(j)
    case Failure(e) => Failure(e)
    case Success(o) =>
      match AsList(Get(o, "categories", Arr([])))
      case Failure(e) => Failure(e)
      case Success(items) =>
        match CategoriesFromJson(items)
        case Failure(e) => Failure(e)
        case Success(categories) =>
          if DistinctCategories(categories) then Success(ServiceCatalog(categories, Truthy(Get(o, "multi_select", Bool(true)))))
          else Failure(ValueError)
  }

  // The rest of a pack -----------------------------------------------------------------------

  function BrandingToJson(b: Branding): Json {
    Obj(map["name" := Str(b.name), "greeting" := Str(b.greeting), "support" := Str(b.support)])
  }

  function BrandingFromJson(j: Json): Result<Branding> {
    match AsObject(j)
    case Failure(e) => Failure(e)
    case Success(o) =>
      match (AsString(Get(o, "name", Str(""))), AsString(Get(o, "greeting", Str(""))), AsString(Get(o, "support", Str(""))))
      case (Success(name), Success(greeting), Success(support)) => Success(Branding(name, greeting, support))
      case _ => Failure(ValueError)
  }

  function EvidenceToJson(e: Evidence): Json {
    Obj(map[
      "minimum_photos" := Num(e.minimumPhotos),
      "comment_required" := Bool(e.comment),
      "signature_required" := Bool(e.signature),
      "customer_code_required" := Bool(e.customerCode)
    ])
  }

  function EvidenceFromJson(j: Json): Result<Evidence> {
    match AsObject(j)
    case Failure(e) => Failure(e)
    case Success(o) =>
      match AsInt(Get(o, "minimum_photos", Num(0)))
      case Failure(e) => Failure(e)
      case Success(n) =>
        if n < 0 then Failure(ValueError)
        else
          Success(Evidence(n,
                           Truthy(Get(o, "comment_required", Bool(false))),
                           Truthy(Get(o, "signature_required", Bool(false))),
                           Truthy(Get(o, "customer_code_required", Bool(false)))))
  }

  function LabelsToJson(labels: map<string, string>): Json {
    Obj(map role | role in labels :: Str(labels[role]))
  }

  function LabelsFromJson(j: Json): Result<map<string, string>> {
    if !Truthy(j) then Success(DEFAULT_ROLE_LABELS)
    else
      match AsObject(j)
      case Failure(e) => Failure(e)
      case Success(o) =>
        if forall role :: role in o ==> o[role].Str? then
          Success(DEFAULT_ROLE_LABELS + map role | role in o :: o[role].s)
        else Failure(ValueError)
  }

  function ModeName(m: PoolMode): string {
    match m case Curated => "curated" case FirstClaim => "first_claim"
  }

  function ModeNamed(j: Json): Result<PoolMode> {
    if j == Str("curated") then Success(Curated) else if j == Str("first_claim") then Success(FirstClaim) else Failure(ValueError)
  }

  function ToJson(p: PackDefinition): Json {
    Obj(map[
      "branding" := BrandingToJson(p.branding),
      "service_catalog" := CatalogToJson(p.serviceCatalog),
      "fields" := Arr(FieldsToJson(p.fields)),
      "evidence" := EvidenceToJson(p.evidence),
      "role_labels" := LabelsToJson(p.roleLabels),
      "lifecycle" := Obj(map["default_pool_mode" := Str(ModeName(p.defaultPoolMode))])
    ])
  }

  function FromJson(j: Json): Result<PackDefinition> {
    match AsObject(j)
    case Failure(e) => Failure(e)
    case Success(o) =>
      match (AsObject(Get(o, "lifecycle", Obj(map[]))), AsList(Get(o, "fields", Arr([]))))
      case (Success(lifecycle), Success(items)) =>
        (match (BrandingFromJson(Get(o, "branding", Obj(map[]))),
                CatalogFromJson(Get(o, "service_catalog", Obj(map[]))),
                FieldsFromJson(items),
                EvidenceFromJson(Get(o, "evidence", Obj(map[]))),
                LabelsFromJson(Get(o, "role_labels", Obj(map[]))),
                ModeNamed(Get(lifecycle, "default_pool_mode", Str("curated"))))
         case (Success(b), Success(c), Success(f), Success(e), Success(l), Success(m)) => Success(PackDefinition(b, c, f, e, l, m))
         case _ => Failure(ValueError))
      case _ => Failure(ValueError)
  }

  // Round trips ------------------------------------------------------------------------------

  lemma {:induction false} StringsRoundTrip(strings: seq<string>)
    ensures Strings(StringsToJson(strings)) == Success(strings)
    ensures StringsToJson(strings) == [] <==> strings == []
  {
    if strings != [] {
      StringsRoundTrip(strings[1..]);
      assert StringsToJson(strings)[1..] == StringsToJson(strings[1..]);
      assert [strings[0]] + strings[1..] == strings;
    }
  }

  lemma FieldRoundTrip(f: FieldDefinition)
    requires FieldFormed(f)
    ensures FieldFromJson(FieldToJson(f)) == Success(f)
  {
    StringsRoundTrip(f.choices);
    assert TypeNamed(TypeName(f.fieldType)) == Success(f.fieldType);
  }

  lemma {:induction false} FieldsRoundTrip(fields: seq<FieldDefinition>)
    requires forall f :: f in fields ==> FieldFormed(f)
    ensures FieldsFromJson(FieldsToJson(fields)) == Success(fields)
  {
    hide FieldFromJson;
    hide FieldToJson;
    if fields != [] {
      FieldRoundTrip(fields[0]);
      FieldsRoundTrip(fields[1..]);
      assert FieldsToJson(fields)[1..] == FieldsToJson(fields[1..]);
      assert [fields[0]] + fields[1..] == fields;
    }
  }

  lemma CategoryRoundTrip(c: ServiceCategory)
    requires CategoryFormed(c)
    ensures CategoryFromJson(CategoryToJson(c)) == Success(c)
  {
  }

  lemma {:induction false} CategoriesRoundTrip(categories: seq<ServiceCategory>)
    requires forall c :: c in categories ==> CategoryFormed(c)
    ensures CategoriesFromJson(CategoriesToJson(categories)) == Success(categories)
  {
    hide CategoryFromJson;
    hide CategoryToJson;
    if categories != [] {
      CategoryRoundTrip(categories[0]);
      CategoriesRoundTrip(categories[1..]);
      assert CategoriesToJson(categories)[1..] == CategoriesToJson(categories[1..]);
      assert [categories[0]] + categories[1..] == categories;
    }
  }

  lemma LabelsRoundTrip(labels: map<string, string>)
    ensures LabelsFromJson(LabelsToJson(labels)) == Success(DEFAULT_ROLE_LABELS + labels)
  {
    var o := LabelsToJson(labels).entries;
    assert labels == map role | role in o :: o[role].s;
    if labels == map[] {
      assert DEFAULT_ROLE_LABELS + labels == DEFAULT_ROLE_LABELS;
    } else {
      var role :| role in labels;
      assert role in o;
    }
  }

  lemma CatalogRoundTrip(c: ServiceCatalog)
    requires (forall x :: x in c.categories ==> CategoryFormed(x)) && DistinctCategories(c.categories)
    ensures CatalogFromJson(CatalogToJson(c)) == Success(c)
  {
    hide CategoriesFromJson;
    hide CategoriesToJson;
    CategoriesRoundTrip(c.categories);
  }

  lemma BrandingRoundTrip(b: Branding)
    ensures BrandingFromJson(BrandingToJson(b)) == Success(b)
  {
  }

  lemma EvidenceRoundTrip(e: Evidence)
    ensures EvidenceFromJson(EvidenceToJson(e)) == Success(e)
  {
  }

  /** Reading back a stored pack gives the pack with the default role labels filled in. */
  lemma ReadBack(p: PackDefinition)
    requires Formed(p)
    ensures FromJson(ToJson(p)) == Success(WithDefaults(p))
  {
    hide FieldsFromJson;
    hide FieldsToJson;
    hide CatalogFromJson;
    hide CatalogToJson;
    hide BrandingFromJson;
    hide BrandingToJson;
    hide EvidenceFromJson;
    hide EvidenceToJson;
    hide LabelsFromJson;
    hide LabelsToJson;
    FieldsRoundTrip(p.fields);
    CatalogRoundTrip(p.serviceCatalog);
    BrandingRoundTrip(p.branding);
    EvidenceRoundTrip(p.evidence);
    LabelsRoundTrip(p.roleLabels);
  }

  /** The round trip is exact for exactly the packs whose role labels cover the defaults. */
  lemma RoundTripIsExact(p: PackDefinition)
    requires Formed(p)
    ensures FromJson(ToJson(p)) == Success(p) <==> Labelled(p)
  {
    hide FromJson;
    hide ToJson;
    ReadBack(p);
    if Labelled(p) {
      assert DEFAULT_ROLE_LABELS + p.roleLabels == p.roleLabels;
    }
    if p == WithDefaults(p) {
      assert DEFAULT_ROLE_LABELS.Keys <= (DEFAULT_ROLE_LABELS + p.roleLabels).Keys;
    }
  }

  lemma {:induction false} FieldsReadFormed(items: seq<Json>)
    ensures FieldsFromJson(items).Success? ==>
              var fields := FieldsFromJson(items).value;
              |fields| == |items| && forall f :: f in fields ==> FieldFormed(f)
  {
    hide FieldFormed;
    if items != [] {
      FieldsReadFormed(items[1..]);
      assert FieldFromJson(items[0]).Success? ==> FieldFormed(FieldFromJson(items[0]).value);
    }
  }

  lemma {:induction false} CategoriesReadFormed(items: seq<Json>)
    ensures CategoriesFromJson(items).Success? ==> forall c :: c in CategoriesFromJson(items).value ==> CategoryFormed(c)
  {
    if items != [] { CategoriesReadFormed(items[1..]); }
  }

  /** Whatever JSON is read, a pack that comes out is well formed and fully labelled, and
      writing it again loses nothing. */
  lemma ReadingIsStable(j: Json)
    requires FromJson(j).Success?
    ensures Formed(FromJson(j).value) && Labelled(FromJson(j).value)
    ensures FromJson(ToJson(FromJson(j).value)) == FromJson(j)
  {
    var p := FromJson(j).value;
    assert Formed(p) && Labelled(p) by {
      hide FieldsFromJson;
      hide CategoriesFromJson;
      var o := AsObject(j).value;
      FieldsReadFormed(AsList(Get(o, "fields", Arr([]))).value);
      var c := AsObject(Get(o, "service_catalog", Obj(map[]))).value;
      CategoriesReadFormed(AsList(Get(c, "categories", Arr([]))).value);
    }
    RoundTripIsExact(p);
  }

  // The order in which fields are asked --------------------------------------------------------

  /** Code-point order on strings. */
  predicate StringLeq(a: string, b: string) {
    a == "" || (b != "" && (a[0] < b[0] || (a[0] == b[0] && StringLeq(a[1..], b[1..]))))
  }

  predicate FieldLeq(f: FieldDefinition, g: FieldDefinition) {
    f.order < g.order || (f.order == g.order && StringLeq(f.key, g.key))
  }

  predicate Ordered(fields: seq<FieldDefinition>) {
    forall i, j :: 0 <= i < j < |fields| ==> FieldLeq(fields[i], fields[j])
  }

  predicate DistinctFields(fields: seq<FieldDefinition>) {
    forall i, j :: 0 <= i < j < |fields| ==> fields[i].key != fields[j].key
  }

  lemma {:induction false} StringOrder(a: string, b: string, c: string)
    ensures StringLeq(a, b) || StringLeq(b, a)
    ensures StringLeq(a, b) && StringLeq(b, a) ==> a == b
    ensures StringLeq(a, b) && StringLeq(b, c) ==> StringLeq(a, c)
  {
    if a != "" && b != "" {
      StringOrder(a[1..], b[1..], if c != "" then c[1..] else "");
      assert a == [a[0]] + a[1..] && b == [b[0]] + b[1..];
    }
  }

  lemma FieldOrder(f: FieldDefinition, g: FieldDefinition, h: FieldDefinition)
    ensures FieldLeq(f, g) || FieldLeq(g, f)
    ensures FieldLeq(f, g) && FieldLeq(g, f) ==> f.key == g.key
    ensures FieldLeq(f, g) && FieldLeq(g, h) ==> FieldLeq(f, h)
  {
    StringOrder(f.key, g.key, h.key);
  }

  /** Stable insertion, from the left. */
  function Insert(fields: seq<FieldDefinition>, f: FieldDefinition): seq<FieldDefinition> {
    if fields == [] then [f]
    else
      var n := |fields| - 1;
      if FieldLeq(fields[n], f) then fields + [f] else Insert(fields[..n], f) + [fields[n]]
  }

  function OrderedFields(fields: seq<FieldDefinition>): seq<FieldDefinition> {
    if fields == [] then [] else Insert(OrderedFields(fields[..|fields| - 1]), fields[|fields| - 1])
  }

  lemma {:induction false} InsertSorts(fields: seq<FieldDefinition>, f: FieldDefinition)
    requires Ordered(fields)
    ensures Ordered(Insert(fields, f)) && multiset(Insert(fields, f)) == multiset(fields) + multiset{f}
  {
    hide FieldLeq;
    if fields != [] {
      var n := |fields| - 1;
      if FieldLeq(fields[n], f) {
        forall i | 0 <= i < n ensures FieldLeq(fields[i], f) { FieldOrder(fields[i], fields[n], f); }
      } else {
        InsertSorts(fields[..n], f);
        FieldOrder(f, fields[n], f);
        var init := Insert(fields[..n], f);
        assert fields == fields[..n] + [fields[n]];
        forall i | 0 <= i < |init| ensures FieldLeq(init[i], fields[n]) {
          assert init[i] in multiset(init);
          assert init[i] in multiset(fields[..n]) || init[i] == f;
        }
      }
    }
  }

  lemma {:induction false} OrderedFieldsSorts(fields: seq<FieldDefinition>)
    ensures Ordered(OrderedFields(fields)) && multiset(OrderedFields(fields)) == multiset(fields)
  {
    hide Insert;
    if fields != [] {
      var n := |fields| - 1;
      OrderedFieldsSorts(fields[..n]);
      InsertSorts(OrderedFields(fields[..n]), fields[n]);
      assert fields == fields[..n] + [fields[n]];
    }
  }

  /** Sorting leaves an already ordered list as it is. */
  lemma {:induction false} OrderedIsFixed(fields: seq<FieldDefinition>)
    requires Ordered(fields)
    ensures OrderedFields(fields) == fields
  {
    if fields != [] {
      var n := |fields| - 1;
      OrderedIsFixed(fields[..n]);
      assert fields == fields[..n] + [fields[n]];
      if n > 0 { assert FieldLeq(fields[n - 1], fields[n]); }
    }
  }

  lemma SortedFieldsStayDistinct(fields: seq<FieldDefinition>)
    requires DistinctFields(fields)
    ensures DistinctFields(OrderedFields(fields))
  {
    OrderedFieldsSorts(fields);
    DistinctByMultiset(fields, OrderedFields(fields));
  }

  lemma {:induction false} DistinctByMultiset(a: seq<FieldDefinition>, b: seq<FieldDefinition>)
    requires DistinctFields(a) && multiset(a) == multiset(b)
    ensures DistinctFields(b)
  {
    forall i, j | 0 <= i < j < |b| ensures b[i].key != b[j].key {
      assert b == b[..i] + [b[i]] + b[i + 1..j] + [b[j]] + b[j + 1..];
      assert b[i] in multiset(a) && b[j] in multiset(a);
      if b[i] == b[j] {
        assert multiset(b)[b[i]] >= 2;
        OnceInDistinct(a, b[i]);
        assert false;
      }
    }
  }

  lemma {:induction false} OnceInDistinct(a: seq<FieldDefinition>, f: FieldDefinition)
    requires DistinctFields(a)
    ensures multiset(a)[f] <= 1
  {
    if a != [] {
      var n := |a| - 1;
      OnceInDistinct(a[..n], f);
      assert a == a[..n] + [a[n]];
      if a[n] == f {
        forall i | 0 <= i < n ensures a[..n][i] != f { assert a[i].key != a[n].key; }
        assert f !in a[..n];
      }
    }
  }
}
