/** The steps of an administrator's editing session: what each handler writes, one effect at
    a time, against a draft and a session that other handlers may change in between. */
module ConfigEditor {
  import opened Prelude
  import opened Domain
  import opened Catalog
  import opened Drafts
  import PackStore

  datatype FieldStep = AwaitLabel | AwaitType | AwaitChoices | AwaitRequired

  datatype BrandPart = BrandName | BrandGreeting | BrandSupport

  datatype EvidenceChange = MorePhotos | FewerPhotos | ToggleComment | ToggleSignature | ToggleCode

  /** The stored session of one administrator. */
  datatype Session =
    | NoSession
    | AddingService(itemKey: string, itemLabel: string)
    | AddingField(step: FieldStep, caption: string, key: string, fieldType: FieldType, choices: seq<string>)
    | Prompting(key: string)
    | NamingRole(role: string)
    | EditingBrand(part: BrandPart)

  datatype Effect =
    | SetSession(session: Session)
    | ClearSession
    | WriteDraft(draft: PackDefinition)

  /** A text is a message that does not start with a slash; `base` is the label after Unicode
      folding and squeezing, `values` the distinct choices of a comma-separated list. A slash
      command ends the flow; only the one for the brand then writes, and publishing is a step
      of the store. */
  datatype Input =
    | Text(text: string, base: string, values: seq<string>)
    | Slash(brand: bool)
    | ServiceAdd
    | ServiceDelete(key: string)
    | ServiceMove(key: string, direction: string)
    | ServiceMultiSelect
    | FieldAdd
    | FieldTypeChosen(fieldType: FieldType)
    | FieldRequired(required: bool, base: string)
    | FieldDelete(key: string)
    | FieldMove(key: string, direction: string)
    | FieldPrompt(key: string)
    | RoleLabel(role: string)
    | Brand
    | ChangeEvidence(change: EvidenceChange)
    | ChoosePoolMode(mode: PoolMode)
    | Cancel

  function CategoryKeys(p: PackDefinition): set<string> {
    set c | c in p.serviceCatalog.categories :: c.key
  }

  function FieldKeys(p: PackDefinition): set<string> {
    set f | f in p.fields :: f.key
  }

  function WithCategories(p: PackDefinition, categories: seq<ServiceCategory>): PackDefinition {
    p.(serviceCatalog := p.serviceCatalog.(categories := categories))
  }

  function Without<T(!new)>(items: seq<T>, keyOf: T -> string, key: string): (r: seq<T>)
    ensures forall x :: x in r <==> x in items && keyOf(x) != key
  {
    if items == [] then []
    else
      var n := |items| - 1;
      assert items == items[..n] + [items[n]];
      Without(items[..n], keyOf, key) + if keyOf(items[n]) == key then [] else [items[n]]
  }

  function Reprompted(fields: seq<FieldDefinition>, key: string, prompt: string): (r: seq<FieldDefinition>)
    ensures |r| == |fields|
    ensures forall i :: 0 <= i < |fields| ==> r[i] == if fields[i].key == key then fields[i].(prompt := prompt) else fields[i]
  {
    if fields == [] then []
    else
      var n := |fields| - 1;
      Reprompted(fields[..n], key, prompt) + [if fields[n].key == key then fields[n].(prompt := prompt) else fields[n]]
  }

  function MaxOrder(fields: seq<FieldDefinition>): (m: int)
    ensures forall f :: f in fields ==> f.order <= m
  {
    if fields == [] then 0
    else if |fields| == 1 then fields[0].order
    else
      var n := |fields| - 1;
      var m := MaxOrder(fields[..n]);
      assert forall f :: f in fields ==> f in fields[..n] || f == fields[n];
      if fields[n].order > m then fields[n].order else m
  }

  // The handlers -----------------------------------------------------------------------------

  /** The label of a new service: the key is remembered before the draft is written, so a
      redelivered label finds its own service instead of adding another. */
  ghost function ServiceSaved(p: PackDefinition, s: Session, text: string, base: string): seq<Effect>
    requires s.AddingService?
  {
    var name := Trim(text, 120);
    if name == "" then []
    else if s.itemKey in CategoryKeys(p) then [ClearSession]
    else
      var remembered := s.itemKey != "" && s.itemLabel == name;
      var key := if remembered then s.itemKey else SlugOf(base, "service", CategoryKeys(p));
      (if remembered then [] else [SetSession(AddingService(key, name))])
      + [WriteDraft(WithCategories(p, p.serviceCatalog.categories + [ServiceCategory(key, name)])), ClearSession]
  }

  function NewField(p: PackDefinition, s: Session, key: string, required: bool): FieldDefinition
    requires s.AddingField?
  {
    FieldDefinition(key, s.caption, s.fieldType, required, s.choices, "Введите: " + s.caption, MaxOrder(p.fields) + 1)
  }

  /** The last step of a new field. An ill-formed field (choices kept from an abandoned
      enum, say) raises before anything is written. */
  ghost function FieldSaved(p: PackDefinition, s: Session, required: bool, base: string): seq<Effect>
    requires s.AddingField?
  {
    var key := if s.key != "" then s.key else SlugOf(base, "field", FieldKeys(p));
    var remember := if s.key != "" then [] else [SetSession(s.(key := key))];
    var field := NewField(p, s, key, required);
    if key in FieldKeys(p) then remember + [ClearSession]
    else if !FieldFormed(field) then remember
    else remember + [WriteDraft(p.(fields := p.fields + [field])), ClearSession]
  }

  function RoleSaved(p: PackDefinition, role: string, text: string): seq<Effect> {
    var name := Trim(text, 80);
    if role !in DEFAULT_ROLE_LABELS then [ClearSession]
    else if name == "" then []
    else
      var chosen := if name == "-" then DEFAULT_ROLE_LABELS[role] else name;
      [WriteDraft(p.(roleLabels := p.roleLabels[role := chosen])), ClearSession]
  }

  function PromptSaved(p: PackDefinition, key: string, text: string): seq<Effect> {
    var fields := Reprompted(p.fields, key, if Strip(text) == "-" then "" else Trim(text, 500));
    (if fields == p.fields then [] else [WriteDraft(p.(fields := fields))]) + [ClearSession]
  }

  /** The brand is asked part by part; only the name is required. */
  function BrandSaved(p: PackDefinition, part: BrandPart, text: string): seq<Effect> {
    var value := if Strip(text) == "-" then "" else Trim(text, if part.BrandName? then 120 else 500);
    match part
    case BrandName =>
      if value == "" then []
      else [WriteDraft(p.(branding := p.branding.(name := value))), SetSession(EditingBrand(BrandGreeting))]
    case BrandGreeting => [WriteDraft(p.(branding := p.branding.(greeting := value))), SetSession(EditingBrand(BrandSupport))]
    case BrandSupport => [WriteDraft(p.(branding := p.branding.(support := value))), ClearSession]
  }

  function EvidenceChanged(e: Evidence, change: EvidenceChange): Evidence {
    match change
    case MorePhotos => e.(minimumPhotos := if e.minimumPhotos + 1 < 10 then e.minimumPhotos + 1 else 10)
    case FewerPhotos => e.(minimumPhotos := if e.minimumPhotos > 1 then e.minimumPhotos - 1 else 0)
    case ToggleComment => e.(comment := !e.comment)
    case ToggleSignature => e.(signature := !e.signature)
    case ToggleCode => e.(customerCode := !e.customerCode)
  }

  function TypeChosen(p: PackDefinition, s: Session, t: FieldType): Session
    requires s.AddingField?
  {
    s.(fieldType := t,
       key := if t.Address? && "address" !in FieldKeys(p) then "address" else s.key,
       step := if t.Enum? then AwaitChoices else AwaitRequired)
  }

  /** What a handler writes, in order, given the draft and the session it read. */
  ghost function Handle(p: PackDefinition, s: Session, input: Input): seq<Effect> {
    match input
    case Text(text, base, values) =>
      (match s
       case AddingService(_, _) => ServiceSaved(p, s, text, base)
       case AddingField(AwaitLabel, _, _, _, _) =>
         if Trim(text, 120) == "" then []
         else [SetSession(AddingField(AwaitType, Trim(text, 120), SlugOf(base, "field", FieldKeys(p)), FieldType.Text, []))]
       case AddingField(AwaitChoices, _, _, _, _) =>
         if 2 <= |values| <= 20 then [SetSession(s.(choices := values, step := AwaitRequired))] else []
       case Prompting(key) => PromptSaved(p, key, text)
       case NamingRole(role) => RoleSaved(p, role, text)
       case EditingBrand(part) => BrandSaved(p, part, text)
       case _ => [])
    case Slash(brand) =>
      (if s.NoSession? then [] else [ClearSession]) + (if brand then [SetSession(EditingBrand(BrandName))] else [])
    case ServiceAdd => [SetSession(AddingService("", ""))]
    case ServiceDelete(key) => [WriteDraft(WithCategories(p, Without(p.serviceCatalog.categories, CategoryKey, key)))]
    case ServiceMove(key, direction) => [WriteDraft(WithCategories(p, Moved(p.serviceCatalog.categories, CategoryKey, key, direction)))]
    case ServiceMultiSelect => [WriteDraft(p.(serviceCatalog := p.serviceCatalog.(multiSelect := !p.serviceCatalog.multiSelect)))]
    case FieldAdd => [SetSession(AddingField(AwaitLabel, "", "", FieldType.Text, []))]
    case FieldTypeChosen(t) => if s.AddingField? then [SetSession(TypeChosen(p, s, t))] else []
    case FieldRequired(required, base) => if s.AddingField? then FieldSaved(p, s, required, base) else []
    case FieldDelete(key) => [WriteDraft(p.(fields := Without(p.fields, FieldKey, key)))]
    case FieldMove(key, direction) => [WriteDraft(p.(fields := FieldsMoved(p.fields, key, direction)))]
    case FieldPrompt(key) => if key in FieldKeys(p) then [SetSession(Prompting(key))] else []
    case RoleLabel(role) => if role in DEFAULT_ROLE_LABELS then [SetSession(NamingRole(role))] else []
    case Brand => [SetSession(EditingBrand(BrandName))]
    case ChangeEvidence(change) => [WriteDraft(p.(evidence := EvidenceChanged(p.evidence, change)))]
    case ChoosePoolMode(mode) => [WriteDraft(p.(defaultPoolMode := mode))]
    case Cancel => [ClearSession]
  }

  // What every written draft keeps --------------------------------------------------------------

  predicate Tidy(p: PackDefinition) {
    Formed(p) && Labelled(p) && DistinctFields(p.fields)
  }

  lemma {:induction false} WithoutIsPart<T(!new)>(items: seq<T>, keyOf: T -> string, key: string)
    requires Distinct(items, keyOf)
    ensures Distinct(Without(items, keyOf, key), keyOf)
  {
    if items != [] {
      var n := |items| - 1;
      WithoutIsPart(items[..n], keyOf, key);
      var kept := Without(items[..n], keyOf, key);
      forall x | x in kept ensures keyOf(x) != keyOf(items[n]) {
        var j :| 0 <= j < n && items[..n][j] == x;
        assert items[j] == x;
      }
    }
  }

  lemma SwappedHasSame<T>(items: seq<T>, i: nat, j: nat, x: T)
    requires i < |items| && j < |items|
    ensures x in Swapped(items, i, j) <==> x in items
  {
    SwapPermutes(items, i, j);
    hide Swapped;
    assert x in multiset(Swapped(items, i, j)) <==> x in multiset(items);
  }

  lemma MovedHasSame<T>(items: seq<T>, keyOf: T -> string, key: string, direction: string)
    ensures forall x :: x in Moved(items, keyOf, key, direction) <==> x in items
  {
    hide Swapped;
    var i := Position(items, keyOf, key);
    if direction == "up" && 0 < i < |items| { forall x { SwappedHasSame(items, i, i - 1, x); } }
    else if direction == "down" && i + 1 < |items| { forall x { SwappedHasSame(items, i, i + 1, x); } }
  }

  lemma CategoriesAreDistinct(categories: seq<ServiceCategory>)
    ensures DistinctCategories(categories) <==> Distinct(categories, CategoryKey)
  {
    if Distinct(categories, CategoryKey) {
      forall i, j | 0 <= i < j < |categories| ensures categories[i].key != categories[j].key {
        assert CategoryKey(categories[i]) != CategoryKey(categories[j]);
      }
    }
  }

  lemma FieldsAreDistinct(fields: seq<FieldDefinition>)
    ensures DistinctFields(fields) <==> Distinct(fields, FieldKey)
  {
    if Distinct(fields, FieldKey) {
      forall i, j | 0 <= i < j < |fields| ensures fields[i].key != fields[j].key {
        assert FieldKey(fields[i]) != FieldKey(fields[j]);
      }
    }
  }

  lemma ServiceEditsStayTidy(p: PackDefinition, categories: seq<ServiceCategory>)
    requires Tidy(p) && DistinctCategories(categories) && forall c :: c in categories ==> CategoryFormed(c)
    ensures Tidy(WithCategories(p, categories))
  {
  }

  lemma FieldEditsStayTidy(p: PackDefinition, fields: seq<FieldDefinition>)
    requires Tidy(p) && DistinctFields(fields) && forall f :: f in fields ==> FieldFormed(f)
    ensures Tidy(p.(fields := fields))
  {
  }

  lemma AddedServiceStaysTidy(p: PackDefinition, key: string, name: string)
    requires Tidy(p) && key !in CategoryKeys(p) && key != "" && name != ""
    ensures Tidy(WithCategories(p, p.serviceCatalog.categories + [ServiceCategory(key, name)]))
  {
    var before := p.serviceCatalog.categories;
    forall c | c in before ensures c.key != key { assert c.key in CategoryKeys(p); }
    ServiceEditsStayTidy(p, before + [ServiceCategory(key, name)]);
  }

  lemma AddedFieldStaysTidy(p: PackDefinition, field: FieldDefinition)
    requires Tidy(p) && field.key !in FieldKeys(p) && FieldFormed(field)
    ensures Tidy(p.(fields := p.fields + [field]))
  {
    forall f | f in p.fields ensures f.key != field.key { assert f.key in FieldKeys(p); }
    FieldEditsStayTidy(p, p.fields + [field]);
  }

  lemma MovedFieldsStayTidy(p: PackDefinition, key: string, direction: string)
    requires Tidy(p)
    ensures Tidy(p.(fields := FieldsMoved(p.fields, key, direction)))
  {
    var shown := OrderedFields(p.fields);
    var moved := Moved(shown, FieldKey, key, direction);
    OrderedFieldsSorts(p.fields);
    SortedFieldsStayDistinct(p.fields);
    FieldsAreDistinct(shown);
    MoveStaysDistinct(shown, FieldKey, key, direction);
    FieldsAreDistinct(moved);
    MovedHasSame(shown, FieldKey, key, direction);
    forall i | 0 <= i < |moved| ensures FieldFormed(Renumbered(moved)[i]) {
      assert moved[i] in multiset(shown);
      assert FieldFormed(moved[i]);
    }
    FieldEditsStayTidy(p, Renumbered(moved));
  }

  ghost predicate WritesTidy(effects: seq<Effect>) {
    forall i :: 0 <= i < |effects| && effects[i].WriteDraft? ==> Tidy(effects[i].draft)
  }

  lemma ServiceSavedIsTidy(p: PackDefinition, s: Session, text: string, base: string)
    requires Tidy(p) && s.AddingService?
    ensures WritesTidy(ServiceSaved(p, s, text, base))
  {
    hide Tidy;
    var name := Trim(text, 120);
    if name != "" && s.itemKey !in CategoryKeys(p) {
      var remembered := s.itemKey != "" && s.itemLabel == name;
      AddedServiceStaysTidy(p, if remembered then s.itemKey else SlugOf(base, "service", CategoryKeys(p)), name);
    }
  }

  lemma FieldSavedIsTidy(p: PackDefinition, s: Session, required: bool, base: string)
    requires Tidy(p) && s.AddingField?
    ensures WritesTidy(FieldSaved(p, s, required, base))
  {
    hide Tidy;
    var key := if s.key != "" then s.key else SlugOf(base, "field", FieldKeys(p));
    var field := NewField(p, s, key, required);
    if key !in FieldKeys(p) && FieldFormed(field) { AddedFieldStaysTidy(p, field); }
  }

  lemma PromptSavedIsTidy(p: PackDefinition, key: string, text: string)
    requires Tidy(p)
    ensures WritesTidy(PromptSaved(p, key, text))
  {
    var fields := Reprompted(p.fields, key, if Strip(text) == "-" then "" else Trim(text, 500));
    forall f | f in fields ensures FieldFormed(f) {
      var i :| 0 <= i < |fields| && fields[i] == f;
      assert FieldFormed(p.fields[i]);
    }
    FieldEditsStayTidy(p, fields);
  }

  lemma RoleSavedIsTidy(p: PackDefinition, role: string, text: string)
    requires Tidy(p)
    ensures WritesTidy(RoleSaved(p, role, text))
  {
  }

  lemma BrandSavedIsTidy(p: PackDefinition, part: BrandPart, text: string)
    requires Tidy(p)
    ensures WritesTidy(BrandSaved(p, part, text))
  {
  }

  lemma TextIsTidy(p: PackDefinition, s: Session, input: Input)
    requires Tidy(p) && input.Text?
    ensures WritesTidy(Handle(p, s, input))
  {
    hide ServiceSaved;
    hide PromptSaved;
    hide RoleSaved;
    hide BrandSaved;
    hide SlugOf;
    hide Tidy;
    hide Trim;
    match s {
      case AddingService(_, _) => ServiceSavedIsTidy(p, s, input.text, input.base);
      case Prompting(key) => PromptSavedIsTidy(p, key, input.text);
      case NamingRole(role) => RoleSavedIsTidy(p, role, input.text);
      case EditingBrand(part) => BrandSavedIsTidy(p, part, input.text);
      case _ =>
    }
  }

  /** Every handler writes only drafts that the constructors accept, whose service keys and
      field keys are distinct and whose roles are all labelled, whatever it read. */
  lemma HandlersStayTidy(p: PackDefinition, s: Session, input: Input)
    requires Tidy(p)
    ensures WritesTidy(Handle(p, s, input))
  {
    hide Tidy;
    hide Without;
    hide Moved;
    hide FieldsMoved;
    hide FieldSaved;
    match input {
      case Text(_, _, _) => TextIsTidy(p, s, input);
      case ServiceDelete(key) => DeletedServiceStaysTidy(p, key);
      case ServiceMove(key, direction) => MovedServicesStayTidy(p, key, direction);
      case FieldRequired(required, base) => if s.AddingField? { FieldSavedIsTidy(p, s, required, base); }
      case FieldDelete(key) => DeletedFieldStaysTidy(p, key);
      case FieldMove(key, direction) => MovedFieldsStayTidy(p, key, direction);
      case ServiceMultiSelect => OtherEditsStayTidy(p, input);
      case ChangeEvidence(_) => OtherEditsStayTidy(p, input);
      case ChoosePoolMode(_) => OtherEditsStayTidy(p, input);
      case _ =>
    }
  }

  lemma OtherEditsStayTidy(p: PackDefinition, input: Input)
    requires Tidy(p) && (input.ServiceMultiSelect? || input.ChangeEvidence? || input.ChoosePoolMode?)
    ensures WritesTidy(Handle(p, NoSession, input))
  {
  }

  lemma DeletedServiceStaysTidy(p: PackDefinition, key: string)
    requires Tidy(p)
    ensures Tidy(WithCategories(p, Without(p.serviceCatalog.categories, CategoryKey, key)))
  {
    var categories := p.serviceCatalog.categories;
    CategoriesAreDistinct(categories);
    WithoutIsPart(categories, CategoryKey, key);
    CategoriesAreDistinct(Without(categories, CategoryKey, key));
    ServiceEditsStayTidy(p, Without(categories, CategoryKey, key));
  }

  lemma MovedServicesStayTidy(p: PackDefinition, key: string, direction: string)
    requires Tidy(p)
    ensures Tidy(WithCategories(p, Moved(p.serviceCatalog.categories, CategoryKey, key, direction)))
  {
    hide Moved;
    var categories := p.serviceCatalog.categories;
    CategoriesAreDistinct(categories);
    MoveStaysDistinct(categories, CategoryKey, key, direction);
    CategoriesAreDistinct(Moved(categories, CategoryKey, key, direction));
    MovedHasSame(categories, CategoryKey, key, direction);
    ServiceEditsStayTidy(p, Moved(categories, CategoryKey, key, direction));
  }

  lemma DeletedFieldStaysTidy(p: PackDefinition, key: string)
    requires Tidy(p)
    ensures Tidy(p.(fields := Without(p.fields, FieldKey, key)))
  {
    FieldsAreDistinct(p.fields);
    WithoutIsPart(p.fields, FieldKey, key);
    FieldsAreDistinct(Without(p.fields, FieldKey, key));
    FieldEditsStayTidy(p, Without(p.fields, FieldKey, key));
  }

  // Retries --------------------------------------------------------------------------------------

  datatype Desk = Desk(draft: PackDefinition, session: Session)

  function Apply(d: Desk, e: Effect): Desk {
    match e
    case SetSession(s) => d.(session := s)
    case ClearSession => d.(session := NoSession)
    case WriteDraft(p) => d.(draft := p)
  }

  function Perform(d: Desk, effects: seq<Effect>): Desk
    decreases |effects|
  {
    if effects == [] then d else Perform(Apply(d, effects[0]), effects[1..])
  }

  ghost function Handled(d: Desk, input: Input): Desk {
    Perform(d, Handle(d.draft, d.session, input))
  }

  lemma PerformStep(d: Desk, a: Effect, rest: seq<Effect>)
    ensures Perform(d, [a] + rest) == Perform(Apply(d, a), rest)
  {
    assert ([a] + rest)[1..] == rest;
  }

  lemma Performs(d: Desk, a: Effect, b: Effect, c: Effect)
    ensures Perform(d, []) == d
    ensures Perform(d, [a]) == Apply(d, a)
    ensures Perform(d, [a, b]) == Apply(Apply(d, a), b)
    ensures Perform(d, [a, b, c]) == Apply(Apply(Apply(d, a), b), c)
  {
    PerformStep(d, a, []);
    PerformStep(d, a, [b]);
    PerformStep(d, a, [b, c]);
    PerformStep(Apply(d, a), b, []);
    PerformStep(Apply(d, a), b, [c]);
    PerformStep(Apply(Apply(d, a), b), c, []);
    assert [a] + [] == [a] && [b] + [] == [b] && [c] + [] == [c];
    assert [a] + [b] == [a, b] && [b] + [c] == [b, c] && [a] + [b, c] == [a, b, c];
  }

  /** A list of at most three effects, its prefixes and what they leave behind. */
  lemma PrefixPerforms(d: Desk, effects: seq<Effect>, k: nat)
    requires k < |effects| <= 3
    ensures k == 0 ==> Perform(d, effects[..k]) == d
    ensures k == 1 ==> Perform(d, effects[..k]) == Apply(d, effects[0])
    ensures k == 2 ==> Perform(d, effects[..k]) == Apply(Apply(d, effects[0]), effects[1])
    ensures |effects| == 1 ==> Perform(d, effects) == Apply(d, effects[0])
    ensures |effects| == 2 ==> Perform(d, effects) == Apply(Apply(d, effects[0]), effects[1])
    ensures |effects| == 3 ==> Perform(d, effects) == Apply(Apply(Apply(d, effects[0]), effects[1]), effects[2])
  {
    var a := effects[0];
    var b := if |effects| > 1 then effects[1] else a;
    var c := if |effects| > 2 then effects[2] else a;
    Performs(d, a, b, c);
    assert effects == if |effects| == 1 then [a] else if |effects| == 2 then [a, b] else [a, b, c];
    assert effects[..k] == if k == 0 then [] else if k == 1 then [a] else [a, b];
  }

  lemma ServiceRetryConverges(d: Desk, text: string, base: string, k: nat)
    requires d.session.AddingService? && 0 < k < |ServiceSaved(d.draft, d.session, text, base)|
    ensures var effects := ServiceSaved(d.draft, d.session, text, base);
            var half := Perform(d, effects[..k]);
            && half.session.AddingService?
            && Perform(half, ServiceSaved(half.draft, half.session, text, base)) == Perform(d, effects)
  {
    hide SlugOf;
    hide Trim;
    hide Perform;
    var name := Trim(text, 120);
    var effects := ServiceSaved(d.draft, d.session, text, base);
    var remembered := d.session.itemKey != "" && d.session.itemLabel == name;
    var key := if remembered then d.session.itemKey else SlugOf(base, "service", CategoryKeys(d.draft));
    var written := WithCategories(d.draft, d.draft.serviceCatalog.categories + [ServiceCategory(key, name)]);
    assert written.serviceCatalog.categories[|d.draft.serviceCatalog.categories|].key == key;
    assert key in CategoryKeys(written);
    assert key != "" && key !in CategoryKeys(d.draft);
    PrefixPerforms(d, effects, k);
    var half := Perform(d, effects[..k]);
    var again := ServiceSaved(half.draft, half.session, text, base);
    PrefixPerforms(half, again, 0);
  }

  lemma FieldRetryConverges(d: Desk, required: bool, base: string, k: nat)
    requires d.session.AddingField? && 0 < k < |FieldSaved(d.draft, d.session, required, base)|
    ensures var effects := FieldSaved(d.draft, d.session, required, base);
            var half := Perform(d, effects[..k]);
            && half.session.AddingField?
            && Perform(half, FieldSaved(half.draft, half.session, required, base)) == Perform(d, effects)
  {
    hide SlugOf;
    hide Perform;
    hide MaxOrder;
    var effects := FieldSaved(d.draft, d.session, required, base);
    var key := if d.session.key != "" then d.session.key else SlugOf(base, "field", FieldKeys(d.draft));
    var field := NewField(d.draft, d.session, key, required);
    if key !in FieldKeys(d.draft) {
      var written := d.draft.(fields := d.draft.fields + [field]);
      assert written.fields[|d.draft.fields|].key == key;
      assert key in FieldKeys(written);
    }
    PrefixPerforms(d, effects, k);
    var half := Perform(d, effects[..k]);
    var again := FieldSaved(half.draft, half.session, required, base);
    PrefixPerforms(half, again, 0);
  }

  lemma TextRetryConverges(d: Desk, text: string, k: nat)
    requires d.session.Prompting? && 0 < k < |PromptSaved(d.draft, d.session.key, text)|
    ensures var effects := PromptSaved(d.draft, d.session.key, text);
            var half := Perform(d, effects[..k]);
            half.session == d.session && Perform(half, PromptSaved(half.draft, d.session.key, text)) == Perform(d, effects)
  {
    hide Perform;
    hide Trim;
    var effects := PromptSaved(d.draft, d.session.key, text);
    PrefixPerforms(d, effects, k);
    var half := Perform(d, effects[..k]);
    var prompt := if Strip(text) == "-" then "" else Trim(text, 500);
    var once, twice := Reprompted(d.draft.fields, d.session.key, prompt), Reprompted(half.draft.fields, d.session.key, prompt);
    assert half.draft.fields == once;
    assert |twice| == |once| && forall i :: 0 <= i < |once| ==> twice[i] == once[i];
    PrefixPerforms(half, PromptSaved(half.draft, d.session.key, text), 0);
  }

  lemma RoleRetryConverges(d: Desk, text: string, k: nat)
    requires d.session.NamingRole? && 0 < k < |RoleSaved(d.draft, d.session.role, text)|
    ensures var effects := RoleSaved(d.draft, d.session.role, text);
            var half := Perform(d, effects[..k]);
            half.session == d.session && Perform(half, RoleSaved(half.draft, d.session.role, text)) == Perform(d, effects)
  {
    hide Perform;
    hide Trim;
    var effects := RoleSaved(d.draft, d.session.role, text);
    PrefixPerforms(d, effects, k);
    var half := Perform(d, effects[..k]);
    PrefixPerforms(half, RoleSaved(half.draft, d.session.role, text), 0);
  }

  lemma BrandRetryConverges(d: Desk, text: string, k: nat)
    requires d.session.EditingBrand? && 0 < k < |BrandSaved(d.draft, d.session.part, text)|
    ensures var effects := BrandSaved(d.draft, d.session.part, text);
            var half := Perform(d, effects[..k]);
            half.session == d.session && Perform(half, BrandSaved(half.draft, d.session.part, text)) == Perform(d, effects)
  {
    hide Perform;
    hide Trim;
    hide Strip;
    var effects := BrandSaved(d.draft, d.session.part, text);
    PrefixPerforms(d, effects, k);
    var half := Perform(d, effects[..k]);
    PrefixPerforms(half, BrandSaved(half.draft, d.session.part, text), 0);
  }

  /** A handler cut short between two of its writes and run again for the same input ends
      where one uninterrupted run would have. */
  lemma CutShortConverges(d: Desk, input: Input, k: nat)
    requires k < |Handle(d.draft, d.session, input)|
    ensures Handled(Perform(d, Handle(d.draft, d.session, input)[..k]), input) == Handled(d, input)
  {
    hide Perform;
    hide ServiceSaved;
    hide FieldSaved;
    hide PromptSaved;
    hide RoleSaved;
    hide BrandSaved;
    hide SlugOf;
    hide Trim;
    if k == 0 {
      Performs(d, ClearSession, ClearSession, ClearSession);
      assert Handle(d.draft, d.session, input)[..0] == [];
    } else if input.FieldRequired? {
      FieldRetryConverges(d, input.required, input.base, k);
    } else if input.Text? {
      match d.session {
        case AddingService(_, _) => ServiceRetryConverges(d, input.text, input.base, k);
        case Prompting(_) => TextRetryConverges(d, input.text, k);
        case NamingRole(_) => RoleRetryConverges(d, input.text, k);
        case EditingBrand(_) => BrandRetryConverges(d, input.text, k);
        case _ => assert false;
      }
    } else {
      SlashRetryConverges(d, input, k);
    }
  }

  lemma SlashRetryConverges(d: Desk, input: Input, k: nat)
    requires !input.Text? && !input.FieldRequired? && 0 < k < |Handle(d.draft, d.session, input)|
    ensures Handled(Perform(d, Handle(d.draft, d.session, input)[..k]), input) == Handled(d, input)
  {
    hide Perform;
    var effects := Handle(d.draft, d.session, input);
    assert input.Slash? && effects == [ClearSession, SetSession(EditingBrand(BrandName))];
    PrefixPerforms(d, effects, k);
    var half := Perform(d, effects[..k]);
    PrefixPerforms(half, Handle(half.draft, half.session, input), 0);
  }

  /** The inputs whose finished handler may run once more without a further effect, as a
      caller can tell beforehand: no toggle, no move with a second neighbour to pass, no
      counter short of its end, and no answer that would be taken for the next question's. */
  ghost predicate Repeatable(d: Desk, input: Input) {
    match input
    case ServiceMultiSelect => false
    case ServiceMove(key, direction) => !MovesTwice(d.draft.serviceCatalog.categories, CategoryKey, key, direction)
    case FieldMove(key, direction) => !MovesTwice(OrderedFields(d.draft.fields), FieldKey, key, direction)
    case ChangeEvidence(change) =>
      (change.MorePhotos? && d.draft.evidence.minimumPhotos >= 9) || (change.FewerPhotos? && d.draft.evidence.minimumPhotos <= 1)
    case Text(_, _, _) =>
      d.session.EditingBrand? ==> d.session.part.BrandSupport? || BrandSaved(d.draft, d.session.part, input.text) == []
    case _ => true
  }

  lemma {:induction false} WithoutNothing<T(!new)>(items: seq<T>, keyOf: T -> string, key: string)
    requires forall x :: x in items ==> keyOf(x) != key
    ensures Without(items, keyOf, key) == items
  {
    if items != [] {
      var n := |items| - 1;
      assert items == items[..n] + [items[n]];
      WithoutNothing(items[..n], keyOf, key);
    }
  }

  /** A handler with one write of the draft, handled twice. */
  lemma WritesTwice(d: Desk, input: Input, p: PackDefinition, q: PackDefinition)
    requires Handle(d.draft, d.session, input) == [WriteDraft(p)] && Handle(p, d.session, input) == [WriteDraft(q)]
    ensures Handled(Handled(d, input), input) == Handled(d, input) <==> q == p
  {
    hide Handle;
    OneWrite(d, input, p);
    OneWrite(d.(draft := p), input, q);
  }

  lemma OneWrite(d: Desk, input: Input, p: PackDefinition)
    requires Handle(d.draft, d.session, input) == [WriteDraft(p)]
    ensures Handled(d, input) == d.(draft := p)
  {
    hide Handle;
    Performs(d, WriteDraft(p), ClearSession, ClearSession);
  }

  lemma ServiceMovedAgain(d: Desk, key: string, direction: string)
    requires Tidy(d.draft)
    ensures var input := ServiceMove(key, direction); Handled(Handled(d, input), input) == Handled(d, input) <==> Repeatable(d, input)
  {
    hide Moved;
    hide MovesTwice;
    var categories := d.draft.serviceCatalog.categories;
    var once := Moved(categories, CategoryKey, key, direction);
    CategoriesAreDistinct(categories);
    MovedAgain(categories, CategoryKey, key, direction);
    WritesTwice(d, ServiceMove(key, direction), WithCategories(d.draft, once),
                WithCategories(d.draft, Moved(once, CategoryKey, key, direction)));
  }

  lemma FieldMovedAgain(d: Desk, key: string, direction: string)
    requires Tidy(d.draft)
    ensures var input := FieldMove(key, direction); Handled(Handled(d, input), input) == Handled(d, input) <==> Repeatable(d, input)
  {
    hide FieldsMoved;
    hide MovesTwice;
    hide OrderedFields;
    var once := FieldsMoved(d.draft.fields, key, direction);
    FieldsMovedAgain(d.draft.fields, key, direction);
    WritesTwice(d, FieldMove(key, direction), d.draft.(fields := once), d.draft.(fields := FieldsMoved(once, key, direction)));
  }

  lemma DeletedAgain(d: Desk, input: Input)
    requires input.ServiceDelete? || input.FieldDelete?
    ensures Handled(Handled(d, input), input) == Handled(d, input) && Repeatable(d, input)
  {
    hide Without;
    if input.ServiceDelete? {
      var kept := Without(d.draft.serviceCatalog.categories, CategoryKey, input.key);
      WithoutNothing(kept, CategoryKey, input.key);
      WritesTwice(d, input, WithCategories(d.draft, kept), WithCategories(d.draft, kept));
    } else {
      var kept := Without(d.draft.fields, FieldKey, input.key);
      WithoutNothing(kept, FieldKey, input.key);
      WritesTwice(d, input, d.draft.(fields := kept), d.draft.(fields := kept));
    }
  }

  lemma OtherFinishedAgain(d: Desk, input: Input)
    requires !input.Text? && !input.FieldRequired? && !input.ServiceMove? && !input.FieldMove? && !input.ServiceDelete? && !input.FieldDelete?
    ensures Handled(Handled(d, input), input) == Handled(d, input) <==> Repeatable(d, input)
  {
    hide Perform;
    var effects := Handle(d.draft, d.session, input);
    if effects == [] {
      Performs(d, ClearSession, ClearSession, ClearSession);
    } else {
      PrefixPerforms(d, effects, 0);
      var once := Handled(d, input);
      var again := Handle(once.draft, once.session, input);
      if again == [] { Performs(once, ClearSession, ClearSession, ClearSession); } else { PrefixPerforms(once, again, 0); }
    }
  }

  lemma EditFinishedAgain(d: Desk, input: Input)
    requires Tidy(d.draft) && !input.Text? && !input.FieldRequired?
    ensures Handled(Handled(d, input), input) == Handled(d, input) <==> Repeatable(d, input)
  {
    hide Handled;
    hide Repeatable;
    hide Tidy;
    match input {
      case ServiceMove(key, direction) => ServiceMovedAgain(d, key, direction);
      case FieldMove(key, direction) => FieldMovedAgain(d, key, direction);
      case ServiceDelete(_) => DeletedAgain(d, input);
      case FieldDelete(_) => DeletedAgain(d, input);
      case _ => OtherFinishedAgain(d, input);
    }
  }

  lemma FieldFinishedAgain(d: Desk, required: bool, base: string)
    ensures var input := FieldRequired(required, base);
            Repeatable(d, input) && Handled(Handled(d, input), input) == Handled(d, input)
  {
    hide SlugOf;
    hide Perform;
    hide MaxOrder;
    var input := FieldRequired(required, base);
    var effects := Handle(d.draft, d.session, input);
    Performs(d, ClearSession, ClearSession, ClearSession);
    if effects != [] {
      PrefixPerforms(d, effects, 0);
      var once := Handled(d, input);
      Performs(once, ClearSession, ClearSession, ClearSession);
      if once.session.AddingField? {
        var again := Handle(once.draft, once.session, input);
        assert again == [];
      }
    }
  }

  lemma TextFinishedAgain(d: Desk, input: Input)
    requires input.Text?
    ensures Handled(Handled(d, input), input) == Handled(d, input) <==> Repeatable(d, input)
  {
    hide SlugOf;
    hide Perform;
    hide Trim;
    hide Strip;
    hide Reprompted;
    var effects := Handle(d.draft, d.session, input);
    Performs(d, ClearSession, ClearSession, ClearSession);
    if effects != [] {
      PrefixPerforms(d, effects, 0);
      var once := Handled(d, input);
      Performs(once, ClearSession, ClearSession, ClearSession);
      var again := Handle(once.draft, once.session, input);
      if again != [] { PrefixPerforms(once, again, 0); }
    }
  }

  /** A handler stopped after any number of its writes, the last one included, and run again
      for the same input ends where one uninterrupted run would have, if and only if it was
      stopped before its last write or the input is repeatable. */
  lemma RetriesConverge(d: Desk, input: Input, k: nat)
    requires Tidy(d.draft) && k <= |Handle(d.draft, d.session, input)|
    ensures Handled(Perform(d, Handle(d.draft, d.session, input)[..k]), input) == Handled(d, input)
            <==> k < |Handle(d.draft, d.session, input)| || Repeatable(d, input)
  {
    hide Handle;
    hide Tidy;
    hide Repeatable;
    hide Perform;
    var effects := Handle(d.draft, d.session, input);
    if k < |effects| {
      CutShortConverges(d, input, k);
    } else {
      assert effects[..k] == effects;
      if input.Text? { TextFinishedAgain(d, input); }
      else if input.FieldRequired? { FieldFinishedAgain(d, input.required, input.base); }
      else { EditFinishedAgain(d, input); }
    }
  }

  // Redeliveries ------------------------------------------------------------------------------------

  /** A stored session carries the event it was last saved under; a cleared one carries none. */
  function Stamp(stamp: Option<string>, effects: seq<Effect>, event: string): Option<string> {
    if effects == [] then stamp
    else
      match effects[|effects| - 1]
      case SetSession(_) => Some(event)
      case ClearSession => None
      case WriteDraft(_) => Stamp(stamp, effects[..|effects| - 1], event)
  }

  predicate Message(input: Input) {
    input.Text? || input.Slash?
  }

  /** One delivery of an event. A message whose event the session already carries is answered
      without being handled; a button press is handled again until its claim is completed. */
  ghost function Delivered(d: Desk, stamp: Option<string>, input: Input, event: string): Desk {
    if Message(input) && stamp == Some(event) then d else Handled(d, input)
  }

  /** A new service is remembered in the session before it is written. */
  ghost predicate RemembersFirst(d: Desk, input: Input) {
    input.Text? && d.session.AddingService? && |ServiceSaved(d.draft, d.session, input.text, input.base)| == 3
  }

  lemma TextStamps(d: Desk, stamp: Option<string>, input: Input, event: string, k: nat)
    requires input.Text? && stamp != Some(event) && k <= |Handle(d.draft, d.session, input)|
    ensures var effects := Handle(d.draft, d.session, input);
            Stamp(stamp, effects[..k], event) == Some(event) <==>
            if k < |effects| then k > 0 && RemembersFirst(d, input) else k > 0 && effects[k - 1].SetSession?
  {
    hide SlugOf;
    hide Trim;
    hide Strip;
    hide Reprompted;
    var effects := Handle(d.draft, d.session, input);
    var part := effects[..k];
    if k > 0 { assert part[k - 1] == effects[k - 1] && part[..k - 1] == effects[..k - 1]; }
    if k == 1 { assert part[..0] == []; }
    if k == 2 { assert part[..1][0] == effects[0] && part[..1][..0] == []; }
    if k == 3 { assert effects[2] == ClearSession; }
  }

  /** A slash command is stamped by its last write only, and may be handled again. */
  lemma SlashStamps(d: Desk, stamp: Option<string>, input: Input, event: string, k: nat)
    requires input.Slash? && stamp != Some(event) && k <= |Handle(d.draft, d.session, input)|
    ensures k < |Handle(d.draft, d.session, input)| ==> Stamp(stamp, Handle(d.draft, d.session, input)[..k], event) != Some(event)
    ensures Repeatable(d, input) && !RemembersFirst(d, input)
  {
  }

  lemma RememberedIsOpen(d: Desk, input: Input, k: nat)
    requires RemembersFirst(d, input) && 0 < k < 3
    ensures Perform(d, Handle(d.draft, d.session, input)[..k]) != Handled(d, input)
  {
    hide SlugOf;
    hide Trim;
    hide Perform;
    PrefixPerforms(d, Handle(d.draft, d.session, input), k);
  }

  /** The same event delivered again after its handler stopped anywhere. A button press takes
      effect once if and only if it was stopped before its last write or is repeatable. A
      message takes effect once unless it named a new service and was stopped after the key
      was remembered: the session then counts as having handled it, and stays open. */
  lemma RedeliveriesConverge(d: Desk, stamp: Option<string>, input: Input, event: string, k: nat)
    requires Tidy(d.draft) && stamp != Some(event) && k <= |Handle(d.draft, d.session, input)|
    ensures var effects := Handle(d.draft, d.session, input);
            var half := Perform(d, effects[..k]);
            Delivered(half, Stamp(stamp, effects[..k], event), input, event) == Delivered(d, stamp, input, event)
            <==> if Message(input) then !(RemembersFirst(d, input) && 0 < k < 3) else k < |effects| || Repeatable(d, input)
  {
    hide Handle;
    hide Tidy;
    hide Perform;
    hide RemembersFirst;
    var effects := Handle(d.draft, d.session, input);
    RetriesConverge(d, input, k);
    if input.Slash? {
      SlashStamps(d, stamp, input, event, k);
      if k == |effects| { assert effects[..k] == effects; }
    } else if input.Text? {
      TextStamps(d, stamp, input, event, k);
      RemembersThree(d, input);
      if k == |effects| {
        assert effects[..k] == effects;
        if !Repeatable(d, input) { UnstampedTextIsRepeatable(d, input); }
      } else if RemembersFirst(d, input) && k > 0 {
        RememberedIsOpen(d, input, k);
      }
    }
  }

  lemma RemembersThree(d: Desk, input: Input)
    ensures RemembersFirst(d, input) ==> |Handle(d.draft, d.session, input)| == 3
  {
  }

  /** Only answers that lead to a next question are not repeatable, and those stamp the session. */
  lemma UnstampedTextIsRepeatable(d: Desk, input: Input)
    requires input.Text? && !Repeatable(d, input)
    ensures var effects := Handle(d.draft, d.session, input); effects != [] && effects[|effects| - 1].SetSession?
  {
  }

  lemma RaisedOnce(a: ServiceCategory, b: ServiceCategory, c: ServiceCategory)
    requires a.key != c.key && b.key != c.key
    ensures Moved([a, b, c], CategoryKey, c.key, "up") == [a, c, b]
    ensures Moved([a, c, b], CategoryKey, c.key, "up") == [c, a, b]
  {
    var first, second := [a, b, c], [a, c, b];
    assert CategoryKey(first[0]) != c.key && CategoryKey(first[1]) != c.key && CategoryKey(first[2]) == c.key;
    assert Position(first, CategoryKey, c.key) == 2;
    assert CategoryKey(second[0]) != c.key && CategoryKey(second[1]) == c.key;
    assert Position(second, CategoryKey, c.key) == 1;
  }

  /** Inputs that take effect twice: the last of three services, moved up once, passes both
      neighbours on redelivery, and a redelivered toggle undoes itself. */
  lemma SomeTakeEffectTwice(d: Desk, a: ServiceCategory, b: ServiceCategory, c: ServiceCategory)
    requires d.draft.serviceCatalog.categories == [a, b, c] && a.key != c.key && b.key != c.key
    ensures var once := Handled(d, ServiceMove(c.key, "up"));
            && once == d.(draft := WithCategories(d.draft, [a, c, b]))
            && Handled(once, ServiceMove(c.key, "up")) == d.(draft := WithCategories(d.draft, [c, a, b]))
    ensures Handled(Handled(d, ServiceMultiSelect), ServiceMultiSelect) == d != Handled(d, ServiceMultiSelect)
  {
    hide Moved;
    hide Perform;
    RaisedOnce(a, b, c);
    OneWrite(d, ServiceMove(c.key, "up"), WithCategories(d.draft, [a, c, b]));
    var once := d.(draft := WithCategories(d.draft, [a, c, b]));
    OneWrite(once, ServiceMove(c.key, "up"), WithCategories(once.draft, [c, a, b]));
    var flipped := d.draft.(serviceCatalog := d.draft.serviceCatalog.(multiSelect := !d.draft.serviceCatalog.multiSelect));
    OneWrite(d, ServiceMultiSelect, flipped);
    OneWrite(d.(draft := flipped), ServiceMultiSelect, d.draft);
  }

  /** A new field is asked after every field there is. */
  lemma NewFieldIsAskedLast(p: PackDefinition, s: Session, key: string, required: bool)
    requires s.AddingField?
    ensures var field := NewField(p, s, key, required);
            OrderedFields(p.fields + [field]) == OrderedFields(p.fields) + [field]
  {
    var field := NewField(p, s, key, required);
    var all := p.fields + [field];
    OrderedFieldsSorts(p.fields);
    var shown := OrderedFields(p.fields);
    assert all[..|all| - 1] == p.fields;
    if shown != [] {
      var f := shown[|shown| - 1];
      assert f in multiset(p.fields);
      assert f.order <= MaxOrder(p.fields);
    }
  }

  // The coordinator --------------------------------------------------------------------------------

  /** One administrator at a time: each handler leaves exactly what its effects say. */
  class ConfigCoordinator {
    var draft: PackDefinition
    var session: Session

    ghost function Now(): Desk
      reads this
    {
      Desk(draft, session)
    }

    constructor (p: PackDefinition)
      ensures Now() == Desk(p, NoSession)
    {
      draft, session := p, NoSession;
    }

    method ServiceSave(text: string, base: string)
      requires session.AddingService?
      modifies this
      ensures Now() == Perform(old(Now()), ServiceSaved(old(draft), old(session), text, base))
    {
      hide Trim;
      ghost var start, effects := Now(), ServiceSaved(draft, session, text, base);
      var name := Trim(text, 120);
      if name == "" { return; }
      var catalog := draft.serviceCatalog;
      var key := session.itemKey;
      var taken := CategoryKeys(draft);
      if key in taken {
        session := NoSession;
        PrefixPerforms(start, effects, 0);
        return;
      }
      if key == "" || session.itemLabel != name {
        key := Slug(base, "service", taken);
        session := AddingService(key, name);
      }
      draft := WithCategories(draft, catalog.categories + [ServiceCategory(key, name)]);
      session := NoSession;
      PrefixPerforms(start, effects, 0);
    }

    method FieldType(t: FieldType)
      modifies this
      ensures Now() == Perform(old(Now()), Handle(old(draft), old(session), FieldTypeChosen(t)))
    {
      ghost var start, effects := Now(), Handle(draft, session, FieldTypeChosen(t));
      if !session.AddingField? { return; }
      var scratch := session.(fieldType := t);
      if t.Address? {
        var taken := exists i :: 0 <= i < |draft.fields| && draft.fields[i].key == "address";
        assert taken <==> "address" in FieldKeys(draft);
        if !taken { scratch := scratch.(key := "address"); }
      }
      session := scratch.(step := if t.Enum? then AwaitChoices else AwaitRequired);
      PrefixPerforms(start, effects, 0);
    }

    method FieldRequired(required: bool, base: string) returns (r: Result<()>)
      requires session.AddingField?
      modifies this
      ensures Now() == Perform(old(Now()), FieldSaved(old(draft), old(session), required, base))
      ensures r == if ClearSession in FieldSaved(old(draft), old(session), required, base) then Success(()) else Failure(ValueError)
    {
      hide MaxOrder;
      ghost var start, effects := Now(), FieldSaved(draft, session, required, base);
      if effects != [] { PrefixPerforms(start, effects, 0); }
      var key := session.key;
      if key == "" {
        key := Slug(base, "field", FieldKeys(draft));
        session := session.(key := key);
      }
      if key in FieldKeys(draft) {
        session := NoSession;
        return Success(());
      }
      var field := NewField(draft, session, key, required);
      if !FieldFormed(field) { return Failure(ValueError); }
      draft := draft.(fields := draft.fields + [field]);
      session := NoSession;
      r := Success(());
    }

    method FieldMove(key: string, direction: string)
      modifies this
      ensures Now() == Perform(old(Now()), Handle(old(draft), old(session), Input.FieldMove(key, direction)))
      ensures OrderedFields(draft.fields) == draft.fields
    {
      hide OrderedFields;
      hide Renumbered;
      hide Moved;
      hide Perform;
      ghost var start, effects := Now(), Handle(draft, session, Input.FieldMove(key, direction));
      var shown := OrderedFields(draft.fields);
      var moved := MoveItem(shown, FieldKey, key, direction);
      MoveIsWhatIsShown(draft.fields, key, direction);
      draft := draft.(fields := Renumbered(moved));
      PrefixPerforms(start, effects, 0);
    }

    method RoleLabelSave(text: string)
      requires session.NamingRole?
      modifies this
      ensures Now() == Perform(old(Now()), RoleSaved(old(draft), old(session).role, text))
    {
      hide Trim;
      ghost var start, effects := Now(), RoleSaved(draft, session.role, text);
      var role := session.role;
      if role !in DEFAULT_ROLE_LABELS {
        session := NoSession;
        PrefixPerforms(start, effects, 0);
        return;
      }
      var name := Trim(text, 80);
      if name == "-" { name := DEFAULT_ROLE_LABELS[role]; }
      if name == "" { return; }
      draft := draft.(roleLabels := draft.roleLabels[role := name]);
      session := NoSession;
      PrefixPerforms(start, effects, 0);
    }
  }

  // Interleaved editors ----------------------------------------------------------------------------

  /** The store, every administrator's session, and the handlers in flight: what each has
      read and which of its effects are still to come. */
  datatype World = World(
    book: PackStore.Book,
    sessions: map<nat, Session>,
    read: map<nat, (nat, Session)>,
    pending: map<nat, (nat, seq<Effect>)>)

  const START := World(PackStore.BLANK_BOOK, map[], map[], map[])

  datatype Action =
    | Store(a: PackStore.Action)
    | Receive(worker: nat, admin: nat)
    | Think(worker: nat, input: Input)
    | Land(worker: nat)
    | Crash(worker: nat)

  /** Drafts are seeded with the active edition, an industry pack or the blank pack, and
      written only by handlers. */
  predicate Proper(a: Action) {
    match a
    case Store(Bootstrap(seed)) => Formed(seed) && DistinctFields(seed.fields)
    case Store(EnsureDraft(seed)) => Formed(seed) && DistinctFields(seed.fields)
    case Store(UpdateDraft(_)) => false
    case _ => true
  }

  function SessionOf(w: World, admin: nat): Session {
    if admin in w.sessions then w.sessions[admin] else NoSession
  }

  function Landed(w: World, admin: nat, e: Effect): World {
    match e
    case SetSession(s) => w.(sessions := w.sessions[admin := s])
    case ClearSession => w.(sessions := w.sessions - {admin})
    case WriteDraft(p) => w.(book := PackStore.Next(w.book, PackStore.UpdateDraft(p)))
  }

  ghost function Next(w: World, a: Action): World {
    match a
    case Store(b) => w.(book := PackStore.Next(w.book, b))
    case Receive(worker, admin) => w.(read := w.read[worker := (admin, SessionOf(w, admin))])
    case Think(worker, input) =>
      if worker in w.read && w.book.draft.Some? then
        var (admin, session) := w.read[worker];
        w.(pending := w.pending[worker := (admin, Handle(w.book.draft.value, session, input))])
      else w
    case Land(worker) =>
      if worker in w.pending && w.pending[worker].1 != [] then
        var (admin, effects) := w.pending[worker];
        Landed(w.(pending := w.pending[worker := (admin, effects[1..])]), admin, effects[0])
      else w
    case Crash(worker) => w.(read := w.read - {worker}, pending := w.pending - {worker})
  }

  ghost function Run(schedule: seq<Action>): World {
    if schedule == [] then START else Next(Run(schedule[..|schedule| - 1]), schedule[|schedule| - 1])
  }

  ghost predicate TidyBook(b: PackStore.Book) {
    (forall p :: p in b.published ==> Tidy(p)) && (b.draft.Some? ==> Tidy(b.draft.value))
  }

  ghost predicate TidyWorld(w: World) {
    TidyBook(w.book) && forall worker :: worker in w.pending ==> WritesTidy(w.pending[worker].1)
  }

  lemma StoreKeepsTidy(b: PackStore.Book, a: PackStore.Action)
    requires TidyBook(b) && (a.UpdateDraft? ==> Tidy(a.definition))
    requires (a.Bootstrap? || a.EnsureDraft?) ==> Formed(a.seed) && DistinctFields(a.seed.fields)
    ensures TidyBook(PackStore.Next(b, a))
  {
    hide PackStore.Publishable;
    hide Formed;
    hide DistinctFields;
    match a {
      case Bootstrap(p) => PackStore.FillingKeepsForm(p);
      case EnsureDraft(p) => PackStore.FillingKeepsForm(p);
      case UpdateDraft(p) => PackStore.FillingKeepsForm(p);
      case _ =>
    }
  }

  lemma NextKeepsTidy(w: World, a: Action)
    requires TidyWorld(w) && Proper(a)
    ensures TidyWorld(Next(w, a))
  {
    hide Handle;
    hide Tidy;
    hide PackStore.Next;
    match a {
      case Store(b) => StoreKeepsTidy(w.book, b);
      case Think(worker, input) =>
        if worker in w.read && w.book.draft.Some? {
          HandlersStayTidy(w.book.draft.value, w.read[worker].1, input);
        }
      case Land(worker) =>
        if worker in w.pending && w.pending[worker].1 != [] {
          var effects := w.pending[worker].1;
          assert WritesTidy(effects);
          if effects[0].WriteDraft? { StoreKeepsTidy(w.book, PackStore.UpdateDraft(effects[0].draft)); }
          assert WritesTidy(effects[1..]);
        }
      case _ =>
    }
  }

  /** However many administrators edit, publish, discard and restore at once, on stale reads,
      with handlers crashing between any two writes, every edition and the draft have
      distinct service keys, distinct field keys and a label for every role. */
  lemma {:induction false} EditionsStayTidy(schedule: seq<Action>)
    requires forall i :: 0 <= i < |schedule| ==> Proper(schedule[i])
    ensures TidyWorld(Run(schedule))
  {
    hide Proper;
    if schedule != [] {
      EditionsStayTidy(schedule[..|schedule| - 1]);
      NextKeepsTidy(Run(schedule[..|schedule| - 1]), schedule[|schedule| - 1]);
    }
  }
}
