/** What the administrator's dialogues come to: the edition that a whole flow of answers
    leaves, and that no button changes more than it names. */
module EditorFlows {
  import opened Prelude
  import opened Domain
  import opened Catalog
  import opened Drafts
  import opened ConfigEditor

  // Adding -------------------------------------------------------------------------------------

  /** The dialogue for a new field: its label, its type, for an enumeration its choices, and
      whether it is required. */
  ghost function FieldDialogue(d: Desk, caption: string, base: string, t: FieldType, values: seq<string>, required: bool, again: string): Desk {
    var typed := Handled(Handled(Handled(d, FieldAdd), Input.Text(caption, base, [])), FieldTypeChosen(t));
    Handled(if t.Enum? then Handled(typed, Input.Text("", "", values)) else typed, FieldRequired(required, again))
  }

  lemma FieldIsAsked(d: Desk, caption: string, base: string, t: FieldType)
    requires Trim(caption, 120) != ""
    ensures var d' := Handled(Handled(Handled(d, FieldAdd), Input.Text(caption, base, [])), FieldTypeChosen(t));
            && d'.draft == d.draft && d'.session.AddingField?
            && d'.session == AddingField(if t.Enum? then AwaitChoices else AwaitRequired, Trim(caption, 120), d'.session.key, t, [])
            && d'.session.key != "" && d'.session.key !in FieldKeys(d.draft)
            && (t.Address? && "address" !in FieldKeys(d.draft) ==> d'.session.key == "address")
  {
    hide Trim;
    var d1 := Handled(d, FieldAdd);
    var a := SetSession(AddingField(AwaitLabel, "", "", FieldType.Text, []));
    Performs(d, a, a, a);
    var key := SlugOf(base, "field", FieldKeys(d.draft));
    var b := SetSession(AddingField(AwaitType, Trim(caption, 120), key, FieldType.Text, []));
    Performs(d1, b, b, b);
    var d2 := Handled(d1, Input.Text(caption, base, []));
    var c := SetSession(TypeChosen(d.draft, d2.session, t));
    Performs(d2, c, c, c);
  }

  /** Whatever key the label leads to, the dialogue adds exactly one field, after all others, with
      the label, the type, the choices and the obligation that were given. */
  lemma FieldIsAdded(d: Desk, caption: string, base: string, t: FieldType, values: seq<string>, required: bool, again: string)
    requires Trim(caption, 120) != "" && (t.Enum? ==> 2 <= |values| <= 20)
    ensures var d', n := FieldDialogue(d, caption, base, t, values, required, again), |d.draft.fields|;
            && d'.session == NoSession && d'.draft == d.draft.(fields := d'.draft.fields)
            && |d'.draft.fields| == n + 1 && d'.draft.fields[..n] == d.draft.fields
            && var f := d'.draft.fields[n];
            && f.caption == Trim(caption, 120) && f.fieldType == t && f.required == required
            && f.choices == (if t.Enum? then values else []) && f.prompt == "Введите: " + f.caption
            && f.key != "" && f.key !in FieldKeys(d.draft) && (t.Address? && "address" !in FieldKeys(d.draft) ==> f.key == "address")
            && forall g :: g in d.draft.fields ==> g.order < f.order
  {
    hide Trim;
    hide Perform;
    var typed := Handled(Handled(Handled(d, FieldAdd), Input.Text(caption, base, [])), FieldTypeChosen(t));
    FieldIsAsked(d, caption, base, t);
    var ready := if t.Enum? then Handled(typed, Input.Text("", "", values)) else typed;
    var chosen := SetSession(typed.session.(choices := values, step := AwaitRequired));
    Performs(typed, chosen, chosen, chosen);
    var field := NewField(d.draft, ready.session, ready.session.key, required);
    var write := WriteDraft(d.draft.(fields := d.draft.fields + [field]));
    assert FieldFormed(field);
    assert Handle(ready.draft, ready.session, FieldRequired(required, again)) == [write, ClearSession];
    Performs(ready, write, ClearSession, ClearSession);
  }

  /** The dialogue for a new service adds exactly one service, last, with the label that was given. */
  lemma ServiceIsAdded(d: Desk, caption: string, base: string)
    requires Tidy(d.draft) && Trim(caption, 120) != ""
    ensures var d', n := Handled(Handled(d, ServiceAdd), Input.Text(caption, base, [])), |d.draft.serviceCatalog.categories|;
            var categories := d'.draft.serviceCatalog.categories;
            && d'.session == NoSession && d'.draft == WithCategories(d.draft, categories)
            && |categories| == n + 1 && categories[..n] == d.draft.serviceCatalog.categories
            && categories[n].caption == Trim(caption, 120) && categories[n].key != "" && categories[n].key !in CategoryKeys(d.draft)
  {
    hide Trim;
    hide Perform;
    var p, d1, name := d.draft, Handled(d, ServiceAdd), Trim(caption, 120);
    var a := SetSession(AddingService("", ""));
    Performs(d, a, a, a);
    var key := SlugOf(base, "service", CategoryKeys(p));
    var write := WriteDraft(WithCategories(p, p.serviceCatalog.categories + [ServiceCategory(key, name)]));
    assert d1 == Desk(p, AddingService("", ""));
    assert "" !in CategoryKeys(p);
    assert Handle(p, d1.session, Input.Text(caption, base, [])) == [SetSession(AddingService(key, name)), write, ClearSession];
    Performs(d1, SetSession(AddingService(key, name)), write, ClearSession);
  }

  // Editing ------------------------------------------------------------------------------------

  /** What a text stands for: a dash leaves the entry empty. */
  function Entered(text: string, limit: nat): string {
    if Strip(text) == "-" then "" else Trim(text, limit)
  }

  /** Three answers edit the three parts of the brand and nothing else. */
  lemma BrandIsEdited(d: Desk, name: string, greeting: string, support: string)
    requires Entered(name, 120) != ""
    ensures var d' := Handled(Handled(Handled(Handled(d, Brand), Input.Text(name, "", [])), Input.Text(greeting, "", [])), Input.Text(support, "", []));
            && d'.session == NoSession && d'.draft == d.draft.(branding := d'.draft.branding)
            && d'.draft.branding.name == Entered(name, 120)
            && d'.draft.branding.greeting == Entered(greeting, 500) && d'.draft.branding.support == Entered(support, 500)
  {
    hide Trim;
    hide Strip;
    hide Perform;
    var p := d.draft;
    var d1, start := Handled(d, Brand), SetSession(EditingBrand(BrandName));
    Performs(d, start, start, start);
    var d2, one := Handled(d1, Input.Text(name, "", [])), WriteDraft(p.(branding := p.branding.(name := Entered(name, 120))));
    Performs(d1, one, SetSession(EditingBrand(BrandGreeting)), start);
    var d3, two := Handled(d2, Input.Text(greeting, "", [])), WriteDraft(d2.draft.(branding := d2.draft.branding.(greeting := Entered(greeting, 500))));
    Performs(d2, two, SetSession(EditingBrand(BrandSupport)), start);
    var three := WriteDraft(d3.draft.(branding := d3.draft.branding.(support := Entered(support, 500))));
    Performs(d3, three, ClearSession, start);
  }

  /** Naming a role changes the label of that role only; a dash brings its default back, and an
      empty answer leaves the question open. */
  lemma RoleIsNamed(d: Desk, role: string, text: string)
    requires role in DEFAULT_ROLE_LABELS
    ensures var d' := Handled(Handled(d, RoleLabel(role)), Input.Text(text, "", []));
            && d'.draft == d.draft.(roleLabels := d'.draft.roleLabels)
            && if Trim(text, 80) == "" then d'.draft == d.draft && d'.session == NamingRole(role)
               else
                 && d'.session == NoSession && role in d'.draft.roleLabels
                 && d'.draft.roleLabels[role] == (if Trim(text, 80) == "-" then DEFAULT_ROLE_LABELS[role] else Trim(text, 80))
                 && forall other :: other != role ==>
                      (other in d'.draft.roleLabels <==> other in d.draft.roleLabels)
                      && (other in d.draft.roleLabels ==> d'.draft.roleLabels[other] == d.draft.roleLabels[other])
  {
    hide Trim;
    hide Perform;
    var d1, start := Handled(d, RoleLabel(role)), SetSession(NamingRole(role));
    Performs(d, start, start, start);
    var chosen := if Trim(text, 80) == "-" then DEFAULT_ROLE_LABELS[role] else Trim(text, 80);
    Performs(d1, WriteDraft(d.draft.(roleLabels := d.draft.roleLabels[role := chosen])), ClearSession, start);
  }

  /** Editing a prompt changes the prompt of that field only. */
  lemma PromptIsEdited(d: Desk, key: string, text: string)
    requires key in FieldKeys(d.draft)
    ensures var d' := Handled(Handled(d, FieldPrompt(key)), Input.Text(text, "", []));
            && d'.session == NoSession && d'.draft == d.draft.(fields := d'.draft.fields) && |d'.draft.fields| == |d.draft.fields|
            && forall i :: 0 <= i < |d.draft.fields| ==>
                 d'.draft.fields[i] == if d.draft.fields[i].key == key then d.draft.fields[i].(prompt := Entered(text, 500)) else d.draft.fields[i]
  {
    hide Trim;
    hide Strip;
    hide Perform;
    var d1, start := Handled(d, FieldPrompt(key)), SetSession(Prompting(key));
    Performs(d, start, start, start);
    var fields := Reprompted(d.draft.fields, key, Entered(text, 500));
    Performs(d1, WriteDraft(d.draft.(fields := fields)), ClearSession, start);
    Performs(d1, ClearSession, start, start);
    assert Handle(d1.draft, d1.session, Input.Text(text, "", []))
        == if fields == d.draft.fields then [ClearSession] else [WriteDraft(d.draft.(fields := fields)), ClearSession];
  }

  /** Deleting and moving change the list they name and nothing else, as they say. */
  lemma ListButtonsEditTheirPart(d: Desk, key: string, direction: string)
    ensures var d' := Handled(d, ServiceDelete(key));
            && d'.session == d.session && d'.draft == WithCategories(d.draft, d'.draft.serviceCatalog.categories)
            && forall c :: c in d'.draft.serviceCatalog.categories <==> c in d.draft.serviceCatalog.categories && c.key != key
    ensures var d' := Handled(d, FieldDelete(key));
            && d'.session == d.session && d'.draft == d.draft.(fields := d'.draft.fields)
            && forall f :: f in d'.draft.fields <==> f in d.draft.fields && f.key != key
    ensures var d' := Handled(d, ServiceMove(key, direction));
            && d'.session == d.session && d'.draft == WithCategories(d.draft, d'.draft.serviceCatalog.categories)
            && multiset(d'.draft.serviceCatalog.categories) == multiset(d.draft.serviceCatalog.categories)
  {
    hide Perform;
    hide Moved;
    var p := d.draft;
    Edits(d, WithCategories(p, Without(p.serviceCatalog.categories, CategoryKey, key)));
    Edits(d, p.(fields := Without(p.fields, FieldKey, key)));
    Edits(d, WithCategories(p, Moved(p.serviceCatalog.categories, CategoryKey, key, direction)));
    MovePermutes(p.serviceCatalog.categories, CategoryKey, key, direction);
  }

  /** A switch changes the setting it names, by one step or to its opposite, and no other. */
  lemma SwitchesEditTheirPart(d: Desk, change: EvidenceChange, mode: PoolMode)
    ensures var d' := Handled(d, ServiceMultiSelect);
            && d'.session == d.session && WithMulti(d'.draft, d.draft.serviceCatalog.multiSelect) == d.draft
            && d'.draft.serviceCatalog.multiSelect != d.draft.serviceCatalog.multiSelect
    ensures var d' := Handled(d, ChoosePoolMode(mode)); d'.session == d.session && d'.draft == d.draft.(defaultPoolMode := mode)
    ensures var d', e := Handled(d, ChangeEvidence(change)), d.draft.evidence;
            var e' := d'.draft.evidence;
            && d'.session == d.session && d'.draft == d.draft.(evidence := e')
            && (e'.minimumPhotos > e.minimumPhotos ==> change.MorePhotos? && e'.minimumPhotos == e.minimumPhotos + 1)
            && (e'.minimumPhotos < e.minimumPhotos && e.minimumPhotos <= 10 ==> change.FewerPhotos? && e'.minimumPhotos == e.minimumPhotos - 1)
            && (e'.minimumPhotos == e.minimumPhotos && change.MorePhotos? ==> e.minimumPhotos == 10)
            && (e'.minimumPhotos == e.minimumPhotos && change.FewerPhotos? ==> e.minimumPhotos == 0)
            && (e'.comment != e.comment <==> change.ToggleComment?)
            && (e'.signature != e.signature <==> change.ToggleSignature?)
            && (e'.customerCode != e.customerCode <==> change.ToggleCode?)
  {
    hide Perform;
    var p := d.draft;
    Edits(d, WithMulti(p, !p.serviceCatalog.multiSelect));
    Edits(d, p.(defaultPoolMode := mode));
    Edits(d, p.(evidence := EvidenceChanged(p.evidence, change)));
  }

  function WithMulti(p: PackDefinition, multi: bool): PackDefinition {
    p.(serviceCatalog := p.serviceCatalog.(multiSelect := multi))
  }

  lemma Edits(d: Desk, p: PackDefinition)
    ensures Perform(d, [WriteDraft(p)]) == d.(draft := p)
  {
    var write := WriteDraft(p);
    Performs(d, write, write, write);
  }
}
