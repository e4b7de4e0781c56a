/** Where a submitted form comes from: every entry is what the client said, chose or pointed
    at when asked for it, and every field of the edition was answered or skipped. */
module FormSources {
  import opened Prelude
  import opened Catalog
  import opened Intake

  /** The text skips an optional field. */
  predicate Skips(text: string) {
    Trim(text, 500) == "" || Trim(text, 500) == "-"
  }

  /** What a text means as the answer to a field. */
  predicate Means(t: Texts, f: FieldDefinition, text: string, value: string) {
    match f.fieldType
    case Integer => t.parseInt(text) == Some(value)
    case Enum => value in f.choices && t.fold(value) == t.fold(text)
    case _ => value == text
  }

  function Spot(address: string, point: string): string {
    if Trim(address, 500) != "" then Trim(address, 500) else "Точка на карте: " + point
  }

  /** The text of a message or of a pressed choice. */
  function TextOf(input: Input): Option<string> {
    match input case Said(text) => Some(text) case Choose(value) => Some(value) case _ => None
  }

  /** The message was handled in this form, pinned to this edition. */
  predicate InForm(h: Heard, id: string, version: nat) {
    h.session.Some? && h.session.value.submissionId == id && h.session.value.packVersion == version
  }

  /** The form was asking for this field. */
  predicate Asking(p: PackDefinition, s: State, f: FieldDefinition) {
    var fields := OrderedFields(p.fields);
    s.step == AskFields && s.fieldIndex < |fields| && fields[s.fieldIndex] == f
  }

  /** The message gave this entry when the form asked for it. */
  ghost predicate Gave(t: Texts, p: PackDefinition, h: Heard, id: string, version: nat, k: string, value: string) {
    && InForm(h, id, version)
    && match h.session.value.step
       case AskPhone => k == "phone" && h.input.Said? && value == Trim(h.input.text, 500)
       case AskAddress =>
         && k == "address"
         && ((h.input.Said? && value == Trim(h.input.text, 500)) || (h.input.Point? && h.input.valid && value == Spot(h.input.address, h.input.point)))
       case AskFields =>
         && TextOf(h.input).Some? && !Skips(TextOf(h.input).value)
         && exists f :: Asking(p, h.session.value, f) && f.key == k && Means(t, f, Trim(TextOf(h.input).value, 500), value)
       case _ => false
  }

  predicate Skipped(p: PackDefinition, h: Heard, id: string, version: nat, f: FieldDefinition) {
    InForm(h, id, version) && Asking(p, h.session.value, f) && !f.required && TextOf(h.input).Some? && Skips(TextOf(h.input).value)
  }

  predicate Picked(h: Heard, id: string, version: nat, key: string) {
    InForm(h, id, version) && h.input == Pick(key)
  }

  predicate Pointed(h: Heard, id: string, version: nat, point: string) {
    InForm(h, id, version) && h.session.value.step == AskAddress && h.input.Point? && h.input.valid && h.input.point == point
  }

  ghost predicate EntryFrom(t: Texts, p: PackDefinition, heard: seq<Heard>, id: string, version: nat, k: string, value: string) {
    exists n :: 0 <= n < |heard| && Gave(t, p, heard[n], id, version, k, value)
  }

  ghost predicate SkipFrom(p: PackDefinition, heard: seq<Heard>, id: string, version: nat, f: FieldDefinition) {
    exists n :: 0 <= n < |heard| && Skipped(p, heard[n], id, version, f)
  }

  ghost predicate ChoiceFrom(heard: seq<Heard>, id: string, version: nat, key: string) {
    exists n :: 0 <= n < |heard| && Picked(heard[n], id, version, key)
  }

  ghost predicate PlaceFrom(heard: seq<Heard>, id: string, version: nat, point: string) {
    exists n :: 0 <= n < |heard| && Pointed(heard[n], id, version, point)
  }

  ghost predicate EntriesSourced(t: Texts, p: PackDefinition, heard: seq<Heard>, s: State) {
    forall k :: k in s.fieldValues ==> EntryFrom(t, p, heard, s.submissionId, s.packVersion, k, s.fieldValues[k])
  }

  ghost predicate ChoicesSourced(heard: seq<Heard>, s: State) {
    && (forall k :: k in s.selected ==> ChoiceFrom(heard, s.submissionId, s.packVersion, k))
    && (s.location.Some? ==> PlaceFrom(heard, s.submissionId, s.packVersion, s.location.value))
  }

  /** How many fields the form is past. */
  function Past(p: PackDefinition, s: State): nat {
    match s.step case AskFields => s.fieldIndex case AwaitConfirm => |p.fields| case _ => 0
  }

  /** The field was answered, or the client skipped it. */
  ghost predicate Settled(p: PackDefinition, heard: seq<Heard>, s: State, f: FieldDefinition) {
    f.key in s.fieldValues || SkipFrom(p, heard, s.submissionId, s.packVersion, f)
  }

  ghost predicate FieldsSettled(p: PackDefinition, heard: seq<Heard>, s: State) {
    var fields := OrderedFields(p.fields);
    forall j :: 0 <= j < Past(p, s) && j < |fields| ==> Settled(p, heard, s, fields[j])
  }

  ghost predicate Sourced(t: Texts, p: PackDefinition, heard: seq<Heard>, s: State) {
    EntriesSourced(t, p, heard, s) && ChoicesSourced(heard, s) && FieldsSettled(p, heard, s)
  }

  // One message --------------------------------------------------------------------------------

  /** What was heard stays heard. */
  lemma StillSourced(t: Texts, p: PackDefinition, heard: seq<Heard>, h: Heard, s: State)
    requires Sourced(t, p, heard, s)
    ensures Sourced(t, p, heard + [h], s)
  {
    hide Gave;
    hide Skipped;
    hide Picked;
    hide Pointed;
    hide OrderedFields;
    var id, version, more := s.submissionId, s.packVersion, heard + [h];
    forall k | k in s.fieldValues ensures EntryFrom(t, p, more, id, version, k, s.fieldValues[k]) {
      var n :| 0 <= n < |heard| && Gave(t, p, heard[n], id, version, k, s.fieldValues[k]);
      assert more[n] == heard[n];
    }
    forall k | k in s.selected ensures ChoiceFrom(more, id, version, k) {
      var n :| 0 <= n < |heard| && Picked(heard[n], id, version, k);
      assert more[n] == heard[n];
    }
    if s.location.Some? {
      var n :| 0 <= n < |heard| && Pointed(heard[n], id, version, s.location.value);
      assert more[n] == heard[n];
    }
    forall f | SkipFrom(p, heard, id, version, f) ensures SkipFrom(p, more, id, version, f) {
      var n :| 0 <= n < |heard| && Skipped(p, heard[n], id, version, f);
      assert more[n] == heard[n];
    }
  }

  lemma EntryGiven(t: Texts, p: PackDefinition, heard: seq<Heard>, h: Heard, s: State, s': State, k: string, value: string)
    requires EntriesSourced(t, p, heard + [h], s) && Gave(t, p, h, s.submissionId, s.packVersion, k, value)
    requires s'.submissionId == s.submissionId && s'.packVersion == s.packVersion && s'.fieldValues == s.fieldValues[k := value]
    ensures EntriesSourced(t, p, heard + [h], s')
  {
    hide Gave;
    assert (heard + [h])[|heard|] == h;
  }

  lemma PhoneSourced(t: Texts, p: PackDefinition, heard: seq<Heard>, s: State, id: string, text: string)
    requires Sourced(t, p, heard, s) && s.step == AskPhone
    ensures Sourced(t, p, heard + [Heard(Some(s), id, Said(text))], PhoneFilled(s, text))
  {
    hide OrderedFields;
    hide Trim;
    hide Dense;
    var h := Heard(Some(s), id, Said(text));
    StillSourced(t, p, heard, h, s);
    if PhoneFilled(s, text) != s { EntryGiven(t, p, heard, h, s, PhoneFilled(s, text), "phone", Trim(text, 500)); }
  }

  lemma AddressSourced(t: Texts, p: PackDefinition, heard: seq<Heard>, s: State, id: string, text: string)
    requires Sourced(t, p, heard, s) && s.step == AskAddress
    ensures Sourced(t, p, heard + [Heard(Some(s), id, Said(text))], AddressFilled(s, text))
  {
    hide OrderedFields;
    hide Trim;
    var h := Heard(Some(s), id, Said(text));
    StillSourced(t, p, heard, h, s);
    if AddressFilled(s, text) != s { EntryGiven(t, p, heard, h, s, AddressFilled(s, text), "address", Trim(text, 500)); }
  }

  lemma SpotSourced(t: Texts, p: PackDefinition, heard: seq<Heard>, s: State, id: string, address: string, point: string)
    requires Sourced(t, p, heard, s) && s.step == AskAddress
    ensures Sourced(t, p, heard + [Heard(Some(s), id, Point(true, address, point))], Located(s, address, point))
  {
    hide OrderedFields;
    hide Trim;
    var h := Heard(Some(s), id, Point(true, address, point));
    StillSourced(t, p, heard, h, s);
    assert (heard + [h])[|heard|] == h && Pointed(h, s.submissionId, s.packVersion, point);
    EntryGiven(t, p, heard, h, s, Located(s, address, point), "address", Spot(address, point));
  }

  lemma FinishedSourced(t: Texts, p: PackDefinition, heard: seq<Heard>, s: State)
    requires Sourced(t, p, heard, s) && s.step != AskPhone && s.step != AskAddress
    ensures Sourced(t, p, heard, ServicesFinished(p, s))
  {
    hide EntryFrom;
    hide ChoiceFrom;
    hide PlaceFrom;
    hide SkipFrom;
    OrderedFieldsSorts(p.fields);
    hide OrderedFields;
  }

  lemma PickSourced(t: Texts, p: PackDefinition, heard: seq<Heard>, s: State, id: string, key: string)
    requires Sourced(t, p, heard, s) && s.step != AskPhone && s.step != AskAddress && NoRepeats(s.selected)
    ensures Sourced(t, p, heard + [Heard(Some(s), id, Pick(key))], ServicePicked(p, s, key))
  {
    hide OrderedFields;
    hide EntryFrom;
    hide PlaceFrom;
    hide SkipFrom;
    hide ServicesFinished;
    var h := Heard(Some(s), id, Pick(key));
    var more := heard + [h];
    StillSourced(t, p, heard, h, s);
    RemovedParts(s.selected, key);
    assert more[|heard|] == h && Picked(h, s.submissionId, s.packVersion, key);
    assert ChoiceFrom(more, s.submissionId, s.packVersion, key);
    if key in Offered(p) && !p.serviceCatalog.multiSelect {
      assert Sourced(t, p, more, s.(selected := [key]));
      FinishedSourced(t, p, more, s.(selected := [key]));
    }
  }

  lemma NormalizedMeans(t: Texts, f: FieldDefinition, text: string)
    requires Normalize(t, f, text).Some?
    ensures Means(t, f, text, Normalize(t, f, text).value)
  {
  }

  lemma AdvancedSettles(p: PackDefinition, heard: seq<Heard>, s: State, s': State, i: nat)
    requires s.step == AskFields && i <= |OrderedFields(p.fields)| && s' == Advanced(OrderedFields(p.fields), s, i)
    requires forall j :: 0 <= j < i ==> Settled(p, heard, s, OrderedFields(p.fields)[j])
    ensures FieldsSettled(p, heard, s')
  {
    hide SkipFrom;
    hide OrderedFields;
  }

  lemma FieldSourced(t: Texts, p: PackDefinition, heard: seq<Heard>, s: State, id: string, input: Input)
    requires Sourced(t, p, heard, s) && s.step == AskFields && s.fieldIndex < |OrderedFields(p.fields)| && TextOf(input).Some?
    ensures Sourced(t, p, heard + [Heard(Some(s), id, input)], FieldFilled(t, p, s, TextOf(input).value))
  {
    hide OrderedFields;
    hide Normalize;
    hide Advanced;
    hide EntryFrom;
    hide ChoiceFrom;
    hide PlaceFrom;
    hide Means;
    hide SkipFrom;
    var h, text, fields := Heard(Some(s), id, input), TextOf(input).value, OrderedFields(p.fields);
    var more, s', f, i := heard + [h], FieldFilled(t, p, s, text), fields[s.fieldIndex], s.fieldIndex + 1;
    StillSourced(t, p, heard, h, s);
    assert more[|heard|] == h && Asking(p, s, f);
    AdvanceKeeps(fields, s, i);
    if Skips(text) {
      if !f.required {
        SkippedNow(p, heard, h, s, f);
        AdvancedSettles(p, more, s, s', i);
      }
    } else if Normalize(t, f, Trim(text, 500)).Some? {
      var value := Normalize(t, f, Trim(text, 500)).value;
      var answered := s.(fieldValues := s.fieldValues[f.key := value]);
      NormalizedMeans(t, f, Trim(text, 500));
      assert Gave(t, p, h, s.submissionId, s.packVersion, f.key, value);
      AdvanceKeeps(fields, answered, i);
      EntryGiven(t, p, heard, h, s, s', f.key, value);
      forall j | 0 <= j < i ensures Settled(p, more, answered, fields[j]) {
        if j < s.fieldIndex { assert Settled(p, more, s, fields[j]); }
      }
      AdvancedSettles(p, more, answered, s', i);
    }
  }

  lemma SkippedNow(p: PackDefinition, heard: seq<Heard>, h: Heard, s: State, f: FieldDefinition)
    requires Skipped(p, h, s.submissionId, s.packVersion, f)
    ensures SkipFrom(p, heard + [h], s.submissionId, s.packVersion, f)
  {
    assert (heard + [h])[|heard|] == h;
  }

  lemma AdvanceKeeps(fields: seq<FieldDefinition>, s: State, i: nat)
    requires i <= |fields|
    ensures var s' := Advanced(fields, s, i);
            s'.fieldValues == s.fieldValues && s'.selected == s.selected && s'.location == s.location
            && s'.submissionId == s.submissionId && s'.packVersion == s.packVersion
  {
  }

  // Every run ----------------------------------------------------------------------------------

  /** A submission holds nothing but what the client gave, and misses only what the client skipped. */
  ghost predicate FromClient(t: Texts, p: PackDefinition, heard: seq<Heard>, sub: Submission) {
    && (forall k :: k in sub.fieldValues ==> EntryFrom(t, p, heard, sub.id, sub.packVersion, k, sub.fieldValues[k]))
    && (forall k :: k in sub.selected ==> ChoiceFrom(heard, sub.id, sub.packVersion, k))
    && (forall f :: f in p.fields ==> f.key in sub.fieldValues || SkipFrom(p, heard, sub.id, sub.packVersion, f))
    && (forall point :: "service_location" in sub.details && sub.details["service_location"] == Place(point) ==>
          PlaceFrom(heard, sub.id, sub.packVersion, point))
  }

  ghost predicate StateSourced(t: Texts, b: PackStore.Book, heard: seq<Heard>, s: State) {
    1 <= s.packVersion <= |b.published| ==> Sourced(t, b.published[s.packVersion - 1], heard, s)
  }

  ghost predicate EffectSourced(t: Texts, b: PackStore.Book, heard: seq<Heard>, e: Effect) {
    match e
    case Put(s) => StateSourced(t, b, heard, s)
    case Submit(sub) => 1 <= sub.packVersion <= |b.published| ==> FromClient(t, b.published[sub.packVersion - 1], heard, sub)
    case Clear => true
  }

  ghost predicate EffectsSourced(t: Texts, b: PackStore.Book, heard: seq<Heard>, effects: seq<Effect>) {
    forall i :: 0 <= i < |effects| ==> EffectSourced(t, b, heard, effects[i])
  }

  lemma SubmissionSourced(t: Texts, p: PackDefinition, heard: seq<Heard>, s: State)
    requires Sourced(t, p, heard, s) && s.step == AwaitConfirm
    ensures FromClient(t, p, heard, SubmissionOf(p, s))
  {
    hide EntryFrom;
    hide ChoiceFrom;
    hide PlaceFrom;
    hide SkipFrom;
    hide FieldsSettled;
    hide DetailsOf;
    hide Joined;
    EveryFieldSettled(p, heard, s);
    forall point { PlaceInDetails(p, s, point); }
  }

  lemma EveryFieldSettled(p: PackDefinition, heard: seq<Heard>, s: State)
    requires FieldsSettled(p, heard, s) && s.step == AwaitConfirm
    ensures forall f :: f in p.fields ==> f.key in s.fieldValues || SkipFrom(p, heard, s.submissionId, s.packVersion, f)
  {
    hide SkipFrom;
    OrderedFieldsSorts(p.fields);
    var fields := OrderedFields(p.fields);
    forall f | f in p.fields ensures f.key in s.fieldValues || SkipFrom(p, heard, s.submissionId, s.packVersion, f) {
      assert f in multiset(fields);
      var j :| 0 <= j < |fields| && fields[j] == f;
      assert Settled(p, heard, s, fields[j]);
    }
  }

  lemma PlaceInDetails(p: PackDefinition, s: State, point: string)
    ensures var d := DetailsOf(p, s); "service_location" in d && d["service_location"] == Place(point) ==> s.location == Some(point)
  {
  }

  lemma FreshIsSourced(t: Texts, b: PackStore.Book, heard: seq<Heard>, id: string)
    ensures EffectsSourced(t, b, heard, Started(b, id))
  {
  }

  lemma SteppedSourced(t: Texts, b: PackStore.Book, heard: seq<Heard>, s: State, id: string, input: Input)
    requires GoodState(t, b, s) && Sourced(t, b.published[s.packVersion - 1], heard, s) && (input.Point? ==> input.valid)
    ensures EffectsSourced(t, b, heard + [Heard(Some(s), id, input)], Stepped(t, b, b.published[s.packVersion - 1], s, id, input))
  {
    hide Sourced;
    hide FromClient;
    hide PhoneFilled;
    hide AddressFilled;
    hide Located;
    hide FieldFilled;
    hide ServicePicked;
    hide ServicesFinished;
    hide Answers;
    var p, h := b.published[s.packVersion - 1], Heard(Some(s), id, input);
    StillSourced(t, p, heard, h, s);
    KeepsVersion(t, p, s, input);
    match input {
      case Said(text) =>
        if s.step.AskPhone? { PhoneSourced(t, p, heard, s, id, text); }
        if s.step.AskAddress? { AddressSourced(t, p, heard, s, id, text); }
        if s.step.AskFields? { FieldSourced(t, p, heard, s, id, input); }
      case Choose(_) => if s.step.AskFields? { FieldSourced(t, p, heard, s, id, input); }
      case Point(_, address, point) =>
        if s.step.AskAddress? {
          SpotSourced(t, p, heard, s, id, address, point);
          LocatedKeepsVersion(s, address, point);
        }
      case Pick(key) => if !s.step.AskPhone? && !s.step.AskAddress? { PickSourced(t, p, heard, s, id, key); }
      case ServicesDone => if s.step.PickServices? { FinishedSourced(t, p, heard + [h], s); }
      case Confirm =>
        FreshIsSourced(t, b, heard + [h], id);
        if s.step.AwaitConfirm? { SubmissionSourced(t, p, heard + [h], s); }
      case _ =>
    }
  }

  lemma LocatedKeepsVersion(s: State, address: string, point: string)
    ensures Located(s, address, point).packVersion == s.packVersion
  {
  }

  ghost predicate SessionSourced(t: Texts, b: PackStore.Book, heard: seq<Heard>, session: Option<State>) {
    session.Some? ==> StateSourced(t, b, heard, session.value)
  }

  lemma HandleSourced(t: Texts, b: PackStore.Book, heard: seq<Heard>, session: Option<State>, id: string, input: Input)
    requires GoodSession(t, b, session) && SessionSourced(t, b, heard, session)
    ensures EffectsSourced(t, b, heard + [Heard(session, id, input)], Handle(t, b, session, id, input))
  {
    hide Stepped;
    hide Sourced;
    hide Good;
    hide Started;
    FreshIsSourced(t, b, heard + [Heard(session, id, input)], id);
    if session.Some? && (input.Point? ==> input.valid) { SteppedSourced(t, b, heard, session.value, id, input); }
  }

  ghost predicate WorldSourced(t: Texts, w: World) {
    && SessionSourced(t, w.book, w.heard, w.session)
    && (forall worker :: worker in w.read ==> SessionSourced(t, w.book, w.heard, w.read[worker]))
    && (forall worker :: worker in w.pending ==> EffectsSourced(t, w.book, w.heard, w.pending[worker]))
    && (forall i :: 0 <= i < |w.submitted| ==> EffectSourced(t, w.book, w.heard, Submit(w.submitted[i])))
  }

  /** More is heard and more editions appear; what had a source keeps it. */
  lemma StateStaysSourced(t: Texts, b: PackStore.Book, c: PackStore.Book, heard: seq<Heard>, h: Heard, s: State)
    requires GoodState(t, b, s) && StateSourced(t, b, heard, s) && b.published <= c.published
    ensures StateSourced(t, c, heard, s) && StateSourced(t, c, heard + [h], s)
  {
    hide Sourced;
    assert c.published[s.packVersion - 1] == b.published[s.packVersion - 1];
    StillSourced(t, b.published[s.packVersion - 1], heard, h, s);
  }

  lemma SubmissionStaysSourced(t: Texts, p: PackDefinition, heard: seq<Heard>, h: Heard, sub: Submission)
    requires FromClient(t, p, heard, sub)
    ensures FromClient(t, p, heard + [h], sub)
  {
    hide Gave;
    hide Skipped;
    hide Picked;
    hide Pointed;
    var id, version, more := sub.id, sub.packVersion, heard + [h];
    forall k | k in sub.fieldValues ensures EntryFrom(t, p, more, id, version, k, sub.fieldValues[k]) {
      var n :| 0 <= n < |heard| && Gave(t, p, heard[n], id, version, k, sub.fieldValues[k]);
      assert more[n] == heard[n];
    }
    forall k | k in sub.selected ensures ChoiceFrom(more, id, version, k) {
      var n :| 0 <= n < |heard| && Picked(heard[n], id, version, k);
      assert more[n] == heard[n];
    }
    forall point | PlaceFrom(heard, id, version, point) ensures PlaceFrom(more, id, version, point) {
      var n :| 0 <= n < |heard| && Pointed(heard[n], id, version, point);
      assert more[n] == heard[n];
    }
    forall f | SkipFrom(p, heard, id, version, f) ensures SkipFrom(p, more, id, version, f) {
      var n :| 0 <= n < |heard| && Skipped(p, heard[n], id, version, f);
      assert more[n] == heard[n];
    }
  }

  lemma EffectStaysSourced(t: Texts, b: PackStore.Book, c: PackStore.Book, heard: seq<Heard>, h: Heard, e: Effect)
    requires GoodEffect(t, b, e) && EffectSourced(t, b, heard, e) && b.published <= c.published
    ensures EffectSourced(t, c, heard, e) && EffectSourced(t, c, heard + [h], e)
  {
    hide Sourced;
    hide FromClient;
    hide Good;
    hide Complete;
    match e {
      case Put(s) => StateStaysSourced(t, b, c, heard, h, s);
      case Submit(sub) => SubmissionStaysSourced(t, b.published[sub.packVersion - 1], heard, h, sub);
      case Clear =>
    }
  }

  /** A world in which only the book grew, or one more message was heard, is as well sourced. */
  lemma WorldStaysSourced(t: Texts, w: World, w': World, h: Heard)
    requires GoodWorld(t, w) && WorldSourced(t, w) && w.book.published <= w'.book.published
    requires w'.heard == w.heard || w'.heard == w.heard + [h]
    requires w'.session == w.session && w'.read == w.read && w'.pending == w.pending && w'.submitted == w.submitted
    ensures WorldSourced(t, w')
  {
    hide EffectSourced;
    hide StateSourced;
    hide GoodState;
    hide GoodSubmission;
    if w.session.Some? { StateStaysSourced(t, w.book, w'.book, w.heard, h, w.session.value); }
    forall worker | worker in w.read ensures SessionSourced(t, w'.book, w'.heard, w.read[worker]) {
      assert GoodSession(t, w.book, w.read[worker]) && SessionSourced(t, w.book, w.heard, w.read[worker]);
      if w.read[worker].Some? { StateStaysSourced(t, w.book, w'.book, w.heard, h, w.read[worker].value); }
    }
    forall worker | worker in w.pending ensures EffectsSourced(t, w'.book, w'.heard, w.pending[worker]) {
      assert GoodEffects(t, w.book, w.pending[worker]) && EffectsSourced(t, w.book, w.heard, w.pending[worker]);
      forall i | 0 <= i < |w.pending[worker]| ensures EffectSourced(t, w'.book, w'.heard, w.pending[worker][i]) {
        EffectStaysSourced(t, w.book, w'.book, w.heard, h, w.pending[worker][i]);
      }
    }
    forall i | 0 <= i < |w.submitted| ensures EffectSourced(t, w'.book, w'.heard, Submit(w.submitted[i])) {
      assert GoodSubmission(t, w.book, w.submitted[i]) && EffectSourced(t, w.book, w.heard, Submit(w.submitted[i]));
      EffectStaysSourced(t, w.book, w'.book, w.heard, h, Submit(w.submitted[i]));
    }
  }

  lemma LandSourced(t: Texts, w: World, worker: nat)
    requires WorldSourced(t, w)
    ensures WorldSourced(t, Next(t, w, Land(worker)))
  {
    hide StateSourced;
    hide FromClient;
    if worker in w.pending && w.pending[worker] != [] {
      var effects := w.pending[worker];
      assert EffectsSourced(t, w.book, w.heard, effects) && EffectSourced(t, w.book, w.heard, effects[0]);
      forall i | 0 <= i < |effects[1..]| ensures EffectSourced(t, w.book, w.heard, effects[1..][i]) {
        assert EffectSourced(t, w.book, w.heard, effects[i + 1]);
      }
    }
  }

  lemma BooksGrow(b: PackStore.Book, a: PackStore.Action)
    ensures b.published <= PackStore.Next(b, a).published
  {
    hide PackStore.Publishable;
  }

  lemma NextSourced(t: Texts, w: World, a: Action)
    requires GoodWorld(t, w) && WorldSourced(t, w)
    ensures WorldSourced(t, Next(t, w, a))
  {
    hide GoodState;
    hide GoodEffect;
    hide StateSourced;
    hide EffectSourced;
    hide Handle;
    hide PackStore.Next;
    match a {
      case Admin(b) =>
        BooksGrow(w.book, b);
        WorldStaysSourced(t, w, Next(t, w, a), Heard(None, "", Start));
      case Think(worker, id, input) =>
        if worker in w.read {
          var h := Heard(w.read[worker], id, input);
          HandleSourced(t, w.book, w.heard, w.read[worker], id, input);
          WorldStaysSourced(t, w, w.(heard := w.heard + [h]), h);
        }
      case Land(worker) => LandSourced(t, w, worker);
      case _ =>
    }
  }

  lemma {:induction false} RunsAreSourced(t: Texts, schedule: seq<Action>)
    requires Honest(t)
    ensures WorldSourced(t, Run(t, schedule))
  {
    hide GoodWorld;
    hide WorldSourced;
    hide Next;
    if schedule == [] {
      NothingToSource(t);
    } else {
      RunsAreSourced(t, schedule[..|schedule| - 1]);
      RunKeepsGood(t, schedule[..|schedule| - 1]);
      NextSourced(t, Run(t, schedule[..|schedule| - 1]), schedule[|schedule| - 1]);
    }
  }

  lemma NothingToSource(t: Texts)
    ensures WorldSourced(t, START)
  {
  }

  /** Over any run, with handlers that overlap, crash and repeat and packs that change, whatever a
      submission holds was given by the client in that very form: phone, address and every answer
      when the form asked for it, every service by picking it, the place by pointing at it; and
      every field of the pinned edition was answered or skipped. */
  lemma SubmissionsComeFromTheClient(t: Texts, schedule: seq<Action>, i: nat)
    requires Honest(t) && i < |Run(t, schedule).submitted|
    ensures var w := Run(t, schedule);
            var sub := w.submitted[i];
            && 1 <= sub.packVersion <= |w.book.published|
            && FromClient(t, w.book.published[sub.packVersion - 1], w.heard, sub)
  {
    hide FromClient;
    hide Complete;
    RunsAreSourced(t, schedule);
    EverySubmissionIsComplete(t, schedule, i);
    assert EffectSourced(t, Run(t, schedule).book, Run(t, schedule).heard, Submit(Run(t, schedule).submitted[i]));
  }

  // What the form takes ------------------------------------------------------------------------

  lemma {:induction false} DenseCounts(v: string)
    ensures |Dense(v)| == |v| - multiset(v)[' '] - multiset(v)['-']
  {
    if v != "" {
      DenseCounts(v[1..]);
      assert v == [v[0]] + v[1..];
      assert multiset(v) == multiset([v[0]]) + multiset(v[1..]);
    }
  }

  /** A phone is taken exactly with seven characters apart from spaces and dashes, an address with
      five; the next step follows, and a place pointed at before is forgotten. */
  lemma ContactsAreTakenExactly(s: State, text: string)
    ensures var v, s' := Trim(text, 500), PhoneFilled(s, text);
            if |v| - multiset(v)[' '] - multiset(v)['-'] >= 7 then
              s'.step == AskAddress && s'.fieldValues == s.fieldValues["phone" := v] && s'.location == None
            else s' == s
    ensures var v, s' := Trim(text, 500), AddressFilled(s, text);
            if |v| >= 5 then s'.step == PickServices && s'.fieldValues == s.fieldValues["address" := v] && s'.location == None
            else s' == s
  {
    DenseCounts(Trim(text, 500));
    assert Dense("") == "";
  }

  /** The answer suits the field. */
  ghost predicate Suits(t: Texts, f: FieldDefinition, text: string) {
    if Skips(text) then !f.required
    else
      match f.fieldType
      case Integer => t.parseInt(Trim(text, 500)).Some?
      case Enum => exists c :: c in f.choices && t.fold(c) == t.fold(Trim(text, 500))
      case _ => true
  }

  /** The form goes on after field i: to the next field without an answer, or to the confirmation. */
  ghost predicate GoesOn(fields: seq<FieldDefinition>, i: nat, s: State) {
    exists j :: i < j <= |fields| && (forall k :: i < k < j ==> fields[k].key in s.fieldValues)
                && (if j < |fields| then s.step == AskFields && s.fieldIndex == j && fields[j].key !in s.fieldValues
                    else s.step == AwaitConfirm)
  }

  /** An answer that suits the field asked is taken and the form goes on; any other changes nothing. */
  lemma AnswersAreTakenExactly(t: Texts, p: PackDefinition, s: State, text: string)
    requires s.step == AskFields && s.fieldIndex < |OrderedFields(p.fields)|
    ensures var f, s' := OrderedFields(p.fields)[s.fieldIndex], FieldFilled(t, p, s, text);
            if Suits(t, f, text) then
              GoesOn(OrderedFields(p.fields), s.fieldIndex, s') && (f.key in s'.fieldValues || Skips(text))
              && (forall k :: k != f.key ==> (k in s'.fieldValues <==> k in s.fieldValues))
            else s' == s
  {
    hide OrderedFields;
    hide Trim;
    hide Advanced;
    hide GoesOn;
    var fields, f := OrderedFields(p.fields), OrderedFields(p.fields)[s.fieldIndex];
    AdvancedGoesOn(fields, s, s.fieldIndex);
    AdvanceKeeps(fields, s, s.fieldIndex + 1);
    var normal := Normalize(t, f, Trim(text, 500));
    if normal.Some? {
      AdvancedGoesOn(fields, s.(fieldValues := s.fieldValues[f.key := normal.value]), s.fieldIndex);
      AdvanceKeeps(fields, s.(fieldValues := s.fieldValues[f.key := normal.value]), s.fieldIndex + 1);
    }
  }

  lemma AdvancedGoesOn(fields: seq<FieldDefinition>, s: State, i: nat)
    requires i < |fields| && s.step == AskFields
    ensures GoesOn(fields, i, Advanced(fields, s, i + 1))
  {
    var j := FirstMissing(fields, s.fieldValues, i + 1);
    assert i < j <= |fields|;
  }

  /** Where several services may be chosen a press toggles one, otherwise it replaces the choice. */
  lemma PicksToggle(p: PackDefinition, s: State, key: string, k: string)
    requires NoRepeats(s.selected) && key in Offered(p)
    ensures var after := ServicePicked(p, s, key).selected;
            if p.serviceCatalog.multiSelect then k in after <==> if k == key then key !in s.selected else k in s.selected
            else after == [key]
  {
    hide OrderedFields;
    RemovedParts(s.selected, key);
  }

  /** A handler either goes on with the form it read, pinned to the same edition, or starts an empty
      one under the new identifier, pinned to the edition published last. */
  lemma FormsStartFresh(t: Texts, b: PackStore.Book, session: Option<State>, id: string, input: Input, e: Effect)
    requires e in Handle(t, b, session, id, input) && e.Put?
    ensures var s := e.state;
            || (session.Some? && s.submissionId == session.value.submissionId && s.packVersion == session.value.packVersion)
            || (s.submissionId == id && s.step == AskPhone && s.fieldValues == map[] && s.selected == [] && s.location == None
                && b.published != [] && s.packVersion == |b.published|)
  {
    hide Trim;
    hide Normalize;
    hide OrderedFields;
    hide Advanced;
    if session.Some? && 1 <= session.value.packVersion <= |b.published| {
      var p, s := b.published[session.value.packVersion - 1], session.value;
      KeepsVersion(t, p, s, input);
      KeepsForm(t, p, s, input);
    }
  }

  lemma KeepsForm(t: Texts, p: PackDefinition, s: State, input: Input)
    ensures match input
            case Said(text) =>
              PhoneFilled(s, text).submissionId == AddressFilled(s, text).submissionId == FieldFilled(t, p, s, text).submissionId == s.submissionId
            case Choose(text) => FieldFilled(t, p, s, text).submissionId == s.submissionId
            case Pick(key) => ServicePicked(p, s, key).submissionId == s.submissionId
            case ServicesDone => ServicesFinished(p, s).submissionId == s.submissionId
            case _ => true
  {
    hide Trim;
    hide Normalize;
    hide OrderedFields;
  }

  /** A form ends exactly by being cancelled or by being submitted, and it is submitted exactly when
      the client confirms a form that awaits it and has a choice of services. */
  lemma FormsEndExactly(t: Texts, b: PackStore.Book, session: Option<State>, id: string, input: Input)
    ensures var effects := Handle(t, b, session, id, input);
            var confirmed := input.Confirm? && session.Some? && 1 <= session.value.packVersion <= |b.published|
                             && session.value.step == AwaitConfirm && session.value.selected != [];
            && (Clear in effects <==> input.Cancel? || confirmed)
            && ((exists sub :: Submit(sub) in effects) <==> confirmed)
            && (confirmed ==> effects == [Submit(SubmissionOf(b.published[session.value.packVersion - 1], session.value)), Clear])
  {
    hide SubmissionOf;
    hide PhoneFilled;
    hide AddressFilled;
    hide FieldFilled;
    hide ServicePicked;
    hide ServicesFinished;
    hide Located;
    var effects := Handle(t, b, session, id, input);
    if |effects| == 2 { assert effects[0] in effects; }
  }

  // What the submission names --------------------------------------------------------------------

  /** A text cut at its commas. */
  function Parts(s: string): (r: seq<string>)
    ensures r != []
  {
    if s == "" then [""]
    else
      var before, last := Parts(s[..|s| - 1]), s[|s| - 1];
      if last == ',' then before + [""] else before[|before| - 1 := before[|before| - 1] + [last]]
  }

  lemma {:induction false} PartsAppend(s: string, t: string)
    requires ',' !in t
    ensures Parts(s + t) == Parts(s)[|Parts(s)| - 1 := Parts(s)[|Parts(s)| - 1] + t]
  {
    if t == "" {
      assert s + t == s;
      assert Parts(s)[|Parts(s)| - 1] + t == Parts(s)[|Parts(s)| - 1];
    } else {
      var n := |t| - 1;
      PartsAppend(s, t[..n]);
      var a, m := Parts(s), |Parts(s)| - 1;
      assert (s + t)[..|s + t| - 1] == s + t[..n] && (s + t)[|s + t| - 1] == t[n] && t[n] in t;
      assert Parts(s + t) == a[m := a[m] + t[..n]][m := a[m] + t[..n] + [t[n]]];
      assert a[m] + t[..n] + [t[n]] == a[m] + t;
    }
  }

  /** The work type of a submission, cut at its commas, is the choice of services. */
  lemma {:induction false} WorkTypeNamesTheServices(keys: seq<string>)
    requires keys != [] && forall i :: 0 <= i < |keys| ==> ',' !in keys[i]
    ensures Parts(Joined(keys)) == keys
  {
    var n := |keys| - 1;
    if n == 0 {
      PartsAppend("", keys[0]);
      assert "" + keys[0] == keys[0] && Parts("") == [""];
    } else {
      WorkTypeNamesTheServices(keys[..n]);
      var before := Joined(keys[..n]);
      assert (before + ",")[..|before + ","| - 1] == before && (before + ",")[|before|] == ',';
      assert Parts(before + ",") == keys[..n] + [""];
      PartsAppend(before + ",", keys[n]);
      assert "" + keys[n] == keys[n];
      assert (keys[..n] + [""])[n := keys[n]] == keys;
    }
  }

  /** The labels of a submission are the captions of the chosen services, in the order of the choice. */
  lemma {:induction false} LabelsAreCaptions(p: PackDefinition, keys: seq<string>, i: nat, c: ServiceCategory)
    requires DistinctCategories(p.serviceCatalog.categories) && c in p.serviceCatalog.categories
    requires i < |keys| && keys[i] == c.key
    ensures |Labels(p, keys)| == |keys| && Labels(p, keys)[i] == c.caption
  {
    var n := |keys| - 1;
    LabelsCount(p, keys);
    if i < n {
      LabelsAreCaptions(p, keys[..n], i, c);
    } else {
      LabelsCount(p, keys[..n]);
      CaptionFound(p.serviceCatalog.categories, c);
    }
  }

  lemma {:induction false} LabelsCount(p: PackDefinition, keys: seq<string>)
    ensures |Labels(p, keys)| == |keys|
  {
    if keys != [] { LabelsCount(p, keys[..|keys| - 1]); }
  }

  lemma {:induction false} CaptionFound(categories: seq<ServiceCategory>, c: ServiceCategory)
    requires DistinctCategories(categories) && c in categories
    ensures LabelFor(categories, c.key) == c.caption
  {
    if categories[0] != c {
      assert categories == [categories[0]] + categories[1..];
      var i :| 0 <= i < |categories| && categories[i] == c;
      assert categories[1..][i - 1] == c;
      CaptionFound(categories[1..], c);
    }
  }
}
