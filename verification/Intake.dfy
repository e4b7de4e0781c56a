/** The guided intake: a form pinned to one edition of the pack, filled in step by step,
    and submitted as a work order. */
module Intake {
  import opened Prelude
  import opened Catalog
  import opened Domain
  import PackStore

  datatype Step = AskPhone | AskAddress | PickServices | AskFields | AwaitConfirm

  /** The stored session of one client. */
  datatype State = State(
    step: Step,
    submissionId: string,
    packVersion: nat,
    fieldValues: map<string, string>,
    selected: seq<string>,
    fieldIndex: nat,
    location: Option<string>)

  /** Python's integer parsing and case folding: `parseInt` gives `str(int(value))`. */
  datatype Texts = Texts(parseInt: string -> Option<string>, fold: string -> string)

  ghost predicate Honest(t: Texts) {
    && (forall v :: t.parseInt(v).Some? ==> t.parseInt(v).value != "" && t.parseInt(t.parseInt(v).value) == t.parseInt(v))
    && (forall v :: t.fold(v) == "" <==> v == "")
  }

  datatype Detail = Value(text: string) | Listed(items: seq<string>) | Version(number: nat) | Place(point: string)

  datatype Submission = Submission(
    id: string,
    packVersion: nat,
    workType: string,
    selected: seq<string>,
    fieldValues: map<string, string>,
    details: map<string, Detail>,
    evidence: Evidence)

  // Answers ------------------------------------------------------------------------------------

  /** The first choice that folds to the given text. */
  function Chosen(t: Texts, choices: seq<string>, folded: string): (r: Option<string>)
    ensures r.Some? ==> r.value in choices && t.fold(r.value) == folded
    ensures r.None? ==> forall c :: c in choices ==> t.fold(c) != folded
  {
    if choices == [] then None
    else if t.fold(choices[0]) == folded then Some(choices[0])
    else Chosen(t, choices[1..], folded)
  }

  function Normalize(t: Texts, f: FieldDefinition, value: string): Option<string> {
    match f.fieldType
    case Integer => t.parseInt(value)
    case Enum => Chosen(t, f.choices, t.fold(value))
    case _ => Some(value)
  }

  /** Normal form: a canonical integer, one of the offered choices, otherwise any text. */
  ghost predicate Normal(t: Texts, f: FieldDefinition, value: string) {
    && value != ""
    && (f.fieldType.Integer? ==> t.parseInt(value) == Some(value))
    && (f.fieldType.Enum? ==> value in f.choices)
  }

  lemma NormalizedIsNormal(t: Texts, f: FieldDefinition, value: string)
    requires Honest(t) && value != "" && Normalize(t, f, value).Some?
    ensures Normal(t, f, Normalize(t, f, value).value)
  {
  }

  function Dense(s: string): string {
    if s == "" then ""
    else (if s[0] == ' ' || s[0] == '-' then "" else [s[0]]) + Dense(s[1..])
  }

  predicate PhoneAccepted(value: string) {
    |Dense(value)| >= 7
  }

  predicate AddressAccepted(value: string) {
    |value| >= 5
  }

  /** The first field from `i` on that has no value yet. */
  function FirstMissing(fields: seq<FieldDefinition>, values: map<string, string>, i: nat): (j: nat)
    requires i <= |fields|
    ensures i <= j <= |fields|
    ensures forall k :: i <= k < j ==> fields[k].key in values
    ensures j < |fields| ==> fields[j].key !in values
    decreases |fields| - i
  {
    if i < |fields| && fields[i].key in values then FirstMissing(fields, values, i + 1) else i
  }

  function Joined(keys: seq<string>): string {
    if keys == [] then ""
    else if |keys| == 1 then keys[0]
    else Joined(keys[..|keys| - 1]) + "," + keys[|keys| - 1]
  }

  // The handlers ---------------------------------------------------------------------------------

  function Offered(p: PackDefinition): set<string> {
    set c | c in p.serviceCatalog.categories :: c.key
  }

  function LabelFor(categories: seq<ServiceCategory>, key: string): string {
    if categories == [] then key
    else if categories[0].key == key then categories[0].caption
    else LabelFor(categories[1..], key)
  }

  function Labels(p: PackDefinition, keys: seq<string>): seq<string> {
    if keys == [] then [] else Labels(p, keys[..|keys| - 1]) + [LabelFor(p.serviceCatalog.categories, keys[|keys| - 1])]
  }

  function Removed(keys: seq<string>, key: string): seq<string> {
    if keys == [] then [] else if keys[0] == key then keys[1..] else [keys[0]] + Removed(keys[1..], key)
  }

  function PhoneFilled(s: State, text: string): State {
    var value := Trim(text, 500);
    if value == "" || !PhoneAccepted(value) then s
    else s.(fieldValues := s.fieldValues["phone" := value], step := AskAddress, location := None)
  }

  function AddressFilled(s: State, text: string): State {
    var value := Trim(text, 500);
    if value == "" || !AddressAccepted(value) then s
    else s.(fieldValues := s.fieldValues["address" := value], step := PickServices, location := None)
  }

  function Located(s: State, address: string, point: string): State {
    var given := Trim(address, 500);
    s.(fieldValues := s.fieldValues["address" := if given == "" then "Точка на карте: " + point else given],
       step := PickServices,
       location := Some(point))
  }

  /** Without a choice the client is asked again and nothing changes. */
  function ServicesFinished(p: PackDefinition, s: State): State {
    var fields := OrderedFields(p.fields);
    var start := FirstMissing(fields, s.fieldValues, 0);
    if s.selected == [] then s
    else if start == |fields| then s.(step := AwaitConfirm) else s.(step := AskFields, fieldIndex := start)
  }

  function ServicePicked(p: PackDefinition, s: State, key: string): State {
    if key !in Offered(p) then s
    else if !p.serviceCatalog.multiSelect then ServicesFinished(p, s.(selected := [key]))
    else s.(selected := if key in s.selected then Removed(s.selected, key) else s.selected + [key])
  }

  function Advanced(fields: seq<FieldDefinition>, s: State, i: nat): State
    requires i <= |fields|
  {
    var j := FirstMissing(fields, s.fieldValues, i);
    s.(fieldIndex := j, step := if j == |fields| then AwaitConfirm else s.step)
  }

  /** One answer to the field asked; a refused answer leaves the state as it is. */
  function FieldFilled(t: Texts, p: PackDefinition, s: State, text: string): State {
    var fields := OrderedFields(p.fields);
    if s.fieldIndex >= |fields| then s.(step := AwaitConfirm)
    else
      var f, value := fields[s.fieldIndex], Trim(text, 500);
      if value == "" || value == "-" then
        if f.required then s else Advanced(fields, s, s.fieldIndex + 1)
      else
        match Normalize(t, f, value)
        case None => s
        case Some(n) => Advanced(fields, s.(fieldValues := s.fieldValues[f.key := n]), s.fieldIndex + 1)
  }

  /** The field values are spread over the fixed entries; the map point is set last. */
  function DetailsOf(p: PackDefinition, s: State): map<string, Detail> {
    var fixed := map["services" := Listed(Labels(p, s.selected)), "service_keys" := Listed(s.selected), "pack_version" := Version(s.packVersion)];
    var spread := fixed + map k | k in s.fieldValues :: Value(s.fieldValues[k]);
    if s.location.Some? then spread["service_location" := Place(s.location.value)] else spread
  }

  function SubmissionOf(p: PackDefinition, s: State): Submission {
    Submission(s.submissionId, s.packVersion, Joined(s.selected), s.selected, s.fieldValues, DetailsOf(p, s), p.evidence)
  }

  /** The handlers on the session they work on, updated in place. */
  class IntakeCoordinator {
    var state: State

    constructor (s: State)
      ensures state == s
    {
      state := s;
    }

    method PickService(p: PackDefinition, key: string)
      modifies this
      ensures state == ServicePicked(p, old(state), key)
    {
      hide FirstMissing;
      if key !in Offered(p) { return; }
      if !p.serviceCatalog.multiSelect {
        state := state.(selected := [key]);
        FinishServices(p);
      } else if key in state.selected {
        state := state.(selected := Removed(state.selected, key));
      } else {
        state := state.(selected := state.selected + [key]);
      }
    }

    method FinishServices(p: PackDefinition)
      modifies this
      ensures state == ServicesFinished(p, old(state))
    {
      if state.selected == [] { return; }
      var fields := OrderedFields(p.fields);
      var start := 0;
      while start < |fields| && fields[start].key in state.fieldValues
        invariant 0 <= start <= |fields| && state == old(state)
        invariant FirstMissing(fields, state.fieldValues, 0) == FirstMissing(fields, state.fieldValues, start)
      {
        start := start + 1;
      }
      if start == |fields| {
        state := state.(step := AwaitConfirm);
      } else {
        state := state.(step := AskFields, fieldIndex := start);
      }
    }

    /** `accepted` tells whether the answer was taken or the field is asked again. */
    method FillField(t: Texts, p: PackDefinition, text: string) returns (accepted: bool)
      modifies this
      ensures state == FieldFilled(t, p, old(state), text)
      ensures old(state).fieldIndex < |OrderedFields(p.fields)| ==> (accepted <==> state != old(state))
    {
      hide OrderedFields;
      hide Trim;
      hide Normalize;
      var fields := OrderedFields(p.fields);
      if state.fieldIndex >= |fields| {
        state := state.(step := AwaitConfirm);
        return true;
      }
      var index := state.fieldIndex;
      var definition := fields[index];
      var value := Trim(text, 500);
      if value == "" || value == "-" {
        if definition.required { return false; }
      } else {
        var normalized := Normalize(t, definition, value);
        if normalized.None? { return false; }
        state := state.(fieldValues := state.fieldValues[definition.key := normalized.value]);
      }
      ghost var answered := state;
      index := index + 1;
      ghost var first := FirstMissing(fields, answered.fieldValues, index);
      state := state.(fieldIndex := index);
      while index < |fields| && fields[index].key in state.fieldValues
        invariant index <= |fields| && state == answered.(fieldIndex := index)
        invariant first == FirstMissing(fields, answered.fieldValues, index)
      {
        index := index + 1;
        state := state.(fieldIndex := index);
      }
      if index >= |fields| { state := state.(step := AwaitConfirm); }
      accepted := true;
    }
  }

  // What every saved session satisfies ------------------------------------------------------------

  /** Every answer apart from phone and address is in the normal form of a field it answers. */
  ghost predicate Answers(t: Texts, p: PackDefinition, values: map<string, string>) {
    && (forall k :: k in values ==> values[k] != "")
    && (forall k :: k in values && k != "phone" && k != "address" ==>
          exists f :: f in p.fields && f.key == k && Normal(t, f, values[k]))
    && ("phone" in values ==> PhoneAccepted(values["phone"]))
  }

  ghost predicate FilledBelow(fields: seq<FieldDefinition>, values: map<string, string>, i: nat) {
    forall j :: 0 <= j < i && j < |fields| && fields[j].required ==> fields[j].key in values
  }

  ghost predicate Good(t: Texts, p: PackDefinition, s: State) {
    var fields := OrderedFields(p.fields);
    && Answers(t, p, s.fieldValues)
    && NoRepeats(s.selected) && (forall k :: k in s.selected ==> k in Offered(p))
    && (s.step != AskPhone ==> "phone" in s.fieldValues)
    && (s.step != AskPhone && s.step != AskAddress ==> "address" in s.fieldValues)
    && (s.step == AskFields ==>
          && s.fieldIndex < |fields| && fields[s.fieldIndex].key !in s.fieldValues
          && FilledBelow(fields, s.fieldValues, s.fieldIndex))
    && (s.step == AwaitConfirm ==> FilledBelow(fields, s.fieldValues, |fields|))
  }

  /** What a submitted order carries. */
  ghost predicate Complete(t: Texts, p: PackDefinition, sub: Submission) {
    && sub.selected != [] && NoRepeats(sub.selected) && (forall k :: k in sub.selected ==> k in Offered(p))
    && (forall f :: f in p.fields && f.required ==> f.key in sub.fieldValues && sub.fieldValues[f.key] != "")
    && Answers(t, p, sub.fieldValues) && "phone" in sub.fieldValues && "address" in sub.fieldValues
    && sub.workType == Joined(sub.selected) && sub.evidence == p.evidence
  }

  lemma {:induction false} RemovedParts(keys: seq<string>, key: string)
    requires NoRepeats(keys)
    ensures NoRepeats(Removed(keys, key)) && forall k :: k in Removed(keys, key) <==> k in keys && k != key
  {
    if keys != [] {
      assert keys == [keys[0]] + keys[1..];
      forall k | k in keys[1..] ensures k != keys[0] {
        var i :| 0 <= i < |keys[1..]| && keys[1..][i] == k;
        assert keys[i + 1] == k;
      }
      RemovedParts(keys[1..], key);
      var rest := Removed(keys[1..], key);
      forall i | 0 <= i < |rest| ensures rest[i] != keys[0] { assert rest[i] in rest; }
    }
  }

  lemma FinishedIsGood(t: Texts, p: PackDefinition, s: State)
    requires Good(t, p, s) && (s.step == PickServices || s.step == AskFields || s.step == AwaitConfirm)
    ensures Good(t, p, ServicesFinished(p, s))
  {
    hide Answers;
    hide OrderedFields;
  }

  lemma PickedIsGood(t: Texts, p: PackDefinition, s: State, key: string)
    requires Good(t, p, s) && (s.step == PickServices || s.step == AskFields || s.step == AwaitConfirm)
    ensures Good(t, p, ServicePicked(p, s, key))
  {
    hide Answers;
    hide OrderedFields;
    hide FirstMissing;
    if key in Offered(p) {
      if !p.serviceCatalog.multiSelect {
        assert forall k :: k in [key] ==> k in Offered(p);
        FinishedIsGood(t, p, s.(selected := [key]));
      } else {
        RemovedParts(s.selected, key);
      }
    }
  }

  lemma AdvancedIsGood(t: Texts, p: PackDefinition, s: State, i: nat)
    requires i <= |OrderedFields(p.fields)| && s.step == AskFields
    requires Good(t, p, s.(step := PickServices)) && FilledBelow(OrderedFields(p.fields), s.fieldValues, i)
    ensures Good(t, p, Advanced(OrderedFields(p.fields), s, i))
  {
    hide Answers;
    hide OrderedFields;
  }

  lemma AnswerKept(t: Texts, p: PackDefinition, values: map<string, string>, f: FieldDefinition, n: string)
    requires Answers(t, p, values) && f in p.fields && f.key !in values && Normal(t, f, n)
    requires "phone" in values && "address" in values
    ensures Answers(t, p, values[f.key := n])
  {
    var after := values[f.key := n];
    forall k | k in after && k != "phone" && k != "address"
      ensures exists g :: g in p.fields && g.key == k && Normal(t, g, after[k])
    {
      if k == f.key {
        assert f in p.fields && Normal(t, f, after[k]);
      } else {
        var g :| g in p.fields && g.key == k && Normal(t, g, values[k]);
        assert Normal(t, g, after[k]);
      }
    }
  }

  lemma FilledIsGood(t: Texts, p: PackDefinition, s: State, text: string)
    requires Honest(t) && Good(t, p, s) && s.step == AskFields
    ensures Good(t, p, FieldFilled(t, p, s, text))
  {
    hide Answers;
    hide OrderedFields;
    hide Advanced;
    hide Normal;
    hide Normalize;
    var fields, value := OrderedFields(p.fields), Trim(text, 500);
    var f := fields[s.fieldIndex];
    if value == "" || value == "-" {
      if !f.required { AdvancedIsGood(t, p, s, s.fieldIndex + 1); }
    } else if Normalize(t, f, value).Some? {
      var n := Normalize(t, f, value).value;
      NormalizedIsNormal(t, f, value);
      OrderedFieldsSorts(p.fields);
      assert f in multiset(fields);
      AnswerKept(t, p, s.fieldValues, f, n);
      AdvancedIsGood(t, p, s.(fieldValues := s.fieldValues[f.key := n]), s.fieldIndex + 1);
    }
  }

  lemma PlacedIsGood(t: Texts, p: PackDefinition, s: State, text: string, point: string)
    requires Good(t, p, s)
    ensures s.step == AskPhone ==> Good(t, p, PhoneFilled(s, text))
    ensures s.step == AskAddress ==> Good(t, p, AddressFilled(s, text)) && Good(t, p, Located(s, text, point))
  {
    hide Normal;
    hide OrderedFields;
    hide Dense;
    hide Trim;
    var value := Trim(text, 500);
    if value != "" && PhoneAccepted(value) { KeepsAnswers(t, p, s.fieldValues, "phone", value); }
    if value != "" { KeepsAnswers(t, p, s.fieldValues, "address", value); }
    KeepsAnswers(t, p, s.fieldValues, "address", "Точка на карте: " + point);
  }

  lemma KeepsAnswers(t: Texts, p: PackDefinition, values: map<string, string>, key: string, value: string)
    requires Answers(t, p, values) && (key == "phone" || key == "address") && value != ""
    requires key == "phone" ==> PhoneAccepted(value)
    ensures Answers(t, p, values[key := value])
  {
  }

  /** A good session that may be confirmed submits a complete form. */
  lemma ConfirmedIsComplete(t: Texts, p: PackDefinition, s: State)
    requires Good(t, p, s) && s.step == AwaitConfirm && s.selected != []
    ensures Complete(t, p, SubmissionOf(p, s))
  {
    hide Normal;
    hide DetailsOf;
    var fields := OrderedFields(p.fields);
    OrderedFieldsSorts(p.fields);
    forall f | f in p.fields && f.required ensures f.key in s.fieldValues && s.fieldValues[f.key] != "" {
      assert f in multiset(fields);
      var j :| 0 <= j < |fields| && fields[j] == f;
    }
  }

  // Details ----------------------------------------------------------------------------------------

  predicate Reserved(k: string) {
    k == "services" || k == "service_keys" || k == "pack_version"
  }

  /** The submitted details name the chosen services and the pinned edition exactly when no
      answered field is keyed like one of those entries; such a field wins. */
  lemma DetailsNameTheServices(p: PackDefinition, s: State)
    ensures var d := DetailsOf(p, s);
            && (d["service_keys"] == Listed(s.selected) <==> "service_keys" !in s.fieldValues)
            && (d["services"] == Listed(Labels(p, s.selected)) <==> "services" !in s.fieldValues)
            && (d["pack_version"] == Version(s.packVersion) <==> "pack_version" !in s.fieldValues)
  {
  }

  /** Every answer reaches the details, except one to a field keyed `service_location` when
      a map point was chosen; and details hold nothing else. */
  lemma DetailsCarryAnswers(p: PackDefinition, s: State, k: string)
    ensures var d := DetailsOf(p, s);
            && (k in s.fieldValues ==> k in d && (d[k] == Value(s.fieldValues[k]) <==> !(k == "service_location" && s.location.Some?)))
            && (k in d ==> k in s.fieldValues || Reserved(k) || (k == "service_location" && s.location.Some?))
  {
  }

  // Runs -------------------------------------------------------------------------------------------

  datatype Effect =
    | Put(state: State)
    | Clear
    | Submit(submission: Submission)

  datatype Input =
    | Start
    | Said(text: string)
    | Pick(key: string)
    | ServicesDone
    | Choose(value: string)
    | Point(valid: bool, address: string, point: string)
    | Touch
    | Confirm
    | Cancel

  /** A new session, pinned to the edition active at that moment. */
  function Started(b: PackStore.Book, id: string): seq<Effect> {
    if b.published == [] then []
    else [Put(State(AskPhone, id, |b.published|, map[], [], 0, None))]
  }

  function Saved(before: State, after: State): seq<Effect> {
    if after == before then [] else [Put(after)]
  }

  /** What a handler does, in order, given the session it read and the editions of that
      moment; `id` is the identifier a new session would get. */
  function Handle(t: Texts, b: PackStore.Book, session: Option<State>, id: string, input: Input): seq<Effect> {
    if input.Start? then Started(b, id)
    else if input.Cancel? then [Clear]
    else if input.Point? && !input.valid then []
    else if session.None? then Started(b, id)
    else if !(1 <= session.value.packVersion <= |b.published|) then []
    else Stepped(t, b, b.published[session.value.packVersion - 1], session.value, id, input)
  }

  function Stepped(t: Texts, b: PackStore.Book, p: PackDefinition, s: State, id: string, input: Input): seq<Effect> {
    match input
    case Said(text) =>
      if s.step.AskPhone? then Saved(s, PhoneFilled(s, text))
      else if s.step.AskAddress? then Saved(s, AddressFilled(s, text))
      else if s.step.AskFields? then Saved(s, FieldFilled(t, p, s, text))
      else []
    case Point(_, address, point) => if s.step.AskAddress? then [Put(Located(s, address, point))] else []
    case Touch => if s.step.AskAddress? then [Put(s)] else []
    case Pick(key) =>
      if (s.step.PickServices? || s.step.AskFields? || s.step.AwaitConfirm?) && key in Offered(p) then [Put(ServicePicked(p, s, key))] else []
    case Choose(value) => if s.step.AskFields? then Saved(s, FieldFilled(t, p, s, value)) else []
    case ServicesDone => if s.step.PickServices? then Saved(s, ServicesFinished(p, s)) else []
    case Confirm =>
      if !s.step.AwaitConfirm? then []
      else if s.selected == [] then Started(b, id)
      else [Submit(SubmissionOf(p, s)), Clear]
    case _ => []
  }

  /** A message as it was handled: the session that was read and the identifier a new one would get. */
  datatype Heard = Heard(session: Option<State>, id: string, input: Input)

  datatype World = World(
    book: PackStore.Book,
    session: Option<State>,
    read: map<nat, Option<State>>,
    pending: map<nat, seq<Effect>>,
    submitted: seq<Submission>,
    orders: map<string, Submission>,
    heard: seq<Heard>)

  const START := World(PackStore.BLANK_BOOK, None, map[], map[], [], map[], [])

  /** What `create_order_once` compares for one requester: the details, not the session they came from. */
  predicate SameIntent(a: Submission, b: Submission) {
    a.workType == b.workType && a.details == b.details && a.evidence == b.evidence
  }

  /** The creation under a taken id is refused unless the intent is the same. */
  predicate Conflicts(w: World, e: Effect) {
    e.Submit? && e.submission.id in w.orders && !SameIntent(w.orders[e.submission.id], e.submission)
  }

  /** Workers handle messages of one client at once, each on the session it read, while the
      administrator edits and publishes packs; any of them may crash between two effects. */
  datatype Action =
    | Admin(a: PackStore.Action)
    | Read(worker: nat)
    | Think(worker: nat, id: string, input: Input)
    | Land(worker: nat)
    | Crash(worker: nat)

  function Landed(w: World, e: Effect): World {
    match e
    case Put(s) => w.(session := Some(s))
    case Clear => w.(session := None)
    case Submit(sub) =>
      w.(submitted := w.submitted + [sub], orders := if sub.id in w.orders then w.orders else w.orders[sub.id := sub])
  }

  function Next(t: Texts, w: World, a: Action): World {
    match a
    case Admin(b) => w.(book := PackStore.Next(w.book, b))
    case Read(worker) => w.(read := w.read[worker := w.session])
    case Think(worker, id, input) =>
      if worker in w.read then
        w.(pending := w.pending[worker := Handle(t, w.book, w.read[worker], id, input)], heard := w.heard + [Heard(w.read[worker], id, input)])
      else w
    case Land(worker) =>
      if worker in w.pending && w.pending[worker] != [] then
        var rest := if Conflicts(w, w.pending[worker][0]) then [] else w.pending[worker][1..];
        Landed(w.(pending := w.pending[worker := rest]), w.pending[worker][0])
      else w
    case Crash(worker) => w.(read := w.read - {worker}, pending := w.pending - {worker})
  }

  function Run(t: Texts, schedule: seq<Action>): World {
    if schedule == [] then START else Next(t, Run(t, schedule[..|schedule| - 1]), schedule[|schedule| - 1])
  }

  ghost predicate GoodState(t: Texts, b: PackStore.Book, s: State) {
    1 <= s.packVersion <= |b.published| && Good(t, b.published[s.packVersion - 1], s)
  }

  ghost predicate GoodSubmission(t: Texts, b: PackStore.Book, sub: Submission) {
    1 <= sub.packVersion <= |b.published| && Complete(t, b.published[sub.packVersion - 1], sub)
  }

  ghost predicate GoodEffect(t: Texts, b: PackStore.Book, e: Effect) {
    match e
    case Put(s) => GoodState(t, b, s)
    case Submit(sub) => GoodSubmission(t, b, sub)
    case Clear => true
  }

  ghost predicate GoodSession(t: Texts, b: PackStore.Book, session: Option<State>) {
    session.Some? ==> GoodState(t, b, session.value)
  }

  ghost predicate GoodEffects(t: Texts, b: PackStore.Book, effects: seq<Effect>) {
    forall i :: 0 <= i < |effects| ==> GoodEffect(t, b, effects[i])
  }

  ghost predicate GoodWorld(t: Texts, w: World) {
    && GoodSession(t, w.book, w.session)
    && (forall worker :: worker in w.read ==> GoodSession(t, w.book, w.read[worker]))
    && (forall worker :: worker in w.pending ==> GoodEffects(t, w.book, w.pending[worker]))
    && (forall i :: 0 <= i < |w.submitted| ==> GoodSubmission(t, w.book, w.submitted[i]))
    && (forall id :: id in w.orders ==> w.orders[id].id == id && GoodSubmission(t, w.book, w.orders[id]))
  }

  lemma StartedIsGood(t: Texts, b: PackStore.Book, id: string)
    ensures GoodEffects(t, b, Started(b, id))
  {
  }

  lemma SteppedIsGood(t: Texts, b: PackStore.Book, p: PackDefinition, s: State, id: string, input: Input)
    requires Honest(t) && GoodState(t, b, s) && p == b.published[s.packVersion - 1]
    ensures GoodEffects(t, b, Stepped(t, b, p, s, id, input))
  {
    hide Good;
    hide Complete;
    hide Honest;
    hide PhoneFilled;
    hide AddressFilled;
    hide FieldFilled;
    hide ServicePicked;
    hide ServicesFinished;
    KeepsVersion(t, p, s, input);
    match input {
      case Said(text) => PlacedIsGood(t, p, s, text, ""); if s.step.AskFields? { FilledIsGood(t, p, s, text); }
      case Point(_, address, point) => PlacedIsGood(t, p, s, address, point);
      case Pick(key) => if !s.step.AskPhone? && !s.step.AskAddress? { PickedIsGood(t, p, s, key); }
      case Choose(value) => if s.step.AskFields? { FilledIsGood(t, p, s, value); }
      case ServicesDone => if s.step.PickServices? { FinishedIsGood(t, p, s); }
      case Confirm =>
        StartedIsGood(t, b, id);
        if s.step.AwaitConfirm? && s.selected != [] { ConfirmedIsComplete(t, p, s); }
      case _ =>
    }
  }

  lemma KeepsVersion(t: Texts, p: PackDefinition, s: State, input: Input)
    ensures input.Said? ==>
              && PhoneFilled(s, input.text).packVersion == s.packVersion
              && AddressFilled(s, input.text).packVersion == s.packVersion
              && FieldFilled(t, p, s, input.text).packVersion == s.packVersion
    ensures input.Choose? ==> FieldFilled(t, p, s, input.value).packVersion == s.packVersion
    ensures input.Pick? ==> ServicePicked(p, s, input.key).packVersion == s.packVersion
    ensures ServicesFinished(p, s).packVersion == s.packVersion
  {
    hide OrderedFields;
    hide Normalize;
    hide Trim;
  }

  lemma HandleIsGood(t: Texts, b: PackStore.Book, session: Option<State>, id: string, input: Input)
    requires Honest(t) && GoodSession(t, b, session)
    ensures GoodEffects(t, b, Handle(t, b, session, id, input))
  {
    hide Stepped;
    hide Honest;
    hide Good;
    StartedIsGood(t, b, id);
    if session.Some? { SteppedIsGood(t, b, b.published[session.value.packVersion - 1], session.value, id, input); }
  }

  /** Publishing and editing never disturb a pinned session. */
  lemma PackEditsKeepGood(t: Texts, b: PackStore.Book, a: PackStore.Action)
    ensures forall s :: GoodState(t, b, s) ==> GoodState(t, PackStore.Next(b, a), s)
    ensures forall sub :: GoodSubmission(t, b, sub) ==> GoodSubmission(t, PackStore.Next(b, a), sub)
    ensures forall e :: GoodEffect(t, b, e) ==> GoodEffect(t, PackStore.Next(b, a), e)
  {
    hide Good;
    hide Complete;
    hide PackStore.Publishable;
    var c := PackStore.Next(b, a);
    assert b.published <= c.published;
    forall i | 0 <= i < |b.published| ensures b.published[i] == c.published[i] {}
  }

  lemma NextKeepsGood(t: Texts, w: World, a: Action)
    requires Honest(t) && GoodWorld(t, w)
    ensures GoodWorld(t, Next(t, w, a))
  {
    hide Honest;
    hide Handle;
    hide GoodState;
    hide GoodSubmission;
    hide PackStore.Next;
    match a {
      case Admin(b) => PackEditsKeepGood(t, w.book, b);
      case Think(worker, id, input) => if worker in w.read { HandleIsGood(t, w.book, w.read[worker], id, input); }
      case Land(worker) =>
        if worker in w.pending && w.pending[worker] != [] {
          var effects := w.pending[worker];
          assert GoodEffects(t, w.book, effects) && GoodEffect(t, w.book, effects[0]);
          forall i | 0 <= i < |effects[1..]| ensures GoodEffect(t, w.book, effects[1..][i]) { assert GoodEffect(t, w.book, effects[i + 1]); }
        }
      case _ =>
    }
  }

  lemma {:induction false} RunKeepsGood(t: Texts, schedule: seq<Action>)
    requires Honest(t)
    ensures GoodWorld(t, Run(t, schedule))
  {
    hide GoodWorld;
    if schedule != [] {
      RunKeepsGood(t, schedule[..|schedule| - 1]);
      NextKeepsGood(t, Run(t, schedule[..|schedule| - 1]), schedule[|schedule| - 1]);
    } else {
      StartIsGood(t);
    }
  }

  lemma StartIsGood(t: Texts)
    ensures GoodWorld(t, START)
  {
  }

  /** Whatever the client sends, in whatever order it is handled, however often the packs
      change meanwhile: every submission carries a nonempty choice of services of its pinned
      edition without repetition, a phone, an address, a value for every required field, and
      every other answer in the normal form of a field of that edition. */
  lemma EverySubmissionIsComplete(t: Texts, schedule: seq<Action>, i: nat)
    requires Honest(t) && i < |Run(t, schedule).submitted|
    ensures var w := Run(t, schedule);
            var sub := w.submitted[i];
            1 <= sub.packVersion <= |w.book.published| && Complete(t, w.book.published[sub.packVersion - 1], sub)
  {
    hide Complete;
    RunKeepsGood(t, schedule);
    assert GoodSubmission(t, Run(t, schedule).book, Run(t, schedule).submitted[i]);
  }

  /** When the edition's field keys are distinct, an answer is in the normal form of its field. */
  lemma AnswersFitTheirFields(t: Texts, p: PackDefinition, values: map<string, string>, f: FieldDefinition)
    requires Answers(t, p, values) && DistinctFields(p.fields)
    requires f in p.fields && f.key in values && f.key != "phone" && f.key != "address"
    ensures Normal(t, f, values[f.key])
  {
    var g :| g in p.fields && g.key == f.key && Normal(t, g, values[f.key]);
    var i :| 0 <= i < |p.fields| && p.fields[i] == f;
    var j :| 0 <= j < |p.fields| && p.fields[j] == g;
    assert i == j;
  }

  /** In an edition without a field keyed like a reserved entry, every good session's details
      name its services and its edition. */
  lemma UnreservedPacksAreSafe(t: Texts, p: PackDefinition, s: State)
    requires Good(t, p, s) && forall f :: f in p.fields ==> !Reserved(f.key)
    ensures var d := DetailsOf(p, s);
            d["service_keys"] == Listed(s.selected) && d["services"] == Listed(Labels(p, s.selected)) && d["pack_version"] == Version(s.packVersion)
  {
    hide DetailsOf;
    hide Labels;
    hide OrderedFields;
    DetailsNameTheServices(p, s);
    forall k | k in s.fieldValues ensures !Reserved(k) {
      if k != "phone" && k != "address" {
        var f :| f in p.fields && f.key == k && Normal(t, f, s.fieldValues[k]);
      }
    }
  }

  // Confirming again ---------------------------------------------------------------------------------

  /** No field of the pack is keyed like an entry of the details. */
  predicate Unreserved(p: PackDefinition) {
    forall f :: f in p.fields ==> !Reserved(f.key) && f.key != "service_location"
  }

  lemma UnreservedValues(t: Texts, p: PackDefinition, s: State, k: string)
    requires Good(t, p, s) && Unreserved(p) && k in s.fieldValues
    ensures !Reserved(k) && k != "service_location"
  {
    hide OrderedFields;
    if k != "phone" && k != "address" {
      var f :| f in p.fields && f.key == k && Normal(t, f, s.fieldValues[k]);
    }
  }

  predicate Plain(s: State) {
    forall k :: k in s.fieldValues ==> !Reserved(k) && k != "service_location"
  }

  lemma DetailsShow(p: PackDefinition, s: State)
    requires Plain(s)
    ensures var d := DetailsOf(p, s);
            && "service_keys" in d && d["service_keys"] == Listed(s.selected)
            && ("service_location" in d <==> s.location.Some?)
            && (s.location.Some? ==> d["service_location"] == Place(s.location.value))
  {
    hide Labels;
  }

  lemma AnswerShows(p: PackDefinition, s: State, k: string)
    requires Plain(s) && !Reserved(k) && k != "service_location"
    ensures var d := DetailsOf(p, s); (k in d <==> k in s.fieldValues) && (k in d ==> d[k] == Value(s.fieldValues[k]))
  {
    hide Labels;
  }

  /** Details without reserved answers give the choice, the answers and the place back. */
  lemma DetailsDetermine(p: PackDefinition, a: State, b: State)
    requires Plain(a) && Plain(b) && DetailsOf(p, a) == DetailsOf(p, b)
    ensures a.selected == b.selected && a.fieldValues == b.fieldValues && a.location == b.location
  {
    hide DetailsOf;
    DetailsShow(p, a);
    DetailsShow(p, b);
    forall k ensures (k in a.fieldValues <==> k in b.fieldValues) && (k in a.fieldValues ==> a.fieldValues[k] == b.fieldValues[k]) {
      if !Reserved(k) && k != "service_location" {
        AnswerShows(p, a, k);
        AnswerShows(p, b, k);
      }
    }
  }

  /** Two sessions of one unreserved edition submit the same intent if and only if choice, answers
      and place are the same. */
  lemma IntentIsTheForm(t: Texts, p: PackDefinition, a: State, b: State)
    requires Good(t, p, a) && Good(t, p, b) && Unreserved(p) && a.packVersion == b.packVersion
    ensures SameIntent(SubmissionOf(p, a), SubmissionOf(p, b))
            <==> a.selected == b.selected && a.fieldValues == b.fieldValues && a.location == b.location
  {
    hide Good;
    hide Unreserved;
    hide Reserved;
    forall k | k in a.fieldValues ensures !Reserved(k) && k != "service_location" { UnreservedValues(t, p, a, k); }
    forall k | k in b.fieldValues ensures !Reserved(k) && k != "service_location" { UnreservedValues(t, p, b, k); }
    assert Plain(a) && Plain(b);
    if DetailsOf(p, a) == DetailsOf(p, b) {
      DetailsDetermine(p, a, b);
    } else {
      SameFormSameDetails(p, a, b);
    }
  }

  lemma SameFormSameDetails(p: PackDefinition, a: State, b: State)
    requires a.packVersion == b.packVersion
    ensures a.selected == b.selected && a.fieldValues == b.fieldValues && a.location == b.location ==> DetailsOf(p, a) == DetailsOf(p, b)
  {
    hide Labels;
  }

  /** One uninterrupted confirmation. */
  function Confirmed(t: Texts, w: World, worker: nat): World {
    Next(t, Next(t, Next(t, Next(t, w, Read(worker)), Think(worker, "", Confirm)), Land(worker)), Land(worker))
  }

  lemma ConfirmedWorld(t: Texts, w: World, worker: nat, s: State)
    requires w.session == Some(s) && 1 <= s.packVersion <= |w.book.published| && s.step.AwaitConfirm? && s.selected != []
    ensures var sub, w' := SubmissionOf(w.book.published[s.packVersion - 1], s), Confirmed(t, w, worker);
            && w'.orders == (if sub.id in w.orders then w.orders else w.orders[sub.id := sub])
            && w'.session == if Conflicts(w, Submit(sub)) then Some(s) else None
  {
    hide SubmissionOf;
    var sub := SubmissionOf(w.book.published[s.packVersion - 1], s);
    var w2 := Next(t, Next(t, w, Read(worker)), Think(worker, "", Confirm));
    assert w2.pending[worker] == [Submit(sub), Clear];
    assert [Submit(sub), Clear][1..] == [Clear] && [Clear][1..] == [];
  }

  /** A confirmation delivered again after its order was created, the session not yet cleared: no
      order changes, and the session is cleared if and only if it still has the intent of the
      order, that is, in an edition without reserved field keys, if choice, answers and place are
      what they were at the first confirmation. Otherwise the creation conflicts and the session
      stays open. */
  lemma ConfirmedAgain(t: Texts, schedule: seq<Action>, worker: nat, first: State, now: State)
    requires Honest(t) && Run(t, schedule).session == Some(now) && now.step.AwaitConfirm? && now.selected != []
    requires now.submissionId == first.submissionId && now.packVersion == first.packVersion
    requires GoodState(t, Run(t, schedule).book, first)
    requires var w, p := Run(t, schedule), Run(t, schedule).book.published[first.packVersion - 1];
             first.submissionId in w.orders && w.orders[first.submissionId] == SubmissionOf(p, first)
    ensures var w, w' := Run(t, schedule), Confirmed(t, Run(t, schedule), worker);
            var p := w.book.published[first.packVersion - 1];
            && w'.orders == w.orders
            && (w'.session.None? <==> SameIntent(SubmissionOf(p, first), SubmissionOf(p, now)))
            && (w'.session.Some? ==> w'.session == w.session)
            && (Unreserved(p) ==>
                  (w'.session.None? <==> now.selected == first.selected && now.fieldValues == first.fieldValues && now.location == first.location))
  {
    hide Good;
    hide GoodSubmission;
    hide Confirmed;
    hide Run;
    hide Unreserved;
    hide SameIntent;
    hide DetailsOf;
    SessionsAreGood(t, schedule);
    var w := Run(t, schedule);
    var p := w.book.published[first.packVersion - 1];
    ConfirmedWorld(t, w, worker, now);
    if Unreserved(p) { IntentIsTheForm(t, p, first, now); }
  }

  lemma SessionsAreGood(t: Texts, schedule: seq<Action>)
    requires Honest(t)
    ensures GoodSession(t, Run(t, schedule).book, Run(t, schedule).session)
  {
    hide GoodState;
    hide Run;
    RunKeepsGood(t, schedule);
  }

  /** An order's submission never changes, whatever is confirmed later under its id. */
  lemma {:induction false} OrdersStand(t: Texts, schedule: seq<Action>, more: seq<Action>, id: string)
    requires id in Run(t, schedule).orders
    ensures id in Run(t, schedule + more).orders && Run(t, schedule + more).orders[id] == Run(t, schedule).orders[id]
  {
    hide Handle;
    if more == [] {
      assert schedule + more == schedule;
    } else {
      var n := |more| - 1;
      OrdersStand(t, schedule, more[..n], id);
      assert (schedule + more)[..|schedule + more| - 1] == schedule + more[..n];
    }
  }

  // A field that hides the services ---------------------------------------------------------------------

  const SHADOWING_FIELD := FieldDefinition("service_keys", "Service keys", FieldType.Text, true, [], "", 2)
  const ADDRESS_FIELD := FieldDefinition("address", "Address", FieldType.Address, true, [], "", 1)

  /** A pack that passes the validation and has a field keyed `service_keys`. */
  const SHADOWING_PACK := PackDefinition(
    Branding("b", "", ""), ServiceCatalog([ServiceCategory("repair", "Repair")], true), [ADDRESS_FIELD, SHADOWING_FIELD],
    Evidence(0, false, false, false), DEFAULT_ROLE_LABELS, Curated)

  /** One message, handled by one worker without interruption, with a single write. */
  function Turn(id: string, input: Input): seq<Action> {
    [Read(0), Think(0, id, input), Land(0)]
  }

  lemma RunSnoc(t: Texts, schedule: seq<Action>, a: Action)
    ensures Run(t, schedule + [a]) == Next(t, Run(t, schedule), a)
  {
    assert (schedule + [a])[..|schedule|] == schedule;
  }

  lemma RunThree(t: Texts, schedule: seq<Action>, a: Action, b: Action, c: Action)
    ensures Run(t, schedule + [a, b, c]) == Next(t, Next(t, Next(t, Run(t, schedule), a), b), c)
  {
    hide Next;
    hide Run;
    assert schedule + [a, b, c] == schedule + [a] + [b] + [c];
    RunSnoc(t, schedule + [a] + [b], c);
    RunSnoc(t, schedule + [a], b);
    RunSnoc(t, schedule, a);
  }

  /** The client's session and what has been submitted. */
  ghost predicate At(t: Texts, schedule: seq<Action>, b: PackStore.Book, session: Option<State>, submitted: seq<Submission>) {
    Run(t, schedule).book == b && Run(t, schedule).session == session && Run(t, schedule).submitted == submitted
  }

  lemma Turns(t: Texts, schedule: seq<Action>, b: PackStore.Book, session: Option<State>, submitted: seq<Submission>,
              id: string, input: Input, after: State)
    requires At(t, schedule, b, session, submitted) && Handle(t, b, session, id, input) == [Put(after)]
    ensures At(t, schedule + Turn(id, input), b, Some(after), submitted)
  {
    hide Handle;
    hide Run;
    RunThree(t, schedule, Read(0), Think(0, id, input), Land(0));
  }

  lemma LastTurn(t: Texts, schedule: seq<Action>, b: PackStore.Book, session: Option<State>, id: string, input: Input, sub: Submission)
    requires At(t, schedule, b, session, []) && Handle(t, b, session, id, input) == [Submit(sub), Clear]
    ensures At(t, schedule + Turn(id, input), b, session, [sub])
  {
    hide Handle;
    hide Run;
    RunThree(t, schedule, Read(0), Think(0, id, input), Land(0));
  }

  lemma ShadowingPackIsFormed()
    ensures Formed(SHADOWING_PACK) && DistinctFields(SHADOWING_PACK.fields) && Labelled(SHADOWING_PACK)
    ensures Ordered(SHADOWING_PACK.fields)
  {
  }

  lemma ShadowingPackIsPublishable()
    ensures Formed(SHADOWING_PACK) && DistinctFields(SHADOWING_PACK.fields) && Labelled(SHADOWING_PACK)
    ensures PackStore.Publishable(SHADOWING_PACK) && OrderedFields(SHADOWING_PACK.fields) == SHADOWING_PACK.fields
  {
    hide Formed;
    hide DistinctFields;
    hide Labelled;
    hide Ordered;
    hide OrderedFields;
    ShadowingPackIsFormed();
    assert !IsSpace("b"[0]);
    hide Blank;
    assert SHADOWING_PACK.fields[0] in SHADOWING_PACK.fields;
    OrderedIsFixed(SHADOWING_PACK.fields);
  }

  const PUBLISHING := [Admin(PackStore.EnsureDraft(SHADOWING_PACK)), Admin(PackStore.PublishDraft)]
  const SHADOWING_BOOK := PackStore.Book([SHADOWING_PACK], None)

  lemma Published(t: Texts)
    ensures At(t, PUBLISHING, SHADOWING_BOOK, None, [])
  {
    hide PackStore.Publishable;
    ShadowingPackIsPublishable();
    hide Formed;
    hide OrderedFields;
    var draft, publish := Admin(PackStore.EnsureDraft(SHADOWING_PACK)), Admin(PackStore.PublishDraft);
    assert DEFAULT_ROLE_LABELS + DEFAULT_ROLE_LABELS == DEFAULT_ROLE_LABELS;
    assert [] + [draft] == [draft] && [draft] + [publish] == PUBLISHING;
    RunSnoc(t, [], draft);
    RunSnoc(t, [draft], publish);
    assert PackStore.BLANK_BOOK.published + [SHADOWING_PACK] == [SHADOWING_PACK];
  }

  lemma PlainWords()
    ensures Trim("1234567", 500) == "1234567" && Trim("Street", 500) == "Street" && Trim("x", 500) == "x"
    ensures PhoneAccepted("1234567")
  {
    assert Strip("1234567") == "1234567" && Strip("Street") == "Street" && Strip("x") == "x";
    DenseDigits();
  }

  const PHONE: map<string, string> := map["phone" := "1234567"]
  const PLACED: map<string, string> := PHONE["address" := "Street"]

  const AT_SERVICES := State(PickServices, "1", 1, PLACED, [], 0, None)
  const AT_FIELD := State(AskFields, "1", 1, PLACED, ["repair"], 1, None)
  const AT_CONFIRM := State(AwaitConfirm, "1", 1, PLACED["service_keys" := "x"], ["repair"], 2, None)

  lemma PhoneAndAddress(t: Texts) returns (schedule: seq<Action>)
    ensures At(t, schedule, SHADOWING_BOOK, Some(AT_SERVICES), [])
  {
    hide At;
    hide Run;
    hide OrderedFields;
    hide Trim;
    hide PhoneAccepted;
    Published(t);
    PlainWords();
    var b := SHADOWING_BOOK;
    var s0, s1 := State(AskPhone, "1", 1, map[], [], 0, None), State(AskAddress, "1", 1, PHONE, [], 0, None);
    Turns(t, PUBLISHING, b, None, [], "1", Start, s0);
    schedule := PUBLISHING + Turn("1", Start);
    Turns(t, schedule, b, Some(s0), [], "", Said("1234567"), s1);
    schedule := schedule + Turn("", Said("1234567"));
    Turns(t, schedule, b, Some(s1), [], "", Said("Street"), AT_SERVICES);
    schedule := schedule + Turn("", Said("Street"));
  }

  lemma ServicePickedAndField(t: Texts) returns (schedule: seq<Action>)
    ensures At(t, schedule, SHADOWING_BOOK, Some(AT_FIELD), [])
  {
    hide At;
    hide Run;
    hide OrderedFields;
    ShadowingPackIsPublishable();
    var b, p := SHADOWING_BOOK, SHADOWING_PACK;
    schedule := PhoneAndAddress(t);
    var picked := AT_SERVICES.(selected := ["repair"]);
    assert p.serviceCatalog.categories[0].key in Offered(p);
    assert AT_SERVICES.selected + ["repair"] == picked.selected;
    Turns(t, schedule, b, Some(AT_SERVICES), [], "", Pick("repair"), picked);
    schedule := schedule + Turn("", Pick("repair"));
    assert FirstMissing(p.fields, PLACED, 0) == 1;
    Turns(t, schedule, b, Some(picked), [], "", ServicesDone, AT_FIELD);
    schedule := schedule + Turn("", ServicesDone);
  }

  lemma FieldAnswered(t: Texts) returns (schedule: seq<Action>)
    ensures At(t, schedule, SHADOWING_BOOK, Some(AT_CONFIRM), [])
  {
    hide At;
    hide Run;
    hide OrderedFields;
    hide Trim;
    ShadowingPackIsPublishable();
    PlainWords();
    schedule := ServicePickedAndField(t);
    assert FieldFilled(t, SHADOWING_PACK, AT_FIELD, "x") == AT_CONFIRM;
    Turns(t, schedule, SHADOWING_BOOK, Some(AT_FIELD), [], "", Said("x"), AT_CONFIRM);
    schedule := schedule + Turn("", Said("x"));
  }

  /** A run of the whole system: the pack is drafted and published, a client starts, gives
      phone and address, picks the one service, answers the field with "x" and confirms. The
      submitted details hold the answer where the list of services should be. */
  lemma AFieldMayHideTheServices(t: Texts) returns (schedule: seq<Action>)
    ensures PackStore.Publishable(SHADOWING_PACK)
    ensures var w := Run(t, schedule);
            && w.book.published == [SHADOWING_PACK] && |w.submitted| == 1
            && w.submitted[0].packVersion == 1 && w.submitted[0].selected == ["repair"]
            && "service_keys" in w.submitted[0].details && w.submitted[0].details["service_keys"] == Value("x") != Listed(["repair"])
  {
    hide At;
    hide Run;
    hide OrderedFields;
    hide PackStore.Publishable;
    hide Labels;
    ShadowingPackIsPublishable();
    var sub := SubmissionOf(SHADOWING_PACK, AT_CONFIRM);
    schedule := FieldAnswered(t);
    LastTurn(t, schedule, SHADOWING_BOOK, Some(AT_CONFIRM), "", Confirm, sub);
    schedule := schedule + Turn("", Confirm);
    Submitted(t, schedule, SHADOWING_BOOK, Some(AT_CONFIRM), sub);
  }

  lemma Submitted(t: Texts, schedule: seq<Action>, b: PackStore.Book, session: Option<State>, sub: Submission)
    requires At(t, schedule, b, session, [sub])
    ensures Run(t, schedule).book == b && Run(t, schedule).submitted == [sub]
  {
  }

  lemma DenseDigits()
    ensures Dense("1234567") == "1234567"
  {
    assert "7"[1..] == "" && "67"[1..] == "7" && "567"[1..] == "67" && "4567"[1..] == "567";
    assert Dense("567") == "567";
    assert "34567"[1..] == "4567" && "234567"[1..] == "34567" && "1234567"[1..] == "234567";
    assert Dense("34567") == "34567";
  }
}
