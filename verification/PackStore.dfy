/** The revision table of one organization's packs, and the book of editions it stands for. */
module PackStore {
  import opened Prelude
  import opened Catalog

  datatype Stage = Draft | Active | Archived

  /** One row of `org_packs`, keyed by version; the definition is stored as JSON. */
  datatype Row = Row(stage: Stage, definition: Json)

  type Table = map<nat, Row>

  datatype PackRevision = PackRevision(version: nat, stage: Stage, definition: PackDefinition)

  predicate Publishable(p: PackDefinition) {
    && !Blank(p.branding.name)
    && p.serviceCatalog.categories != []
    && exists f :: f in p.fields && (f.fieldType.Address? || f.key == "address")
  }

  // The book of editions: no rows, stages, versions or JSON ----------------------------------

  /** Every edition ever published, oldest first, and the draft of the next one. */
  datatype Book = Book(published: seq<PackDefinition>, draft: Option<PackDefinition>)

  const BLANK_BOOK := Book([], None)

  datatype Action =
    | Bootstrap(seed: PackDefinition)
    | EnsureDraft(seed: PackDefinition)
    | UpdateDraft(definition: PackDefinition)
    | DiscardDraft
    | RestoreAsDraft(version: int)
    | PublishDraft

  function Next(b: Book, a: Action): Book {
    match a
    case Bootstrap(seed) => if b == BLANK_BOOK then Book([WithDefaults(seed)], None) else b
    case EnsureDraft(seed) => if b.draft.None? then b.(draft := Some(WithDefaults(seed))) else b
    case UpdateDraft(p) => if b.draft.None? then b else b.(draft := Some(WithDefaults(p)))
    case DiscardDraft => b.(draft := None)
    case RestoreAsDraft(v) => if 1 <= v <= |b.published| then b.(draft := Some(b.published[v - 1])) else b
    case PublishDraft =>
      if b.draft.Some? && Publishable(b.draft.value) then Book(b.published + [b.draft.value], None) else b
  }

  function Run(schedule: seq<Action>): Book {
    if schedule == [] then BLANK_BOOK else Next(Run(schedule[..|schedule| - 1]), schedule[|schedule| - 1])
  }

  /** Callers hand over constructed packs. */
  predicate Proper(a: Action) {
    match a
    case Bootstrap(seed) => Formed(seed)
    case EnsureDraft(seed) => Formed(seed)
    case UpdateDraft(p) => Formed(p)
    case _ => true
  }

  // How a table stands for a book ------------------------------------------------------------

  function Versions(b: Book): nat {
    |b.published| + if b.draft.Some? then 1 else 0
  }

  /** Versions are numbered without gaps; the newest edition is active, older ones are
      archived, the draft comes last. */
  function Shelved(b: Book, v: nat): (Stage, PackDefinition)
    requires 1 <= v <= Versions(b)
  {
    if v > |b.published| then (Draft, b.draft.value)
    else (if v == |b.published| then Active else Archived, b.published[v - 1])
  }

  ghost predicate Holds(t: Table, b: Book) {
    && (forall v :: v in t <==> 1 <= v <= Versions(b))
    && (forall v :: v in t ==> (t[v].stage, FromJson(t[v].definition)) == (Shelved(b, v).0, Success(Shelved(b, v).1)))
  }

  /** Every edition reads back formed and fully labelled. */
  ghost predicate Readable(b: Book) {
    && (forall p :: p in b.published ==> Formed(p) && Labelled(p))
    && (b.draft.Some? ==> Formed(b.draft.value) && Labelled(b.draft.value))
  }

  lemma HeldBooksAreReadable(t: Table, b: Book)
    requires Holds(t, b)
    ensures Readable(b)
  {
    hide FromJson;
    hide Formed;
    forall v: nat | 1 <= v <= Versions(b) ensures Formed(Shelved(b, v).1) && Labelled(Shelved(b, v).1) {
      assert v in t;
      ReadingIsStable(t[v].definition);
    }
    forall p | p in b.published ensures Formed(p) && Labelled(p) {
      var i :| 0 <= i < |b.published| && b.published[i] == p;
      assert Shelved(b, i + 1).1 == p;
    }
    if b.draft.Some? { assert Shelved(b, Versions(b)).1 == b.draft.value; }
  }

  /** In a table that stands for a book exactly one row is active once anything is published
      and at most one is a draft; the draft's version exceeds every other; two tables that
      stand for one book agree on every reading. */
  lemma ShapeOfTables(t: Table, b: Book, v: nat, w: nat)
    requires Holds(t, b) && v in t && w in t
    ensures t[v].stage.Active? && t[w].stage.Active? ==> v == w
    ensures t[v].stage.Draft? && t[w].stage.Draft? ==> v == w
    ensures t[v].stage.Draft? && v != w ==> w < v
    ensures t[v].stage.Active? && t[w].stage.Archived? ==> w < v
    ensures b.published != [] ==> |b.published| in t && t[|b.published|].stage.Active?
  {
  }

  class PostgresPackStore {
    var rows: Table
    ghost var book: Book

    ghost predicate Valid()
      reads this
    {
      Holds(rows, book)
    }

    constructor ()
      ensures Valid() && book == BLANK_BOOK
    {
      rows, book := map[], BLANK_BOOK;
    }

    method NextVersion() returns (next: nat)
      requires Valid()
      ensures next == Versions(book) + 1
    {
      assert Versions(book) > 0 ==> Versions(book) in rows;
      if rows == map[] {
        next := 1;
      } else {
        assert Versions(book) in rows by { var v :| v in rows; }
        var max: nat :| max in rows && forall v :: v in rows ==> v <= max;
        next := max + 1;
      }
    }

    /** The version of the draft row. */
    method DraftVersion() returns (version: Option<nat>)
      requires Valid()
      ensures version == if book.draft.Some? then Some(Versions(book)) else None
    {
      assert book.draft.Some? ==> Versions(book) in rows && rows[Versions(book)].stage.Draft?;
      if v :| v in rows && rows[v].stage.Draft? {
        version := Some(v);
      } else {
        version := None;
      }
    }

    method ActiveRevision() returns (r: Option<PackRevision>)
      requires Valid()
      ensures r == if book.published == [] then None
                   else Some(PackRevision(|book.published|, Active, book.published[|book.published| - 1]))
    {
      assert book.published != [] ==> |book.published| in rows && rows[|book.published|].stage.Active?;
      if v :| v in rows && rows[v].stage.Active? {
        r := Some(PackRevision(v, Active, FromJson(rows[v].definition).value));
      } else {
        r := None;
      }
    }

    /** A published edition, for ever the same one; never a draft. */
    method Revision(version: int) returns (r: Option<PackRevision>)
      requires Valid()
      ensures r.Some? <==> 1 <= version <= |book.published|
      ensures r.Some? ==>
                r.value == PackRevision(version, if version == |book.published| then Active else Archived, book.published[version - 1])
    {
      if version >= 0 && version in rows && !rows[version].stage.Draft? {
        r := Some(PackRevision(version, rows[version].stage, FromJson(rows[version].definition).value));
      } else {
        r := None;
      }
    }

    method ReadDraft() returns (p: Option<PackDefinition>)
      requires Valid()
      ensures p == book.draft
    {
      var version := DraftVersion();
      p := if version.Some? then Some(FromJson(rows[version.value].definition).value) else None;
    }

    method EnsureDraft(seed: PackDefinition) returns (p: PackDefinition)
      requires Valid() && Formed(seed)
      modifies this
      ensures Valid() && book == Next(old(book), Action.EnsureDraft(seed))
      ensures p == if old(book).draft.Some? then old(book).draft.value else seed
    {
      hide FromJson;
      hide ToJson;
      var existing := ReadDraft();
      if existing.Some? { return existing.value; }
      var version := NextVersion();
      ReadBack(seed);
      rows := rows[version := Row(Draft, ToJson(seed))];
      book := Next(book, Action.EnsureDraft(seed));
      p := seed;
    }

    method UpdateDraft(p: PackDefinition) returns (r: Result<()>)
      requires Valid() && Formed(p)
      modifies this
      ensures Valid() && book == Next(old(book), Action.UpdateDraft(p))
      ensures r == if old(book).draft.Some? then Success(()) else Failure(NotFound)
    {
      hide FromJson;
      hide ToJson;
      var version := DraftVersion();
      ReadBack(p);
      ghost var before := rows;
      rows := map v | v in rows :: if rows[v].stage.Draft? then Row(Draft, ToJson(p)) else rows[v];
      book := Next(book, Action.UpdateDraft(p));
      assert forall v :: v in rows <==> v in before;
      r := if version.Some? then Success(()) else Failure(NotFound);
    }

    method DiscardDraft() returns (deleted: bool)
      requires Valid()
      modifies this
      ensures Valid() && book == Next(old(book), Action.DiscardDraft)
      ensures deleted == old(book).draft.Some?
    {
      hide FromJson;
      var version := DraftVersion();
      rows := map v | v in rows && !rows[v].stage.Draft? :: rows[v];
      book := Next(book, Action.DiscardDraft);
      deleted := version.Some?;
    }

    method RestoreAsDraft(version: int) returns (r: Result<nat>)
      requires Valid()
      modifies this
      ensures Valid() && book == Next(old(book), Action.RestoreAsDraft(version))
      ensures r == if 1 <= version <= |old(book).published| then Success(|old(book).published| + 1) else Failure(NotFound)
    {
      hide FromJson;
      if version < 0 || version !in rows || rows[version].stage.Draft? { return Failure(NotFound); }
      var source := rows[version].definition;
      var draft := DraftVersion();
      var target: nat;
      if draft.Some? {
        target := draft.value;
        rows := rows[target := rows[target].(definition := source)];
      } else {
        target := NextVersion();
        rows := rows[target := Row(Draft, source)];
      }
      book := Next(book, Action.RestoreAsDraft(version));
      r := Success(target);
    }

    method ValidateDefinition(p: PackDefinition) returns (ok: bool)
      ensures ok == Publishable(p)
    {
      if Blank(p.branding.name) || p.serviceCatalog.categories == [] { return false; }
      var i := 0;
      while i < |p.fields|
        invariant 0 <= i <= |p.fields|
        invariant forall j :: 0 <= j < i ==> !p.fields[j].fieldType.Address? && p.fields[j].key != "address"
      {
        if p.fields[i].fieldType.Address? || p.fields[i].key == "address" {
          assert p.fields[i] in p.fields;
          return true;
        }
        i := i + 1;
      }
      return false;
    }

    method PublishDraft() returns (r: Result<nat>)
      requires Valid()
      modifies this
      ensures Valid() && book == Next(old(book), Action.PublishDraft)
      ensures r == if old(book).draft.None? then Failure(NotFound)
                   else if Publishable(old(book).draft.value) then Success(|old(book).published| + 1)
                   else Failure(ValueError)
    {
      hide FromJson;
      hide Publishable;
      var version := DraftVersion();
      if version.None? { return Failure(NotFound); }
      assert version.value in rows;
      var definition := FromJson(rows[version.value].definition).value;
      var ok := ValidateDefinition(definition);
      if !ok { return Failure(ValueError); }
      ghost var before := rows;
      rows := map v | v in rows :: if rows[v].stage.Active? then rows[v].(stage := Archived) else rows[v];
      rows := rows[version.value := rows[version.value].(stage := Active)];
      assert forall v :: v in rows <==> v in before;
      book := Next(book, Action.PublishDraft);
      r := Success(version.value);
    }

    method BootstrapActive(seed: PackDefinition) returns (inserted: bool)
      requires Valid() && Formed(seed)
      modifies this
      ensures Valid() && book == Next(old(book), Bootstrap(seed))
      ensures inserted == (old(book) == BLANK_BOOK)
    {
      hide FromJson;
      hide ToJson;
      ReadBack(seed);
      assert rows == map[] <==> book == BLANK_BOOK by {
        if rows == map[] { assert 1 !in rows; assert Versions(book) == 0; }
      }
      if rows != map[] { return false; }
      rows := rows[1 := Row(Active, ToJson(seed))];
      book := Next(book, Bootstrap(seed));
      inserted := true;
    }
  }

  // Whole runs -------------------------------------------------------------------------------

  /** Editions are only ever appended: what a pinned version means never changes. */
  lemma {:induction false} EditionsStand(past: seq<Action>, future: seq<Action>)
    ensures Run(past).published <= Run(past + future).published
  {
    if future == [] {
      assert past + future == past;
    } else {
      var n := |future| - 1;
      EditionsStand(past, future[..n]);
      assert (past + future)[..|past + future| - 1] == past + future[..n];
    }
  }

  /** A pinned version reads the same from any later table. */
  lemma PinnedRevisionsReadAlike(past: seq<Action>, future: seq<Action>, t: Table, u: Table, v: nat)
    requires Holds(t, Run(past)) && Holds(u, Run(past + future))
    requires v in t && !t[v].stage.Draft?
    ensures v in u && !u[v].stage.Draft? && FromJson(u[v].definition) == FromJson(t[v].definition)
  {
    EditionsStand(past, future);
    var b, c := Run(past), Run(past + future);
    assert b.published[v - 1] == c.published[v - 1];
  }

  lemma {:induction false} RunsAreReadable(schedule: seq<Action>)
    requires forall i :: 0 <= i < |schedule| ==> Proper(schedule[i])
    ensures Readable(Run(schedule))
  {
    hide Formed;
    hide Publishable;
    if schedule != [] {
      var n := |schedule| - 1;
      RunsAreReadable(schedule[..n]);
      var a := schedule[n];
      match a {
        case Bootstrap(p) => FillingKeepsForm(p);
        case EnsureDraft(p) => FillingKeepsForm(p);
        case UpdateDraft(p) => FillingKeepsForm(p);
        case _ =>
      }
    }
  }

  lemma FillingKeepsForm(p: PackDefinition)
    requires Formed(p)
    ensures Formed(WithDefaults(p)) && Labelled(WithDefaults(p))
  {
  }

  /** Publishing turns the draft, as it reads, into the next edition exactly when the brand has a
      name, there is a service to choose and an address is asked for. */
  lemma DraftsPublishExactly(schedule: seq<Action>)
    ensures var b, b' := Run(schedule), Run(schedule + [Action.PublishDraft]);
            if b.draft.Some? && (exists i :: 0 <= i < |b.draft.value.branding.name| && !IsSpace(b.draft.value.branding.name[i]))
               && |b.draft.value.serviceCatalog.categories| >= 1
               && exists j :: 0 <= j < |b.draft.value.fields| && (b.draft.value.fields[j].fieldType.Address? || b.draft.value.fields[j].key == "address")
            then b'.published == b.published + [b.draft.value] && b'.draft == None
            else b' == b
  {
    assert (schedule + [Action.PublishDraft])[..|schedule|] == schedule;
    var b := Run(schedule);
    if b.draft.Some? && Publishable(b.draft.value) {
      var f :| f in b.draft.value.fields && (f.fieldType.Address? || f.key == "address");
      var j :| 0 <= j < |b.draft.value.fields| && b.draft.value.fields[j] == f;
    }
  }

  /** An edition published by hand passed the validation; only a bootstrap can skip it. */
  lemma {:induction false} EditionsAreValidated(schedule: seq<Action>, v: nat)
    requires 1 <= v <= |Run(schedule).published|
    ensures Publishable(Run(schedule).published[v - 1]) || (v == 1 && exists i :: 0 <= i < |schedule| && schedule[i].Bootstrap?)
  {
    hide Publishable;
    var n := |schedule| - 1;
    if v <= |Run(schedule[..n]).published| {
      EditionsStand(schedule[..n], [schedule[n]]);
      assert schedule[..n] + [schedule[n]] == schedule;
      EditionsAreValidated(schedule[..n], v);
      if !Publishable(Run(schedule).published[v - 1]) {
        var i :| 0 <= i < n && schedule[..n][i].Bootstrap?;
        assert schedule[i].Bootstrap?;
      }
    }
  }

  /** The last action that set the draft decides what it reads: the pack written then, with
      the default labels filled in. */
  ghost predicate WrittenAt(schedule: seq<Action>, i: nat, p: PackDefinition) {
    && i < |schedule|
    && match schedule[i]
       case UpdateDraft(q) => p == WithDefaults(q)
       case EnsureDraft(q) => Run(schedule[..i]).draft.None? && p == WithDefaults(q)
       case RestoreAsDraft(v) => 1 <= v <= |Run(schedule[..i]).published| && p == Run(schedule[..i]).published[v - 1]
       case _ => false
  }

  ghost predicate NotRewrittenAfter(schedule: seq<Action>, i: nat) {
    forall j :: i < j < |schedule| ==>
      && !schedule[j].UpdateDraft? && !schedule[j].DiscardDraft?
      && (schedule[j].RestoreAsDraft? ==> !(1 <= schedule[j].version <= |Run(schedule[..j]).published|))
  }

  lemma {:induction false} DraftReadsLastWrite(schedule: seq<Action>) returns (i: nat)
    requires Run(schedule).draft.Some?
    ensures WrittenAt(schedule, i, Run(schedule).draft.value) && NotRewrittenAfter(schedule, i)
  {
    hide Publishable;
    var n := |schedule| - 1;
    var before := Run(schedule[..n]);
    if schedule[n].UpdateDraft? || (schedule[n].EnsureDraft? && before.draft.None?)
       || (schedule[n].RestoreAsDraft? && 1 <= schedule[n].version <= |before.published|) {
      i := n;
    } else {
      i := DraftReadsLastWrite(schedule[..n]);
      assert schedule[..n][..i] == schedule[..i];
      forall j | i < j < n ensures schedule[..n][..j] == schedule[..j] {}
      assert schedule[..n][i] == schedule[i];
      forall j | i < j < |schedule|
        ensures !schedule[j].UpdateDraft? && !schedule[j].DiscardDraft?
        ensures schedule[j].RestoreAsDraft? ==> !(1 <= schedule[j].version <= |Run(schedule[..j]).published|)
      {
        if j < n { assert schedule[..n][j] == schedule[j] && schedule[..n][..j] == schedule[..j]; }
      }
    }
  }
}
