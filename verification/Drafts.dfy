/** The draft editor: fresh keys, moves, the steps of an administrator's session, and what
    survives interleaved editors, stale reads and retries. */
module Drafts {
  import opened Catalog
  import OrderNumbers

  // Fresh keys -------------------------------------------------------------------------------

  function Decimal(n: nat): string {
    (if n < 10 then "" else Decimal(n / 10)) + [OrderNumbers.Digit(n % 10)]
  }

  function DecimalValue(s: string): nat {
    if s == "" then 0 else DecimalValue(s[..|s| - 1]) * 10 + OrderNumbers.DigitValue(s[|s| - 1])
  }

  lemma {:induction false} DecimalInverts(n: nat)
    ensures DecimalValue(Decimal(n)) == n
  {
    OrderNumbers.DigitsInvert(n % 10);
    hide OrderNumbers.Digit;
    hide OrderNumbers.DigitValue;
    var s := Decimal(n);
    if n < 10 {
      assert s[..|s| - 1] == "";
    } else {
      assert s[..|s| - 1] == Decimal(n / 10);
      DecimalInverts(n / 10);
    }
  }

  function Suffixed(base: string, index: nat): string {
    base + "_" + Decimal(index)
  }

  lemma SuffixesDiffer(base: string, i: nat, j: nat)
    requires Suffixed(base, i) == Suffixed(base, j)
    ensures i == j
  {
    DecimalInverts(i);
    DecimalInverts(j);
    assert Suffixed(base, i)[|base| + 1..] == Decimal(i);
    assert Suffixed(base, j)[|base| + 1..] == Decimal(j);
  }

  /** The taken keys that are suffixes still to be tried. */
  ghost function Ahead(base: string, taken: set<string>, index: nat): set<string> {
    set key | key in taken && exists j: nat :: j >= index && key == Suffixed(base, j)
  }

  lemma OneFewerAhead(base: string, taken: set<string>, index: nat)
    ensures Suffixed(base, index) in taken ==> |Ahead(base, taken, index + 1)| + 1 == |Ahead(base, taken, index)|
    ensures Suffixed(base, index) !in taken ==> Ahead(base, taken, index + 1) == Ahead(base, taken, index)
  {
    hide Suffixed;
    var key := Suffixed(base, index);
    var later := Ahead(base, taken, index + 1);
    if key in later {
      var j: nat :| j >= index + 1 && key == Suffixed(base, j);
      SuffixesDiffer(base, index, j);
      assert false;
    }
    forall k | k in Ahead(base, taken, index) && k != key ensures k in later {
      var j: nat :| j >= index && k == Suffixed(base, j);
      assert j >= index + 1;
    }
    if key in taken { assert Ahead(base, taken, index) == later + {key}; }
  }

  ghost predicate TakenBetween(base: string, taken: set<string>, from: nat, to: nat) {
    forall j :: from <= j < to ==> Suffixed(base, j) in taken
  }

  lemma TakenOneMore(base: string, taken: set<string>, from: nat, to: nat)
    requires Suffixed(base, from) in taken && TakenBetween(base, taken, from + 1, to)
    ensures TakenBetween(base, taken, from, to)
  {
    hide Suffixed;
  }

  /** The least free suffix from `index` on; it exists because `taken` is finite. */
  ghost function FirstFree(base: string, taken: set<string>, index: nat): (n: nat)
    ensures n >= index && Suffixed(base, n) !in taken
    ensures TakenBetween(base, taken, index, n)
    decreases |Ahead(base, taken, index)|
  {
    if Suffixed(base, index) in taken then
      OneFewerAhead(base, taken, index);
      var n := FirstFree(base, taken, index + 1);
      TakenOneMore(base, taken, index, n);
      n
    else index
  }

  /** The key chosen for a new item: the base itself, or its least free numbering from 2. */
  ghost function SlugOf(base: string, prefix: string, taken: set<string>): (key: string)
    ensures key !in taken
    ensures prefix != "" ==> key != ""
  {
    var stem := if base == "" then prefix else base;
    if stem !in taken then stem else Suffixed(stem, FirstFree(stem, taken, 2))
  }

  /** The search of `_slug`; `base` is the label after Unicode folding and squeezing. */
  method Slug(base: string, prefix: string, taken: set<string>) returns (key: string)
    ensures key == SlugOf(base, prefix, taken)
    ensures key !in taken
  {
    hide Suffixed;
    hide Ahead;
    var stem := if base == "" then prefix else base;
    key := stem;
    var index := 2;
    while key in taken
      invariant index >= 2
      invariant key == if index == 2 then stem else Suffixed(stem, index - 1)
      invariant index > 2 ==> stem in taken && forall j :: 2 <= j < index - 1 ==> Suffixed(stem, j) in taken
      decreases |Ahead(stem, taken, index)| + if key in taken then 1 else 0
    {
      OneFewerAhead(stem, taken, index);
      key := Suffixed(stem, index);
      index := index + 1;
    }
  }

  // Moves ------------------------------------------------------------------------------------

  function CategoryKey(c: ServiceCategory): string { c.key }

  function FieldKey(f: FieldDefinition): string { f.key }

  function Position<T>(items: seq<T>, keyOf: T -> string, key: string): (i: nat)
    ensures i <= |items|
    ensures forall j :: 0 <= j < i ==> keyOf(items[j]) != key
    ensures i < |items| ==> keyOf(items[i]) == key
  {
    if items == [] then 0 else if keyOf(items[0]) == key then 0 else 1 + Position(items[1..], keyOf, key)
  }

  function Swapped<T>(items: seq<T>, i: nat, j: nat): seq<T>
    requires i < |items| && j < |items|
  {
    items[i := items[j]][j := items[i]]
  }

  /** The item with this key trades places with its neighbour in the given direction, if both exist. */
  function Moved<T>(items: seq<T>, keyOf: T -> string, key: string, direction: string): seq<T> {
    var i := Position(items, keyOf, key);
    if direction == "up" && 0 < i < |items| then Swapped(items, i, i - 1)
    else if direction == "down" && i + 1 < |items| then Swapped(items, i, i + 1)
    else items
  }

  method MoveItem<T>(items: seq<T>, keyOf: T -> string, key: string, direction: string) returns (r: seq<T>)
    ensures r == Moved(items, keyOf, key, direction)
  {
    var values := items;
    var index := 0;
    while index < |values| && keyOf(values[index]) != key
      invariant 0 <= index <= |values|
      invariant forall j :: 0 <= j < index ==> keyOf(values[j]) != key
    {
      index := index + 1;
    }
    if index == |values| { return items; }
    var target := if direction == "up" then index - 1 else index + 1;
    if (direction != "up" && direction != "down") || target < 0 || target >= |values| { return items; }
    values := values[index := values[target]][target := values[index]];
    return values;
  }

  lemma SwapPermutes<T>(items: seq<T>, i: nat, j: nat)
    requires i < |items| && j < |items|
    ensures multiset(Swapped(items, i, j)) == multiset(items)
  {
  }

  /** Up is one place towards the front and down one towards the end, for the item with this key and
      its neighbour only. */
  lemma MovesGoOneStep<T>(items: seq<T>, keyOf: T -> string, key: string, direction: string, i: nat)
    requires i < |items| && keyOf(items[i]) == key && forall j, k :: 0 <= j < k < |items| ==> keyOf(items[j]) != keyOf(items[k])
    ensures var moved := Moved(items, keyOf, key, direction);
            var at := if direction == "up" && i > 0 then i - 1 else if direction == "down" && i + 1 < |items| then i + 1 else i;
            && |moved| == |items| && moved[at] == items[i] && moved[i] == items[at]
            && forall j :: 0 <= j < |items| && j != i && j != at ==> moved[j] == items[j]
  {
    assert Position(items, keyOf, key) == i;
  }

  lemma MovePermutes<T>(items: seq<T>, keyOf: T -> string, key: string, direction: string)
    ensures multiset(Moved(items, keyOf, key, direction)) == multiset(items)
  {
    var i := Position(items, keyOf, key);
    if direction == "up" && 0 < i < |items| { SwapPermutes(items, i, i - 1); }
    else if direction == "down" && i + 1 < |items| { SwapPermutes(items, i, i + 1); }
  }

  predicate Distinct<T>(items: seq<T>, keyOf: T -> string) {
    forall i, j :: 0 <= i < j < |items| ==> keyOf(items[i]) != keyOf(items[j])
  }

  lemma PositionIsUnique<T>(items: seq<T>, keyOf: T -> string, i: nat)
    requires Distinct(items, keyOf) && i < |items|
    ensures Position(items, keyOf, keyOf(items[i])) == i
  {
  }

  lemma MoveStaysDistinct<T>(items: seq<T>, keyOf: T -> string, key: string, direction: string)
    requires Distinct(items, keyOf)
    ensures Distinct(Moved(items, keyOf, key, direction), keyOf)
  {
  }

  lemma SwapBack<T>(items: seq<T>, keyOf: T -> string, i: nat, j: nat)
    requires Distinct(items, keyOf) && i < |items| && j < |items| && (j == i + 1 || i == j + 1)
    ensures var swapped := Swapped(items, i, j);
            && Position(swapped, keyOf, keyOf(items[i])) == j
            && Swapped(swapped, j, i) == items
            && swapped != items && |swapped| == |items|
  {
    var swapped := Swapped(items, i, j);
    assert Distinct(swapped, keyOf);
    PositionIsUnique(swapped, keyOf, j);
    assert keyOf(swapped[i]) != keyOf(items[i]);
  }

  /** Moving up and then down undoes itself exactly when the first move was not refused at
      the top of a longer list. */
  lemma UpThenDown<T>(items: seq<T>, keyOf: T -> string, key: string)
    requires Distinct(items, keyOf)
    ensures Moved(Moved(items, keyOf, key, "up"), keyOf, key, "down") == items
            <==> !(Position(items, keyOf, key) == 0 && |items| > 1)
  {
    hide Distinct;
    hide Swapped;
    var i := Position(items, keyOf, key);
    if 0 < i < |items| {
      SwapBack(items, keyOf, i, i - 1);
    } else if i == 0 && |items| > 1 {
      SwapBack(items, keyOf, 0, 1);
    }
  }

  /** Moving down and then up undoes itself exactly when the first move was not refused at
      the bottom of a longer list. */
  lemma DownThenUp<T>(items: seq<T>, keyOf: T -> string, key: string)
    requires Distinct(items, keyOf)
    ensures Moved(Moved(items, keyOf, key, "down"), keyOf, key, "up") == items
            <==> !(Position(items, keyOf, key) == |items| - 1 && |items| > 1)
  {
    hide Distinct;
    hide Swapped;
    var i := Position(items, keyOf, key);
    if i + 1 < |items| {
      SwapBack(items, keyOf, i, i + 1);
    } else if i == |items| - 1 && |items| > 1 {
      SwapBack(items, keyOf, i, i - 1);
    }
  }

  /** There is a further neighbour for a second move in the same direction. */
  predicate MovesTwice<T>(items: seq<T>, keyOf: T -> string, key: string, direction: string) {
    var i := Position(items, keyOf, key);
    (direction == "up" && 1 < i < |items|) || (direction == "down" && i + 2 < |items|)
  }

  /** The same move made again changes nothing exactly when it has no further neighbour to pass. */
  lemma MovedAgain<T>(items: seq<T>, keyOf: T -> string, key: string, direction: string)
    requires Distinct(items, keyOf)
    ensures Moved(Moved(items, keyOf, key, direction), keyOf, key, direction) == Moved(items, keyOf, key, direction)
            <==> !MovesTwice(items, keyOf, key, direction)
  {
    MoveStaysDistinct(items, keyOf, key, direction);
    hide Distinct;
    hide Swapped;
    var i, once := Position(items, keyOf, key), Moved(items, keyOf, key, direction);
    if direction == "up" && 0 < i < |items| {
      SwapBack(items, keyOf, i, i - 1);
      if i > 1 { SwapBack(once, keyOf, i - 1, i - 2); }
    } else if direction == "down" && i + 1 < |items| {
      SwapBack(items, keyOf, i, i + 1);
      if i + 2 < |items| { SwapBack(once, keyOf, i + 1, i + 2); }
    }
  }

  // Renumbering --------------------------------------------------------------------------------

  /** `order` becomes the position, counted from 1. */
  function Renumbered(fields: seq<FieldDefinition>): (r: seq<FieldDefinition>)
    ensures |r| == |fields|
    ensures forall i :: 0 <= i < |fields| ==> r[i] == fields[i].(order := i + 1)
  {
    if fields == [] then []
    else
      var n := |fields| - 1;
      Renumbered(fields[..n]) + [fields[n].(order := n + 1)]
  }

  function FieldsMoved(fields: seq<FieldDefinition>, key: string, direction: string): seq<FieldDefinition> {
    Renumbered(Moved(OrderedFields(fields), FieldKey, key, direction))
  }

  /** After a move the form asks the fields in exactly the moved order. */
  lemma MoveIsWhatIsShown(fields: seq<FieldDefinition>, key: string, direction: string)
    ensures OrderedFields(FieldsMoved(fields, key, direction)) == FieldsMoved(fields, key, direction)
  {
    OrderedIsFixed(FieldsMoved(fields, key, direction));
  }

  function Keys(fields: seq<FieldDefinition>): seq<string> {
    if fields == [] then [] else Keys(fields[..|fields| - 1]) + [fields[|fields| - 1].key]
  }

  lemma {:induction false} KeysAt(fields: seq<FieldDefinition>)
    ensures |Keys(fields)| == |fields| && forall i :: 0 <= i < |fields| ==> Keys(fields)[i] == fields[i].key
  {
    if fields != [] { KeysAt(fields[..|fields| - 1]); }
  }

  lemma RenumberingIsBlind(a: seq<FieldDefinition>, b: seq<FieldDefinition>)
    requires |a| == |b| && forall i :: 0 <= i < |a| ==> a[i].(order := 0) == b[i].(order := 0)
    ensures Renumbered(a) == Renumbered(b)
  {
    forall i | 0 <= i < |a| ensures a[i].(order := i + 1) == b[i].(order := i + 1) {
      assert a[i].(order := 0).(order := i + 1) == b[i].(order := 0).(order := i + 1);
    }
  }

  lemma SamePosition(a: seq<FieldDefinition>, b: seq<FieldDefinition>, key: string)
    requires |a| == |b| && forall i :: 0 <= i < |a| ==> a[i].key == b[i].key
    ensures Position(a, FieldKey, key) == Position(b, FieldKey, key)
  {
    var i, j := Position(a, FieldKey, key), Position(b, FieldKey, key);
    assert forall k :: 0 <= k < |a| ==> FieldKey(a[k]) == FieldKey(b[k]);
  }

  lemma RenumberingCommutes(fields: seq<FieldDefinition>, key: string, direction: string)
    ensures Renumbered(Moved(Renumbered(fields), FieldKey, key, direction)) == Renumbered(Moved(fields, FieldKey, key, direction))
  {
    hide Position;
    hide Renumbered;
    var numbered := Renumbered(fields);
    SamePosition(numbered, fields, key);
    RenumberingIsBlind(Moved(numbered, FieldKey, key, direction), Moved(fields, FieldKey, key, direction));
  }

  /** Renumbering forgets nothing but the old numbers: different arrangements of the same fields stay different. */
  lemma ArrangementsDiffer(a: seq<FieldDefinition>, b: seq<FieldDefinition>)
    requires Distinct(b, FieldKey) && multiset(a) == multiset(b) && Renumbered(a) == Renumbered(b)
    ensures a == b
  {
    assert |Renumbered(a)| == |a| && |Renumbered(b)| == |b|;
    forall i | 0 <= i < |a| ensures a[i] == b[i] {
      assert Renumbered(a)[i].key == a[i].key && Renumbered(b)[i].key == b[i].key;
      assert a[i] in multiset(b);
      var j :| 0 <= j < |b| && b[j] == a[i];
      assert FieldKey(b[i]) == FieldKey(b[j]);
    }
  }

  /** Two opposite moves through the editor leave the form asking the same fields in the
      same order, renumbered from 1, exactly unless the first one was refused at the end
      of a longer list. */
  lemma FieldMovesUndo(fields: seq<FieldDefinition>, key: string)
    requires DistinctFields(fields)
    ensures var shown := OrderedFields(fields);
            var i := Position(shown, FieldKey, key);
            && (OrderedFields(FieldsMoved(FieldsMoved(fields, key, "up"), key, "down")) == Renumbered(shown)
                <==> !(i == 0 && |shown| > 1))
            && (OrderedFields(FieldsMoved(FieldsMoved(fields, key, "down"), key, "up")) == Renumbered(shown)
                <==> !(i == |shown| - 1 && |shown| > 1))
  {
    hide Moved;
    hide Renumbered;
    hide OrderedFields;
    var shown := OrderedFields(fields);
    SortedFieldsStayDistinct(fields);
    assert Distinct(shown, FieldKey);
    hide Distinct;
    UpThenDown(shown, FieldKey, key);
    DownThenUp(shown, FieldKey, key);
    OppositeMoves(fields, key, "up", "down");
    OppositeMoves(fields, key, "down", "up");
  }

  lemma OppositeMoves(fields: seq<FieldDefinition>, key: string, first: string, second: string)
    requires Distinct(OrderedFields(fields), FieldKey)
    ensures var shown := OrderedFields(fields);
            OrderedFields(FieldsMoved(FieldsMoved(fields, key, first), key, second)) == Renumbered(shown)
            <==> Moved(Moved(shown, FieldKey, key, first), FieldKey, key, second) == shown
  {
    hide Moved;
    hide Renumbered;
    hide OrderedFields;
    hide Distinct;
    var shown := OrderedFields(fields);
    var once := Moved(shown, FieldKey, key, first);
    var back := Moved(once, FieldKey, key, second);
    MoveIsWhatIsShown(fields, key, first);
    MoveIsWhatIsShown(FieldsMoved(fields, key, first), key, second);
    RenumberingCommutes(once, key, second);
    MovePermutes(shown, FieldKey, key, first);
    MovePermutes(once, FieldKey, key, second);
    if Renumbered(back) == Renumbered(shown) { ArrangementsDiffer(back, shown); }
  }

  /** A redelivered field move counts twice under the same condition, judged on the order shown. */
  lemma FieldsMovedAgain(fields: seq<FieldDefinition>, key: string, direction: string)
    requires DistinctFields(fields)
    ensures FieldsMoved(FieldsMoved(fields, key, direction), key, direction) == FieldsMoved(fields, key, direction)
            <==> !MovesTwice(OrderedFields(fields), FieldKey, key, direction)
  {
    hide Moved;
    hide MovesTwice;
    hide OrderedFields;
    var shown := OrderedFields(fields);
    SortedFieldsStayDistinct(fields);
    assert Distinct(shown, FieldKey);
    var once := Moved(shown, FieldKey, key, direction);
    var twice := Moved(once, FieldKey, key, direction);
    MovedAgain(shown, FieldKey, key, direction);
    MoveIsWhatIsShown(fields, key, direction);
    RenumberingCommutes(once, key, direction);
    if Renumbered(twice) == Renumbered(once) {
      MoveStaysDistinct(shown, FieldKey, key, direction);
      MovePermutes(once, FieldKey, key, direction);
      ArrangementsDiffer(twice, once);
    }
  }
}
