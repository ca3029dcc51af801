/**
 Validation of extracted pages.

 The validator carries the primary keys seen so far and the next ordinal from page to page.
 The reference definition below knows nothing about pages: the verdict on a row depends on
 the row and on the rows before it in the scan.  The loops of the validator and of the local
 artifact writer are proved to compute exactly that, whatever the page boundaries.
 */
module Validation {
  import opened Cursors
  import opened Extraction

  // ---------------------------------------------------------------------------------------
  // Table contracts
  // ---------------------------------------------------------------------------------------

  datatype ColumnType = TextType | IntegerType | BooleanType | DecimalType | TimestampType

  datatype Column = Column(name: string, kind: ColumnType, nullable: bool, postgresUuid: bool)

  /** Minimums are counted in cents, like decimal cells. */
  datatype TableConfig = TableConfig(keys: seq<string>, columns: seq<Column>,
                                     domains: seq<(string, set<seq<CodePoint>>)>, minimums: seq<(string, int)>)

  type Values = seq<(string, Cell)>

  datatype Code =
    | RequiredNull | TypeMismatch | KeyNull | BatchDuplicate
    | StatusDomainInvalid | NumericRangeInvalid | BrokenReference

  /** Position of a rule in the validation order; the first two share one pass over the columns. */
  function RuleOrder(c: Code): nat {
    match c
    case RequiredNull => 2
    case TypeMismatch => 2
    case KeyNull => 4
    case BatchDuplicate => 5
    case StatusDomainInvalid => 6
    case NumericRangeInvalid => 7
    case BrokenReference => 8
  }

  datatype Failure = EmptyPage | SchemaMismatch | CursorOutOfRange | ReferenceType

  datatype Result<+T> = Ok(value: T) | Failed(failure: Failure)

  datatype Rejected = Rejected(record: Record, ordinal: nat, codes: seq<Code>)

  /** Value of a named column; a missing column reads as null. */
  function Get(values: Values, name: string): Cell {
    if values == [] then Null
    else if values[0].0 == name then values[0].1
    else Get(values[1..], name)
  }

  function Names(values: Values): seq<string> {
    seq(|values|, i requires 0 <= i < |values| => values[i].0)
  }

  function ColumnNames(columns: seq<Column>): seq<string> {
    seq(|columns|, i requires 0 <= i < |columns| => columns[i].name)
  }

  predicate MatchesKind(v: Cell, kind: ColumnType) {
    match kind
    case TextType => v.Str?
    case IntegerType => v.Int?
    case BooleanType => v.Bool?
    case DecimalType => v.Dec?
    case TimestampType => v.Time? && v.aware
  }

  predicate MatchesColumn(v: Cell, column: Column) {
    (column.postgresUuid && v.Guid?) || MatchesKind(v, column.kind)
  }

  // ---------------------------------------------------------------------------------------
  // Row rules
  // ---------------------------------------------------------------------------------------

  function ColumnCodes(v: Cell, column: Column): seq<Code> {
    if v.Null? then (if column.nullable then [] else [RequiredNull])
    else if MatchesColumn(v, column) then [] else [TypeMismatch]
  }

  function TypeCodes(columns: seq<Column>, values: Values): seq<Code> {
    if columns == [] then [] else
      TypeCodes(columns[..|columns| - 1], values)
        + ColumnCodes(Get(values, columns[|columns| - 1].name), columns[|columns| - 1])
  }

  predicate OutsideDomain(v: Cell, domain: set<seq<CodePoint>>) {
    !v.Null? && !(v.Str? && v.text in domain)
  }

  function DomainCodes(domains: seq<(string, set<seq<CodePoint>>)>, values: Values): seq<Code> {
    if domains == [] then [] else
      var (name, domain) := domains[|domains| - 1];
      DomainCodes(domains[..|domains| - 1], values)
        + (if OutsideDomain(Get(values, name), domain) then [StatusDomainInvalid] else [])
  }

  function KindOf(columns: seq<Column>, name: string): ColumnType {
    if columns == [] then TextType
    else if columns[0].name == name then columns[0].kind
    else KindOf(columns[1..], name)
  }

  /** Numbers of every kind compare by value; booleans count as zero and one. */
  predicate BelowMinimum(v: Cell, minimum: int) {
    match v
    case Int(n) => 100 * n < minimum
    case Dec(cents) => cents < minimum
    case Bool(b) => (if b then 100 else 0) < minimum
    case _ => false
  }

  predicate TooSmall(v: Cell, kind: ColumnType, minimum: int) {
    !v.Null? && MatchesKind(v, kind) && BelowMinimum(v, minimum)
  }

  function NumericCodes(columns: seq<Column>, minimums: seq<(string, int)>, values: Values): seq<Code> {
    if minimums == [] then [] else
      var (name, minimum) := minimums[|minimums| - 1];
      NumericCodes(columns, minimums[..|minimums| - 1], values)
        + (if TooSmall(Get(values, name), KindOf(columns, name), minimum) then [NumericRangeInvalid] else [])
  }

  /** A primary key value up to equality: numbers of different kinds may be equal. */
  datatype KeyCell = Number(cents: int) | Other(cell: Cell)

  function KeyCellOf(v: Cell): KeyCell {
    match v
    case Int(n) => Number(100 * n)
    case Dec(cents) => Number(cents)
    case Bool(b) => Number(if b then 100 else 0)
    case _ => Other(v)
  }

  function KeyOf(config: TableConfig, r: Record): (key: seq<KeyCell>)
    ensures |key| == |config.keys|
  {
    seq(|config.keys|, i requires 0 <= i < |config.keys| => KeyCellOf(Get(r.values, config.keys[i])))
  }

  predicate HasNullKey(config: TableConfig, r: Record) {
    Other(Null) in KeyOf(config, r)
  }

  // ---------------------------------------------------------------------------------------
  // Batch rules
  // ---------------------------------------------------------------------------------------

  predicate PyLeq(a: PyCursor, b: PyCursor) {
    PyLess(a, b) || a == b
  }

  /** The range check as Python makes it, on normalized cursors. */
  predicate CursorInRange(c: Cursor, lower: Position, upper: Cursor) {
    && !(lower.At? && PyLeq(NormalizeCursor(c), NormalizeCursor(lower.cursor)))
    && PyLeq(NormalizeCursor(c), NormalizeCursor(upper))
  }

  datatype Scope = Scope(config: TableConfig, lower: Position, upper: Cursor)

  predicate SchemaDiffers(config: TableConfig, r: Record) {
    Names(r.values) != ColumnNames(config.columns)
  }

  /** Rows that fail the whole batch. */
  predicate Refused(scope: Scope, r: Record) {
    SchemaDiffers(scope.config, r) || !CursorInRange(r.cursor, scope.lower, scope.upper)
  }

  // ---------------------------------------------------------------------------------------
  // The reference verdict, free of pages
  // ---------------------------------------------------------------------------------------

  /** The row repeats the non-null primary key of an earlier row of the scan. */
  predicate RepeatsKey(config: TableConfig, scan: seq<Record>, i: nat)
    requires i < |scan|
  {
    exists k :: 0 <= k < i && KeyOf(config, scan[k]) == KeyOf(config, scan[i])
  }

  function KeyCodes(config: TableConfig, scan: seq<Record>, i: nat): seq<Code>
    requires i < |scan|
  {
    if HasNullKey(config, scan[i]) then [KeyNull]
    else if RepeatsKey(config, scan, i) then [BatchDuplicate]
    else []
  }

  function ValueCodes(config: TableConfig, r: Record): seq<Code> {
    DomainCodes(config.domains, r.values) + NumericCodes(config.columns, config.minimums, r.values)
  }

  function BrokenCodes(broken: bool): seq<Code> {
    if broken then [BrokenReference] else []
  }

  function CodesAt(config: TableConfig, scan: seq<Record>, broken: Record -> bool, i: nat): seq<Code>
    requires i < |scan|
  {
    TypeCodes(config.columns, scan[i].values) + KeyCodes(config, scan, i)
      + ValueCodes(config, scan[i]) + BrokenCodes(broken(scan[i]))
  }

  /** The rows without a code among positions `lo..hi` of the scan. */
  function ValidRows(config: TableConfig, scan: seq<Record>, broken: Record -> bool, lo: nat, hi: nat): seq<Record>
    requires lo <= hi <= |scan|
  {
    if lo == hi then [] else
      ValidRows(config, scan, broken, lo, hi - 1)
        + (if CodesAt(config, scan, broken, hi - 1) == [] then [scan[hi - 1]] else [])
  }

  /** The rows with a code, with their position in the scan as ordinal. */
  function RejectedRows(config: TableConfig, scan: seq<Record>, broken: Record -> bool, lo: nat, hi: nat)
    : seq<Rejected>
    requires lo <= hi <= |scan|
  {
    if lo == hi then [] else
      RejectedRows(config, scan, broken, lo, hi - 1)
        + (if CodesAt(config, scan, broken, hi - 1) == [] then []
           else [Rejected(scan[hi - 1], hi - 1, CodesAt(config, scan, broken, hi - 1))])
  }

  /** The non-null keys of a scan. */
  function KeysSeen(config: TableConfig, scan: seq<Record>): set<seq<KeyCell>> {
    set r | r in scan && !HasNullKey(config, r) :: KeyOf(config, r)
  }

  // ---------------------------------------------------------------------------------------
  // What a row breaks, told on its cells and the configuration
  // ---------------------------------------------------------------------------------------

  /** The row reads `v` under a name: its first cell of that name, or null when it has none. */
  ghost predicate Reads(values: Values, name: string, v: Cell) {
    || (exists i :: 0 <= i < |values| && values[i] == (name, v) && forall k :: 0 <= k < i ==> values[k].0 != name)
    || (v == Null && forall i :: 0 <= i < |values| ==> values[i].0 != name)
  }

  /** The kind declared for a name: that of the first column of that name, text when there is none. */
  ghost predicate Declares(columns: seq<Column>, name: string, kind: ColumnType) {
    || (exists i :: 0 <= i < |columns| && columns[i].name == name && columns[i].kind == kind
                    && forall k :: 0 <= k < i ==> columns[k].name != name)
    || (kind == TextType && forall i :: 0 <= i < |columns| ==> columns[i].name != name)
  }

  /** A value fits a kind of column; instants need a time zone, and booleans are not integers. */
  ghost predicate Fits(v: Cell, kind: ColumnType) {
    || (kind == TextType && v.Str?)
    || (kind == IntegerType && v.Int?)
    || (kind == BooleanType && v.Bool?)
    || (kind == DecimalType && v.Dec?)
    || (kind == TimestampType && v.Time? && v.aware)
  }

  /** The k-th column allows no null and the row holds one in it. */
  ghost predicate LacksRequired(columns: seq<Column>, values: Values, k: int) {
    0 <= k < |columns| && !columns[k].nullable && Reads(values, columns[k].name, Null)
  }

  /** The k-th column holds a non-null value of another kind, and not a UUID where one is allowed. */
  ghost predicate HoldsWrongType(columns: seq<Column>, values: Values, k: int) {
    && 0 <= k < |columns|
    && exists v :: Reads(values, columns[k].name, v) && v != Null && !Fits(v, columns[k].kind)
                   && !(v.Guid? && columns[k].postgresUuid)
  }

  /** The k-th status column holds a non-null value that is not a text of its domain. */
  ghost predicate LeavesDomain(domains: seq<(string, set<seq<CodePoint>>)>, values: Values, k: int) {
    && 0 <= k < |domains|
    && exists v :: Reads(values, domains[k].0, v) && v != Null && forall text :: text in domains[k].1 ==> v != Str(text)
  }

  /** The k-th bounded column holds a number of its declared kind below its minimum. */
  ghost predicate FallsBelow(columns: seq<Column>, minimums: seq<(string, int)>, values: Values, k: int) {
    && 0 <= k < |minimums|
    && exists v, kind :: Reads(values, minimums[k].0, v) && Declares(columns, minimums[k].0, kind)
                         && (|| (kind == IntegerType && v.Int? && 100 * v.n < minimums[k].1)
                             || (kind == DecimalType && v.Dec? && v.cents < minimums[k].1)
                             || (kind == BooleanType && v.Bool? && (if v.b then 100 else 0) < minimums[k].1))
  }

  /** A primary key column holds a null. */
  ghost predicate HoldsNullKey(config: TableConfig, r: Record) {
    exists k :: 0 <= k < |config.keys| && Reads(r.values, config.keys[k], Null)
  }

  /** Values are equal, numbers and booleans of different kinds included. */
  ghost predicate EqualValues(v: Cell, w: Cell) {
    || v == w
    || (v.Int? && w.Dec? && 100 * v.n == w.cents) || (v.Dec? && w.Int? && v.cents == 100 * w.n)
    || (v.Bool? && w.Int? && (if v.b then 1 else 0) == w.n) || (v.Int? && w.Bool? && v.n == (if w.b then 1 else 0))
    || (v.Bool? && w.Dec? && (if v.b then 100 else 0) == w.cents)
    || (v.Dec? && w.Bool? && v.cents == (if w.b then 100 else 0))
  }

  ghost predicate EqualUnder(name: string, r: Record, s: Record) {
    exists v, w :: Reads(r.values, name, v) && Reads(s.values, name, w) && EqualValues(v, w)
  }

  /** Two rows hold equal values in every primary key column. */
  ghost predicate EqualKeys(config: TableConfig, r: Record, s: Record) {
    forall k :: 0 <= k < |config.keys| ==> EqualUnder(config.keys[k], r, s)
  }

  /** An earlier row of the scan holds the same primary key. */
  ghost predicate RepeatsEarlier(config: TableConfig, scan: seq<Record>, i: nat)
    requires i < |scan|
  {
    exists k :: 0 <= k < i && EqualKeys(config, scan[k], scan[i])
  }

  lemma {:induction false} GetReads(values: Values, name: string, v: Cell)
    ensures Reads(values, name, v) <==> v == Get(values, name)
  {
    if values == [] {
    } else if values[0].0 == name {
      assert Reads(values, name, v) <==> values[0] == (name, v);
    } else {
      var rest := values[1..];
      GetReads(rest, name, v);
      if Reads(rest, name, v) {
        if i :| 0 <= i < |rest| && rest[i] == (name, v) && forall k :: 0 <= k < i ==> rest[k].0 != name {
          assert values[i + 1] == rest[i];
          assert forall k :: 0 <= k < i + 1 ==> values[k].0 != name by {
            assert forall k :: 1 <= k < i + 1 ==> values[k] == rest[k - 1];
          }
        } else {
          assert forall i :: 1 <= i < |values| ==> values[i] == rest[i - 1];
        }
      }
      if Reads(values, name, v) {
        assert forall i :: 0 <= i < |rest| ==> rest[i] == values[i + 1];
      }
    }
  }

  lemma {:induction false} KindIsDeclared(columns: seq<Column>, name: string, kind: ColumnType)
    ensures Declares(columns, name, kind) <==> kind == KindOf(columns, name)
  {
    if columns == [] {
    } else if columns[0].name == name {
      assert Declares(columns, name, columns[0].kind);
    } else {
      var rest := columns[1..];
      KindIsDeclared(rest, name, kind);
      assert forall i :: 0 <= i < |rest| ==> rest[i] == columns[i + 1];
      if Declares(rest, name, kind) {
        if i :| 0 <= i < |rest| && rest[i].name == name && rest[i].kind == kind
                && forall k :: 0 <= k < i ==> rest[k].name != name {
          assert columns[i + 1] == rest[i];
          assert forall k :: 1 <= k < i + 1 ==> columns[k] == rest[k - 1];
        } else {
          assert forall i :: 1 <= i < |columns| ==> columns[i] == rest[i - 1];
        }
      }
    }
  }

  // The column rules report one code for each column that breaks them.

  ghost function LackingColumns(columns: seq<Column>, values: Values): set<int> {
    set k | 0 <= k < |columns| && LacksRequired(columns, values, k)
  }

  ghost function MistypedColumns(columns: seq<Column>, values: Values): set<int> {
    set k | 0 <= k < |columns| && HoldsWrongType(columns, values, k)
  }

  ghost function StrayingColumns(domains: seq<(string, set<seq<CodePoint>>)>, values: Values): set<int> {
    set k | 0 <= k < |domains| && LeavesDomain(domains, values, k)
  }

  ghost function FallingColumns(columns: seq<Column>, minimums: seq<(string, int)>, values: Values): set<int> {
    set k | 0 <= k < |minimums| && FallsBelow(columns, minimums, values, k)
  }

  /** The list holds the code `n` times. */
  ghost predicate Counts(codes: seq<Code>, code: Code, n: nat) {
    multiset(codes)[code] == n
  }

  lemma ColumnBreaks(columns: seq<Column>, values: Values, k: nat)
    requires k < |columns|
    ensures var codes := ColumnCodes(Get(values, columns[k].name), columns[k]);
      codes == if LacksRequired(columns, values, k) then [RequiredNull]
               else if HoldsWrongType(columns, values, k) then [TypeMismatch] else []
    ensures !(LacksRequired(columns, values, k) && HoldsWrongType(columns, values, k))
  {
    hide Reads, Get;
    forall v ensures Reads(values, columns[k].name, v) <==> v == Get(values, columns[k].name) {
      GetReads(values, columns[k].name, v);
    }
    assert Reads(values, columns[k].name, Get(values, columns[k].name));
  }

  lemma DomainBreaks(domains: seq<(string, set<seq<CodePoint>>)>, values: Values, k: nat)
    requires k < |domains|
    ensures OutsideDomain(Get(values, domains[k].0), domains[k].1) <==> LeavesDomain(domains, values, k)
  {
    hide Reads, Get;
    forall v ensures Reads(values, domains[k].0, v) <==> v == Get(values, domains[k].0) {
      GetReads(values, domains[k].0, v);
    }
    assert Reads(values, domains[k].0, Get(values, domains[k].0));
  }

  lemma MinimumBreaks(columns: seq<Column>, minimums: seq<(string, int)>, values: Values, k: nat)
    requires k < |minimums|
    ensures TooSmall(Get(values, minimums[k].0), KindOf(columns, minimums[k].0), minimums[k].1)
      <==> FallsBelow(columns, minimums, values, k)
  {
    hide Reads, Get, Declares, KindOf;
    forall v ensures Reads(values, minimums[k].0, v) <==> v == Get(values, minimums[k].0) {
      GetReads(values, minimums[k].0, v);
    }
    forall kind ensures Declares(columns, minimums[k].0, kind) <==> kind == KindOf(columns, minimums[k].0) {
      KindIsDeclared(columns, minimums[k].0, kind);
    }
    assert Reads(values, minimums[k].0, Get(values, minimums[k].0));
    assert Declares(columns, minimums[k].0, KindOf(columns, minimums[k].0));
  }

  /** One more column adds one code if it breaks its rule. */
  lemma OneMore(codes: seq<Code>, tail: seq<Code>, code: Code, before: set<int>, after: set<int>, n: int, breaks: bool)
    requires Counts(codes, code, |before|) && n !in before && after == before + (if breaks then {n} else {})
    requires Counts(tail, code, if breaks then 1 else 0)
    ensures Counts(codes + tail, code, |after|)
  {
    assert multiset(codes + tail) == multiset(codes) + multiset(tail);
  }

  lemma CountTail(code: Code, other: Code)
    requires code != other
    ensures Counts([code], code, 1) && Counts([code], other, 0) && Counts([], code, 0)
  {
  }

  lemma PrefixColumns(columns: seq<Column>, values: Values, n: nat)
    requires n + 1 == |columns|
    ensures var lacking, mistyped := LackingColumns(columns[..n], values), MistypedColumns(columns[..n], values);
      && n !in lacking && n !in mistyped
      && LackingColumns(columns, values) == lacking + (if LacksRequired(columns, values, n) then {n} else {})
      && MistypedColumns(columns, values) == mistyped + (if HoldsWrongType(columns, values, n) then {n} else {})
  {
    hide Reads, Fits;
    assert forall k :: 0 <= k < n ==> columns[..n][k] == columns[k];
  }

  lemma PrefixDomains(domains: seq<(string, set<seq<CodePoint>>)>, values: Values, n: nat)
    requires n + 1 == |domains|
    ensures var straying := StrayingColumns(domains[..n], values);
      && n !in straying
      && StrayingColumns(domains, values) == straying + (if LeavesDomain(domains, values, n) then {n} else {})
  {
    hide Reads;
    assert forall k :: 0 <= k < n ==> domains[..n][k] == domains[k];
  }

  lemma PrefixMinimums(columns: seq<Column>, minimums: seq<(string, int)>, values: Values, n: nat)
    requires n + 1 == |minimums|
    ensures var falling := FallingColumns(columns, minimums[..n], values);
      && n !in falling
      && FallingColumns(columns, minimums, values)
           == falling + (if FallsBelow(columns, minimums, values, n) then {n} else {})
  {
    hide Reads, Declares;
    assert forall k :: 0 <= k < n ==> minimums[..n][k] == minimums[k];
  }

  lemma TypeTail(columns: seq<Column>, values: Values, k: nat)
    requires k < |columns|
    ensures var tail := ColumnCodes(Get(values, columns[k].name), columns[k]);
      && Counts(tail, RequiredNull, if LacksRequired(columns, values, k) then 1 else 0)
      && Counts(tail, TypeMismatch, if HoldsWrongType(columns, values, k) then 1 else 0)
      && forall c :: c in tail ==> c == RequiredNull || c == TypeMismatch
  {
    hide ColumnCodes, LacksRequired, HoldsWrongType, Counts, Get;
    ColumnBreaks(columns, values, k);
    CountTail(RequiredNull, TypeMismatch);
    CountTail(TypeMismatch, RequiredNull);
  }

  lemma {:induction false} TypeCodesCount(columns: seq<Column>, values: Values)
    ensures var codes := TypeCodes(columns, values);
      && Counts(codes, RequiredNull, |LackingColumns(columns, values)|)
      && Counts(codes, TypeMismatch, |MistypedColumns(columns, values)|)
      && forall c :: c in codes ==> c == RequiredNull || c == TypeMismatch
  {
    if columns == [] {
    } else {
      hide ColumnCodes, LacksRequired, HoldsWrongType, LackingColumns, MistypedColumns, Counts, Get;
      var n := |columns| - 1;
      TypeCodesCount(columns[..n], values);
      PrefixColumns(columns, values, n);
      TypeTail(columns, values, n);
      var rest, tail := TypeCodes(columns[..n], values), ColumnCodes(Get(values, columns[n].name), columns[n]);
      assert TypeCodes(columns, values) == rest + tail;
      OneMore(rest, tail, RequiredNull, LackingColumns(columns[..n], values), LackingColumns(columns, values), n,
              LacksRequired(columns, values, n));
      OneMore(rest, tail, TypeMismatch, MistypedColumns(columns[..n], values), MistypedColumns(columns, values), n,
              HoldsWrongType(columns, values, n));
    }
  }

  lemma {:induction false} DomainCodesCount(domains: seq<(string, set<seq<CodePoint>>)>, values: Values)
    ensures var codes := DomainCodes(domains, values);
      && Counts(codes, StatusDomainInvalid, |StrayingColumns(domains, values)|)
      && forall c :: c in codes ==> c == StatusDomainInvalid
  {
    if domains == [] {
    } else {
      hide OutsideDomain, LeavesDomain, StrayingColumns, Counts;
      var n := |domains| - 1;
      DomainCodesCount(domains[..n], values);
      DomainBreaks(domains, values, n);
      PrefixDomains(domains, values, n);
      var tail := if LeavesDomain(domains, values, n) then [StatusDomainInvalid] else [];
      CountTail(StatusDomainInvalid, KeyNull);
      OneMore(DomainCodes(domains[..n], values), tail, StatusDomainInvalid, StrayingColumns(domains[..n], values),
              StrayingColumns(domains, values), n, LeavesDomain(domains, values, n));
    }
  }

  lemma {:induction false} NumericCodesCount(columns: seq<Column>, minimums: seq<(string, int)>, values: Values)
    ensures var codes := NumericCodes(columns, minimums, values);
      && Counts(codes, NumericRangeInvalid, |FallingColumns(columns, minimums, values)|)
      && forall c :: c in codes ==> c == NumericRangeInvalid
  {
    if minimums == [] {
    } else {
      hide TooSmall, FallsBelow, FallingColumns, Counts;
      var n := |minimums| - 1;
      NumericCodesCount(columns, minimums[..n], values);
      MinimumBreaks(columns, minimums, values, n);
      PrefixMinimums(columns, minimums, values, n);
      var tail := if FallsBelow(columns, minimums, values, n) then [NumericRangeInvalid] else [];
      CountTail(NumericRangeInvalid, KeyNull);
      OneMore(NumericCodes(columns, minimums[..n], values), tail, NumericRangeInvalid,
              FallingColumns(columns, minimums[..n], values), FallingColumns(columns, minimums, values), n,
              FallsBelow(columns, minimums, values, n));
    }
  }

  /** A code counted by a set of columns is listed exactly when some column is in it. */
  lemma CountedMeansListed(codes: seq<Code>, code: Code, columns: set<int>)
    requires Counts(codes, code, |columns|)
    ensures code in codes <==> exists k :: k in columns
  {
    assert code in codes <==> multiset(codes)[code] > 0;
    if forall k :: k !in columns {
      assert columns == {};
    } else {
      var k :| k in columns;
      assert columns == {k} + (columns - {k});
    }
  }

  /** Null and type codes: one for each column that breaks the rule, and no other code. */
  ghost predicate TypesReported(columns: seq<Column>, values: Values, codes: seq<Code>) {
    && Counts(codes, RequiredNull, |LackingColumns(columns, values)|)
    && Counts(codes, TypeMismatch, |MistypedColumns(columns, values)|)
    && (RequiredNull in codes <==> exists k :: LacksRequired(columns, values, k))
    && (TypeMismatch in codes <==> exists k :: HoldsWrongType(columns, values, k))
    && (forall c :: c in codes ==> c == RequiredNull || c == TypeMismatch)
  }

  /** Domain and range codes: one for each column that breaks the rule, and no other code. */
  ghost predicate ValuesReported(config: TableConfig, values: Values, codes: seq<Code>) {
    && Counts(codes, StatusDomainInvalid, |StrayingColumns(config.domains, values)|)
    && Counts(codes, NumericRangeInvalid, |FallingColumns(config.columns, config.minimums, values)|)
    && (StatusDomainInvalid in codes <==> exists k :: LeavesDomain(config.domains, values, k))
    && (NumericRangeInvalid in codes <==> exists k :: FallsBelow(config.columns, config.minimums, values, k))
    && (forall c :: c in codes ==> c == StatusDomainInvalid || c == NumericRangeInvalid)
  }

  lemma TypeCodesReport(columns: seq<Column>, values: Values)
    ensures TypesReported(columns, values, TypeCodes(columns, values))
  {
    hide TypeCodes, Reads, Fits, Counts;
    TypeCodesCount(columns, values);
    CountedMeansListed(TypeCodes(columns, values), RequiredNull, LackingColumns(columns, values));
    CountedMeansListed(TypeCodes(columns, values), TypeMismatch, MistypedColumns(columns, values));
    assert forall k :: LacksRequired(columns, values, k) <==> k in LackingColumns(columns, values);
    assert forall k :: HoldsWrongType(columns, values, k) <==> k in MistypedColumns(columns, values);
  }

  lemma CountsAcross(a: seq<Code>, b: seq<Code>, code: Code, n: nat, m: nat)
    requires Counts(a, code, n) && Counts(b, code, m)
    ensures Counts(a + b, code, n + m)
  {
    assert multiset(a + b) == multiset(a) + multiset(b);
  }

  lemma CountsNone(codes: seq<Code>, code: Code)
    requires code !in codes
    ensures Counts(codes, code, 0)
  {
  }

  lemma ValueCodesReport(config: TableConfig, r: Record)
    ensures ValuesReported(config, r.values, ValueCodes(config, r))
  {
    hide DomainCodes, NumericCodes, Reads, Declares, Counts;
    var strays := DomainCodes(config.domains, r.values);
    var falls := NumericCodes(config.columns, config.minimums, r.values);
    DomainCodesCount(config.domains, r.values);
    NumericCodesCount(config.columns, config.minimums, r.values);
    CountsNone(strays, NumericRangeInvalid);
    CountsNone(falls, StatusDomainInvalid);
    CountsAcross(strays, falls, StatusDomainInvalid, |StrayingColumns(config.domains, r.values)|, 0);
    CountsAcross(strays, falls, NumericRangeInvalid, 0, |FallingColumns(config.columns, config.minimums, r.values)|);
    CountedMeansListed(strays + falls, StatusDomainInvalid, StrayingColumns(config.domains, r.values));
    CountedMeansListed(strays + falls, NumericRangeInvalid,
                       FallingColumns(config.columns, config.minimums, r.values));
    assert forall k :: LeavesDomain(config.domains, r.values, k) <==> k in StrayingColumns(config.domains, r.values);
    var falling := FallingColumns(config.columns, config.minimums, r.values);
    assert forall k :: FallsBelow(config.columns, config.minimums, r.values, k) <==> k in falling;
  }

  lemma NullKeyIsHeld(config: TableConfig, r: Record)
    ensures HasNullKey(config, r) <==> HoldsNullKey(config, r)
  {
    hide Reads, Get;
    forall k | 0 <= k < |config.keys|
      ensures KeyOf(config, r)[k] == Other(Null) <==> Reads(r.values, config.keys[k], Null)
    {
      GetReads(r.values, config.keys[k], Null);
    }
  }

  lemma KeyCellsAgree(v: Cell, w: Cell)
    ensures KeyCellOf(v) == KeyCellOf(w) <==> EqualValues(v, w)
  {
  }

  lemma CellsAgreeUnder(name: string, r: Record, s: Record)
    ensures KeyCellOf(Get(r.values, name)) == KeyCellOf(Get(s.values, name)) <==> EqualUnder(name, r, s)
  {
    hide Reads, Get, EqualValues, KeyCellOf;
    var v, w := Get(r.values, name), Get(s.values, name);
    KeyCellsAgree(v, w);
    forall x ensures Reads(r.values, name, x) <==> x == v {
      GetReads(r.values, name, x);
    }
    forall x ensures Reads(s.values, name, x) <==> x == w {
      GetReads(s.values, name, x);
    }
    assert Reads(r.values, name, v) && Reads(s.values, name, w);
  }

  lemma KeysAgree(config: TableConfig, r: Record, s: Record)
    ensures KeyOf(config, r) == KeyOf(config, s) <==> EqualKeys(config, r, s)
  {
    hide Get, EqualUnder, KeyCellOf;
    var x, y := KeyOf(config, r), KeyOf(config, s);
    forall k | 0 <= k < |config.keys| ensures x[k] == y[k] <==> EqualUnder(config.keys[k], r, s) {
      CellsAgreeUnder(config.keys[k], r, s);
    }
    assert x == y <==> forall k :: 0 <= k < |x| ==> x[k] == y[k];
  }

  /** Which codes a row gets for its key: none for both rules, since a null key repeats nothing. */
  lemma KeyCodesMean(config: TableConfig, scan: seq<Record>, i: nat)
    requires i < |scan|
    ensures KeyCodes(config, scan, i)
      == if HoldsNullKey(config, scan[i]) then [KeyNull]
         else if RepeatsEarlier(config, scan, i) then [BatchDuplicate] else []
  {
    hide HasNullKey, HoldsNullKey, KeyOf, EqualKeys;
    NullKeyIsHeld(config, scan[i]);
    forall k | 0 <= k < i
      ensures KeyOf(config, scan[k]) == KeyOf(config, scan[i]) <==> EqualKeys(config, scan[k], scan[i])
    {
      KeysAgree(config, scan[k], scan[i]);
    }
  }

  lemma SchemaDiffersMeans(config: TableConfig, r: Record)
    ensures SchemaDiffers(config, r) <==>
      |r.values| != |config.columns| || exists k :: 0 <= k < |r.values| && r.values[k].0 != config.columns[k].name
  {
    var names, expected := Names(r.values), ColumnNames(config.columns);
    assert |names| == |r.values| && |expected| == |config.columns|;
    assert forall k :: 0 <= k < |names| ==> names[k] == r.values[k].0;
    assert forall k :: 0 <= k < |expected| ==> expected[k] == config.columns[k].name;
  }

  // ---------------------------------------------------------------------------------------
  // The column loops
  // ---------------------------------------------------------------------------------------

  method SchemaAndTypeErrors(config: TableConfig, r: Record) returns (errors: Result<seq<Code>>)
    ensures errors == if SchemaDiffers(config, r) then Failed(SchemaMismatch)
                      else Ok(TypeCodes(config.columns, r.values))
    ensures errors.Failed? <==>
      |r.values| != |config.columns| || exists k :: 0 <= k < |r.values| && r.values[k].0 != config.columns[k].name
    ensures errors.Ok? ==> TypesReported(config.columns, r.values, errors.value)
  {
    hide MatchesColumn, TypesReported;
    SchemaDiffersMeans(config, r);
    if Names(r.values) != ColumnNames(config.columns) {
      return Failed(SchemaMismatch);
    }
    var codes := [];
    for i := 0 to |config.columns|
      invariant codes == TypeCodes(config.columns[..i], r.values)
    {
      assert config.columns[..i + 1][..i] == config.columns[..i];
      var column := config.columns[i];
      var v := Get(r.values, column.name);
      if v.Null? {
        if !column.nullable {
          codes := codes + [RequiredNull];
        }
        continue;
      }
      if !MatchesColumn(v, column) {
        codes := codes + [TypeMismatch];
      }
    }
    assert config.columns[..|config.columns|] == config.columns;
    TypeCodesReport(config.columns, r.values);
    errors := Ok(codes);
  }

  method DomainAndNumericErrors(config: TableConfig, r: Record) returns (codes: seq<Code>)
    ensures codes == ValueCodes(config, r)
    ensures ValuesReported(config, r.values, codes)
  {
    hide OutsideDomain, TooSmall, ValuesReported;
    codes := [];
    for i := 0 to |config.domains|
      invariant codes == DomainCodes(config.domains[..i], r.values)
    {
      assert config.domains[..i + 1][..i] == config.domains[..i];
      var (name, domain) := config.domains[i];
      if OutsideDomain(Get(r.values, name), domain) {
        codes := codes + [StatusDomainInvalid];
      }
    }
    assert config.domains[..|config.domains|] == config.domains;
    var domainCodes := codes;
    for i := 0 to |config.minimums|
      invariant codes == domainCodes + NumericCodes(config.columns, config.minimums[..i], r.values)
    {
      assert config.minimums[..i + 1][..i] == config.minimums[..i];
      var (name, minimum) := config.minimums[i];
      if TooSmall(Get(r.values, name), KindOf(config.columns, name), minimum) {
        codes := codes + [NumericRangeInvalid];
      }
    }
    assert config.minimums[..|config.minimums|] == config.minimums;
    ValueCodesReport(config, r);
  }

  // ---------------------------------------------------------------------------------------
  // How the reference verdict extends from row to row
  // ---------------------------------------------------------------------------------------

  /** The verdict on a row looks at the scan up to the row, and at its own reference only. */
  lemma CodesLocal(config: TableConfig, scan: seq<Record>, longer: seq<Record>,
                   b: Record -> bool, c: Record -> bool, i: nat)
    requires scan <= longer && i < |scan| && b(scan[i]) == c(scan[i])
    ensures CodesAt(config, longer, c, i) == CodesAt(config, scan, b, i)
  {
    hide TypeCodes, ValueCodes, KeyOf, HasNullKey;
    assert forall k :: 0 <= k < |scan| ==> longer[k] == scan[k];
    assert RepeatsKey(config, longer, i) == RepeatsKey(config, scan, i);
  }

  lemma {:induction false} RowsLocal(config: TableConfig, scan: seq<Record>, longer: seq<Record>,
                                     b: Record -> bool, c: Record -> bool, lo: nat, hi: nat)
    requires scan <= longer && lo <= hi <= |scan|
    requires forall i :: lo <= i < hi ==> b(scan[i]) == c(scan[i])
    ensures ValidRows(config, longer, c, lo, hi) == ValidRows(config, scan, b, lo, hi)
    ensures RejectedRows(config, longer, c, lo, hi) == RejectedRows(config, scan, b, lo, hi)
  {
    hide CodesAt;
    if lo == hi {
    } else {
      RowsLocal(config, scan, longer, b, c, lo, hi - 1);
      CodesLocal(config, scan, longer, b, c, hi - 1);
    }
  }

  /** Adjacent stretches of a scan concatenate. */
  lemma {:induction false} RowsConcat(config: TableConfig, scan: seq<Record>, b: Record -> bool,
                                      lo: nat, mid: nat, hi: nat)
    requires lo <= mid <= hi <= |scan|
    ensures ValidRows(config, scan, b, lo, hi)
      == ValidRows(config, scan, b, lo, mid) + ValidRows(config, scan, b, mid, hi)
    ensures RejectedRows(config, scan, b, lo, hi)
      == RejectedRows(config, scan, b, lo, mid) + RejectedRows(config, scan, b, mid, hi)
    decreases hi
  {
    hide CodesAt;
    if mid == hi {
    } else {
      RowsConcat(config, scan, b, lo, mid, hi - 1);
    }
  }

  lemma KeysSeenAppend(config: TableConfig, scan: seq<Record>, r: Record)
    ensures KeysSeen(config, scan + [r])
      == if HasNullKey(config, r) then KeysSeen(config, scan) else KeysSeen(config, scan) + {KeyOf(config, r)}
  {
    hide KeyOf, HasNullKey;
    var longer := scan + [r];
    assert forall x :: x in longer <==> x in scan || x == r;
  }

  /** The set of keys seen answers the question whether a row repeats a key. */
  lemma RepeatsIffSeen(config: TableConfig, scan: seq<Record>, r: Record)
    requires !HasNullKey(config, r)
    ensures RepeatsKey(config, scan + [r], |scan|) <==> KeyOf(config, r) in KeysSeen(config, scan)
  {
    hide KeyOf;
    var longer := scan + [r];
    assert forall k :: 0 <= k < |scan| ==> longer[k] == scan[k];
    if KeyOf(config, r) in KeysSeen(config, scan) {
      var x :| x in scan && KeyOf(config, x) == KeyOf(config, r);
      var k :| 0 <= k < |scan| && scan[k] == x;
      assert KeyOf(config, longer[k]) == KeyOf(config, longer[|scan|]);
    }
  }

  function InSet(keys: set<seq<KeyPart>>): Record -> bool {
    (r: Record) => r.cursor.keys in keys
  }

  predicate FirstRefusedAt(scope: Scope, page: seq<Record>, k: nat) {
    k < |page| && Refused(scope, page[k]) && forall i :: 0 <= i < k ==> !Refused(scope, page[i])
  }

  datatype ValidatedPage = ValidatedPage(valid: seq<Record>, rejected: seq<Rejected>)

  // ---------------------------------------------------------------------------------------
  // The validator
  // ---------------------------------------------------------------------------------------

  class ValidationPipeline {
    const scope: Scope
    var seen: set<seq<KeyCell>>
    var nextOrdinal: nat
    ghost var history: seq<Record>

    ghost predicate Valid()
      reads this
    {
      seen == KeysSeen(scope.config, history) && nextOrdinal == |history|
    }

    constructor (scope: Scope)
      ensures Valid() && history == [] && this.scope == scope
    {
      this.scope := scope;
      seen, nextOrdinal, history := {}, 0, [];
    }

    method ValidateRecord(r: Record, brokenCursors: set<seq<KeyPart>>) returns (result: Result<seq<Code>>)
      requires seen == KeysSeen(scope.config, history)
      modifies `seen, `history
      ensures result.Failed? <==> Refused(scope, r)
      ensures result.Failed? && result.failure == SchemaMismatch <==>
        || |r.values| != |scope.config.columns|
        || exists k :: 0 <= k < |r.values| && r.values[k].0 != scope.config.columns[k].name
      ensures result.Failed? ==>
        && result.failure == (if SchemaDiffers(scope.config, r) then SchemaMismatch else CursorOutOfRange)
        && history == old(history) && seen == old(seen)
      ensures result.Ok? ==>
        && history == old(history) + [r] && seen == KeysSeen(scope.config, history)
        && result.value == CodesAt(scope.config, history, InSet(brokenCursors), |old(history)|)
    {
      hide CursorInRange, SchemaDiffers, TypeCodes, ValueCodes, KeyOf, HasNullKey, KeysSeen, RepeatsKey;
      var typed := SchemaAndTypeErrors(scope.config, r);
      if typed.Failed? {
        return Failed(SchemaMismatch);
      }
      if !CursorInRange(r.cursor, scope.lower, scope.upper) {
        return Failed(CursorOutOfRange);
      }
      KeysSeenAppend(scope.config, history, r);
      var codes := typed.value;
      ghost var keyCodes: seq<Code> := [];
      var key := KeyOf(scope.config, r);
      if HasNullKey(scope.config, r) {
        codes := codes + [KeyNull];
        keyCodes := [KeyNull];
      } else {
        RepeatsIffSeen(scope.config, history, r);
        if key in seen {
          codes := codes + [BatchDuplicate];
          keyCodes := [BatchDuplicate];
        } else {
          seen := seen + {key};
        }
      }
      history := history + [r];
      assert keyCodes == KeyCodes(scope.config, history, |history| - 1);
      assert codes == typed.value + keyCodes;
      var valueCodes := DomainAndNumericErrors(scope.config, r);
      codes := codes + valueCodes;
      if r.cursor.keys in brokenCursors {
        codes := codes + [BrokenReference];
      }
      result := Ok(codes);
    }

    /**
     Validates one page.  On success the verdicts are the reference verdicts on the page as a
     continuation of everything validated before; on a contract failure the state stops at the
     first refused row, whose ordinal is already spent.
     */
    method ValidatePage(page: seq<Record>, brokenCursors: set<seq<KeyPart>>) returns (result: Result<ValidatedPage>)
      requires Valid()
      modifies this
      ensures result.Ok? <==> page != [] && forall i :: 0 <= i < |page| ==> !Refused(scope, page[i])
      ensures result.Ok? ==>
        && Valid() && history == old(history) + page
        && result.value.valid == ValidRows(scope.config, history, InSet(brokenCursors), |old(history)|, |history|)
        && result.value.rejected == RejectedRows(scope.config, history, InSet(brokenCursors), |old(history)|, |history|)
      ensures page == [] ==> result == Failed(EmptyPage) && Valid() && history == old(history)
      ensures page != [] && result.Failed? ==>
        && var k: int := nextOrdinal - 1 - |old(history)|;
        && k >= 0 && FirstRefusedAt(scope, page, k) && history == old(history) + page[..k]
        && seen == KeysSeen(scope.config, history)
        && result.failure == (if SchemaDiffers(scope.config, page[k]) then SchemaMismatch else CursorOutOfRange)
    {
      hide Refused, SchemaDiffers, CodesAt, KeysSeen;
      if page == [] {
        return Failed(EmptyPage);
      }
      var valid, rejected := [], [];
      for i := 0 to |page|
        invariant history == old(history) + page[..i] && Valid()
        invariant forall k :: 0 <= k < i ==> !Refused(scope, page[k])
        invariant valid == ValidRows(scope.config, history, InSet(brokenCursors), |old(history)|, |history|)
        invariant rejected == RejectedRows(scope.config, history, InSet(brokenCursors), |old(history)|, |history|)
      {
        ghost var before := history;
        var ordinal := nextOrdinal;
        nextOrdinal := nextOrdinal + 1;
        var codes := ValidateRecord(page[i], brokenCursors);
        if codes.Failed? {
          return Failed(codes.failure);
        }
        RowsLocal(scope.config, before, history, InSet(brokenCursors), InSet(brokenCursors), |old(history)|, |before|);
        if codes.value != [] {
          rejected := rejected + [Rejected(page[i], ordinal, codes.value)];
        } else {
          valid := valid + [page[i]];
        }
      }
      result := Ok(ValidatedPage(valid, rejected));
    }
  }

  // ---------------------------------------------------------------------------------------
  // References to parent rows of the same snapshot
  // ---------------------------------------------------------------------------------------

  /** A child column and the parent keys that the snapshot holds. */
  datatype Reference = Reference(column: string, parents: set<Cell>)

  predicate Misses(reference: Reference, r: Record) {
    Get(r.values, reference.column) !in reference.parents
  }

  /** A missing key that is neither text nor integer stops the batch. */
  predicate IsBadKey(reference: Reference, r: Record) {
    var v := Get(r.values, reference.column);
    Misses(reference, r) && !v.Str? && !v.Int?
  }

  predicate BreaksReference(references: seq<Reference>, r: Record) {
    exists k :: 0 <= k < |references| && Misses(references[k], r)
  }

  predicate HasBadKey(references: seq<Reference>, r: Record) {
    exists k :: 0 <= k < |references| && IsBadKey(references[k], r)
  }

  function Breaking(references: seq<Reference>): Record -> bool {
    (r: Record) => BreaksReference(references, r)
  }

  /** The cursor keys of the rows of `page[..n]` that miss a parent under one reference. */
  function MissingCursors(reference: Reference, page: seq<Record>, n: nat): set<seq<KeyPart>>
    requires n <= |page|
  {
    if n == 0 then {} else
      MissingCursors(reference, page, n - 1)
        + (if Misses(reference, page[n - 1]) then {page[n - 1].cursor.keys} else {})
  }

  lemma {:induction false} MissingCursorsHold(reference: Reference, page: seq<Record>, n: nat, keys: seq<KeyPart>)
    requires n <= |page|
    ensures keys in MissingCursors(reference, page, n)
      <==> exists i :: 0 <= i < n && page[i].cursor.keys == keys && Misses(reference, page[i])
  {
    hide Misses;
    if n == 0 {
    } else {
      MissingCursorsHold(reference, page, n - 1, keys);
    }
  }

  /** A row of the page with these cursor keys misses a parent under one of the first references. */
  ghost predicate MissedBy(references: seq<Reference>, m: nat, page: seq<Record>, keys: seq<KeyPart>)
    requires m <= |references|
  {
    exists k, i :: 0 <= k < m && 0 <= i < |page| && page[i].cursor.keys == keys && Misses(references[k], page[i])
  }

  ghost predicate BrokenSoFar(references: seq<Reference>, m: nat, page: seq<Record>, broken: set<seq<KeyPart>>)
    requires m <= |references|
  {
    forall keys :: keys in broken <==> MissedBy(references, m, page, keys)
  }

  /** The row reads a key under the reference column that the snapshot does not hold. */
  ghost predicate LacksParent(reference: Reference, r: Record) {
    exists v :: Reads(r.values, reference.column, v) && v !in reference.parents
  }

  /** That key is neither a text nor an integer. */
  ghost predicate LacksBadParent(reference: Reference, r: Record) {
    exists v :: Reads(r.values, reference.column, v) && v !in reference.parents && !v.Str? && !v.Int?
  }

  lemma MissesMeans(reference: Reference, r: Record)
    ensures Misses(reference, r) <==> LacksParent(reference, r)
    ensures IsBadKey(reference, r) <==> LacksBadParent(reference, r)
  {
    hide Reads, Get;
    forall v ensures Reads(r.values, reference.column, v) <==> v == Get(r.values, reference.column) {
      GetReads(r.values, reference.column, v);
    }
    assert Reads(r.values, reference.column, Get(r.values, reference.column));
  }

  /** The cursor keys collected are those of the rows that lack a parent under some reference. */
  ghost predicate CollectsLacking(references: seq<Reference>, page: seq<Record>, broken: set<seq<KeyPart>>) {
    forall keys :: keys in broken <==>
      exists k, i :: 0 <= k < |references| && 0 <= i < |page|
                     && page[i].cursor.keys == keys && LacksParent(references[k], page[i])
  }

  lemma BrokenAreLacking(references: seq<Reference>, page: seq<Record>, broken: set<seq<KeyPart>>)
    requires BrokenSoFar(references, |references|, page, broken)
    ensures CollectsLacking(references, page, broken)
  {
    hide Misses, LacksParent, IsBadKey;
    forall k, i | 0 <= k < |references| && 0 <= i < |page|
      ensures Misses(references[k], page[i]) <==> LacksParent(references[k], page[i])
    {
      MissesMeans(references[k], page[i]);
    }
    forall keys
      ensures keys in broken <==>
        exists k, i :: 0 <= k < |references| && 0 <= i < |page|
                       && page[i].cursor.keys == keys && LacksParent(references[k], page[i])
    {
      assert keys in broken <==> MissedBy(references, |references|, page, keys);
    }
  }

  /** Some row of the page stops the batch, told on its cells. */
  ghost predicate StopsBatch(references: seq<Reference>, page: seq<Record>) {
    exists k, i :: 0 <= k < |references| && 0 <= i < |page| && LacksBadParent(references[k], page[i])
  }

  lemma StopsMeans(references: seq<Reference>, page: seq<Record>)
    ensures StopsBatch(references, page) <==> exists i :: 0 <= i < |page| && HasBadKey(references, page[i])
  {
    hide IsBadKey, LacksBadParent, Misses, LacksParent;
    forall k, i | 0 <= k < |references| && 0 <= i < |page|
      ensures IsBadKey(references[k], page[i]) <==> LacksBadParent(references[k], page[i])
    {
      MissesMeans(references[k], page[i]);
    }
    if i :| 0 <= i < |page| && HasBadKey(references, page[i]) {
      var k :| 0 <= k < |references| && IsBadKey(references[k], page[i]);
      assert LacksBadParent(references[k], page[i]);
    }
    if StopsBatch(references, page) {
      var k, i :| 0 <= k < |references| && 0 <= i < |page| && LacksBadParent(references[k], page[i]);
      assert IsBadKey(references[k], page[i]) && HasBadKey(references, page[i]);
    }
  }

  method MissingParents(reference: Reference, page: seq<Record>) returns (result: Result<set<seq<KeyPart>>>)
    ensures result.Failed? <==> exists i :: 0 <= i < |page| && IsBadKey(reference, page[i])
    ensures result.Failed? ==> result.failure == ReferenceType
    ensures result.Ok? ==> result.value == MissingCursors(reference, page, |page|)
  {
    var broken := {};
    for i := 0 to |page|
      invariant forall k :: 0 <= k < i ==> !IsBadKey(reference, page[k])
      invariant broken == MissingCursors(reference, page, i)
    {
      var key := Get(page[i].values, reference.column);
      if key !in reference.parents {
        if !key.Str? && !key.Int? {
          return Failed(ReferenceType);
        }
        broken := broken + {page[i].cursor.keys};
      }
    }
    result := Ok(broken);
  }

  lemma BrokenGrows(references: seq<Reference>, m: nat, page: seq<Record>, broken: set<seq<KeyPart>>)
    requires m < |references| && BrokenSoFar(references, m, page, broken)
    ensures BrokenSoFar(references, m + 1, page, broken + MissingCursors(references[m], page, |page|))
  {
    hide Misses, MissingCursors;
    var more := broken + MissingCursors(references[m], page, |page|);
    forall keys
      ensures keys in more <==> MissedBy(references, m + 1, page, keys)
    {
      MissingCursorsHold(references[m], page, |page|, keys);
    }
  }

  lemma NothingBroken(references: seq<Reference>, page: seq<Record>)
    ensures BrokenSoFar(references, 0, page, {})
  {
  }

  /** Collects the cursors of the rows whose parents the snapshot does not hold. */
  method FindBrokenParentReferences(references: seq<Reference>, page: seq<Record>)
    returns (result: Result<set<seq<KeyPart>>>)
    ensures result.Failed? <==> exists i :: 0 <= i < |page| && HasBadKey(references, page[i])
    ensures result.Failed? ==> result.failure == ReferenceType
    ensures result.Ok? ==> BrokenSoFar(references, |references|, page, result.value)
    ensures result.Failed? <==> StopsBatch(references, page)
    ensures result.Ok? ==> CollectsLacking(references, page, result.value)
  {
    hide IsBadKey, Misses, MissingCursors, BrokenSoFar, CollectsLacking, StopsBatch;
    StopsMeans(references, page);
    var broken := {};
    NothingBroken(references, page);
    for m := 0 to |references|
      invariant forall k, i :: 0 <= k < m && 0 <= i < |page| ==> !IsBadKey(references[k], page[i])
      invariant BrokenSoFar(references, m, page, broken)
    {
      var missing := MissingParents(references[m], page);
      if missing.Failed? {
        return Failed(ReferenceType);
      }
      BrokenGrows(references, m, page, broken);
      broken := broken + missing.value;
    }
    BrokenAreLacking(references, page, broken);
    result := Ok(broken);
  }

  ghost predicate DistinctCursorKeys(scan: seq<Record>) {
    forall i, k :: 0 <= i < k < |scan| ==> scan[i].cursor.keys != scan[k].cursor.keys
  }

  /** With distinct cursor keys the collected cursors single out the rows that break a reference. */
  lemma BrokenMeansBreaking(references: seq<Reference>, page: seq<Record>, broken: set<seq<KeyPart>>, r: Record)
    requires BrokenSoFar(references, |references|, page, broken) && DistinctCursorKeys(page) && r in page
    ensures InSet(broken)(r) == Breaking(references)(r)
  {
    hide Misses;
    var n :| 0 <= n < |page| && page[n] == r;
    if r.cursor.keys in broken {
      var k, i :| 0 <= k < |references| && 0 <= i < |page| && page[i].cursor.keys == r.cursor.keys
        && Misses(references[k], page[i]);
      assert i == n;
    }
  }

  // ---------------------------------------------------------------------------------------
  // The local artifacts of a whole batch
  // ---------------------------------------------------------------------------------------

  datatype Artifacts = Artifacts(valid: seq<Record>, rejected: seq<Rejected>, extracted: nat, rejectedCount: nat)

  /** Some row fails the batch. */
  ghost predicate Fails(scope: Scope, references: seq<Reference>, scan: seq<Record>) {
    exists r :: r in scan && (Refused(scope, r) || HasBadKey(references, r))
  }

  lemma FlattenMember(pages: seq<seq<Record>>, k: nat, r: Record)
    requires k < |pages| && r in pages[k]
    ensures r in Flatten(pages)
  {
    if k > 0 {
      FlattenMember(pages[1..], k - 1, r);
    }
  }

  lemma {:induction false} FlattenPrefix(pages: seq<seq<Record>>, n: nat)
    requires n <= |pages|
    ensures Flatten(pages[..n]) <= Flatten(pages)
  {
    if n == 0 {
    } else {
      assert pages[..n][1..] == pages[1..][..n - 1];
      FlattenPrefix(pages[1..], n - 1);
    }
  }

  lemma FlattenNext(pages: seq<seq<Record>>, n: nat)
    requires n < |pages|
    ensures Flatten(pages[..n + 1]) == Flatten(pages[..n]) + pages[n]
  {
    assert pages[..n + 1] == pages[..n] + [pages[n]];
    FlattenAppend(pages[..n], pages[n]);
  }

  lemma FlattenAll(pages: seq<seq<Record>>)
    ensures pages[..|pages|] == pages
  {
  }

  /** One more page continues the verdicts on the pages before it. */
  lemma PageContinues(config: TableConfig, references: seq<Reference>, before: seq<Record>, page: seq<Record>,
                      broken: set<seq<KeyPart>>)
    requires DistinctCursorKeys(page) && BrokenSoFar(references, |references|, page, broken)
    ensures var scan, b, c := before + page, Breaking(references), InSet(broken);
      && ValidRows(config, scan, b, 0, |scan|)
           == ValidRows(config, before, b, 0, |before|) + ValidRows(config, scan, c, |before|, |scan|)
      && RejectedRows(config, scan, b, 0, |scan|)
           == RejectedRows(config, before, b, 0, |before|) + RejectedRows(config, scan, c, |before|, |scan|)
  {
    hide BrokenSoFar, DistinctCursorKeys, BreaksReference, ValidRows, RejectedRows, InSet, Breaking;
    var scan, b, c := before + page, Breaking(references), InSet(broken);
    forall i | |before| <= i < |scan| ensures c(scan[i]) == b(scan[i]) {
      assert scan[i] == page[i - |before|];
      BrokenMeansBreaking(references, page, broken, scan[i]);
    }
    RowsLocal(config, before, scan, b, b, 0, |before|);
    RowsLocal(config, scan, scan, c, b, |before|, |scan|);
    RowsConcat(config, scan, b, 0, |before|, |scan|);
  }

  lemma DistinctWithin(scan: seq<Record>, before: seq<Record>, page: seq<Record>)
    requires DistinctCursorKeys(scan) && before + page <= scan
    ensures DistinctCursorKeys(page)
  {
    forall i, k | 0 <= i < k < |page| ensures page[i].cursor.keys != page[k].cursor.keys {
      assert page[i] == scan[|before| + i] && page[k] == scan[|before| + k];
    }
  }

  ghost predicate Passes(scope: Scope, references: seq<Reference>, r: Record) {
    !Refused(scope, r) && !HasBadKey(references, r)
  }

  lemma FailsHere(scope: Scope, references: seq<Reference>, pages: seq<seq<Record>>, k: nat, i: nat)
    requires k < |pages| && i < |pages[k]| && !Passes(scope, references, pages[k][i])
    ensures Fails(scope, references, Flatten(pages))
  {
    FlattenMember(pages, k, pages[k][i]);
  }

  lemma EmptyVerdicts(config: TableConfig, b: Record -> bool, pages: seq<seq<Record>>)
    ensures Flatten(pages[..0]) == [] && ValidRows(config, [], b, 0, 0) == [] && RejectedRows(config, [], b, 0, 0) == []
  {
  }

  /**
   Validates every page of a snapshot.  The batch fails exactly when some row of the scan
   fails it; otherwise the artifacts hold the reference verdicts on the whole scan, so page
   boundaries leave no trace in them.
   */
  method WriteLocalArtifacts(scope: Scope, references: seq<Reference>, pages: seq<seq<Record>>)
    returns (result: Result<Artifacts>)
    requires forall k :: 0 <= k < |pages| ==> pages[k] != []
    requires DistinctCursorKeys(Flatten(pages))
    ensures result.Failed? <==> Fails(scope, references, Flatten(pages))
    ensures result.Ok? ==>
      var scan, b := Flatten(pages), Breaking(references);
      && result.value.valid == ValidRows(scope.config, scan, b, 0, |scan|)
      && result.value.rejected == RejectedRows(scope.config, scan, b, 0, |scan|)
      && result.value.extracted == |scan| && result.value.rejectedCount == |result.value.rejected|
  {
    hide DistinctCursorKeys, Flatten, ValidRows, RejectedRows, BrokenSoFar, Refused, HasBadKey, SchemaDiffers, KeysSeen;
    var validation := new ValidationPipeline(scope);
    var artifacts := Artifacts([], [], 0, 0);
    ghost var b := Breaking(references);
    EmptyVerdicts(scope.config, b, pages);
    for n := 0 to |pages|
      invariant fresh(validation) && validation.Valid() && validation.scope == scope
      invariant validation.history == Flatten(pages[..n])
      invariant forall r :: r in validation.history ==> Passes(scope, references, r)
      invariant artifacts.valid == ValidRows(scope.config, validation.history, b, 0, |validation.history|)
      invariant artifacts.rejected == RejectedRows(scope.config, validation.history, b, 0, |validation.history|)
      invariant artifacts.extracted == |validation.history| && artifacts.rejectedCount == |artifacts.rejected|
    {
      var page := pages[n];
      ghost var before := validation.history;
      FlattenNext(pages, n);
      FlattenPrefix(pages, n + 1);
      DistinctWithin(Flatten(pages), before, page);
      var broken := FindBrokenParentReferences(references, page);
      if broken.Failed? {
        ghost var i :| 0 <= i < |page| && HasBadKey(references, page[i]);
        FailsHere(scope, references, pages, n, i);
        return Failed(broken.failure);
      }
      var validated := validation.ValidatePage(page, broken.value);
      if validated.Failed? {
        ghost var i :| 0 <= i < |page| && Refused(scope, page[i]);
        FailsHere(scope, references, pages, n, i);
        return Failed(validated.failure);
      }
      PageContinues(scope.config, references, before, page, broken.value);
      artifacts := Artifacts(artifacts.valid + validated.value.valid, artifacts.rejected + validated.value.rejected,
                             artifacts.extracted + |page|, artifacts.rejectedCount + |validated.value.rejected|);
    }
    FlattenAll(pages);
    result := Ok(artifacts);
  }

  // ---------------------------------------------------------------------------------------
  // What the verdicts mean
  // ---------------------------------------------------------------------------------------

  lemma TailCodes(config: TableConfig, scan: seq<Record>, b: Record -> bool, i: nat)
    requires i < |scan|
    ensures forall c :: c in CodesAt(config, scan, b, i) <==>
      || c in TypeCodes(config.columns, scan[i].values) || c in KeyCodes(config, scan, i)
      || c in ValueCodes(config, scan[i]) || (c == BrokenReference && b(scan[i]))
  {
    hide TypeCodes, KeyCodes, ValueCodes;
  }

  /** Each code stands for its rule: a row gets it if and only if the cells of the row break the rule. */
  lemma CodesMean(config: TableConfig, scan: seq<Record>, b: Record -> bool, i: nat)
    requires i < |scan|
    ensures var codes, values := CodesAt(config, scan, b, i), scan[i].values;
      && (RequiredNull in codes <==> exists k :: LacksRequired(config.columns, values, k))
      && (TypeMismatch in codes <==> exists k :: HoldsWrongType(config.columns, values, k))
      && (KeyNull in codes <==> HoldsNullKey(config, scan[i]))
      && (BatchDuplicate in codes <==> !HoldsNullKey(config, scan[i]) && RepeatsEarlier(config, scan, i))
      && (StatusDomainInvalid in codes <==> exists k :: LeavesDomain(config.domains, values, k))
      && (NumericRangeInvalid in codes <==> exists k :: FallsBelow(config.columns, config.minimums, values, k))
      && (BrokenReference in codes <==> b(scan[i]))
  {
    hide CodesAt, TypeCodes, ValueCodes, KeyCodes, LacksRequired, HoldsWrongType, LeavesDomain, FallsBelow, Counts,
         HoldsNullKey, RepeatsEarlier;
    TailCodes(config, scan, b, i);
    TypeCodesReport(config.columns, scan[i].values);
    KeyCodesMean(config, scan, i);
    ValueCodesReport(config, scan[i]);
  }

  /** Every column holds a value of its type or an allowed null, and statuses and numbers lie in their ranges. */
  ghost predicate WithinContract(config: TableConfig, r: Record) {
    && (forall k :: !LacksRequired(config.columns, r.values, k) && !HoldsWrongType(config.columns, r.values, k))
    && (forall k :: !LeavesDomain(config.domains, r.values, k))
    && (forall k :: !FallsBelow(config.columns, config.minimums, r.values, k))
    && !HoldsNullKey(config, r)
  }

  /**
   A row is valid if and only if its cells meet the contract of its table, it repeats no earlier
   primary key of the scan and breaks no reference.
   */
  lemma ValidIffConforming(config: TableConfig, scan: seq<Record>, b: Record -> bool, i: nat)
    requires i < |scan|
    ensures CodesAt(config, scan, b, i) == [] <==>
      WithinContract(config, scan[i]) && !RepeatsEarlier(config, scan, i) && !b(scan[i])
  {
    hide CodesAt, LacksRequired, HoldsWrongType, LeavesDomain, FallsBelow, HoldsNullKey, RepeatsEarlier;
    CodesMean(config, scan, b, i);
    var codes := CodesAt(config, scan, b, i);
    if codes != [] {
      assert codes[0] in codes;
      match codes[0] {
        case RequiredNull =>
        case TypeMismatch =>
        case KeyNull =>
        case BatchDuplicate =>
        case StatusDomainInvalid =>
        case NumericRangeInvalid =>
        case BrokenReference =>
      }
    }
  }

  /** Valid rows of a batch have pairwise distinct, non-null primary keys. */
  lemma ValidKeysAreDistinct(config: TableConfig, scan: seq<Record>, b: Record -> bool, i: nat, k: nat)
    requires i < k < |scan| && CodesAt(config, scan, b, i) == [] == CodesAt(config, scan, b, k)
    ensures !EqualKeys(config, scan[i], scan[k])
    ensures !HoldsNullKey(config, scan[i]) && !HoldsNullKey(config, scan[k])
  {
    hide CodesAt, HoldsNullKey, EqualKeys, LacksRequired, HoldsWrongType, LeavesDomain, FallsBelow;
    ValidIffConforming(config, scan, b, i);
    ValidIffConforming(config, scan, b, k);
  }

  ghost predicate InRuleOrder(codes: seq<Code>) {
    forall i, k :: 0 <= i < k < |codes| ==> RuleOrder(codes[i]) <= RuleOrder(codes[k])
  }

  ghost predicate Ranked(codes: seq<Code>, low: nat, high: nat) {
    forall i :: 0 <= i < |codes| ==> low <= RuleOrder(codes[i]) <= high
  }

  lemma OrderedConcat(a: seq<Code>, b: seq<Code>, low: nat, mid: nat, high: nat)
    requires InRuleOrder(a) && InRuleOrder(b) && Ranked(a, low, mid) && Ranked(b, mid, high) && low <= mid <= high
    ensures InRuleOrder(a + b) && Ranked(a + b, low, high)
  {
    hide RuleOrder;
  }

  lemma {:induction false} TypeCodesRanked(columns: seq<Column>, values: Values)
    ensures Ranked(TypeCodes(columns, values), 2, 2)
  {
    hide Get, MatchesColumn;
    if columns == [] {
    } else {
      TypeCodesRanked(columns[..|columns| - 1], values);
    }
  }

  lemma {:induction false} DomainCodesRanked(domains: seq<(string, set<seq<CodePoint>>)>, values: Values)
    ensures Ranked(DomainCodes(domains, values), 6, 6)
  {
    hide Get, OutsideDomain;
    if domains == [] {
    } else {
      DomainCodesRanked(domains[..|domains| - 1], values);
    }
  }

  lemma {:induction false} NumericCodesRanked(columns: seq<Column>, minimums: seq<(string, int)>, values: Values)
    ensures Ranked(NumericCodes(columns, minimums, values), 7, 7)
  {
    hide Get, TooSmall;
    if minimums == [] {
    } else {
      NumericCodesRanked(columns, minimums[..|minimums| - 1], values);
    }
  }

  lemma SameRank(codes: seq<Code>, rank: nat)
    requires Ranked(codes, rank, rank)
    ensures InRuleOrder(codes)
  {
  }

  lemma SingleCodes(config: TableConfig, scan: seq<Record>, i: nat, broken: bool)
    requires i < |scan|
    ensures Ranked(KeyCodes(config, scan, i), 4, 5) && InRuleOrder(KeyCodes(config, scan, i))
    ensures Ranked(BrokenCodes(broken), 8, 8) && InRuleOrder(BrokenCodes(broken))
  {
  }

  lemma Widen(codes: seq<Code>, low: nat, high: nat, lower: nat, higher: nat)
    requires Ranked(codes, low, high) && lower <= low && high <= higher
    ensures Ranked(codes, lower, higher)
  {
  }

  lemma ValueCodesOrdered(config: TableConfig, r: Record)
    ensures Ranked(ValueCodes(config, r), 6, 7) && InRuleOrder(ValueCodes(config, r))
  {
    hide Ranked, InRuleOrder, DomainCodes, NumericCodes;
    var domains := DomainCodes(config.domains, r.values);
    var numbers := NumericCodes(config.columns, config.minimums, r.values);
    DomainCodesRanked(config.domains, r.values);
    NumericCodesRanked(config.columns, config.minimums, r.values);
    SameRank(domains, 6);
    SameRank(numbers, 7);
    Widen(numbers, 7, 7, 6, 7);
    OrderedConcat(domains, numbers, 6, 6, 7);
  }

  /** Codes are listed in rule order; null and type codes are not ordered between themselves. */
  lemma CodesInRuleOrder(config: TableConfig, scan: seq<Record>, b: Record -> bool, i: nat)
    requires i < |scan|
    ensures InRuleOrder(CodesAt(config, scan, b, i))
  {
    hide Ranked, InRuleOrder, TypeCodes, DomainCodes, NumericCodes, KeyCodes, BrokenCodes;
    var r := scan[i];
    var types, keys, breaks := TypeCodes(config.columns, r.values), KeyCodes(config, scan, i), BrokenCodes(b(r));
    TypeCodesRanked(config.columns, r.values);
    SameRank(types, 2);
    SingleCodes(config, scan, i, b(r));
    ValueCodesOrdered(config, r);
    Widen(types, 2, 2, 2, 4);
    OrderedConcat(types, keys, 2, 4, 5);
    Widen(types + keys, 2, 5, 2, 6);
    OrderedConcat(types + keys, ValueCodes(config, r), 2, 6, 7);
    Widen(breaks, 8, 8, 7, 8);
    OrderedConcat(types + keys + ValueCodes(config, r), breaks, 2, 7, 8);
  }

  function Records(rejected: seq<Rejected>): seq<Record> {
    seq(|rejected|, i requires 0 <= i < |rejected| => rejected[i].record)
  }

  /** Two lists hold, between them, each element of a scan as often as the scan does. */
  ghost predicate Splits(valid: seq<Record>, rejected: seq<Record>, scan: seq<Record>) {
    multiset(valid) + multiset(rejected) == multiset(scan)
  }

  lemma SplitJoins(valid: seq<Record>, rejected: seq<Record>, scan: seq<Record>, r: Record)
    requires Splits(valid, rejected, scan)
    ensures Splits(valid + [r], rejected, scan + [r])
    ensures Splits(valid, rejected + [r], scan + [r])
  {
  }

  lemma NoVerdicts(config: TableConfig, scan: seq<Record>, b: Record -> bool)
    ensures Splits(ValidRows(config, scan, b, 0, 0), Records(RejectedRows(config, scan, b, 0, 0)), scan[..0])
  {
    assert Records([]) == [] && scan[..0] == [];
  }

  lemma LastVerdict(config: TableConfig, scan: seq<Record>, b: Record -> bool, n: nat)
    requires 0 < n <= |scan|
    ensures var codes := CodesAt(config, scan, b, n - 1);
      && ValidRows(config, scan, b, 0, n)
           == ValidRows(config, scan, b, 0, n - 1) + (if codes == [] then [scan[n - 1]] else [])
      && Records(RejectedRows(config, scan, b, 0, n))
           == Records(RejectedRows(config, scan, b, 0, n - 1)) + (if codes == [] then [] else [scan[n - 1]])
  {
    hide CodesAt;
  }

  /** Conservation: valid and rejected rows together are the scan, each row once. */
  lemma {:induction false} VerdictsConserveRows(config: TableConfig, scan: seq<Record>, b: Record -> bool, n: nat)
    requires n <= |scan|
    ensures Splits(ValidRows(config, scan, b, 0, n), Records(RejectedRows(config, scan, b, 0, n)), scan[..n])
  {
    hide *;
    if n == 0 {
      NoVerdicts(config, scan, b);
    } else {
      VerdictsConserveRows(config, scan, b, n - 1);
      LastVerdict(config, scan, b, n);
      var valid, rejected := ValidRows(config, scan, b, 0, n - 1), Records(RejectedRows(config, scan, b, 0, n - 1));
      SplitJoins(valid, rejected, scan[..n - 1], scan[n - 1]);
      assert scan[..n] == scan[..n - 1] + [scan[n - 1]];
      assert valid + [] == valid && rejected + [] == rejected;
    }
  }

  /** Rejects carry their position in the scan as ordinal, in ascending order, with their codes. */
  lemma {:induction false} OrdinalsArePositions(config: TableConfig, scan: seq<Record>, b: Record -> bool, n: nat)
    requires n <= |scan|
    ensures var rejected := RejectedRows(config, scan, b, 0, n);
      && (forall x :: x in rejected ==>
            && x.ordinal < n && x.record == scan[x.ordinal]
            && x.codes == CodesAt(config, scan, b, x.ordinal) && x.codes != [])
      && (forall i, k :: 0 <= i < k < |rejected| ==> rejected[i].ordinal < rejected[k].ordinal)
  {
    hide CodesAt;
    if n == 0 {
    } else {
      OrdinalsArePositions(config, scan, b, n - 1);
    }
  }

  // ---------------------------------------------------------------------------------------
  // A whole table batch
  // ---------------------------------------------------------------------------------------

  /** All cursors of one table have the column kinds of its contract. */
  ghost predicate UniformCursors(rows: set<Record>, lower: Position) {
    && (forall a, b :: a in rows && b in rows ==> SameShape(a.cursor.keys, b.cursor.keys))
    && (lower.At? ==> forall r :: r in rows ==> SameShape(r.cursor.keys, lower.cursor.keys))
  }

  /** The range check in Python accepts exactly the rows of the range that SQL selects. */
  lemma RangeChecksAgree(c: Cursor, lower: Position, upper: Cursor)
    requires SameShape(c.keys, upper.keys) && (lower.At? ==> SameShape(c.keys, lower.cursor.keys))
    ensures CursorInRange(c, lower, upper) <==> After(c, lower) && UpTo(c, At(upper))
  {
    hide Less, PyLess, SameShape, NormalizeCursor;
    OrdersAgree(c, upper);
    LessTrichotomy(c, upper);
    if lower.At? {
      OrdersAgree(c, lower.cursor);
      LessTrichotomy(c, lower.cursor);
    }
  }

  lemma ScanHasDistinctKeys(rows: set<Record>)
    requires Keyed(rows)
    ensures DistinctCursorKeys(Ordered(rows))
  {
    hide Less, Ordered;
    var scan := Ordered(rows);
    OrderedContents(rows);
    ElementsOf(scan);
    forall i, k | 0 <= i < k < |scan| ensures scan[i].cursor.keys != scan[k].cursor.keys {
      assert scan[i] in rows && scan[k] in rows;
      LessTrichotomy(scan[i].cursor, scan[k].cursor);
    }
  }

  lemma {:induction false} DistinctCounts(s: seq<Record>, x: Record)
    requires DistinctCursorKeys(s)
    ensures multiset(s)[x] <= 1
  {
    if s == [] {
    } else {
      var n := |s| - 1;
      DistinctCounts(s[..n], x);
      assert s == s[..n] + [s[n]];
      if x == s[n] {
        assert x !in s[..n];
      }
    }
  }

  lemma {:induction false} CardinalityOf(s: seq<Record>)
    requires forall x :: multiset(s)[x] <= 1
    ensures |Elements(s)| == |s|
  {
    if s == [] {
    } else {
      var n := |s| - 1;
      assert s == s[..n] + [s[n]];
      forall x ensures multiset(s[..n])[x] <= 1 {
        assert multiset(s)[x] <= 1;
      }
      CardinalityOf(s[..n]);
      assert multiset(s)[s[n]] <= 1;
      assert s[n] !in s[..n];
      assert Elements(s) == Elements(s[..n]) + {s[n]};
    }
  }

  lemma SameMembers(valid: seq<Record>, rejected: seq<Record>, scan: seq<Record>)
    requires forall x :: multiset(valid)[x] + multiset(rejected)[x] == multiset(scan)[x] <= 1
    ensures Elements(valid) !! Elements(rejected) && Elements(valid) + Elements(rejected) == Elements(scan)
  {
    forall x ensures x in Elements(scan) <==> x in Elements(valid) || x in Elements(rejected)
      ensures !(x in Elements(valid) && x in Elements(rejected))
    {
      assert multiset(valid)[x] + multiset(rejected)[x] == multiset(scan)[x];
      assert x in valid <==> x in multiset(valid);
      assert x in rejected <==> x in multiset(rejected);
      assert x in scan <==> x in multiset(scan);
    }
  }

  /** Splitting a scan without repetitions splits its set of rows. */
  lemma SplitOfDistinct(valid: seq<Record>, rejected: seq<Record>, scan: seq<Record>)
    requires Splits(valid, rejected, scan) && DistinctCursorKeys(scan)
    ensures Elements(valid) !! Elements(rejected)
    ensures Elements(valid) + Elements(rejected) == Elements(scan)
    ensures |Elements(valid)| == |valid| && |Elements(rejected)| == |rejected|
  {
    hide DistinctCursorKeys;
    forall x ensures multiset(valid)[x] + multiset(rejected)[x] == multiset(scan)[x] <= 1 {
      DistinctCounts(scan, x);
      assert (multiset(valid) + multiset(rejected))[x] == multiset(valid)[x] + multiset(rejected)[x];
    }
    CardinalityOf(valid);
    CardinalityOf(rejected);
    SameMembers(valid, rejected, scan);
  }

  /** The artifacts split the extraction range of the snapshot into valid and rejected rows. */
  ghost predicate SplitsRange(a: Artifacts, rows: set<Record>, lower: Position, upper: Position) {
    var valid, rejected := Elements(a.valid), Elements(Records(a.rejected));
    && valid !! rejected && valid + rejected == InRange(rows, lower, upper)
    && |valid| == |a.valid| && |rejected| == a.rejectedCount && a.extracted == |a.valid| + a.rejectedCount
  }

  /** The artifacts hold the reference verdicts on the ordered range. */
  ghost predicate HoldsVerdicts(a: Artifacts, config: TableConfig, references: seq<Reference>, scan: seq<Record>) {
    && a.valid == ValidRows(config, scan, Breaking(references), 0, |scan|)
    && a.rejected == RejectedRows(config, scan, Breaking(references), 0, |scan|)
    && a.extracted == |scan| && a.rejectedCount == |a.rejected|
  }

  lemma RangeKeyed(rows: set<Record>, lower: Position, upper: Position)
    requires Keyed(rows)
    ensures Keyed(InRange(rows, lower, upper))
  {
  }

  lemma SplitLength(valid: seq<Record>, rejected: seq<Record>, scan: seq<Record>)
    requires Splits(valid, rejected, scan)
    ensures |valid| + |rejected| == |scan|
  {
    assert |multiset(valid) + multiset(rejected)| == |multiset(valid)| + |multiset(rejected)|;
    assert |multiset(valid)| == |valid| && |multiset(rejected)| == |rejected| && |multiset(scan)| == |scan|;
  }

  lemma ArtifactsSplitRange(a: Artifacts, config: TableConfig, b: Record -> bool, rows: set<Record>, lower: Position,
                            upper: Position)
    requires Keyed(rows) && a.rejectedCount == |a.rejected|
    requires var scan := Ordered(InRange(rows, lower, upper));
      && a.valid == ValidRows(config, scan, b, 0, |scan|) && a.rejected == RejectedRows(config, scan, b, 0, |scan|)
      && a.extracted == |scan|
    ensures SplitsRange(a, rows, lower, upper)
  {
    hide Ordered, ValidRows, RejectedRows, InRange, DistinctCursorKeys, Elements, Less;
    var range := InRange(rows, lower, upper);
    assert Keyed(range) by { RangeKeyed(rows, lower, upper); }
    var scan := Ordered(range);
    VerdictsConserveRows(config, scan, b, |scan|);
    assert scan[..|scan|] == scan;
    ScanHasDistinctKeys(range);
    SplitOfDistinct(a.valid, Records(a.rejected), scan);
    OrderedContents(range);
    SplitLength(a.valid, Records(a.rejected), scan);
  }

  lemma NothingOutOfRange(scope: Scope, rows: set<Record>)
    requires Keyed(rows) && UniformCursors(rows, scope.lower)
    requires FetchUpperBound(rows, scope.lower) == At(scope.upper)
    ensures var scan := Ordered(InRange(rows, scope.lower, At(scope.upper)));
      && (forall r :: r in scan <==> r in Beyond(rows, scope.lower))
      && (forall r :: r in scan ==> CursorInRange(r.cursor, scope.lower, scope.upper))
  {
    hide Less, Ordered, CursorInRange, SameShape, FetchUpperBound;
    var range := InRange(rows, scope.lower, At(scope.upper));
    UpperBoundClosesRange(rows, scope.lower);
    OrderedContents(range);
    ElementsOf(Ordered(range));
    var top :| top in Beyond(rows, scope.lower) && top.cursor == scope.upper;
    forall r | r in range ensures CursorInRange(r.cursor, scope.lower, scope.upper) {
      assert SameShape(r.cursor.keys, top.cursor.keys);
      RangeChecksAgree(r.cursor, scope.lower, scope.upper);
    }
  }

  lemma ArtifactsHoldVerdicts(a: Artifacts, config: TableConfig, references: seq<Reference>, scan: seq<Record>)
    requires a.valid == ValidRows(config, scan, Breaking(references), 0, |scan|)
    requires a.rejected == RejectedRows(config, scan, Breaking(references), 0, |scan|)
    requires a.extracted == |scan| && a.rejectedCount == |a.rejected|
    ensures HoldsVerdicts(a, config, references, scan)
  {
  }

  lemma BatchReady(rows: set<Record>, scope: Scope, pages: seq<seq<Record>>, pageSize: nat)
    requires Keyed(rows) && PageSizes(pages, pageSize)
    requires Flatten(pages) == Ordered(InRange(rows, scope.lower, At(scope.upper)))
    ensures forall k :: 0 <= k < |pages| ==> pages[k] != []
    ensures DistinctCursorKeys(Flatten(pages))
  {
    hide Ordered, Less, DistinctCursorKeys, Flatten;
    RangeKeyed(rows, scope.lower, At(scope.upper));
    ScanHasDistinctKeys(InRange(rows, scope.lower, At(scope.upper)));
  }

  lemma FailuresOfRange(rows: set<Record>, scope: Scope, references: seq<Reference>, scan: seq<Record>)
    requires Keyed(rows) && UniformCursors(rows, scope.lower)
    requires FetchUpperBound(rows, scope.lower) == At(scope.upper)
    requires scan == Ordered(InRange(rows, scope.lower, At(scope.upper)))
    ensures Fails(scope, references, scan) <==>
      exists r :: r in Beyond(rows, scope.lower) && (SchemaDiffers(scope.config, r) || HasBadKey(references, r))
  {
    hide Ordered, InRange, Beyond, SchemaDiffers, HasBadKey, CursorInRange, UniformCursors, FetchUpperBound, Keyed;
    NothingOutOfRange(scope, rows);
  }

  /**
   Reads, validates and splits one snapshot.  The batch never fails on the cursor range; it
   fails exactly when a row after the watermark has foreign columns or a reference key of the
   wrong type.  Otherwise every row after the watermark is either valid or rejected.
   */
  method ExtractTable(rows: set<Record>, scope: Scope, references: seq<Reference>, pageSize: nat)
    returns (result: Result<Artifacts>)
    requires Keyed(rows) && pageSize >= 1 && UniformCursors(rows, scope.lower)
    requires FetchUpperBound(rows, scope.lower) == At(scope.upper)
    ensures result.Failed? <==>
      exists r :: r in Beyond(rows, scope.lower) && (SchemaDiffers(scope.config, r) || HasBadKey(references, r))
    ensures result.Ok? ==>
      && SplitsRange(result.value, rows, scope.lower, At(scope.upper))
      && HoldsVerdicts(result.value, scope.config, references, Ordered(InRange(rows, scope.lower, At(scope.upper))))
  {
    hide *;
    var pages := Pages(rows, scope.lower, At(scope.upper), pageSize);
    BatchReady(rows, scope, pages, pageSize);
    result := WriteLocalArtifacts(scope, references, pages);
    FailuresOfRange(rows, scope, references, Flatten(pages));
    if result.Ok? {
      ArtifactsSplitRange(result.value, scope.config, Breaking(references), rows, scope.lower, At(scope.upper));
      ArtifactsHoldVerdicts(result.value, scope.config, references, Flatten(pages));
    }
  }

  // ---------------------------------------------------------------------------------------
  // The reject-rate gate
  // ---------------------------------------------------------------------------------------

  const MAX_REJECT_RATE := 0.05

  datatype RateCheck = Accepted | BadCounts | Exceeded

  function AssertRejectRate(total: int, rejected: int): RateCheck {
    if total < 0 || rejected < 0 || rejected > total then BadCounts
    else if total != 0 && rejected as real / total as real > MAX_REJECT_RATE then Exceeded
    else Accepted
  }

  lemma ScaleUp(gap: real, total: real)
    requires gap > 0.0 && total > 0.0
    ensures gap * total > 0.0
  {
  }

  lemma RatioAgainstRate(rejected: real, total: real)
    requires total > 0.0
    ensures rejected / total > MAX_REJECT_RATE <==> 20.0 * rejected > total
  {
    var ratio := rejected / total;
    assert ratio * total == rejected;
    assert (ratio - MAX_REJECT_RATE) * total == rejected - total / 20.0;
    if ratio > MAX_REJECT_RATE {
      ScaleUp(ratio - MAX_REJECT_RATE, total);
    } else if ratio < MAX_REJECT_RATE {
      ScaleUp(MAX_REJECT_RATE - ratio, total);
      assert (MAX_REJECT_RATE - ratio) * total == total / 20.0 - rejected;
    }
  }

  /** The gate accepts a batch exactly when at most one extracted row in twenty was rejected. */
  lemma RejectRateMeans(total: int, rejected: int)
    ensures AssertRejectRate(total, rejected).Accepted? <==> 0 <= rejected <= total && 20 * rejected <= total
    ensures AssertRejectRate(total, rejected).Exceeded? <==> 0 <= rejected <= total < 20 * rejected
  {
    if 0 <= rejected <= total && total != 0 {
      RatioAgainstRate(rejected as real, total as real);
    }
  }
}
