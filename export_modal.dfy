/** The column picker of the export dialog: a duplicate-free list of
    catalog keys, replaced by each checkbox, group and select-all action. */
module ExportColumns {
  import Common

  /** The keys of the export catalog; `KeyName` gives the string sent to
      the backend. */
  datatype ColumnKey =
    | MatriId
    | FullName
    | Email
    | Phone
    | PlanName
    | PlanPrice
    | StartAt
    | ExpiresAt
    | DaysRemaining
    | ExpiryStatus
    | Branch
    | Country
    | State
    | City

  function KeyName(k: ColumnKey): string {
    match k
    case MatriId => "matriId"
    case FullName => "name"
    case Email => "email"
    case Phone => "phone"
    case PlanName => "planName"
    case PlanPrice => "planPrice"
    case StartAt => "startAt"
    case ExpiresAt => "expiresAt"
    case DaysRemaining => "daysRemaining"
    case ExpiryStatus => "expiryStatus"
    case Branch => "branch"
    case Country => "country"
    case State => "state"
    case City => "city"
  }

  /** The position of a key in the catalog. */
  function CatalogIndex(k: ColumnKey): nat {
    match k
    case MatriId => 0
    case FullName => 1
    case Email => 2
    case Phone => 3
    case PlanName => 4
    case PlanPrice => 5
    case StartAt => 6
    case ExpiresAt => 7
    case DaysRemaining => 8
    case ExpiryStatus => 9
    case Branch => 10
    case Country => 11
    case State => 12
    case City => 13
  }

  datatype Column = Column(key: ColumnKey, text: string)

  datatype ColumnGroup = ColumnGroup(title: string, columns: seq<Column>)

  const PROFILE := ColumnGroup("Profile Information", [
    Column(MatriId, "Matri ID"),
    Column(FullName, "Name"),
    Column(Email, "Email"),
    Column(Phone, "Phone")])

  const SUBSCRIPTION := ColumnGroup("Subscription Details", [
    Column(PlanName, "Plan Name"),
    Column(PlanPrice, "Plan Price"),
    Column(StartAt, "Subscription Start"),
    Column(ExpiresAt, "Expiry Date"),
    Column(DaysRemaining, "Days Remaining"),
    Column(ExpiryStatus, "Expiry Status")])

  const LOCATION := ColumnGroup("Location Information", [
    Column(Branch, "Branch"),
    Column(Country, "Country"),
    Column(State, "State"),
    Column(City, "City")])

  const COLUMN_GROUPS := [PROFILE, SUBSCRIPTION, LOCATION]

  /** The selection the dialog opens with. */
  const DEFAULT_COLUMNS := [MatriId, FullName, Email, Phone, PlanName, ExpiresAt, DaysRemaining, ExpiryStatus]

  /** `columns.map(col => col.key)` */
  function Keys(cols: seq<Column>): (ks: seq<ColumnKey>)
    ensures |ks| == |cols|
    ensures forall i :: 0 <= i < |cols| ==> ks[i] == cols[i].key
  {
    seq(|cols|, i requires 0 <= i < |cols| => cols[i].key)
  }

  /** `columnGroups.flatMap(group => group.columns)` */
  function AllColumns(): seq<Column> {
    PROFILE.columns + SUBSCRIPTION.columns + LOCATION.columns
  }

  /** The keys of every catalog column, in group order. */
  function AllKeys(): seq<ColumnKey> {
    Keys(AllColumns())
  }

  /** The key map works column by column. */
  lemma {:induction false} KeysAppend(a: seq<Column>, b: seq<Column>)
    ensures Keys(a + b) == Keys(a) + Keys(b)
  {
    assert |Keys(a + b)| == |Keys(a) + Keys(b)|;
    forall i | 0 <= i < |a + b|
      ensures Keys(a + b)[i] == (Keys(a) + Keys(b))[i]
    {
      if i < |a| { assert (a + b)[i] == a[i]; } else { assert (a + b)[i] == b[i - |a|]; }
    }
  }

  predicate NoDup(s: seq<ColumnKey>) {
    forall i, j :: 0 <= i < j < |s| ==> s[i] != s[j]
  }

  /** Every key of `s` is a catalog key. */
  predicate InCatalog(s: seq<ColumnKey>) {
    forall k :: k in s ==> k in AllKeys()
  }

  /** The catalog keys in group order. */
  const CATALOG_ORDER := [MatriId, FullName, Email, Phone,
    PlanName, PlanPrice, StartAt, ExpiresAt, DaysRemaining, ExpiryStatus,
    Branch, Country, State, City]

  lemma CatalogKeys()
    ensures AllKeys() == CATALOG_ORDER
  {
    KeysAppend(PROFILE.columns, SUBSCRIPTION.columns);
    KeysAppend(PROFILE.columns + SUBSCRIPTION.columns, LOCATION.columns);
    assert Keys(PROFILE.columns) == [MatriId, FullName, Email, Phone];
    assert Keys(SUBSCRIPTION.columns) == [PlanName, PlanPrice, StartAt, ExpiresAt, DaysRemaining, ExpiryStatus];
    assert Keys(LOCATION.columns) == [Branch, Country, State, City];
  }

  /** Keys listed in catalog position order are distinct. */
  lemma IndexedNoDup(s: seq<ColumnKey>)
    requires forall i :: 0 <= i < |s| ==> CatalogIndex(s[i]) == i
    ensures NoDup(s)
  {
  }

  lemma CatalogOrderIndexed()
    ensures |CATALOG_ORDER| == 14
    ensures forall i :: 0 <= i < 14 ==> CatalogIndex(CATALOG_ORDER[i]) == i
  {
  }

  /** The default keys sit at catalog positions 0-4 and 7-9, so they are
      distinct. */
  lemma DefaultColumnsDistinct()
    ensures NoDup(DEFAULT_COLUMNS)
  {
    var ds := DEFAULT_COLUMNS;
    assert forall i :: 0 <= i < |ds| ==> CatalogIndex(ds[i]) == if i < 5 then i else i + 2;
  }

  lemma DefaultColumnsShape()
    ensures NoDup(DEFAULT_COLUMNS) && InCatalog(DEFAULT_COLUMNS)
  {
    DefaultColumnsDistinct();
    CatalogKeys();
    var ds := DEFAULT_COLUMNS;
    assert forall i :: 0 <= i < |ds| ==> ds[i] == CATALOG_ORDER[if i < 5 then i else i + 2];
  }

  /** The catalog lists the 14 keys once each, in group order, and the
      initial selection is eight distinct catalog keys. */
  lemma CatalogShape()
    ensures AllKeys() == CATALOG_ORDER
    ensures |AllKeys()| == 14
    ensures forall i :: 0 <= i < 14 ==> CatalogIndex(AllKeys()[i]) == i
    ensures NoDup(AllKeys())
    ensures NoDup(DEFAULT_COLUMNS) && InCatalog(DEFAULT_COLUMNS)
  {
    CatalogKeys();
    CatalogOrderIndexed();
    IndexedNoDup(CATALOG_ORDER);
    DefaultColumnsShape();
  }

  /** The strings of the keys, as `onExport` receives them. */
  function KeyNames(ks: seq<ColumnKey>): (names: seq<string>)
    ensures |names| == |ks|
    ensures forall i :: 0 <= i < |ks| ==> names[i] == KeyName(ks[i])
  {
    seq(|ks|, i requires 0 <= i < |ks| => KeyName(ks[i]))
  }

  // --------------------------------------------------------- list algebra

  /** `s.filter(c => c !== k)` */
  function Without(s: seq<ColumnKey>, k: ColumnKey): (r: seq<ColumnKey>)
    ensures forall x :: x in r <==> x in s && x != k
    ensures |r| <= |s|
  {
    if s == [] then []
    else (if s[0] == k then [] else [s[0]]) + Without(s[1..], k)
  }

  /** `s.filter(key => !ks.includes(key))` */
  function Minus(s: seq<ColumnKey>, ks: seq<ColumnKey>): (r: seq<ColumnKey>)
    ensures forall x :: x in r <==> x in s && x !in ks
    ensures |r| <= |s|
  {
    if s == [] then []
    else (if s[0] in ks then [] else [s[0]]) + Minus(s[1..], ks)
  }

  /** Inserting `xs` one by one into an insertion-ordered set holding `acc`. */
  function AddNew(acc: seq<ColumnKey>, xs: seq<ColumnKey>): (r: seq<ColumnKey>)
    ensures forall x :: x in r <==> x in acc || x in xs
    ensures |acc| <= |r| && r[..|acc|] == acc
    ensures NoDup(acc) ==> NoDup(r)
    decreases |xs|
  {
    if xs == [] then acc
    else
      var next := if xs[0] in acc then acc else acc + [xs[0]];
      assert NoDup(acc) ==> NoDup(next);
      assert next[..|acc|] == acc;
      var r := AddNew(next, xs[1..]);
      assert r[..|acc|] == r[..|next|][..|acc|];
      r
  }

  /** `[...new Set([...s, ...ks])]` */
  function Union(s: seq<ColumnKey>, ks: seq<ColumnKey>): seq<ColumnKey> {
    AddNew([], s + ks)
  }

  predicate FullySelected(s: seq<ColumnKey>, ks: seq<ColumnKey>) {
    forall k :: k in ks ==> k in s
  }

  /** The selection after clicking the checkbox of `k`. */
  function Toggled(s: seq<ColumnKey>, k: ColumnKey): seq<ColumnKey> {
    if k in s then Without(s, k) else s + [k]
  }

  /** The selection after clicking the button of the group with keys `ks`. */
  function GroupToggled(s: seq<ColumnKey>, ks: seq<ColumnKey>): seq<ColumnKey> {
    if FullySelected(s, ks) then Minus(s, ks) else Union(s, ks)
  }

  /** The keys of each of the three groups are distinct, so selecting a
      group appends its missing keys exactly once each. */
  lemma GroupKeysDistinct()
    ensures NoDup(Keys(PROFILE.columns))
    ensures NoDup(Keys(SUBSCRIPTION.columns))
    ensures NoDup(Keys(LOCATION.columns))
  {
    assert Keys(PROFILE.columns) == [MatriId, FullName, Email, Phone];
    assert Keys(SUBSCRIPTION.columns) == [PlanName, PlanPrice, StartAt, ExpiresAt, DaysRemaining, ExpiryStatus];
    assert Keys(LOCATION.columns) == [Branch, Country, State, City];
  }

  /** Removing an absent key changes nothing. */
  lemma {:induction false} WithoutAbsent(s: seq<ColumnKey>, k: ColumnKey)
    requires k !in s
    ensures Without(s, k) == s
  {
    if s != [] {
      WithoutAbsent(s[1..], k);
      assert s == [s[0]] + s[1..];
    }
  }

  /** The filter works element by element. */
  lemma {:induction false} WithoutAppend(a: seq<ColumnKey>, b: seq<ColumnKey>, k: ColumnKey)
    ensures Without(a + b, k) == Without(a, k) + Without(b, k)
  {
    if a == [] {
      assert a + b == b;
    } else {
      assert (a + b)[1..] == a[1..] + b;
      WithoutAppend(a[1..], b, k);
    }
  }

  lemma {:induction false} WithoutNoDup(s: seq<ColumnKey>, k: ColumnKey)
    requires NoDup(s)
    ensures NoDup(Without(s, k))
  {
    if s != [] {
      assert NoDup(s[1..]) by {
        forall i, j | 0 <= i < j < |s| - 1 ensures s[1..][i] != s[1..][j] {
          assert s[1..][i] == s[i + 1] && s[1..][j] == s[j + 1];
        }
      }
      WithoutNoDup(s[1..], k);
      assert s[0] !in s[1..] by {
        forall i | 0 <= i < |s[1..]| ensures s[1..][i] != s[0] {
          assert s[1..][i] == s[i + 1];
        }
      }
      var rest := Without(s[1..], k);
      var r := (if s[0] == k then [] else [s[0]]) + rest;
      forall i, j | 0 <= i < j < |r| ensures r[i] != r[j] {
        if s[0] != k {
          if i == 0 {
            assert r[j] == rest[j - 1] && r[j] in rest;
          } else {
            assert r[i] == rest[i - 1] && r[j] == rest[j - 1];
          }
        }
      }
    }
  }

  lemma {:induction false} MinusNoDup(s: seq<ColumnKey>, ks: seq<ColumnKey>)
    requires NoDup(s)
    ensures NoDup(Minus(s, ks))
  {
    if s != [] {
      assert NoDup(s[1..]) by {
        forall i, j | 0 <= i < j < |s| - 1 ensures s[1..][i] != s[1..][j] {
          assert s[1..][i] == s[i + 1] && s[1..][j] == s[j + 1];
        }
      }
      MinusNoDup(s[1..], ks);
      assert s[0] !in s[1..] by {
        forall i | 0 <= i < |s[1..]| ensures s[1..][i] != s[0] {
          assert s[1..][i] == s[i + 1];
        }
      }
      var rest := Minus(s[1..], ks);
      var r := (if s[0] in ks then [] else [s[0]]) + rest;
      forall i, j | 0 <= i < j < |r| ensures r[i] != r[j] {
        if s[0] !in ks {
          if i == 0 {
            assert r[j] == rest[j - 1] && r[j] in rest;
          } else {
            assert r[i] == rest[i - 1] && r[j] == rest[j - 1];
          }
        }
      }
    }
  }

  /** The group filter works element by element, so the kept keys stay in
      their order. */
  lemma {:induction false} MinusAppend(a: seq<ColumnKey>, b: seq<ColumnKey>, ks: seq<ColumnKey>)
    ensures Minus(a + b, ks) == Minus(a, ks) + Minus(b, ks)
  {
    if a == [] {
      assert a + b == b;
    } else {
      assert (a + b)[1..] == a[1..] + b;
      MinusAppend(a[1..], b, ks);
    }
  }

  /** Inserting into `p + q` keeps `p` in front and inserts into `q` only
      the keys that are not in `p`, in their order. */
  lemma {:induction false} AddNewSplit(p: seq<ColumnKey>, q: seq<ColumnKey>, xs: seq<ColumnKey>)
    ensures AddNew(p + q, xs) == p + AddNew(q, Minus(xs, p))
    decreases |xs|
  {
    if xs == [] {
      assert Minus(xs, p) == [];
    } else {
      var x, tail := xs[0], xs[1..];
      var rest := Minus(tail, p);
      var m := Minus(xs, p);
      assert m == (if x in p then [] else [x]) + rest;
      if x in p {
        assert x in p + q;
        assert AddNew(p + q, xs) == AddNew(p + q, tail);
        AddNewSplit(p, q, tail);
        assert m == rest;
      } else if x in q {
        assert x in p + q;
        assert AddNew(p + q, xs) == AddNew(p + q, tail);
        AddNewSplit(p, q, tail);
        assert m[0] == x && m[1..] == rest;
        assert AddNew(q, m) == AddNew(q, rest);
      } else {
        assert x !in p + q;
        assert AddNew(p + q, xs) == AddNew((p + q) + [x], tail);
        assert (p + q) + [x] == p + (q + [x]);
        AddNewSplit(p, q + [x], tail);
        assert m[0] == x && m[1..] == rest;
        assert AddNew(q, m) == AddNew(q + [x], rest);
      }
    }
  }

  /** Inserting keys that are all new appends them unchanged. */
  lemma {:induction false} AddNewFresh(acc: seq<ColumnKey>, xs: seq<ColumnKey>)
    requires NoDup(acc + xs)
    ensures AddNew(acc, xs) == acc + xs
    decreases |xs|
  {
    if xs != [] {
      var ax := acc + xs;
      assert xs[0] !in acc by {
        forall i | 0 <= i < |acc| ensures acc[i] != xs[0] {
          assert acc[i] == ax[i] && xs[0] == ax[|acc|];
        }
      }
      assert (acc + [xs[0]]) + xs[1..] == ax;
      AddNewFresh(acc + [xs[0]], xs[1..]);
    }
  }

  /** Inserting `a + b` is inserting `a`, then `b`. */
  lemma {:induction false} AddNewAppend(acc: seq<ColumnKey>, a: seq<ColumnKey>, b: seq<ColumnKey>)
    ensures AddNew(acc, a + b) == AddNew(AddNew(acc, a), b)
    decreases |a|
  {
    if a == [] {
      assert a + b == b;
    } else {
      assert (a + b)[0] == a[0] && (a + b)[1..] == a[1..] + b;
      var next := if a[0] in acc then acc else acc + [a[0]];
      AddNewAppend(next, a[1..], b);
    }
  }

  /** On a duplicate-free selection the `Set` union keeps the selection
      as it is and appends the group keys not yet selected, in group
      order. */
  lemma UnionExtends(s: seq<ColumnKey>, ks: seq<ColumnKey>)
    requires NoDup(s)
    ensures Union(s, ks) == AddNew(s, ks) == s + AddNew([], Minus(ks, s))
    ensures |s| <= |Union(s, ks)| && Union(s, ks)[..|s|] == s
    ensures forall x :: x in Union(s, ks) <==> x in s || x in ks
    ensures NoDup(Union(s, ks))
  {
    AddNewAppend([], s, ks);
    assert [] + s == s;
    AddNewFresh([], s);
    assert s + [] == s;
    AddNewSplit(s, [], ks);
  }

  // ------------------------------------------------------------ properties

  /** A toggle flips the membership of its key and of no other key. */
  lemma ToggleFlips(s: seq<ColumnKey>, k: ColumnKey)
    ensures k in Toggled(s, k) <==> k !in s
    ensures forall x :: x != k ==> (x in Toggled(s, k) <==> x in s)
    ensures k !in s ==> Toggled(s, k) == s + [k]
  {
  }

  /** Toggling an absent key twice restores the selection. */
  lemma {:induction false} ToggleTwiceAbsent(s: seq<ColumnKey>, k: ColumnKey)
    requires k !in s
    ensures Toggled(Toggled(s, k), k) == s
  {
    WithoutAppend(s, [k], k);
    WithoutAbsent(s, k);
    assert Without([k], k) == [];
  }

  /** Toggling a selected key twice keeps the same keys but moves that key
      to the end. */
  lemma ToggleTwicePresent(s: seq<ColumnKey>, k: ColumnKey)
    requires k in s
    ensures Toggled(Toggled(s, k), k) == Without(s, k) + [k]
  {
  }

  /** A toggle keeps the selection free of duplicates. */
  lemma ToggleNoDup(s: seq<ColumnKey>, k: ColumnKey)
    requires NoDup(s)
    ensures NoDup(Toggled(s, k))
  {
    if k in s {
      WithoutNoDup(s, k);
    } else {
      var t := s + [k];
      forall i, j | 0 <= i < j < |t| ensures t[i] != t[j] {
        if j == |s| { assert t[i] == s[i]; }
      }
    }
  }

  /** A group that was not fully selected is fully selected afterwards;
      one that was loses exactly its keys. */
  lemma GroupToggleEffect(s: seq<ColumnKey>, ks: seq<ColumnKey>)
    ensures !FullySelected(s, ks) ==> FullySelected(GroupToggled(s, ks), ks)
    ensures !FullySelected(s, ks) && NoDup(s) ==>
      |s| <= |GroupToggled(s, ks)| && GroupToggled(s, ks)[..|s|] == s
    ensures FullySelected(s, ks) ==>
      forall x :: x in GroupToggled(s, ks) <==> x in s && x !in ks
    ensures !FullySelected(s, ks) ==>
      forall x :: x in GroupToggled(s, ks) <==> x in s || x in ks
  {
    if !FullySelected(s, ks) && NoDup(s) {
      UnionExtends(s, ks);
    }
  }

  /** Selecting a group that is not fully selected appends the group keys
      not yet selected, in group order, behind the selection. */
  lemma GroupSelectAppends(s: seq<ColumnKey>, ks: seq<ColumnKey>)
    requires !FullySelected(s, ks) && NoDup(s) && NoDup(ks)
    ensures GroupToggled(s, ks) == s + Minus(ks, s)
  {
    UnionExtends(s, ks);
    MinusNoDup(ks, s);
    assert [] + Minus(ks, s) == Minus(ks, s);
    AddNewFresh([], Minus(ks, s));
  }

  /** Deselecting a fully selected group keeps the other keys in their
      order: removing the group from a split selection removes it from each
      part. */
  lemma GroupDeselectKeepsOrder(a: seq<ColumnKey>, b: seq<ColumnKey>, ks: seq<ColumnKey>)
    requires FullySelected(a + b, ks)
    ensures GroupToggled(a + b, ks) == Minus(a, ks) + Minus(b, ks)
  {
    MinusAppend(a, b, ks);
  }

  /** A group toggle keeps the selection free of duplicates. */
  lemma GroupToggleNoDup(s: seq<ColumnKey>, ks: seq<ColumnKey>)
    requires NoDup(s)
    ensures NoDup(GroupToggled(s, ks))
  {
    if FullySelected(s, ks) {
      MinusNoDup(s, ks);
    } else {
      UnionExtends(s, ks);
    }
  }

  /** Every key is a catalog key. */
  lemma AllKeysComplete(k: ColumnKey)
    ensures k in AllKeys()
  {
    CatalogShape();
    assert AllKeys()[CatalogIndex(k)] == k;
  }

  function Elements(s: seq<ColumnKey>): set<ColumnKey> {
    set x | x in s
  }

  lemma {:induction false} ElementsCard(s: seq<ColumnKey>)
    ensures |Elements(s)| <= |s|
    ensures NoDup(s) ==> |Elements(s)| == |s|
  {
    if s != [] {
      ElementsCard(s[1..]);
      assert Elements(s) == {s[0]} + Elements(s[1..]);
      if NoDup(s) {
        assert NoDup(s[1..]) by {
          forall i, j | 0 <= i < j < |s| - 1 ensures s[1..][i] != s[1..][j] {
            assert s[1..][i] == s[i + 1] && s[1..][j] == s[j + 1];
          }
        }
        assert s[0] !in Elements(s[1..]) by {
          forall i | 0 <= i < |s[1..]| ensures s[1..][i] != s[0] {
            assert s[1..][i] == s[i + 1];
          }
        }
      }
    } else {
      assert Elements(s) == {};
    }
  }

  lemma {:induction false} SubsetCard(a: set<ColumnKey>, b: set<ColumnKey>)
    requires a <= b
    ensures |a| <= |b|
    decreases |b|
  {
    if a != {} {
      var x :| x in a;
      SubsetCard(a - {x}, b - {x});
    }
  }

  /** A duplicate-free selection holds at most the 14 catalog keys, so
      the "n / 14 selected" badge never shows more than 14. */
  lemma SelectionBound(s: seq<ColumnKey>)
    requires NoDup(s)
    ensures |s| <= |AllKeys()| == 14
  {
    CatalogShape();
    forall k | k in Elements(s) ensures k in Elements(AllKeys()) {
      AllKeysComplete(k);
    }
    ElementsCard(s);
    ElementsCard(AllKeys());
    SubsetCard(Elements(s), Elements(AllKeys()));
  }

  // ------------------------------------------------------------------ state

  /** The dialog's `selectedColumns` state. */
  class ColumnPicker {
    var selected: seq<ColumnKey>

    ghost predicate Valid()
      reads this
    {
      NoDup(selected)
    }

    constructor ()
      ensures Valid() && selected == DEFAULT_COLUMNS
    {
      selected := DEFAULT_COLUMNS;
      CatalogShape();
    }

    /** `handleColumnToggle`: remove a selected key, append an absent one. */
    method Toggle(key: ColumnKey)
      requires Valid()
      modifies this
      ensures Valid()
      ensures selected == Toggled(old(selected), key)
    {
      ToggleNoDup(selected, key);
      if key in selected {
        selected := Without(selected, key);
      } else {
        selected := selected + [key];
      }
    }

    /** `handleSelectAll`: every catalog key, in group order. */
    method SelectAll()
      modifies this
      ensures Valid() && selected == AllKeys()
    {
      CatalogShape();
      selected := Keys(AllColumns());
    }

    /** `handleDeselectAll` */
    method DeselectAll()
      modifies this
      ensures Valid() && selected == []
    {
      selected := [];
    }

    /** `handleSelectGroup`: deselect a fully selected group, otherwise
        add its missing keys. */
    method SelectGroup(group: seq<Column>)
      requires Valid()
      modifies this
      ensures Valid()
      ensures selected == GroupToggled(old(selected), Keys(group))
    {
      var groupKeys := Keys(group);
      GroupToggleNoDup(selected, groupKeys);
      var allSelected := FullySelected(selected, groupKeys);
      if allSelected {
        selected := Minus(selected, groupKeys);
      } else {
        selected := Union(selected, groupKeys);
      }
    }

    /** `isGroupFullySelected` */
    function IsGroupFullySelected(group: seq<Column>): (b: bool)
      reads this
      ensures b <==> forall c :: c in group ==> c.key in selected
    {
      var ks := Keys(group);
      assert forall c :: c in group ==> c.key in ks by {
        forall c | c in group ensures c.key in ks {
          var i :| 0 <= i < |group| && group[i] == c;
          assert ks[i] == c.key;
        }
      }
      FullySelected(selected, ks)
    }

    /** The count shown in the "n / 14 selected" badge. */
    function SelectedCount(): (n: nat)
      requires Valid()
      reads this
      ensures n == |selected| && n <= |AllKeys()|
    {
      SelectionBound(selected);
      |selected|
    }

    /** The Export button: enabled only with at least one column and no
        export in progress; it hands the selection over unchanged. */
    method Export(loading: bool) returns (columns: Common.Option<seq<string>>)
      ensures columns.Some? <==> selected != [] && !loading
      ensures columns.Some? ==> columns.value == KeyNames(selected)
    {
      if |selected| == 0 || loading {
        columns := Common.None;
      } else {
        columns := Common.Some(KeyNames(selected));
      }
    }
  }
}
