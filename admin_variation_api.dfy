/**
 * The admin's variation options (the values of a variation type, such as Red or Small):
 * create and rename them without duplicating a name within a type, refuse to delete one
 * still assigned to a variant, list one type's active options for a dropdown, group a
 * listing by type, and reorder them.
 */
module AdminVariationApi {
  import opened Base
  import opened Variants

  // ---------------------------------------------------------------------------
  // the variation_options table

  /** (type, name) is unique: the table's unique index, which store and update also check. */
  ghost predicate UniqueNames(options: seq<VariationOption>)
  {
    forall i, j :: 0 <= i < j < |options| ==>
      options[i].typeId != options[j].typeId || options[i].name != options[j].name
  }

  /** Some option other than `except` already has this name within the type. */
  predicate NameTaken(options: seq<VariationOption>, typeId: int, name: string, except: Option<int>)
  {
    exists i :: 0 <= i < |options| && options[i].typeId == typeId && options[i].name == name &&
                (except.None? || options[i].id != except.value)
  }

  class VariationOptionTable {
    var options: seq<VariationOption>   // in id order
    var nextId: int

    ghost predicate Valid()
      reads this
    {
      0 < nextId && UniqueNames(options) &&
      (forall i :: 0 <= i < |options| ==> 0 < options[i].id < nextId) &&
      (forall i, j :: 0 <= i < j < |options| ==> options[i].id < options[j].id)
    }

    constructor ()
      ensures options == [] && Valid()
    {
      options := [];
      nextId := 1;
    }
  }

  /** The option with this id (route model binding). */
  function FindOption(options: seq<VariationOption>, id: int): (r: Option<nat>)
    ensures r.Some? ==> r.value < |options| && options[r.value].id == id
    ensures r.None? ==> forall j :: 0 <= j < |options| ==> options[j].id != id
  {
    if |options| == 0 then None
    else if options[0].id == id then Some(0)
    else match FindOption(options[1..], id)
      case None => None
      case Some(j) => Some(j + 1)
  }

  predicate TypeExists(types: seq<VariationType>, typeId: int)
  {
    exists i :: 0 <= i < |types| && types[i].id == typeId
  }

  // ---------------------------------------------------------------------------
  // store

  /** store's validator: an existing type, a name of 1 to 100 characters, a value of at most 100, an order of at least 0. */
  predicate StoreValid(types: seq<VariationType>, typeId: int, name: Option<string>, value: Option<string>, displayOrder: Option<int>)
  {
    TypeExists(types, typeId) && name.Some? && name.value != "" && |name.value| <= 100 &&
    (value.None? || |value.value| <= 100) && (displayOrder.None? || 0 <= displayOrder.value)
  }

  /**
   * store: 422 for a body the validator refuses, or a name the type already has; otherwise
   * a new option, ordered 0 and active unless told otherwise.
   */
  method Store(table: VariationOptionTable, types: seq<VariationType>, typeId: int, name: Option<string>,
               value: Option<string>, displayOrder: Option<int>, isActive: Option<bool>)
    returns (r: Result<VariationOption>)
    requires table.Valid()
    modifies table
    ensures table.Valid()
    ensures r.Err? ==> table.options == old(table.options) && table.nextId == old(table.nextId)
    ensures !StoreValid(types, typeId, name, value, displayOrder) ==> r == Err(Unprocessable("Validation failed"))
    ensures StoreValid(types, typeId, name, value, displayOrder) && NameTaken(old(table.options), typeId, name.value, None) ==>
              r == Err(Unprocessable("An option with this name already exists for this variation type"))
    ensures r.Ok? <==> StoreValid(types, typeId, name, value, displayOrder) && !NameTaken(old(table.options), typeId, name.value, None)
    ensures r.Ok? ==>
              r.value == VariationOption(old(table.nextId), typeId, name.value, value,
                                         if displayOrder.Some? then displayOrder.value else 0,
                                         if isActive.Some? then isActive.value else true) &&
              table.options == old(table.options) + [r.value] && table.nextId == old(table.nextId) + 1
  {
    if !StoreValid(types, typeId, name, value, displayOrder) {
      return Err(Unprocessable("Validation failed"));
    }
    if NameTaken(table.options, typeId, name.value, None) {
      return Err(Unprocessable("An option with this name already exists for this variation type"));
    }
    var o := VariationOption(table.nextId, typeId, name.value, value,
                             if displayOrder.Some? then displayOrder.value else 0,
                             if isActive.Some? then isActive.value else true);
    table.options := table.options + [o];
    table.nextId := table.nextId + 1;
    return Ok(o);
  }

  // ---------------------------------------------------------------------------
  // update

  /** A field of an update request: left as it is when absent, or set. */
  datatype Patch<T> = Keep | Set(v: T)

  function Patched<T>(p: Patch<T>, old_: T): T
  {
    if p.Set? then p.v else old_
  }

  predicate UpdateValid(name: Patch<string>, value: Patch<Option<string>>, displayOrder: Patch<int>)
  {
    (name.Set? ==> name.v != "" && |name.v| <= 100) &&
    (value.Set? && value.v.Some? ==> |value.v.value| <= 100) &&
    (displayOrder.Set? ==> 0 <= displayOrder.v)
  }

  /**
   * update: 404 for an unknown option; 422 for a body the validator refuses, or for a new
   * name another option of the same type already has (an unchanged name is not checked);
   * otherwise the fields sent are written.
   */
  method Update(table: VariationOptionTable, id: int, name: Patch<string>, value: Patch<Option<string>>,
                displayOrder: Patch<int>, isActive: Patch<bool>)
    returns (r: Result<VariationOption>)
    requires table.Valid()
    modifies table
    ensures table.Valid() && table.nextId == old(table.nextId)
    ensures r.Err? ==> table.options == old(table.options)
    ensures FindOption(old(table.options), id).None? ==> r == Err(NotFound)
    ensures FindOption(old(table.options), id).Some? ==>
              var k := FindOption(old(table.options), id).value;
              var o := old(table.options)[k];
              var renamed := name.Set? && name.v != o.name;
              (!UpdateValid(name, value, displayOrder) ==> r == Err(Unprocessable("Validation failed"))) &&
              (UpdateValid(name, value, displayOrder) && renamed && NameTaken(old(table.options), o.typeId, name.v, Some(id)) ==>
                 r == Err(Unprocessable("An option with this name already exists for this variation type"))) &&
              (UpdateValid(name, value, displayOrder) && !(renamed && NameTaken(old(table.options), o.typeId, name.v, Some(id))) ==>
                 var o' := o.(name := Patched(name, o.name), value := Patched(value, o.value),
                              displayOrder := Patched(displayOrder, o.displayOrder), isActive := Patched(isActive, o.isActive));
                 r == Ok(o') && table.options == old(table.options)[k := o'])
  {
    var k := FindOption(table.options, id);
    if k.None? {
      return Err(NotFound);
    }
    var o := table.options[k.value];
    if !UpdateValid(name, value, displayOrder) {
      return Err(Unprocessable("Validation failed"));
    }
    if name.Set? && name.v != o.name && NameTaken(table.options, o.typeId, name.v, Some(id)) {
      return Err(Unprocessable("An option with this name already exists for this variation type"));
    }
    var o' := o.(name := Patched(name, o.name), value := Patched(value, o.value),
                 displayOrder := Patched(displayOrder, o.displayOrder), isActive := Patched(isActive, o.isActive));
    RenameKeepsUnique(table.options, k.value, o');
    table.options := table.options[k.value := o'];
    return Ok(o');
  }

  /** Rewriting one option keeps the names unique when its new name is free within its type (or unchanged). */
  lemma RenameKeepsUnique(options: seq<VariationOption>, k: nat, o': VariationOption)
    requires UniqueNames(options) && k < |options| && o'.typeId == options[k].typeId && o'.id == options[k].id
    requires (forall i, j :: 0 <= i < j < |options| ==> options[i].id < options[j].id)
    requires o'.name == options[k].name || !NameTaken(options, o'.typeId, o'.name, Some(o'.id))
    ensures UniqueNames(options[k := o'])
  {
    var s := options[k := o'];
    forall i, j | 0 <= i < j < |s|
      ensures s[i].typeId != s[j].typeId || s[i].name != s[j].name
    {
      if i == k && o'.name != options[k].name {
        assert options[j].id != o'.id;
      } else if j == k && o'.name != options[k].name {
        assert options[i].id != o'.id;
      }
    }
  }

  // ---------------------------------------------------------------------------
  // destroy and toggleStatus

  /** How many pivot rows assign the option to a variant. */
  function UsageCount(rows: seq<Assignment>, optionId: int): (n: nat)
    ensures n <= |rows|
    ensures n == 0 <==> forall j :: 0 <= j < |rows| ==> rows[j].optionId != optionId
  {
    if |rows| == 0 then 0
    else UsageCount(rows[1..], optionId) + (if rows[0].optionId == optionId then 1 else 0)
  }

  /** destroy: 404 for an unknown option; 422 while any variant uses it; otherwise it is deleted. */
  method Destroy(table: VariationOptionTable, id: int, pivot: seq<Assignment>) returns (r: Result<VariationOption>)
    requires table.Valid()
    modifies table
    ensures table.Valid() && table.nextId == old(table.nextId)
    ensures r.Err? ==> table.options == old(table.options)
    ensures FindOption(old(table.options), id).None? ==> r == Err(NotFound)
    ensures FindOption(old(table.options), id).Some? && UsageCount(pivot, id) > 0 ==>
              r == Err(Unprocessable("Cannot delete variation option that is being used by product variants"))
    ensures FindOption(old(table.options), id).Some? && UsageCount(pivot, id) == 0 ==>
              var k := FindOption(old(table.options), id).value;
              r == Ok(old(table.options)[k]) && table.options == old(table.options)[..k] + old(table.options)[k + 1..]
    ensures r.Ok? ==> forall j :: 0 <= j < |pivot| ==> pivot[j].optionId != id
    ensures r.Ok? ==> FindOption(table.options, id).None?
  {
    var k := FindOption(table.options, id);
    if k.None? {
      return Err(NotFound);
    }
    if UsageCount(pivot, id) > 0 {
      return Err(Unprocessable("Cannot delete variation option that is being used by product variants"));
    }
    var o := table.options[k.value];
    RemovalKeepsValid(table.options, k.value, table.nextId);
    table.options := table.options[..k.value] + table.options[k.value + 1..];
    return Ok(o);
  }

  /** Deleting one option keeps names unique and ids increasing, and leaves no option with its id. */
  lemma RemovalKeepsValid(options: seq<VariationOption>, k: nat, nextId: int)
    requires k < |options| && UniqueNames(options)
    requires forall i :: 0 <= i < |options| ==> 0 < options[i].id < nextId
    requires forall i, j :: 0 <= i < j < |options| ==> options[i].id < options[j].id
    ensures var r := options[..k] + options[k + 1..];
            UniqueNames(r) &&
            (forall i :: 0 <= i < |r| ==> 0 < r[i].id < nextId) &&
            (forall i, j :: 0 <= i < j < |r| ==> r[i].id < r[j].id) &&
            FindOption(r, options[k].id).None?
  {
    var r := options[..k] + options[k + 1..];
    assert forall i :: 0 <= i < |r| ==> r[i] == (if i < k then options[i] else options[i + 1]);
  }

  /** toggleStatus: the option's active flag flips and nothing else changes. */
  method ToggleStatus(table: VariationOptionTable, id: int) returns (r: Result<bool>)
    requires table.Valid()
    modifies table
    ensures table.Valid() && table.nextId == old(table.nextId)
    ensures FindOption(old(table.options), id).None? ==> r == Err(NotFound) && table.options == old(table.options)
    ensures FindOption(old(table.options), id).Some? ==>
              var k := FindOption(old(table.options), id).value;
              r == Ok(!old(table.options)[k].isActive) &&
              table.options == old(table.options)[k := old(table.options)[k].(isActive := !old(table.options)[k].isActive)]
  {
    var k := FindOption(table.options, id);
    if k.None? {
      return Err(NotFound);
    }
    var o := table.options[k.value];
    RenameKeepsUnique(table.options, k.value, o.(isActive := !o.isActive));
    table.options := table.options[k.value := o.(isActive := !o.isActive)];
    return Ok(!o.isActive);
  }

  // ---------------------------------------------------------------------------
  // byType: one type's active options, by display order

  /** How display_order values compare: as numbers, or as the text a string column holds. */
  datatype DisplayOrdering = Numeric | AsText

  /** The decimal text of an integer, as a string column stores it. */
  function DecimalText(n: int): (r: string)
    ensures |r| > 0
  {
    if n < 0 then "-" + Digits(-n) else Digits(n)
  }

  function Digits(n: nat): (r: string)
    ensures |r| > 0 && forall i :: 0 <= i < |r| ==> '0' <= r[i] <= '9'
    decreases n
  {
    if n < 10 then [DigitChar(n)] else Digits(n / 10) + [DigitChar(n % 10)]
  }

  function DigitChar(d: nat): (c: char)
    requires d < 10
    ensures '0' <= c <= '9' && c as int - '0' as int == d
  {
    ('0' as int + d) as char
  }

  /** Text order: a prefix first, otherwise by the first differing character. */
  predicate TextLe(a: string, b: string)
    decreases |a|
  {
    |a| == 0 || (|b| > 0 && (a[0] < b[0] || (a[0] == b[0] && TextLe(a[1..], b[1..]))))
  }

  /** Any two texts are ordered one way or the other. */
  lemma {:induction false} TextLeTotal(a: string, b: string)
    ensures TextLe(a, b) || TextLe(b, a)
    decreases |a|
  {
    if |a| > 0 && |b| > 0 && a[0] == b[0] {
      TextLeTotal(a[1..], b[1..]);
    }
  }

  /** Text order is transitive. */
  lemma {:induction false} TextLeTrans(a: string, b: string, c: string)
    requires TextLe(a, b) && TextLe(b, c)
    ensures TextLe(a, c)
    decreases |a|
  {
    if |a| > 0 && a[0] == b[0] && b[0] == c[0] {
      TextLeTrans(a[1..], b[1..], c[1..]);
    }
  }

  predicate Before(ord: DisplayOrdering, a: VariationOption, b: VariationOption)
  {
    match ord
    case Numeric => a.displayOrder <= b.displayOrder
    case AsText => TextLe(DecimalText(a.displayOrder), DecimalText(b.displayOrder))
  }

  lemma BeforeTotal(ord: DisplayOrdering, a: VariationOption, b: VariationOption)
    ensures Before(ord, a, b) || Before(ord, b, a)
  {
    if ord.AsText? {
      TextLeTotal(DecimalText(a.displayOrder), DecimalText(b.displayOrder));
    }
  }

  lemma BeforeTrans(ord: DisplayOrdering, a: VariationOption, b: VariationOption, c: VariationOption)
    requires Before(ord, a, b) && Before(ord, b, c)
    ensures Before(ord, a, c)
  {
    if ord.AsText? {
      TextLeTrans(DecimalText(a.displayOrder), DecimalText(b.displayOrder), DecimalText(c.displayOrder));
    }
  }

  /** An option that may follow the last of a sorted list may follow all of it. */
  lemma AppendAfterLast(ord: DisplayOrdering, s: seq<VariationOption>, o: VariationOption)
    requires SortedBy(ord, s) && |s| > 0 && Before(ord, s[|s| - 1], o)
    ensures SortedBy(ord, s + [o])
  {
    forall i | 0 <= i < |s| - 1
      ensures Before(ord, s[i], o)
    {
      BeforeTrans(ord, s[i], s[|s| - 1], o);
    }
    assert forall i :: 0 <= i < |s| ==> (s + [o])[i] == s[i];
  }

  predicate SortedBy(ord: DisplayOrdering, s: seq<VariationOption>)
  {
    forall i, j :: 0 <= i < j < |s| ==> Before(ord, s[i], s[j])
  }

  /** Insert o after every option that may come before it, so ties keep their order. */
  function InsertBy(ord: DisplayOrdering, o: VariationOption, s: seq<VariationOption>): (r: seq<VariationOption>)
    requires SortedBy(ord, s)
    ensures SortedBy(ord, r) && multiset(r) == multiset(s) + multiset{o}
    decreases |s|
  {
    if |s| == 0 then [o]
    else if Before(ord, s[|s| - 1], o) then
      AppendAfterLast(ord, s, o);
      s + [o]
    else
      var rest := InsertBy(ord, o, s[..|s| - 1]);
      assert s == s[..|s| - 1] + [s[|s| - 1]];
      BeforeTotal(ord, s[|s| - 1], o);
      PassedLastComesLast(ord, o, s[..|s| - 1], s[|s| - 1], rest);
      rest + [s[|s| - 1]]
  }

  /** The option o was moved past may come after everything before it, o included. */
  lemma PassedLastComesLast(ord: DisplayOrdering, o: VariationOption, init: seq<VariationOption>,
                            last: VariationOption, rest: seq<VariationOption>)
    requires SortedBy(ord, init + [last]) && Before(ord, o, last)
    requires multiset(rest) == multiset(init) + multiset{o} && SortedBy(ord, rest)
    ensures SortedBy(ord, rest + [last])
  {
    forall i | 0 <= i < |rest|
      ensures Before(ord, rest[i], last)
    {
      assert rest[i] in multiset(rest);
      if rest[i] != o {
        assert rest[i] in multiset(init);
        var j :| 0 <= j < |init| && init[j] == rest[i];
        assert (init + [last])[j] == init[j];
        assert (init + [last])[|init|] == last;
      }
    }
  }

  /** The listing order: a stable insertion sort by display order. */
  function SortBy(ord: DisplayOrdering, s: seq<VariationOption>): (r: seq<VariationOption>)
    ensures SortedBy(ord, r) && multiset(r) == multiset(s)
    decreases |s|
  {
    if |s| == 0 then []
    else
      assert s == s[..|s| - 1] + [s[|s| - 1]];
      InsertBy(ord, s[|s| - 1], SortBy(ord, s[..|s| - 1]))
  }

  /** The active options of one type, in table order. */
  function ActiveOfType(options: seq<VariationOption>, typeId: int): (r: seq<VariationOption>)
    ensures forall o :: o in r <==> o in options && o.typeId == typeId && o.isActive
  {
    if |options| == 0 then []
    else if options[0].typeId == typeId && options[0].isActive then [options[0]] + ActiveOfType(options[1..], typeId)
    else ActiveOfType(options[1..], typeId)
  }

  /** The first type with this slug. */
  function FindTypeBySlug(types: seq<VariationType>, slug: string): (r: Option<nat>)
    ensures r.Some? ==> r.value < |types| && types[r.value].slug == slug
    ensures r.None? ==> forall j :: 0 <= j < |types| ==> types[j].slug != slug
  {
    if |types| == 0 then None
    else if types[0].slug == slug then Some(0)
    else match FindTypeBySlug(types[1..], slug)
      case None => None
      case Some(j) => Some(j + 1)
  }

  /** byType as the column type makes it: the display orders compared as text. */
  function ByTypeAsWritten(types: seq<VariationType>, options: seq<VariationOption>, slug: string): (r: Result<seq<VariationOption>>)
    ensures r.Err? <==> FindTypeBySlug(types, slug).None?
    ensures r.Err? ==> r.error == NotFound
    ensures r.Ok? ==> var t := types[FindTypeBySlug(types, slug).value];
                      (forall o :: o in r.value <==> o in options && o.typeId == t.id && o.isActive) &&
                      multiset(r.value) == multiset(ActiveOfType(options, t.id))
    ensures r.Ok? ==> SortedBy(AsText, r.value)
  {
    match FindTypeBySlug(types, slug)
    case None => Err(NotFound)
    case Some(t) =>
      var s := ActiveOfType(options, types[t].id);
      var r := SortBy(AsText, s);
      assert forall o :: o in r <==> o in multiset(r);
      assert forall o :: o in s <==> o in multiset(s);
      Ok(r)
  }

  /** Two options ordered 2 and 10 come out 10 first, because "10" precedes "2" as text. */
  lemma TextOrderPutsTenBeforeTwo()
    ensures var two := VariationOption(1, 1, "S", None, 2, true);
            var ten := VariationOption(2, 1, "M", None, 10, true);
            ByTypeAsWritten([VariationType(1, "Size", "size")], [two, ten], "size") == Ok([ten, two])
  {
    var two := VariationOption(1, 1, "S", None, 2, true);
    var ten := VariationOption(2, 1, "M", None, 10, true);
    assert Digits(10) == Digits(1) + [DigitChar(0)];
    assert DecimalText(10) == "10" && DecimalText(2) == "2";
    assert !Before(AsText, two, ten);
    assert ActiveOfType([ten], 1) == [ten] by {
      assert [ten][1..] == [];
    }
    assert ActiveOfType([two, ten], 1) == [two, ten] by {
      assert [two, ten][1..] == [ten];
    }
    assert [two, ten][..1] == [two];
    assert SortBy(AsText, [two]) == [two] by {
      assert [two][..0] == [];
    }
    assert InsertBy(AsText, ten, [two]) == [ten, two] by {
      assert [two][..0] == [];
    }
  }

  /**
   * byType: 404 for an unknown slug; otherwise exactly the active options of that type,
   * by display order as a number.
   */
  function ByType(types: seq<VariationType>, options: seq<VariationOption>, slug: string): (r: Result<seq<VariationOption>>)
    ensures r.Err? <==> FindTypeBySlug(types, slug).None?
    ensures r.Err? ==> r.error == NotFound
    ensures r.Ok? ==> var t := types[FindTypeBySlug(types, slug).value];
                      (forall o :: o in r.value <==> o in options && o.typeId == t.id && o.isActive) &&
                      multiset(r.value) == multiset(ActiveOfType(options, t.id))
    ensures r.Ok? ==> forall i, j :: 0 <= i < j < |r.value| ==> r.value[i].displayOrder <= r.value[j].displayOrder
  {
    match FindTypeBySlug(types, slug)
    case None => Err(NotFound)
    case Some(t) =>
      var s := ActiveOfType(options, types[t].id);
      var r := SortBy(Numeric, s);
      assert forall o :: o in r <==> o in multiset(r);
      assert forall o :: o in s <==> o in multiset(s);
      Ok(r)
  }

  // ---------------------------------------------------------------------------
  // index: the listing grouped by type slug

  /** One group of the listing: the type, and its options in listing order. */
  datatype Group = Group(vtype: VariationType, options: seq<VariationOption>)

  /** The grouping the index loop builds, as a fold over the listed options. */
  function GroupedOf(entries: seq<OptionEntry>): map<string, Group>
  {
    if |entries| == 0 then map[]
    else
      var g := GroupedOf(entries[..|entries| - 1]);
      var e := entries[|entries| - 1];
      if e.vtype.slug in g then g[e.vtype.slug := g[e.vtype.slug].(options := g[e.vtype.slug].options + [e.option])]
      else g[e.vtype.slug := Group(e.vtype, [e.option])]
  }

  /** The listed options of one type slug, in listing order. */
  function OfSlug(entries: seq<OptionEntry>, slug: string): (r: seq<VariationOption>)
    ensures |r| <= |entries|
  {
    if |entries| == 0 then []
    else
      var e := entries[|entries| - 1];
      OfSlug(entries[..|entries| - 1], slug) + (if e.vtype.slug == slug then [e.option] else [])
  }

  /** A slug with listed options occurs in the listing. */
  lemma {:induction false} OfSlugHasSlug(entries: seq<OptionEntry>, slug: string)
    requires OfSlug(entries, slug) != []
    ensures slug in set e | e in entries :: e.vtype.slug
  {
    var init := entries[..|entries| - 1];
    var e := entries[|entries| - 1];
    if e.vtype.slug != slug {
      OfSlugHasSlug(init, slug);
      var x :| x in init && x.vtype.slug == slug;
      assert x in entries;
    }
  }

  /**
   * There is one group per slug in the listing, holding exactly that slug's options in
   * listing order, under the type of its first option.
   */
  lemma {:induction false} GroupedIsFilter(entries: seq<OptionEntry>)
    ensures GroupedOf(entries).Keys == set e | e in entries :: e.vtype.slug
    ensures forall s :: s in GroupedOf(entries) ==> GroupedOf(entries)[s].options == OfSlug(entries, s) && OfSlug(entries, s) != []
  {
    if |entries| > 0 {
      var init := entries[..|entries| - 1];
      GroupedIsFilter(init);
      var e := entries[|entries| - 1];
      assert entries == init + [e];
      var g := GroupedOf(init);
      forall s | s in GroupedOf(entries)
        ensures GroupedOf(entries)[s].options == OfSlug(entries, s) && OfSlug(entries, s) != []
      {
        assert OfSlug(entries, s) == OfSlug(init, s) + (if e.vtype.slug == s then [e.option] else []);
        if s != e.vtype.slug {
          assert GroupedOf(entries)[s] == g[s];
        } else if s in g {
          assert GroupedOf(entries)[s].options == g[s].options + [e.option];
        } else {
          assert GroupedOf(entries)[s].options == [e.option];
          assert OfSlug(init, s) == [] by {
            if OfSlug(init, s) != [] {
              OfSlugHasSlug(init, s);
            }
          }
        }
      }
    }
  }

  /** index's grouping loop. */
  method GroupBySlug(entries: seq<OptionEntry>) returns (grouped: map<string, Group>)
    ensures grouped == GroupedOf(entries)
  {
    grouped := map[];
    var i := 0;
    while i < |entries|
      invariant 0 <= i <= |entries|
      invariant grouped == GroupedOf(entries[..i])
    {
      var e := entries[i];
      if e.vtype.slug in grouped {
        grouped := grouped[e.vtype.slug := grouped[e.vtype.slug].(options := grouped[e.vtype.slug].options + [e.option])];
      } else {
        grouped := grouped[e.vtype.slug := Group(e.vtype, [e.option])];
      }
      assert entries[..i + 1][..i] == entries[..i];
      i := i + 1;
    }
    assert entries[..i] == entries;
  }

  // ---------------------------------------------------------------------------
  // reorder

  /** One entry of a reorder request. */
  datatype OrderEntry = OrderEntry(id: int, displayOrder: int)

  /** The table after one update: the option with this id takes the display order. */
  function WithOrder(options: seq<VariationOption>, id: int, d: int): (r: seq<VariationOption>)
    ensures |r| == |options|
    ensures forall i :: 0 <= i < |options| && options[i].id != id ==> r[i] == options[i]
    ensures forall i :: 0 <= i < |options| && options[i].id == id ==> r[i] == options[i].(displayOrder := d)
  {
    if |options| == 0 then []
    else [if options[0].id == id then options[0].(displayOrder := d) else options[0]] + WithOrder(options[1..], id, d)
  }

  /** The updates of a reorder request, in request order. */
  function Reordered(options: seq<VariationOption>, entries: seq<OrderEntry>): (r: seq<VariationOption>)
    ensures |r| == |options|
  {
    if |entries| == 0 then options
    else
      var e := entries[|entries| - 1];
      WithOrder(Reordered(options, entries[..|entries| - 1]), e.id, e.displayOrder)
  }

  /** The display order the request leaves for an id: the last entry naming it, else the old one. */
  function LastOrderFor(entries: seq<OrderEntry>, id: int, current: int): int
  {
    if |entries| == 0 then current
    else if entries[|entries| - 1].id == id then entries[|entries| - 1].displayOrder
    else LastOrderFor(entries[..|entries| - 1], id, current)
  }

  /** Each option takes the order of the last entry naming it, keeps its own otherwise, and nothing else changes. */
  lemma {:induction false} ReorderedEffect(options: seq<VariationOption>, entries: seq<OrderEntry>)
    ensures forall i :: 0 <= i < |options| ==>
              Reordered(options, entries)[i] == options[i].(displayOrder := LastOrderFor(entries, options[i].id, options[i].displayOrder))
  {
    if |entries| > 0 {
      ReorderedEffect(options, entries[..|entries| - 1]);
    }
  }

  /** reorder's validator: a non-empty list whose every id names an option. */
  predicate ReorderValid(options: seq<VariationOption>, entries: seq<OrderEntry>)
  {
    |entries| > 0 && forall i :: 0 <= i < |entries| ==> FindOption(options, entries[i].id).Some?
  }

  /** reorder: 422 for a request the validator refuses; otherwise each entry is applied in turn. */
  method Reorder(table: VariationOptionTable, entries: seq<OrderEntry>) returns (r: Result<nat>)
    requires table.Valid()
    modifies table
    ensures table.Valid() && table.nextId == old(table.nextId)
    ensures !ReorderValid(old(table.options), entries) ==> r == Err(Unprocessable("Validation failed")) && table.options == old(table.options)
    ensures ReorderValid(old(table.options), entries) ==> r == Ok(|entries|) && table.options == Reordered(old(table.options), entries)
  {
    if !ReorderValid(table.options, entries) {
      return Err(Unprocessable("Validation failed"));
    }
    ghost var start := table.options;
    var i := 0;
    while i < |entries|
      invariant 0 <= i <= |entries|
      invariant table.options == Reordered(start, entries[..i]) && table.nextId == old(table.nextId)
      invariant forall j :: 0 <= j < |start| ==> table.options[j] == start[j].(displayOrder := table.options[j].displayOrder)
    {
      assert entries[..i + 1][..i] == entries[..i];
      table.options := WithOrder(table.options, entries[i].id, entries[i].displayOrder);
      i := i + 1;
    }
    assert entries[..i] == entries;
    return Ok(|entries|);
  }
}
