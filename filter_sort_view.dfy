/**
 * The selectors of the filter bar (View/FilterSortView.swift): the status
 * filter and sort option enumerations, and the three menus that set them.
 */
module FilterSortView {
  import opened Optional
  import opened Strings
  import opened ListItemModel

  datatype StatusFilter = All | Open | Completed {
    function RawValue(): string {
      match this
      case All => "all"
      case Open => "open"
      case Completed => "completed"
    }

    function Id(): string {
      RawValue()
    }

    function DisplayName(): string {
      match this
      case All => "Alle"
      case Open => "Offen"
      case Completed => "Erledigt"
    }

    /** The SF Symbol shown on the status menu. */
    function Icon(): string {
      match this
      case All => "list.bullet"
      case Open => "circle"
      case Completed => "checkmark.circle.fill"
    }
  }

  /** `StatusFilter.allCases`. */
  const AllStatusFilters: seq<StatusFilter> := [All, Open, Completed]

  lemma StatusFilterCasesAreComplete(f: StatusFilter)
    ensures f in AllStatusFilters && |AllStatusFilters| == 3
  {
  }

  /** Raw values, ids, display names and icons all tell the cases apart. */
  lemma StatusFilterLabelsAreDistinct(a: StatusFilter, b: StatusFilter)
    requires a != b
    ensures a.Id() != b.Id() && a.RawValue() != b.RawValue()
    ensures a.DisplayName() != b.DisplayName() && a.Icon() != b.Icon()
  {
    assert a.RawValue()[0] != b.RawValue()[0];
    assert a.DisplayName()[0] != b.DisplayName()[0];
    assert |a.Icon()| != |b.Icon()|;
  }

  /** The sort menu's options; the cases are those of `SortOption`
      (priority, title, dueDate, createdAt). */
  datatype SortOption = ByPriority | ByTitle | ByDueDate | ByCreatedAt {
    function DisplayName(): string {
      match this
      case ByPriority => "Priorit\U{E4}t"
      case ByTitle => "Titel"
      case ByDueDate => "F\U{E4}lligkeit"
      case ByCreatedAt => "Erstellt"
    }

    function Descriptor(): SortDescriptor {
      match this
      case ByPriority => SortDescriptor(SortIndexKey, Forward)
      case ByTitle => SortDescriptor(TitleKey, Forward)
      case ByDueDate => SortDescriptor(DueDateKey, Forward)
      case ByCreatedAt => SortDescriptor(CreatedAtKey, Reverse)
    }
  }

  /** `SortOption.allCases`. */
  const AllSortOptions: seq<SortOption> := [ByPriority, ByTitle, ByDueDate, ByCreatedAt]

  lemma SortOptionCasesAreComplete(o: SortOption)
    ensures o in AllSortOptions && |AllSortOptions| == 4
  {
  }

  /** The key paths a `SortDescriptor<ListItem>` can name here. */
  datatype KeyPath = SortIndexKey | TitleKey | DueDateKey | CreatedAtKey
  datatype SortOrder = Forward | Reverse
  datatype SortDescriptor = SortDescriptor(keyPath: KeyPath, order: SortOrder)

  /** Ascending order of a key path's values. A `String` key compares with
      Foundation's default `.localizedStandard`, not with the list's
      comparator. Dates compare only when both are present: where
      Foundation puts `nil` is not modelled. */
  predicate KeyAscending(k: KeyPath, a: ListItem, b: ListItem)
    reads a, b
  {
    match k
    case SortIndexKey => a.priority.SortIndex() < b.priority.SortIndex()
    case TitleKey => StandardLess(a.title, b.title)
    case DueDateKey => a.dueDate.Some? && b.dueDate.Some? && a.dueDate.value < b.dueDate.value
    case CreatedAtKey => a.createdAt < b.createdAt
  }

  /** "`a` sorts before `b`" under a descriptor. */
  predicate DescriptorLess(d: SortDescriptor, a: ListItem, b: ListItem)
    reads a, b
  {
    match d.order
    case Forward => KeyAscending(d.keyPath, a, b)
    case Reverse => KeyAscending(d.keyPath, b, a)
  }

  /** The three bindings the filter bar writes. */
  datatype Selection = Selection(category: Option<Category>, sort: SortOption, status: StatusFilter)

  /** ContentView's initial `@State`: all categories, by priority, all. */
  const InitialSelection: Selection := Selection(None, ByPriority, All)

  /** The "Alle Kategorien" button. */
  function ChooseAllCategories(s: Selection): (r: Selection)
    ensures r.category == None && r.sort == s.sort && r.status == s.status
  {
    s.(category := None)
  }

  /** A category button. */
  function ChooseCategory(s: Selection, c: Category): (r: Selection)
    ensures r.category == Some(c) && r.sort == s.sort && r.status == s.status
  {
    s.(category := Some(c))
  }

  /** A status button. */
  function ChooseStatus(s: Selection, f: StatusFilter): (r: Selection)
    ensures r.status == f && r.category == s.category && r.sort == s.sort
  {
    s.(status := f)
  }

  /** A sort button. */
  function ChooseSort(s: Selection, o: SortOption): (r: Selection)
    ensures r.sort == o && r.category == s.category && r.status == s.status
  {
    s.(sort := o)
  }

  /** A menu choice replaces the earlier choice in the same menu, and the
      three menus commute. */
  lemma MenuChoicesOverwriteAndCommute(s: Selection, c: Category, f: StatusFilter, o: SortOption)
    ensures ChooseAllCategories(ChooseCategory(s, c)) == ChooseAllCategories(s)
    ensures ChooseStatus(ChooseSort(ChooseCategory(s, c), o), f)
         == ChooseCategory(ChooseSort(ChooseStatus(s, f), o), c)
  {
  }
}
