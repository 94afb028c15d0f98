/**
 * The item record and the two enumerations it rests on
 * (Models/ListItem.swift).
 */
module ListItemModel {
  import opened Optional

  /** An item's identifier. Swift's `UUID` is opaque here; only its
      `uuidString` is observable. */
  datatype Uuid = Uuid(uuidString: string)

  /** Points in time, as whole seconds. */
  type Timestamp = int

  datatype Category = Work | Personal | Shopping | Household | Appointments | Other {
    function RawValue(): string {
      match this
      case Work => "Arbeit"
      case Personal => "Privat"
      case Shopping => "Einkauf"
      case Household => "Haushalt"
      case Appointments => "Termine"
      case Other => "Sonstiges"
    }

    /** `Identifiable.id` is the raw value. */
    function Id(): string {
      RawValue()
    }

    function Emoji(): string {
      match this
      case Work => "\U{1F4BC}"
      case Personal => "\U{1F3E0}"
      case Shopping => "\U{1F6D2}"
      case Household => "\U{1F3E1}"
      case Appointments => "\U{1F4C5}"
      case Other => "\U{1F4DD}"
    }

    function DisplayName(): string {
      Emoji() + " " + RawValue()
    }
  }

  /** `Category.allCases`, in declaration order. */
  const AllCategories: seq<Category> := [Work, Personal, Shopping, Household, Appointments, Other]

  lemma CategoryCasesAreComplete(c: Category)
    ensures c in AllCategories
    ensures |AllCategories| == 6
  {
  }

  /** Distinct categories have distinct raw values, so `id` is injective. */
  lemma CategoryIdInjective(a: Category, b: Category)
    requires a.Id() == b.Id()
    ensures a == b
  {
    assert a.Id()[0] == b.Id()[0];
    if a.Id()[0] == 'H' {
      assert a.Id()[1] == b.Id()[1];
    }
  }

  /** The six emojis are pairwise distinct. */
  lemma CategoryEmojiInjective(a: Category, b: Category)
    requires a.Emoji() == b.Emoji()
    ensures a == b
  {
    assert a.Emoji()[0] == b.Emoji()[0];
  }

  /** Each category shows a different label in the menus. */
  lemma CategoryDisplayNameInjective(a: Category, b: Category)
    requires a.DisplayName() == b.DisplayName()
    ensures a == b
  {
    assert a.Emoji() == a.DisplayName()[..1] == b.DisplayName()[..1] == b.Emoji();
    CategoryEmojiInjective(a, b);
  }

  datatype Priority = Low | Medium | High {
    function RawValue(): string {
      match this
      case Low => "Niedrig"
      case Medium => "Mittel"
      case High => "Hoch"
    }

    function Id(): string {
      RawValue()
    }

    /** Written out as literals in the source. */
    function DisplayName(): string {
      match this
      case Low => "\U{1F7E2} Niedrig"
      case Medium => "\U{1F7E1} Mittel"
      case High => "\U{1F534} Hoch"
    }

    /** The sort rank: high first. */
    function SortIndex(): (rank: nat)
      ensures rank <= 2
    {
      match this
      case High => 0
      case Medium => 1
      case Low => 2
    }

    function Emoji(): string {
      match this
      case Low => "\U{1F7E2}"
      case Medium => "\U{1F7E1}"
      case High => "\U{1F534}"
    }
  }

  /** `Priority.allCases`, in declaration order. */
  const AllPriorities: seq<Priority> := [Low, Medium, High]

  lemma PriorityCasesAreComplete(p: Priority)
    ensures p in AllPriorities
    ensures |AllPriorities| == 3
  {
  }

  lemma PriorityIdInjective(a: Priority, b: Priority)
    requires a.Id() == b.Id()
    ensures a == b
  {
    assert a.Id()[0] == b.Id()[0];
  }

  /** Although the source spells each display name out, every one of them
      is the emoji, a space and the raw value; the emojis are distinct. */
  lemma PriorityDisplayNameShape(p: Priority, q: Priority)
    ensures p.DisplayName() == p.Emoji() + " " + p.RawValue()
    ensures p.Emoji() == q.Emoji() ==> p == q
  {
    assert p.Emoji()[0] == q.Emoji()[0] || p.Emoji() != q.Emoji();
  }

  /** `sortIndex` is injective and ranks high before medium before low. */
  lemma SortIndexIsARanking(p: Priority, q: Priority)
    ensures p.SortIndex() == q.SortIndex() ==> p == q
    ensures High.SortIndex() < Medium.SortIndex() < Low.SortIndex()
  {
  }

  /** The number of filled dots in the priority indicator. */
  function PriorityLevel(p: Priority): (level: int)
    ensures 1 <= level <= 3
    ensures level == 3 - p.SortIndex()
  {
    match p
    case High => 3
    case Medium => 2
    case Low => 1
  }

  /** The stored item. `@Attribute(.unique)` on `uuid` is a property of the
      store and is kept by `ModelContext.Valid`. */
  class ListItem {
    var uuid: Uuid
    var title: string
    var note: Option<string>
    var category: Category
    var priority: Priority
    var dueDate: Option<Timestamp>
    var isDone: bool
    var createdAt: Timestamp
    var updatedAt: Timestamp

    /** The memberwise initialiser. Swift's defaults `UUID()` and `.now`
        draw on randomness and the clock, so `uuid` and `createdAt` are
        supplied by the caller; `updatedAt` defaults to the same instant. */
    constructor (uuid: Uuid, title: string, note: Option<string> := None,
                 category: Category := Personal, priority: Priority := Medium,
                 dueDate: Option<Timestamp> := None, isDone: bool := false,
                 nameonly createdAt: Timestamp, nameonly updatedAt: Timestamp := createdAt)
      ensures this.uuid == uuid && this.title == title && this.note == note
      ensures this.category == category && this.priority == priority
      ensures this.dueDate == dueDate && this.isDone == isDone
      ensures this.createdAt == createdAt && this.updatedAt == updatedAt
    {
      this.uuid := uuid;
      this.title := title;
      this.note := note;
      this.category := category;
      this.priority := priority;
      this.dueDate := dueDate;
      this.isDone := isDone;
      this.createdAt := createdAt;
      this.updatedAt := updatedAt;
    }
  }

  /** What the initialiser's defaults give: no note, category personal,
      priority medium, no due date, not done. */
  method DefaultsScenario(u: Uuid, now: Timestamp) returns (item: ListItem)
    ensures fresh(item) && item.uuid == u && item.title == "Einkaufen"
    ensures item.note == None && item.category == Personal && item.priority == Medium
    ensures item.dueDate == None && !item.isDone
    ensures item.createdAt == now && item.updatedAt == now
  {
    item := new ListItem(u, "Einkaufen", createdAt := now);
  }
}
