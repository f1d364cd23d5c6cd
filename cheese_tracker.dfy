/** The cheese drawer: opened cheeses, how long each has been open, and its freshness band. */
module CheeseTracker {
  import opened Wrappers
  import opened Lists

  /** A cheese; `kind` is the source's `type` field, `openedOn` the `opened` date input's text. */
  datatype Cheese = Cheese(id: int, name: string, kind: string, openedOn: string)

  /** The add form. */
  datatype CheeseForm = CheeseForm(name: string, kind: string, openedOn: string)

  const MsPerDay := 86_400_000

  /** The freshness pill, shown as a background colour. */
  datatype Freshness = Fresh | Aging | Spoiling {

    function ClassName(): string {
      match this
      case Fresh => "bg-green-100 text-green-900"
      case Aging => "bg-yellow-100 text-yellow-900"
      case Spoiling => "bg-red-100 text-red-900"
    }

    function Rank(): nat {
      match this
      case Fresh => 0
      case Aging => 1
      case Spoiling => 2
    }
  }

  /**
   * `daysOpen`: whole days elapsed from `openedAt` to `now`, both epoch
   * milliseconds; `openedAt` is `None` when the date does not parse. Never
   * negative.
   */
  function DaysOpen(openedAt: Option<int>, now: int): (d: int)
    ensures d >= 0
    ensures openedAt.None? ==> d == 0
    ensures openedAt.Some? && openedAt.value > now ==> d == 0
    ensures openedAt.Some? && openedAt.value <= now ==>
      d * MsPerDay <= now - openedAt.value < (d + 1) * MsPerDay
  {
    match openedAt
    case None => 0
    case Some(t) =>
      // Dafny's division is Euclidean, which is floor division for a positive divisor.
      var days := (now - t) / MsPerDay;
      if days < 0 then 0 else days
  }

  /** `statusPillClass`: green under a week, yellow under two weeks, red after that. */
  function StatusPill(d: int): (f: Freshness)
    ensures f == Fresh <==> d < 7
    ensures f == Aging <==> 7 <= d < 14
    ensures f == Spoiling <==> d >= 14
  {
    if d < 7 then Fresh else if d < 14 then Aging else Spoiling
  }

  /** The band never improves as a cheese stays open longer. */
  lemma PillMonotone(d1: int, d2: int)
    requires d1 <= d2
    ensures StatusPill(d1).Rank() <= StatusPill(d2).Rank()
  {
  }

  /** The same cheese, looked at later, is never in a fresher band. */
  lemma AgeingNeverImproves(openedAt: Option<int>, now1: int, now2: int)
    requires now1 <= now2
    ensures DaysOpen(openedAt, now1) <= DaysOpen(openedAt, now2)
    ensures StatusPill(DaysOpen(openedAt, now1)).Rank() <= StatusPill(DaysOpen(openedAt, now2)).Rank()
  {
  }

  /**
   * `sorted`: the cheeses, most recently opened first; `timeOf` is the
   * date parser, `new Date(s).getTime()`.
   */
  function Sorted(items: seq<Cheese>, timeOf: string -> int): (r: seq<Cheese>)
    ensures multiset(r) == multiset(items)
    ensures forall i, j :: 0 <= i < j < |r| ==> timeOf(r[j].openedOn) <= timeOf(r[i].openedOn)
    ensures StableBy(r, items, NewerFirst(timeOf))
  {
    SortBySorted(items, NewerFirst(timeOf));
    SortByStable(items, NewerFirst(timeOf));
    SortBy(items, NewerFirst(timeOf))
  }

  /** The sort's comparator: `a` may come first when it was opened no earlier than `b`. */
  function NewerFirst(timeOf: string -> int): (Cheese, Cheese) -> bool {
    (a: Cheese, b: Cheese) => timeOf(b.openedOn) <= timeOf(a.openedOn)
  }

  /** `add`: unless a raw form field is empty, prepends the form as a cheese with the new id. */
  function WithCheese(items: seq<Cheese>, form: CheeseForm, id: int): (r: seq<Cheese>)
    ensures form.name == "" || form.kind == "" || form.openedOn == "" ==> r == items
    ensures form.name != "" && form.kind != "" && form.openedOn != "" ==>
      && |r| == |items| + 1 && r[1..] == items
      && r[0] == Cheese(id, form.name, form.kind, form.openedOn)
  {
    if form.name == "" || form.kind == "" || form.openedOn == "" then items
    else [Cheese(id, form.name, form.kind, form.openedOn)] + items
  }

  /** `remove`: drops every cheese with the id, the rest keep their order. */
  function WithoutCheese(items: seq<Cheese>, id: int): (r: seq<Cheese>)
    ensures IsSubsequence(r, items)
    ensures forall c :: multiset(r)[c] == if c.id != id then multiset(items)[c] else 0
    ensures forall c :: c in r <==> c in items && c.id != id
    ensures (forall c :: c in items ==> c.id != id) ==> r == items
  {
    var keep := (c: Cheese) => c.id != id;
    FilterKeepsAll(items, keep);
    Filter(items, keep)
  }

  /** The page's `items` state and the "cheese.items" storage slot it is written through to. */
  class CheeseStore {
    var items: seq<Cheese>
    var saved: seq<Cheese>

    ghost predicate Valid()
      reads this
    {
      saved == items
    }

    constructor (stored: Option<seq<Cheese>>)
      ensures Valid()
      ensures items == stored.GetOr([])
    {
      items := stored.GetOr([]);
      saved := items;
    }

    method Add(form: CheeseForm, now: int)
      requires Valid()
      modifies this
      ensures Valid()
      ensures items == WithCheese(old(items), form, now)
    {
      items := WithCheese(items, form, now);
      saved := items;
    }

    method Remove(id: int)
      requires Valid()
      modifies this
      ensures Valid()
      ensures items == WithoutCheese(old(items), id)
    {
      items := WithoutCheese(items, id);
      saved := items;
    }
  }
}
