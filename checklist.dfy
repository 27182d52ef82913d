// The learning checklist page: the status and type filters, adding an entry, the optimistic
// completion toggle and removal with their reverts, and the completion statistics.

module ChecklistPage {
  import opened Wrappers
  import opened Lists
  import opened Text

  /** A checklist entry; `id` is the server's `_id`. */
  datatype Item = Item(id: string, content: string, itemType: string, completed: bool)

  /** The page state the operations replace: the entries, the text being typed, the type chosen
      for a new entry, and the error banner. */
  datatype Page = Page(items: seq<Item>, newItem: string, newItemType: string, error: Option<string>)

  /** Status filter: "completed" keeps done entries, "pending" the others, any other value all. */
  predicate StatusKeeps(status: string, x: Item) {
    if status == "completed" then x.completed
    else if status == "pending" then !x.completed
    else true
  }

  /** Type filter: any value but "all" keeps the entries of exactly that type. */
  predicate TypeKeeps(typeFilter: string, x: Item) {
    typeFilter == "all" || x.itemType == typeFilter
  }

  /** Two filters in a row keep what one filter on both conditions keeps. */
  lemma {:induction false} FilterTwice<T>(s: seq<T>, p: T -> bool, q: T -> bool, both: T -> bool)
    requires forall x :: both(x) == (p(x) && q(x))
    ensures Filter(Filter(s, p), q) == Filter(s, both)
  {
    if s != [] {
      FilterTwice(s[1..], p, q, both);
      var head := if p(s[0]) then [s[0]] else [];
      var rest := Filter(s[1..], p);
      assert Filter(s, p) == head + rest;
      if p(s[0]) {
        assert (head + rest)[0] == s[0] && (head + rest)[1..] == rest;
      } else {
        assert head + rest == rest;
      }
    }
  }

  /** Filters that agree on every element keep the same elements. */
  lemma {:induction false} FilterSame<T>(s: seq<T>, p: T -> bool, q: T -> bool)
    requires forall x :: p(x) == q(x)
    ensures Filter(s, p) == Filter(s, q)
  {
    if s != [] {
      FilterSame(s[1..], p, q);
    }
  }

  /** `filterItems`: the status filter, then the type filter. */
  function FilterItems(items: seq<Item>, status: string, typeFilter: string): (r: seq<Item>)
    ensures |r| <= |items|
  {
    var byStatus :=
      if status == "completed" then Filter(items, (x: Item) => x.completed)
      else if status == "pending" then Filter(items, (x: Item) => !x.completed)
      else items;
    if typeFilter != "all" then Filter(byStatus, (x: Item) => x.itemType == typeFilter) else byStatus
  }

  /** The filtered list is the entries, in their order, that pass both filters. */
  lemma FilterItemsKeepsBoth(items: seq<Item>, status: string, typeFilter: string)
    ensures FilterItems(items, status, typeFilter) ==
      Filter(items, (x: Item) => StatusKeeps(status, x) && TypeKeeps(typeFilter, x))
  {
    var keep := (x: Item) => StatusKeeps(status, x) && TypeKeeps(typeFilter, x);
    var byStatus := (x: Item) => StatusKeeps(status, x);
    var byType := (x: Item) => x.itemType == typeFilter;
    var all := (x: Item) => true;
    if status == "completed" {
      FilterSame(items, (x: Item) => x.completed, byStatus);
    } else if status == "pending" {
      FilterSame(items, (x: Item) => !x.completed, byStatus);
    } else {
      FilterKeepsAll(items, byStatus);
    }
    if typeFilter != "all" {
      FilterTwice(items, byStatus, byType, keep);
    } else {
      FilterSame(items, byStatus, keep);
    }
  }

  /** The filtered list holds exactly the entries passing both filters, is a subsequence of the
      entries, and with both filters at "all" is the entries themselves. */
  lemma FilterItemsFacts(items: seq<Item>, status: string, typeFilter: string)
    ensures forall x :: x in FilterItems(items, status, typeFilter) <==>
      x in items && StatusKeeps(status, x) && TypeKeeps(typeFilter, x)
    ensures IsSubsequence(FilterItems(items, status, typeFilter), items)
    ensures status == "all" && typeFilter == "all" ==> FilterItems(items, status, typeFilter) == items
  {
    var keep := (x: Item) => StatusKeeps(status, x) && TypeKeeps(typeFilter, x);
    FilterItemsKeepsBoth(items, status, typeFilter);
    FilterMembers(items, keep);
    FilterIsSubsequence(items, keep);
  }

  /** The content sent for a new entry: the typed text, trimmed. */
  function SubmittedContent(newItem: string): (c: string)
    requires !IsBlank(newItem)
    ensures c != "" && !IsWhitespace(c[0]) && !IsWhitespace(c[|c| - 1])
  {
    var start := TrimStart(newItem);
    assert TrimEnd(start) == start[..|TrimEnd(start)|];
    Trim(newItem)
  }

  /** How the add request ends. */
  datatype AddReply =
    | AddUnauthorized                    // status 401
    | AddRejected(error: Option<string>) // any other non-ok status, with the body's `error`
    | AddUnreachable(message: string)    // the request throws
    | AddCreated(item: Item)             // ok, with the stored entry

  const LoginToAdd := "Please login to add items to your checklist"
  const SessionExpired := "Session expired. Please login again"
  const AddFailed := "Failed to add item"
  const AddFailedRetry := "Failed to add item. Please try again."

  /** `x || fallback` for a message. */
  function MessageOr(message: Option<string>, fallback: string): (r: string)
    ensures fallback != "" ==> r != ""
  {
    if message.Some? && message.value != "" then message.value else fallback
  }

  /** `addItem`: a blank entry does nothing; a signed-out user or a failed request leaves the
      entries and the typed text alone and shows an error; success prepends the stored entry and
      clears the typed text. */
  function AddItem(p: Page, authenticated: bool, reply: AddReply): (r: Page)
    ensures IsBlank(p.newItem) ==> r == p
    ensures !IsBlank(p.newItem) && authenticated && reply.AddCreated? ==>
      r == p.(items := [reply.item] + p.items, newItem := "", error := None)
    ensures !IsBlank(p.newItem) && !(authenticated && reply.AddCreated?) ==>
      r.items == p.items && r.newItem == p.newItem && r.newItemType == p.newItemType &&
      r.error.Some? && r.error.value != ""
  {
    if IsBlank(p.newItem) then p
    else if !authenticated then p.(error := Some(LoginToAdd))
    else match reply
      case AddUnauthorized => p.(error := Some(SessionExpired))
      case AddRejected(error) => p.(error := Some(MessageOr(error, AddFailed)))
      case AddUnreachable(message) => p.(error := Some(MessageOr(Some(message), AddFailedRetry)))
      case AddCreated(item) => p.(items := [item] + p.items, newItem := "", error := None)
  }

  /** `items.map(item => item._id === id ? { ...item, completed: value } : item)`. */
  function SetCompleted(items: seq<Item>, id: string, value: bool): (r: seq<Item>)
    ensures |r| == |items|
    ensures forall i :: 0 <= i < |items| && items[i].id == id ==> r[i] == items[i].(completed := value)
    ensures forall i :: 0 <= i < |items| && items[i].id != id ==> r[i] == items[i]
  {
    if items == [] then []
    else
      [if items[0].id == id then items[0].(completed := value) else items[0]]
        + SetCompleted(items[1..], id, value)
  }

  /** Setting the flag back to what every matching entry held restores the list. */
  lemma RevertRestores(items: seq<Item>, id: string, completed: bool)
    requires forall x :: x in items && x.id == id ==> x.completed == completed
    ensures SetCompleted(SetCompleted(items, id, !completed), id, completed) == items
  {
    var r := SetCompleted(SetCompleted(items, id, !completed), id, completed);
    forall i | 0 <= i < |items| ensures r[i] == items[i] {
      assert items[i] in items;
    }
  }

  /** How the update or delete request ends. */
  datatype ChangeReply =
    | Changed                               // ok
    | ChangeRejected(error: Option<string>) // non-ok, with the body's `error`
    | ChangeUnreachable(message: string)    // the request throws

  const UpdateFailed := "Failed to update item"
  const UpdateFailedRetry := "Failed to update item. Please try again."
  const RemoveFailed := "Failed to remove item"
  const RemoveFailedRetry := "Failed to remove item. Please try again."

  /** `toggleItemCompletion(id, completed)`: the matching entries are flipped at once; a rejected
      request sets them back, a request that throws keeps the flipped value. */
  function ToggleItemCompletion(p: Page, id: string, completed: bool, reply: ChangeReply): (r: Page)
    ensures |r.items| == |p.items| && r.newItem == p.newItem && r.newItemType == p.newItemType
    ensures forall i :: 0 <= i < |p.items| && p.items[i].id != id ==> r.items[i] == p.items[i]
    ensures !reply.ChangeRejected? ==>
      forall i :: 0 <= i < |p.items| && p.items[i].id == id ==> r.items[i].completed == !completed
    ensures reply.ChangeRejected? ==>
      forall i :: 0 <= i < |p.items| && p.items[i].id == id ==> r.items[i].completed == completed
    ensures reply.Changed? ==> r.error == p.error
    ensures !reply.Changed? ==> r.error.Some? && r.error.value != ""
  {
    var optimistic := SetCompleted(p.items, id, !completed);
    match reply
    case Changed => p.(items := optimistic)
    case ChangeRejected(error) =>
      p.(items := SetCompleted(optimistic, id, completed), error := Some(MessageOr(error, UpdateFailed)))
    case ChangeUnreachable(message) => p.(items := optimistic, error := Some(MessageOr(Some(message), UpdateFailedRetry)))
  }

  /** When the caller passed the entries' current state, as the checkbox does, a rejected
      toggle leaves the list exactly as it was. */
  lemma RejectedToggleRestores(p: Page, id: string, completed: bool, error: Option<string>)
    requires forall x :: x in p.items && x.id == id ==> x.completed == completed
    ensures ToggleItemCompletion(p, id, completed, ChangeRejected(error)).items == p.items
  {
    RevertRestores(p.items, id, completed);
  }

  /** `removeItem(id)`: the matching entries disappear at once; a rejected request restores the
      snapshot taken before, a request that throws does not. */
  function RemoveItem(p: Page, id: string, reply: ChangeReply): (r: Page)
    ensures reply.ChangeRejected? ==> r.items == p.items
    ensures !reply.ChangeRejected? ==> r.items == Filter(p.items, (x: Item) => x.id != id)
    ensures reply.Changed? ==> r.error == p.error
    ensures !reply.Changed? ==> r.error.Some? && r.error.value != ""
  {
    var originalItems := p.items;
    var optimistic := Filter(p.items, (x: Item) => x.id != id);
    match reply
    case Changed => p.(items := optimistic)
    case ChangeRejected(error) => p.(items := originalItems, error := Some(MessageOr(error, RemoveFailed)))
    case ChangeUnreachable(message) => p.(items := optimistic, error := Some(MessageOr(Some(message), RemoveFailedRetry)))
  }

  /** A successful removal drops exactly the entries with that id and keeps the rest in order. */
  lemma RemoveDropsExactly(p: Page, id: string)
    ensures forall x :: x in RemoveItem(p, id, Changed).items <==> x in p.items && x.id != id
    ensures IsSubsequence(RemoveItem(p, id, Changed).items, p.items)
  {
    FilterMembers(p.items, (x: Item) => x.id != id);
    FilterIsSubsequence(p.items, (x: Item) => x.id != id);
  }

  lemma MulMono(t: int, a: int, b: int)
    requires t >= 0 && a <= b
    ensures t * a <= t * b
  {
  }

  lemma CastMul(a: int, b: int)
    ensures (a * b) as real == (a as real) * (b as real)
  {
  }

  lemma RealCancel(x: real, y: real, t: real)
    requires t > 0.0
    ensures x * t <= y * t ==> x <= y
    ensures x * t < y * t ==> x < y
  {
  }

  /** A whole number bracketing `100 * completed / total` within one half lies in 0..100, and
      is 0 or 100 at the two ends. */
  lemma BracketBounds(completed: nat, total: nat, pct: int)
    requires completed <= total && total > 0
    requires 2 * total * pct <= 200 * completed + total < 2 * total * pct + 2 * total
    ensures 0 <= pct <= 100
    ensures completed == 0 ==> pct == 0
    ensures completed == total ==> pct == 100
  {
    var t := 2 * total;
    if pct > 100 {
      MulMono(t, 101, pct);
      MulMono(200, completed, total);
    }
    if pct < 0 {
      MulMono(t, pct, -1);
    }
    if completed == 0 && pct > 0 {
      MulMono(t, 1, pct);
    }
    if completed == total && pct < 100 {
      MulMono(t, pct, 99);
    }
  }

  /** `Math.round(completed / total * 100)`, or 0 without entries, in exact arithmetic. */
  function Percentage(completed: nat, total: nat): (pct: nat)
    requires completed <= total
    ensures pct <= 100
    ensures total == 0 || completed == 0 ==> pct == 0
    ensures total > 0 && completed == total ==> pct == 100
    ensures total > 0 ==> 2 * total * pct <= 200 * completed + total < 2 * total * pct + 2 * total
  {
    if total > 0 then
      var t := 2 * total;
      var pct := (200 * completed + total) / t;
      BracketBounds(completed, total, pct);
      pct
    else 0
  }

  lemma HalfBracket(p: real, c: real, t: real)
    requires t > 0.0 && 2.0 * t * p <= 200.0 * c + t < 2.0 * t * p + 2.0 * t
    ensures p - 0.5 <= 100.0 * c / t < p + 0.5
  {
    var exact := 100.0 * c / t;
    assert exact * t == 100.0 * c;
    assert (p - 0.5) * t == t * p - 0.5 * t;
    assert (p + 0.5) * t == t * p + 0.5 * t;
    RealCancel(p - 0.5, exact, t);
    RealCancel(exact, p + 0.5, t);
  }

  /** The percentage is the whole number nearest to the exact ratio, halves rounding up, which
      is what `Math.round` computes. */
  lemma PercentageIsRounded(completed: nat, total: nat)
    requires completed <= total && total > 0
    ensures var exact := 100.0 * (completed as real) / (total as real);
      (Percentage(completed, total) as real) - 0.5 <= exact < (Percentage(completed, total) as real) + 0.5
  {
    var pct := Percentage(completed, total);
    CastMul(2 * total, pct);
    CastMul(200, completed);
    HalfBracket(pct as real, completed as real, total as real);
  }

  datatype Stats = Stats(total: nat, completed: nat, percentage: nat)

  /** `getCompletionStats`. */
  function CompletionStats(items: seq<Item>): (s: Stats)
    ensures s.total == |items| && s.completed <= s.total && s.percentage <= 100
    ensures s.completed == |Filter(items, (x: Item) => x.completed)|
    ensures s.total == 0 ==> s.percentage == 0
    ensures s.total > 0 && s.completed == s.total ==> s.percentage == 100
    ensures s.completed == 0 ==> s.percentage == 0
    ensures s.total > 0 ==> 2 * s.total * s.percentage <= 200 * s.completed + s.total < 2 * s.total * s.percentage + 2 * s.total
  {
    var done := CountWhere(items, (x: Item) => x.completed);
    CountIsFilterLength(items, (x: Item) => x.completed);
    Stats(|items|, done, Percentage(done, |items|))
  }
}
