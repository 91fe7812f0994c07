/**
 * The web `POST /api/generate` route: validate the request body, read the Jira
 * configuration, fetch the tickets, group them by status, stop when there are none,
 * read the known names and the user's formatting, look up the board's name, ask the
 * model, save the report, and answer with it.
 *
 * Every awaited collaborator is an input `Outcome`. A response records the calls that
 * were made, in order, and the HTTP reply.
 */
module WebGenerate {
  import opened Wrappers
  import opened Text
  import opened Calls
  import opened JiraClient
  import opened Generate

  // ---------------------------------------------------------------------
  // the request body

  /** `{ userId, projectKey, boardId, daysBack }`; `None` stands for a missing or `null`
      string. */
  datatype RequestBody = RequestBody(userId: Option<string>, projectKey: Option<string>,
                                     boardId: Field<int>, daysBack: Field<int>)

  /** A number field is truthy when it holds a number other than zero. */
  predicate TruthyField(f: Field<int>) {
    f.Value? && f.v != 0
  }

  /** `daysBack = 7`: the default applies only to a missing field, not to `null`. */
  function DaysBackOrDefault(f: Field<int>): (r: Field<int>)
    ensures f.Absent? ==> r == Value(7)
    ensures !f.Absent? ==> r == f
  {
    if f.Absent? then Value(7) else f
  }

  // ---------------------------------------------------------------------
  // grouping the tickets by status

  /** The entry a ticket gets in its group: key, summary and comment count. */
  datatype TicketSummary = TicketSummary(key: string, summary: string, commentCount: nat)

  /** `ticket.status || 'Unknown'`. */
  function StatusOf(t: Ticket): (s: string)
    ensures s != []
    ensures t.status != [] ==> s == t.status
  {
    if t.status == [] then "Unknown" else t.status
  }

  /** The properties every object literal inherits from `Object.prototype`. The
      accumulator of the grouping is `{}`, so for these keys `acc[status]` is already a
      truthy inherited value (a function, or the prototype itself for `__proto__`). */
  const InheritedKeys: seq<string> := [
    "constructor", "hasOwnProperty", "isPrototypeOf", "propertyIsEnumerable", "toString",
    "toLocaleString", "valueOf", "__proto__", "__defineGetter__", "__defineSetter__",
    "__lookupGetter__", "__lookupSetter__"]

  predicate Inherited(status: string) {
    OneOf(status, InheritedKeys)
  }

  /** `s` is one of `keys`. */
  predicate OneOf(s: string, keys: seq<string>)
    decreases |keys|
  {
    keys != [] && (s == keys[0] || OneOf(s, keys[1..]))
  }

  /** Some ticket's status names an inherited property: the group is then not created, and
      `acc[status].push` is not a function. */
  predicate GroupingThrows(tickets: seq<Ticket>)
    decreases |tickets|
  {
    tickets != [] && (Inherited(StatusOf(tickets[0])) || GroupingThrows(tickets[1..]))
  }

  /** The grouping throws exactly when some ticket has an inherited status. */
  lemma {:induction false} GroupingThrowsAt(tickets: seq<Ticket>)
    ensures GroupingThrows(tickets) <==> exists i :: 0 <= i < |tickets| && Inherited(StatusOf(tickets[i]))
  {
    if tickets != [] {
      var rest := tickets[1..];
      GroupingThrowsAt(rest);
      if GroupingThrows(rest) {
        var i :| 0 <= i < |rest| && Inherited(StatusOf(rest[i]));
        assert tickets[i + 1] == rest[i];
      }
      if exists i :: 0 <= i < |tickets| && Inherited(StatusOf(tickets[i])) {
        var i :| 0 <= i < |tickets| && Inherited(StatusOf(tickets[i]));
        if i > 0 {
          assert rest[i - 1] == tickets[i];
        }
      }
    }
  }

  /** The `TypeError` that `acc[status].push(...)` throws, with the message Node.js gives it. */
  const PushFailure: Thrown := ErrorObject("acc[status].push is not a function")

  function SummaryOf(t: Ticket): TicketSummary {
    TicketSummary(t.key, t.summary, |t.comments|)
  }

  function Last<T>(s: seq<T>): T
    requires s != []
  {
    s[|s| - 1]
  }

  function AllButLast<T>(s: seq<T>): seq<T>
    requires s != []
  {
    s[..|s| - 1]
  }

  /** The group of `status`: the summaries of the tickets with that status, in the order
      of the tickets. */
  function GroupOf(tickets: seq<Ticket>, status: string): (g: seq<TicketSummary>)
    ensures |g| <= |tickets|
  {
    if tickets == [] then []
    else GroupOf(AllButLast(tickets), status)
         + (if StatusOf(Last(tickets)) == status then [SummaryOf(Last(tickets))] else [])
  }

  function StatusesOf(tickets: seq<Ticket>): set<string> {
    set t | t in tickets :: StatusOf(t)
  }

  /** The statuses in the order they first appear: the order of the object's keys. */
  function StatusOrder(tickets: seq<Ticket>): (order: seq<string>)
    ensures forall s :: s in order <==> s in StatusesOf(tickets)
    ensures forall i, j :: 0 <= i < j < |order| ==> order[i] != order[j]
  {
    if tickets == [] then []
    else
      var o := StatusOrder(AllButLast(tickets));
      assert forall t :: t in tickets <==> t in AllButLast(tickets) || t == Last(tickets);
      if StatusOf(Last(tickets)) in o then o else o + [StatusOf(Last(tickets))]
  }

  /** The value of `ticketsByStatus`: each status that occurs, with its group. */
  function TicketsByStatus(tickets: seq<Ticket>): map<string, seq<TicketSummary>> {
    map s | s in StatusesOf(tickets) :: GroupOf(tickets, s)
  }

  /** The `reduce` that builds `ticketsByStatus`: a group is created the first time its
      status is met, and each ticket's summary is pushed onto its status's group. The
      keys come out in the order the statuses first appear. A status naming an inherited
      property throws instead, at the first ticket that has one. */
  method GroupByStatus(tickets: seq<Ticket>) returns (grouped: Outcome<map<string, seq<TicketSummary>>>, order: seq<string>)
    ensures grouped.Threw? <==> GroupingThrows(tickets)
    ensures grouped.Threw? ==> grouped.thrown == PushFailure
    ensures grouped.Done? ==> grouped.value == TicketsByStatus(tickets) && order == StatusOrder(tickets)
  {
    var groups: map<string, seq<TicketSummary>> := map[];
    order := [];
    var i := 0;
    while i < |tickets|
      invariant 0 <= i <= |tickets|
      invariant Grouped(tickets[..i], groups, order)
      invariant NoneInheritedBefore(tickets, i)
    {
      if Inherited(StatusOf(tickets[i])) {
        // `!acc[status]` is false for the inherited value, and it has no `push`
        InheritedAt(tickets, i);
        return Threw(PushFailure), order;
      }
      NoneInheritedStep(tickets, i);
      groups, order := Push(tickets, i, groups, order);
      i := i + 1;
    }
    GroupedAll(tickets, groups, order);
    grouped := Done(groups);
  }

  /** No ticket before the i-th has an inherited status. */
  predicate NoneInheritedBefore(tickets: seq<Ticket>, i: nat) {
    forall j :: 0 <= j < i && j < |tickets| ==> !Inherited(StatusOf(tickets[j]))
  }

  lemma NoneInheritedStep(tickets: seq<Ticket>, i: nat)
    requires i < |tickets| && NoneInheritedBefore(tickets, i) && !Inherited(StatusOf(tickets[i]))
    ensures NoneInheritedBefore(tickets, i + 1)
  {
  }

  lemma InheritedAt(tickets: seq<Ticket>, i: nat)
    requires i < |tickets| && Inherited(StatusOf(tickets[i]))
    ensures GroupingThrows(tickets)
  {
    GroupingThrowsAt(tickets);
  }

  /** Once every ticket was pushed, the groups and the key order are those of the list,
      and the `reduce` did not throw. */
  lemma GroupedAll(tickets: seq<Ticket>, groups: map<string, seq<TicketSummary>>, order: seq<string>)
    requires Grouped(tickets[..|tickets|], groups, order) && NoneInheritedBefore(tickets, |tickets|)
    ensures groups == TicketsByStatus(tickets) && order == StatusOrder(tickets)
    ensures !GroupingThrows(tickets)
  {
    assert tickets[..|tickets|] == tickets;
    SameGroups(tickets, groups);
    GroupingThrowsAt(tickets);
  }

  /** One step of the `reduce`: the ticket's group is created if its status is new, and
      the ticket's summary is pushed onto it. */
  method Push(tickets: seq<Ticket>, i: nat, groups: map<string, seq<TicketSummary>>, order: seq<string>)
    returns (groups': map<string, seq<TicketSummary>>, order': seq<string>)
    requires i < |tickets| && Grouped(tickets[..i], groups, order)
    ensures Grouped(tickets[..i + 1], groups', order')
  {
    var done, t := tickets[..i], tickets[i];
    assert tickets[..i + 1] == done + [t];
    var status := StatusOf(t);
    groups', order' := groups, order;
    if status !in groups' {
      GroupedNew(done, t, groups', order');
      groups' := groups'[status := []];
      order' := order' + [status];
    } else {
      GroupedOld(done, t, groups', order');
    }
    groups' := groups'[status := groups'[status] + [SummaryOf(t)]];
  }

  /** `groups` and `order` are the groups and key order of `tickets`. */
  predicate Grouped(tickets: seq<Ticket>, groups: map<string, seq<TicketSummary>>, order: seq<string>) {
    && groups.Keys == StatusesOf(tickets)
    && (forall s :: s in groups ==> groups[s] == GroupOf(tickets, s))
    && order == StatusOrder(tickets)
  }

  /** A step of the `reduce` on a status met for the first time: its group is created
      and the ticket's summary pushed onto it, and the status becomes the last key. */
  lemma GroupedNew(tickets: seq<Ticket>, t: Ticket, groups: map<string, seq<TicketSummary>>, order: seq<string>)
    requires Grouped(tickets, groups, order) && StatusOf(t) !in groups
    ensures var created := groups[StatusOf(t) := []];
            Grouped(tickets + [t], created[StatusOf(t) := created[StatusOf(t)] + [SummaryOf(t)]], order + [StatusOf(t)])
  {
    NewStatusOrder(tickets, t, order);
    NewStatusGroups(tickets, t, groups);
  }

  lemma NewStatusOrder(tickets: seq<Ticket>, t: Ticket, order: seq<string>)
    requires order == StatusOrder(tickets) && StatusOf(t) !in StatusesOf(tickets)
    ensures StatusOrder(tickets + [t]) == order + [StatusOf(t)]
  {
    OrderStep(tickets, t);
  }

  lemma NewStatusGroups(tickets: seq<Ticket>, t: Ticket, groups: map<string, seq<TicketSummary>>)
    requires groups.Keys == StatusesOf(tickets) && StatusOf(t) !in groups
    requires forall s :: s in groups ==> groups[s] == GroupOf(tickets, s)
    ensures var created := groups[StatusOf(t) := []];
            var next := created[StatusOf(t) := created[StatusOf(t)] + [SummaryOf(t)]];
            && next.Keys == StatusesOf(tickets + [t])
            && forall s :: s in next ==> next[s] == GroupOf(tickets + [t], s)
  {
    var status := StatusOf(t);
    var created := groups[status := []];
    var next := created[status := created[status] + [SummaryOf(t)]];
    assert next.Keys == groups.Keys + {status};
    StatusesStep(tickets, t);
    NewStatusValues(tickets, t, groups);
  }

  lemma NewStatusValues(tickets: seq<Ticket>, t: Ticket, groups: map<string, seq<TicketSummary>>)
    requires StatusOf(t) !in StatusesOf(tickets)
    requires forall s :: s in groups ==> groups[s] == GroupOf(tickets, s)
    ensures var created := groups[StatusOf(t) := []];
            var next := created[StatusOf(t) := created[StatusOf(t)] + [SummaryOf(t)]];
            forall s :: s in next ==> next[s] == GroupOf(tickets + [t], s)
  {
    var status := StatusOf(t);
    GroupsStep(tickets, t);
    GroupOfAbsent(tickets, status);
    var created := groups[status := []];
    var next := created[status := created[status] + [SummaryOf(t)]];
    forall s | s in next ensures next[s] == GroupOf(tickets + [t], s) {
      if s != status {
        assert next[s] == groups[s];
      } else {
        assert next[s] == [] + [SummaryOf(t)];
      }
    }
  }

  /** A step of the `reduce` on a status already met: the ticket's summary is pushed onto
      its group and the keys stay as they are. */
  lemma GroupedOld(tickets: seq<Ticket>, t: Ticket, groups: map<string, seq<TicketSummary>>, order: seq<string>)
    requires Grouped(tickets, groups, order) && StatusOf(t) in groups
    ensures Grouped(tickets + [t], groups[StatusOf(t) := groups[StatusOf(t)] + [SummaryOf(t)]], order)
  {
    OldStatusOrder(tickets, t, order);
    OldStatusGroups(tickets, t, groups);
  }

  lemma OldStatusOrder(tickets: seq<Ticket>, t: Ticket, order: seq<string>)
    requires order == StatusOrder(tickets) && StatusOf(t) in StatusesOf(tickets)
    ensures StatusOrder(tickets + [t]) == order
  {
    OrderStep(tickets, t);
  }

  lemma OldStatusGroups(tickets: seq<Ticket>, t: Ticket, groups: map<string, seq<TicketSummary>>)
    requires groups.Keys == StatusesOf(tickets) && StatusOf(t) in groups
    requires forall s :: s in groups ==> groups[s] == GroupOf(tickets, s)
    ensures var next := groups[StatusOf(t) := groups[StatusOf(t)] + [SummaryOf(t)]];
            && next.Keys == StatusesOf(tickets + [t])
            && forall s :: s in next ==> next[s] == GroupOf(tickets + [t], s)
  {
    var status := StatusOf(t);
    var next := groups[status := groups[status] + [SummaryOf(t)]];
    assert next.Keys == groups.Keys;
    StatusesStep(tickets, t);
    OldStatusValues(tickets, t, groups);
  }

  lemma OldStatusValues(tickets: seq<Ticket>, t: Ticket, groups: map<string, seq<TicketSummary>>)
    requires StatusOf(t) in groups
    requires forall s :: s in groups ==> groups[s] == GroupOf(tickets, s)
    ensures var next := groups[StatusOf(t) := groups[StatusOf(t)] + [SummaryOf(t)]];
            forall s :: s in next ==> next[s] == GroupOf(tickets + [t], s)
  {
    var status := StatusOf(t);
    GroupsStep(tickets, t);
    var next := groups[status := groups[status] + [SummaryOf(t)]];
    forall s | s in next ensures next[s] == GroupOf(tickets + [t], s) {
      if s != status {
        assert next[s] == groups[s];
      }
    }
  }

  /** A status no ticket has has an empty group. */
  lemma {:induction false} GroupOfAbsent(tickets: seq<Ticket>, status: string)
    requires status !in StatusesOf(tickets)
    ensures GroupOf(tickets, status) == []
  {
    if tickets != [] {
      assert Last(tickets) in tickets;
      assert StatusesOf(AllButLast(tickets)) <= StatusesOf(tickets) by {
        StatusesStep(AllButLast(tickets), Last(tickets));
        assert AllButLast(tickets) + [Last(tickets)] == tickets;
      }
      GroupOfAbsent(AllButLast(tickets), status);
    }
  }

  lemma SameGroups(tickets: seq<Ticket>, groups: map<string, seq<TicketSummary>>)
    requires groups.Keys == StatusesOf(tickets)
    requires forall s :: s in groups ==> groups[s] == GroupOf(tickets, s)
    ensures groups == TicketsByStatus(tickets)
  {
  }

  /** What one more ticket does to the groups, the statuses and their order. */
  lemma StatusesStep(tickets: seq<Ticket>, t: Ticket)
    ensures StatusesOf(tickets + [t]) == StatusesOf(tickets) + {StatusOf(t)}
  {
    var done := tickets + [t];
    assert forall x :: x in done <==> x in tickets || x == t;
  }

  /** One more ticket is pushed onto its own group and leaves the others as they are. */
  lemma GroupsStep(tickets: seq<Ticket>, t: Ticket)
    ensures GroupOf(tickets + [t], StatusOf(t)) == GroupOf(tickets, StatusOf(t)) + [SummaryOf(t)]
    ensures forall s :: s != StatusOf(t) ==> GroupOf(tickets + [t], s) == GroupOf(tickets, s)
  {
    var done := tickets + [t];
    assert AllButLast(done) == tickets && Last(done) == t;
    forall s | s != StatusOf(t) ensures GroupOf(done, s) == GroupOf(tickets, s) {
      assert GroupOf(done, s) == GroupOf(tickets, s) + [];
    }
  }

  lemma OrderStep(tickets: seq<Ticket>, t: Ticket)
    ensures StatusOrder(tickets + [t])
         == if StatusOf(t) in StatusOrder(tickets) then StatusOrder(tickets) else StatusOrder(tickets) + [StatusOf(t)]
  {
    var done := tickets + [t];
    assert AllButLast(done) == tickets && Last(done) == t;
  }

  /** The groups listed in a given order of statuses, one after another. */
  function Concat(groups: map<string, seq<TicketSummary>>, order: seq<string>): seq<TicketSummary>
    requires forall s :: s in order ==> s in groups
  {
    if order == [] then [] else groups[order[0]] + Concat(groups, order[1..])
  }

  function Summaries(tickets: seq<Ticket>): (r: seq<TicketSummary>)
    ensures |r| == |tickets| && forall i :: 0 <= i < |tickets| ==> r[i] == SummaryOf(tickets[i])
  {
    if tickets == [] then [] else Summaries(AllButLast(tickets)) + [SummaryOf(Last(tickets))]
  }

  /** The summaries of the tickets whose status is in `statuses`, in ticket order. */
  function SummariesIn(tickets: seq<Ticket>, statuses: set<string>): seq<TicketSummary> {
    if tickets == [] then []
    else SummariesIn(AllButLast(tickets), statuses)
         + (if StatusOf(Last(tickets)) in statuses then [SummaryOf(Last(tickets))] else [])
  }

  /** Every ticket lands in exactly one group: the groups, taken in key order, hold the
      summaries of all the tickets, each as often as it occurs. */
  lemma EveryTicketInOneGroup(tickets: seq<Ticket>)
    ensures var groups := TicketsByStatus(tickets);
            var order := StatusOrder(tickets);
            multiset(Concat(groups, order)) == multiset(Summaries(tickets))
  {
    var groups := TicketsByStatus(tickets);
    var order := StatusOrder(tickets);
    ConcatIsSummariesIn(tickets, groups, order);
    SetOfMembers(order);
    SummariesInAll(tickets, SetOf(order));
  }

  lemma {:induction false} ConcatIsSummariesIn(tickets: seq<Ticket>, groups: map<string, seq<TicketSummary>>,
                                               order: seq<string>)
    requires forall i, j :: 0 <= i < j < |order| ==> order[i] != order[j]
    requires forall s :: s in order ==> s in groups && groups[s] == GroupOf(tickets, s)
    ensures multiset(Concat(groups, order)) == multiset(SummariesIn(tickets, SetOf(order)))
  {
    if order == [] {
      NothingIn(tickets);
    } else {
      var rest := order[1..];
      ConcatIsSummariesIn(tickets, groups, rest);
      FirstKeyIsNew(order);
      SplitOffStatus(tickets, order[0], SetOf(rest));
      var c := Concat(groups, rest);
      assert Concat(groups, order) == groups[order[0]] + c;
      assert multiset(groups[order[0]] + c) == multiset(groups[order[0]]) + multiset(c);
    }
  }

  /** The statuses of a list, as a set. */
  function SetOf(order: seq<string>): set<string> {
    if order == [] then {} else {order[0]} + SetOf(order[1..])
  }

  /** In a list of distinct statuses, the first is not among the others. */
  lemma FirstKeyIsNew(order: seq<string>)
    requires order != [] && forall i, j :: 0 <= i < j < |order| ==> order[i] != order[j]
    ensures order[0] !in SetOf(order[1..]) && SetOf(order) == SetOf(order[1..]) + {order[0]}
  {
    var rest := order[1..];
    forall j | 0 <= j < |rest| ensures rest[j] != order[0] {
      assert rest[j] == order[j + 1];
    }
    SetOfMembers(rest);
  }

  lemma {:induction false} SetOfMembers(order: seq<string>)
    ensures forall s :: s in SetOf(order) <==> s in order
  {
    if order != [] {
      SetOfMembers(order[1..]);
      assert forall s :: s in order <==> s == order[0] || s in order[1..];
    }
  }

  lemma {:induction false} NothingIn(tickets: seq<Ticket>)
    ensures SummariesIn(tickets, {}) == []
  {
    if tickets != [] {
      NothingIn(AllButLast(tickets));
    }
  }

  /** The tickets of a set of statuses, plus one more status, are that status's group and
      the tickets of the set. */
  lemma {:induction false} SplitOffStatus(tickets: seq<Ticket>, status: string, statuses: set<string>)
    requires status !in statuses
    ensures multiset(SummariesIn(tickets, statuses + {status}))
         == multiset(GroupOf(tickets, status)) + multiset(SummariesIn(tickets, statuses))
  {
    if tickets != [] {
      var front := AllButLast(tickets);
      SplitOffStatus(front, status, statuses);
      SplitLast(tickets, status, statuses);
      var a, g, r := SummariesIn(front, statuses + {status}), GroupOf(front, status), SummariesIn(front, statuses);
      var a', g', r' := LastIn(tickets, statuses + {status}), LastGroup(tickets, status), LastIn(tickets, statuses);
      assert multiset(a + a') == multiset(a) + multiset(a');
      assert multiset(g + g') == multiset(g) + multiset(g');
      assert multiset(r + r') == multiset(r) + multiset(r');
    }
  }

  /** What the last ticket adds to the summaries of a set of statuses. */
  function LastIn(tickets: seq<Ticket>, statuses: set<string>): seq<TicketSummary>
    requires tickets != []
  {
    if StatusOf(Last(tickets)) in statuses then [SummaryOf(Last(tickets))] else []
  }

  /** What the last ticket adds to the group of `status`. */
  function LastGroup(tickets: seq<Ticket>, status: string): seq<TicketSummary>
    requires tickets != []
  {
    if StatusOf(Last(tickets)) == status then [SummaryOf(Last(tickets))] else []
  }

  /** The last ticket's part splits like the whole. */
  lemma SplitLast(tickets: seq<Ticket>, status: string, statuses: set<string>)
    requires tickets != [] && status !in statuses
    ensures SummariesIn(tickets, statuses + {status}) == SummariesIn(AllButLast(tickets), statuses + {status}) + LastIn(tickets, statuses + {status})
    ensures GroupOf(tickets, status) == GroupOf(AllButLast(tickets), status) + LastGroup(tickets, status)
    ensures SummariesIn(tickets, statuses) == SummariesIn(AllButLast(tickets), statuses) + LastIn(tickets, statuses)
    ensures multiset(LastIn(tickets, statuses + {status})) == multiset(LastGroup(tickets, status)) + multiset(LastIn(tickets, statuses))
  {
  }

  /** Taking every status that occurs keeps every ticket. */
  lemma {:induction false} SummariesInAll(tickets: seq<Ticket>, statuses: set<string>)
    requires StatusesOf(tickets) <= statuses
    ensures SummariesIn(tickets, statuses) == Summaries(tickets)
  {
    if tickets != [] {
      var front := AllButLast(tickets);
      assert StatusesOf(front) <= StatusesOf(tickets) by {
        forall t | t in front ensures t in tickets {
          var k :| 0 <= k < |front| && front[k] == t;
          assert tickets[k] == t;
        }
      }
      assert StatusOf(Last(tickets)) in StatusesOf(tickets);
      SummariesInAll(front, statuses);
    }
  }

  /** Within a group the tickets keep their order: the group is the summaries of the
      tickets with that status, a ticket before another staying before it. */
  lemma {:induction false} GroupKeepsOrder(tickets: seq<Ticket>, status: string, i: nat, j: nat)
    requires i < j < |tickets| && StatusOf(tickets[i]) == status && StatusOf(tickets[j]) == status
    ensures exists a, b :: 0 <= a < b < |GroupOf(tickets, status)|
                           && GroupOf(tickets, status)[a] == SummaryOf(tickets[i])
                           && GroupOf(tickets, status)[b] == SummaryOf(tickets[j])
  {
    var front := AllButLast(tickets);
    if j < |tickets| - 1 {
      GroupKeepsOrder(front, status, i, j);
      var a, b :| 0 <= a < b < |GroupOf(front, status)|
                  && GroupOf(front, status)[a] == SummaryOf(front[i])
                  && GroupOf(front, status)[b] == SummaryOf(front[j]);
      assert GroupOf(tickets, status)[a] == GroupOf(front, status)[a];
      assert GroupOf(tickets, status)[b] == GroupOf(front, status)[b];
    } else {
      InGroup(front, status, i);
      var a :| 0 <= a < |GroupOf(front, status)| && GroupOf(front, status)[a] == SummaryOf(front[i]);
      var g := GroupOf(tickets, status);
      assert g == GroupOf(front, status) + [SummaryOf(tickets[j])];
      assert g[a] == SummaryOf(tickets[i]);
      assert g[|g| - 1] == SummaryOf(tickets[j]);
    }
  }

  /** A ticket is in the group of its status. */
  lemma {:induction false} InGroup(tickets: seq<Ticket>, status: string, i: nat)
    requires i < |tickets| && StatusOf(tickets[i]) == status
    ensures exists a :: 0 <= a < |GroupOf(tickets, status)| && GroupOf(tickets, status)[a] == SummaryOf(tickets[i])
  {
    var front := AllButLast(tickets);
    if i < |tickets| - 1 {
      InGroup(front, status, i);
      var a :| 0 <= a < |GroupOf(front, status)| && GroupOf(front, status)[a] == SummaryOf(front[i]);
      assert GroupOf(tickets, status)[a] == GroupOf(front, status)[a];
    } else {
      var g := GroupOf(tickets, status);
      assert g[|g| - 1] == SummaryOf(tickets[i]);
    }
  }

  // ---------------------------------------------------------------------
  // the board name

  /** `boards.find((b) => b.id === boardId)`: the position of the first board with that
      id. */
  function FindBoard(boards: seq<AgileBoard>, id: int): (r: Option<nat>)
    ensures r.Some? ==> r.value < |boards| && boards[r.value].id == id
    ensures r.Some? ==> forall j :: 0 <= j < r.value ==> boards[j].id != id
    ensures r.None? ==> forall j :: 0 <= j < |boards| ==> boards[j].id != id
  {
    if boards == [] then None
    else if boards[0].id == id then Some(0)
    else match FindBoard(boards[1..], id)
      case None => None
      case Some(k) => Some(k + 1)
  }

  /** The board name saved with the report: looked up only for a truthy board id; the
      name of the first board with that id, `null` for none or an empty name, and `null`
      when the list cannot be fetched. */
  function BoardName(boardId: Field<int>, boards: Outcome<seq<AgileBoard>>): Option<string> {
    if !TruthyField(boardId) || boards.Threw? then None
    else match FindBoard(boards.value, boardId.v)
      case None => None
      case Some(i) => OrNull(Some(boards.value[i].name))
  }

  /** The `let boardName` block: `boardName` starts `null` and is set from the board found,
      a failed fetch leaving it `null`. */
  method LookUpBoardName(boardId: Field<int>, boards: Outcome<seq<AgileBoard>>) returns (boardName: Option<string>)
    ensures boardName == BoardName(boardId, boards)
    ensures boardName.Some? ==> TruthyField(boardId) && boards.Done?
    ensures boardName.Some? ==> boardName.value != []
                                && exists i :: 0 <= i < |boards.value| && boards.value[i] == AgileBoard(boardId.v, boardName.value)
  {
    boardName := None;
    if TruthyField(boardId) {
      match boards
      case Threw(_) =>
      case Done(bs) =>
        var i := 0;
        while i < |bs| && bs[i].id != boardId.v
          invariant 0 <= i <= |bs|
          invariant forall j :: 0 <= j < i ==> bs[j].id != boardId.v
        {
          i := i + 1;
        }
        if i < |bs| {
          assert FindBoard(bs, boardId.v) == Some(i) by { FindBoardIs(bs, boardId.v, i); }
          boardName := if bs[i].name != [] then Some(bs[i].name) else None;
        } else {
          assert FindBoard(bs, boardId.v).None?;
        }
    }
  }

  lemma {:induction false} FindBoardIs(boards: seq<AgileBoard>, id: int, i: nat)
    requires i < |boards| && boards[i].id == id
    requires forall j :: 0 <= j < i ==> boards[j].id != id
    ensures FindBoard(boards, id) == Some(i)
  {
    if i > 0 {
      FindBoardIs(boards[1..], id, i - 1);
    }
  }

  // ---------------------------------------------------------------------
  // the route

  /** What the route awaits, in order. */
  datatype GenerateCalls = GenerateCalls(
    body: Outcome<RequestBody>,              // request.json()
    config: Outcome<Option<JiraConfig>>,     // getJiraConfig(userId)
    tickets: Outcome<seq<Ticket>>,           // fetchTickets({ userId, projectKey, boardId, daysBack })
    names: Outcome<Names>,                   // getTicketNames(userId)
    formatting: Outcome<string>,             // getUserFormatting(userId)
    boards: Outcome<seq<AgileBoard>>,        // fetchBoardsForProject(userId, projectKey)
    answer: Outcome<seq<ContentBlock>>,      // the model's answer inside generateStandupReport
    saved: Outcome<()>)                      // saveReport(userId, projectKey, boardName, report)

  datatype Step =
    | ReadConfig(userId: string)
    | FetchedTickets(userId: string, projectKey: string, boardId: Field<int>, daysBack: Field<int>)
    | ReadNames(userId: string)
    | ReadFormatting(userId: string)
    | FetchedBoards(userId: string, projectKey: string)
    | AskedModel(tickets: seq<Ticket>, baseUrl: Option<string>, names: Names, prompt: SystemPrompt)
    | SavedReport(userId: string, projectKey: string, boardName: Option<string>, report: string)

  datatype ReplyBody =
    | ErrorBody(error: string)
    | MessageOnly(report: string)
    | ReportBody(report: string, ticketsByStatus: map<string, seq<TicketSummary>>, rawTickets: seq<Ticket>)

  datatype Reply = Reply(status: int, body: ReplyBody)

  datatype Response = Response(steps: seq<Step>, reply: Reply)

  const NoTicketsMessage: string := "No tickets found with activity in the specified time period."
  const NotConfiguredMessage: string := "Jira not configured. Please reconnect your Jira account."

  /** The reply of the `catch` block. */
  function Fail(e: Thrown): Reply {
    Reply(500, ErrorBody(MessageOr(e, "Failed to generate report")))
  }

  /** A call made before the rest of a response. */
  function Then(step: Step, r: Response): (out: Response)
    ensures out.reply == r.reply && out.steps == [step] + r.steps
  {
    Response([step] + r.steps, r.reply)
  }

  /** `POST /api/generate`. */
  function HandleGenerate(calls: GenerateCalls, parse: string -> Option<Names>): Response {
    match calls.body
    case Threw(e) => Response([], Fail(e))
    case Done(body) =>
      if !Given(body.userId) then Response([], Reply(400, ErrorBody("userId is required")))
      else if !Given(body.projectKey) then Response([], Reply(400, ErrorBody("projectKey is required")))
      else Then(ReadConfig(body.userId.value), AfterValidation(body, calls, parse))
  }

  function AfterValidation(body: RequestBody, calls: GenerateCalls, parse: string -> Option<Names>): Response
    requires Given(body.userId) && Given(body.projectKey)
  {
    var userId, projectKey := body.userId.value, body.projectKey.value;
    match calls.config
    case Threw(e) => Response([], Fail(e))
    case Done(None) => Response([], Reply(400, ErrorBody(NotConfiguredMessage)))
    case Done(Some(config)) =>
      var daysBack := DaysBackOrDefault(body.daysBack);
      Then(FetchedTickets(userId, projectKey, body.boardId, daysBack),
        match calls.tickets
        case Threw(e) => Response([], Fail(e))
        case Done(tickets) =>
          if GroupingThrows(tickets) then Response([], Fail(PushFailure))
          else if |tickets| == 0 then Response([], Reply(200, MessageOnly(NoTicketsMessage)))
          else AfterTickets(userId, projectKey, body.boardId, config, tickets, calls, parse))
  }

  function AfterTickets(userId: string, projectKey: string, boardId: Field<int>, config: JiraConfig,
                        tickets: seq<Ticket>, calls: GenerateCalls, parse: string -> Option<Names>): Response
  {
    Then(ReadNames(userId),
      match calls.names
      case Threw(e) => Response([], Fail(e))
      case Done(names) =>
        Then(ReadFormatting(userId),
          match calls.formatting
          case Threw(e) => Response([], Fail(e))
          case Done(formatting) => AfterFormatting(userId, projectKey, boardId, config, tickets, names, formatting, calls, parse)))
  }

  /** The board-name lookup, then the model call with the chosen prompt. */
  function AfterFormatting(userId: string, projectKey: string, boardId: Field<int>, config: JiraConfig,
                           tickets: seq<Ticket>, names: Names, formatting: string, calls: GenerateCalls,
                           parse: string -> Option<Names>): Response
  {
    var ask := AskedModel(tickets, config.baseUrl, names, ChooseSystemPrompt(Some(formatting)));
    var rest := Then(ask, Generating(userId, projectKey, BoardName(boardId, calls.boards), tickets, names, calls, parse));
    if TruthyField(boardId) then Then(FetchedBoards(userId, projectKey), rest) else rest
  }

  /** What follows the model's answer. */
  function Generating(userId: string, projectKey: string, boardName: Option<string>, tickets: seq<Ticket>,
                      names: Names, calls: GenerateCalls, parse: string -> Option<Names>): Response
  {
    match GenerateCall(calls.answer, names, parse)
    case Threw(e) => Response([], Fail(e))
    case Done(out) => Saving(userId, projectKey, boardName, tickets, out, calls.saved)
  }

  /** `saveReport`, then the reply with the report and the grouped tickets. */
  function Saving(userId: string, projectKey: string, boardName: Option<string>, tickets: seq<Ticket>,
                  out: StandupReport, saved: Outcome<()>): Response
  {
    Then(SavedReport(userId, projectKey, boardName, out.report),
      match saved
      case Threw(e) => Response([], Fail(e))
      case Done(_) => Response([], Reply(200, ReportBody(out.report, TicketsByStatus(tickets), tickets))))
  }

  /** The report reply comes only after a successful save, which is the last call. */
  lemma SavingReport(userId: string, projectKey: string, boardName: Option<string>, tickets: seq<Ticket>,
                     out: StandupReport, saved: Outcome<()>)
    ensures var r := Saving(userId, projectKey, boardName, tickets, out, saved);
            && (forall s :: s in r.steps ==> s.SavedReport?)
            && (r.reply.body.ReportBody? ==>
                  && saved.Done? && r.reply.status == 200
                  && r.reply.body.report == out.report && r.reply.body.ticketsByStatus == TicketsByStatus(tickets)
                  && r.steps == [SavedReport(userId, projectKey, boardName, out.report)])
  {
  }

  lemma GeneratingReport(userId: string, projectKey: string, boardName: Option<string>, tickets: seq<Ticket>,
                         names: Names, calls: GenerateCalls, parse: string -> Option<Names>)
    ensures var r := Generating(userId, projectKey, boardName, tickets, names, calls, parse);
            && (forall s :: s in r.steps ==> s.SavedReport?)
            && (r.reply.body.ReportBody? ==>
                  && calls.answer.Done? && calls.answer.value != [] && calls.saved.Done? && r.reply.status == 200
                  && var report := Trim(StripJsonBlocks(ResponseText(calls.answer.value).value));
                     && r.reply.body.report == report && r.reply.body.ticketsByStatus == TicketsByStatus(tickets)
                     && r.steps == [SavedReport(userId, projectKey, boardName, report)])
  {
    var g := GenerateCall(calls.answer, names, parse);
    if g.Done? {
      SavingReport(userId, projectKey, boardName, tickets, g.value, calls.saved);
    }
  }

  lemma AfterFormattingReport(userId: string, projectKey: string, boardId: Field<int>, config: JiraConfig,
                              tickets: seq<Ticket>, names: Names, formatting: string, calls: GenerateCalls,
                              parse: string -> Option<Names>)
    ensures var r := AfterFormatting(userId, projectKey, boardId, config, tickets, names, formatting, calls, parse);
            && (forall s :: s in r.steps && s.AskedModel? ==> s.tickets == tickets)
            && (forall s :: s in r.steps && s.FetchedBoards? ==> TruthyField(boardId))
            && (r.reply.body.ReportBody? ==>
                  && calls.answer.Done? && calls.answer.value != [] && calls.saved.Done? && r.reply.status == 200
                  && var report := Trim(StripJsonBlocks(ResponseText(calls.answer.value).value));
                     && r.reply.body.report == report && r.reply.body.ticketsByStatus == TicketsByStatus(tickets)
                     && r.steps != []
                     && r.steps[|r.steps| - 1] == SavedReport(userId, projectKey, BoardName(boardId, calls.boards), report))
  {
    var boardName := BoardName(boardId, calls.boards);
    var g := Generating(userId, projectKey, boardName, tickets, names, calls, parse);
    var ask := AskedModel(tickets, config.baseUrl, names, ChooseSystemPrompt(Some(formatting)));
    GeneratingReport(userId, projectKey, boardName, tickets, names, calls, parse);
    AskThenGenerate(userId, projectKey, boardId, ask, g);
  }

  /** The model call, after the optional board lookup, before what `Generating` does. */
  lemma AskThenGenerate(userId: string, projectKey: string, boardId: Field<int>, ask: Step, g: Response)
    requires ask.AskedModel? && forall s :: s in g.steps ==> s.SavedReport?
    ensures var rest := Then(ask, g);
            var r := if TruthyField(boardId) then Then(FetchedBoards(userId, projectKey), rest) else rest;
            && (forall s :: s in r.steps && s.AskedModel? ==> s == ask)
            && (forall s :: s in r.steps && s.FetchedBoards? ==> TruthyField(boardId))
            && r.reply == g.reply
            && (g.steps != [] ==> r.steps != [] && r.steps[|r.steps| - 1] == g.steps[|g.steps| - 1])
  {
    ThenFacts(ask, g);
    ThenFacts(FetchedBoards(userId, projectKey), Then(ask, g));
  }

  lemma AfterTicketsReport(userId: string, projectKey: string, boardId: Field<int>, config: JiraConfig,
                           tickets: seq<Ticket>, calls: GenerateCalls, parse: string -> Option<Names>)
    ensures var r := AfterTickets(userId, projectKey, boardId, config, tickets, calls, parse);
            && (forall s :: s in r.steps && s.AskedModel? ==> s.tickets == tickets)
            && (forall s :: s in r.steps && s.FetchedBoards? ==> TruthyField(boardId))
            && (r.reply.body.ReportBody? ==>
                  && calls.answer.Done? && calls.answer.value != [] && calls.saved.Done? && r.reply.status == 200
                  && var report := Trim(StripJsonBlocks(ResponseText(calls.answer.value).value));
                     && r.reply.body.report == report && r.reply.body.ticketsByStatus == TicketsByStatus(tickets)
                     && r.steps != []
                     && r.steps[|r.steps| - 1] == SavedReport(userId, projectKey, BoardName(boardId, calls.boards), report))
  {
    if calls.names.Done? && calls.formatting.Done? {
      var f := AfterFormatting(userId, projectKey, boardId, config, tickets, calls.names.value,
                               calls.formatting.value, calls, parse);
      AfterFormattingReport(userId, projectKey, boardId, config, tickets, calls.names.value, calls.formatting.value,
                            calls, parse);
      ThenFacts(ReadFormatting(userId), f);
      ThenFacts(ReadNames(userId), Then(ReadFormatting(userId), f));
    }
  }

  /** A call made before a response is its first step, and the rest keeps its last step
      and its reply. */
  lemma ThenFacts(step: Step, r: Response)
    ensures var out := Then(step, r);
            && (forall s :: s in out.steps <==> s == step || s in r.steps)
            && (r.steps != [] ==> out.steps[|out.steps| - 1] == r.steps[|r.steps| - 1])
            && out.reply == r.reply
  {
  }

  /** A report reply needs a valid body, a stored configuration and a non-empty ticket
      list. */
  lemma ReportNeedsTickets(calls: GenerateCalls, parse: string -> Option<Names>)
    ensures HandleGenerate(calls, parse).reply.body.ReportBody? ==>
              && calls.body.Done? && Given(calls.body.value.userId) && Given(calls.body.value.projectKey)
              && calls.config.Done? && calls.config.value.Some? && calls.tickets.Done? && calls.tickets.value != []
              && !GroupingThrows(calls.tickets.value)
  {
  }

  // ---------------------------------------------------------------------
  // properties of the route

  /** The body is validated first: a missing user id is refused before the project key is
      looked at, then a missing project key; neither makes a call. */
  lemma ValidationFirst(calls: GenerateCalls, parse: string -> Option<Names>)
    requires calls.body.Done?
    ensures var body := calls.body.value;
            var r := HandleGenerate(calls, parse);
            && (!Given(body.userId) ==> r == Response([], Reply(400, ErrorBody("userId is required"))))
            && (Given(body.userId) && !Given(body.projectKey) ==>
                  r == Response([], Reply(400, ErrorBody("projectKey is required"))))
            && (Given(body.userId) && Given(body.projectKey) ==> r.steps[0] == ReadConfig(body.userId.value))
  {
  }

  /** Without a stored Jira configuration the route answers 400 after reading it. */
  lemma MissingConfig(calls: GenerateCalls, parse: string -> Option<Names>)
    requires calls.body.Done? && Given(calls.body.value.userId) && Given(calls.body.value.projectKey)
    requires calls.config == Done(None)
    ensures HandleGenerate(calls, parse)
         == Response([ReadConfig(calls.body.value.userId.value)], Reply(400, ErrorBody(NotConfiguredMessage)))
  {
  }

  /** The tickets are fetched for the requested project and board, over the requested
      number of days, seven when the body has none. */
  lemma FetchesRequestedTickets(calls: GenerateCalls, parse: string -> Option<Names>)
    requires calls.body.Done? && Given(calls.body.value.userId) && Given(calls.body.value.projectKey)
    requires calls.config.Done? && calls.config.value.Some?
    ensures var body := calls.body.value;
            var r := HandleGenerate(calls, parse);
            && |r.steps| >= 2
            && r.steps[1] == FetchedTickets(body.userId.value, body.projectKey.value, body.boardId,
                                            if body.daysBack.Absent? then Value(7) else body.daysBack)
  {
  }

  /** An empty ticket list is answered with the fixed message: the model is never asked
      and nothing is saved. */
  lemma NoTicketsShortCircuit(calls: GenerateCalls, parse: string -> Option<Names>)
    requires calls.body.Done? && Given(calls.body.value.userId) && Given(calls.body.value.projectKey)
    requires calls.config.Done? && calls.config.value.Some? && calls.tickets == Done([])
    ensures var r := HandleGenerate(calls, parse);
            && r.reply == Reply(200, MessageOnly(NoTicketsMessage))
            && |r.steps| == 2
            && forall s :: s in r.steps ==> !s.AskedModel? && !s.SavedReport?
  {
  }

  /** Whatever the inputs, the model is asked only about a non-empty list of tickets, the
      ones fetched. */
  lemma ModelAskedOnlyWithTickets(calls: GenerateCalls, parse: string -> Option<Names>)
    ensures forall s :: s in HandleGenerate(calls, parse).steps && s.AskedModel? ==>
              s.tickets != [] && calls.tickets == Done(s.tickets)
  {
    if HasTickets(calls) {
      var body := calls.body.value;
      PastTheGrouping(calls, parse);
      AfterTicketsReport(body.userId.value, body.projectKey.value, body.boardId, calls.config.value.value,
                         calls.tickets.value, calls, parse);
    }
  }

  /** Once the tickets are fetched and grouped, the route has read the configuration and
      fetched the tickets, and goes on with what `AfterTickets` does. */
  lemma PastTheGrouping(calls: GenerateCalls, parse: string -> Option<Names>)
    requires HasTickets(calls)
    ensures var body := calls.body.value;
            var userId, projectKey := body.userId.value, body.projectKey.value;
            var a := AfterTickets(userId, projectKey, body.boardId, calls.config.value.value, calls.tickets.value,
                                  calls, parse);
            HandleGenerate(calls, parse)
            == Response([ReadConfig(userId), FetchedTickets(userId, projectKey, body.boardId, DaysBackOrDefault(body.daysBack))]
                        + a.steps, a.reply)
  {
    var body := calls.body.value;
    var userId, projectKey := body.userId.value, body.projectKey.value;
    var a := AfterTickets(userId, projectKey, body.boardId, calls.config.value.value, calls.tickets.value, calls, parse);
    var fetched := FetchedTickets(userId, projectKey, body.boardId, DaysBackOrDefault(body.daysBack));
    FetchThenRest(body, calls, parse);
    assert HandleGenerate(calls, parse) == Then(ReadConfig(userId), Then(fetched, a));
  }

  /** With a stored configuration and a non-empty list that groups without throwing, the
      route fetches the tickets and goes on with `AfterTickets`. */
  lemma FetchThenRest(body: RequestBody, calls: GenerateCalls, parse: string -> Option<Names>)
    requires Given(body.userId) && Given(body.projectKey)
    requires calls.config.Done? && calls.config.value.Some?
    requires calls.tickets.Done? && calls.tickets.value != [] && !GroupingThrows(calls.tickets.value)
    ensures var userId, projectKey := body.userId.value, body.projectKey.value;
            AfterValidation(body, calls, parse)
            == Then(FetchedTickets(userId, projectKey, body.boardId, DaysBackOrDefault(body.daysBack)),
                    AfterTickets(userId, projectKey, body.boardId, calls.config.value.value, calls.tickets.value,
                                 calls, parse))
  {
  }

  /** A report reaches the client only once it was saved, with the project key and the
      board name looked up, and the saved report is the one returned: the model's text
      with its blocks cut out, trimmed. */
  lemma SavedBeforeReply(calls: GenerateCalls, parse: string -> Option<Names>)
    ensures var r := HandleGenerate(calls, parse);
            r.reply.body.ReportBody? ==>
              && r.reply.status == 200
              && calls.body.Done? && Given(calls.body.value.userId) && Given(calls.body.value.projectKey)
              && calls.answer.Done? && calls.answer.value != [] && calls.saved.Done?
              && calls.tickets.Done? && calls.tickets.value != [] && !GroupingThrows(calls.tickets.value)
              && var body := calls.body.value;
                 var report := Trim(StripJsonBlocks(ResponseText(calls.answer.value).value));
                 && r.reply.body.report == report
                 && r.reply.body.ticketsByStatus == TicketsByStatus(calls.tickets.value)
                 && r.steps[|r.steps| - 1]
                    == SavedReport(body.userId.value, body.projectKey.value, BoardName(body.boardId, calls.boards), report)
  {
    ReportNeedsTickets(calls, parse);
    if calls.body.Done? && Given(calls.body.value.userId) && Given(calls.body.value.projectKey)
       && calls.config.Done? && calls.config.value.Some? && calls.tickets.Done? && calls.tickets.value != []
       && !GroupingThrows(calls.tickets.value) {
      var body := calls.body.value;
      var userId, projectKey := body.userId.value, body.projectKey.value;
      var a := AfterTickets(userId, projectKey, body.boardId, calls.config.value.value, calls.tickets.value, calls, parse);
      AfterTicketsReport(userId, projectKey, body.boardId, calls.config.value.value, calls.tickets.value, calls, parse);
      var fetched := FetchedTickets(userId, projectKey, body.boardId, DaysBackOrDefault(body.daysBack));
      ThenFacts(fetched, a);
      assert AfterValidation(body, calls, parse) == Then(fetched, a);
      ThenFacts(ReadConfig(userId), Then(fetched, a));
    }
  }

  /** The board list is fetched only for a truthy board id, and a failure to fetch it is
      swallowed: the response is the one for a list without that board. */
  lemma BoardLookupSwallowsFailure(calls: GenerateCalls, parse: string -> Option<Names>, e: Thrown)
    requires calls.boards == Threw(e)
    ensures HandleGenerate(calls, parse) == HandleGenerate(calls.(boards := Done([])), parse)
    ensures forall s :: s in HandleGenerate(calls, parse).steps && s.FetchedBoards? ==>
              calls.body.Done? && TruthyField(calls.body.value.boardId)
  {
    assert forall b :: BoardName(b, Threw(e)) == BoardName(b, Done([]));
    BoardsFetchedOnlyWithBoard(calls, parse);
  }

  lemma BoardsFetchedOnlyWithBoard(calls: GenerateCalls, parse: string -> Option<Names>)
    ensures forall s :: s in HandleGenerate(calls, parse).steps && s.FetchedBoards? ==>
              calls.body.Done? && TruthyField(calls.body.value.boardId)
  {
    if calls.body.Done? && Given(calls.body.value.userId) && Given(calls.body.value.projectKey)
       && calls.config.Done? && calls.config.value.Some? && calls.tickets.Done? && calls.tickets.value != []
       && !GroupingThrows(calls.tickets.value) {
      var body := calls.body.value;
      var userId, projectKey := body.userId.value, body.projectKey.value;
      var a := AfterTickets(userId, projectKey, body.boardId, calls.config.value.value, calls.tickets.value, calls, parse);
      AfterTicketsReport(userId, projectKey, body.boardId, calls.config.value.value, calls.tickets.value, calls, parse);
      var fetched := FetchedTickets(userId, projectKey, body.boardId, DaysBackOrDefault(body.daysBack));
      ThenFacts(fetched, a);
      assert AfterValidation(body, calls, parse) == Then(fetched, a);
      ThenFacts(ReadConfig(userId), Then(fetched, a));
    }
  }

  /** The body parsed and names both the user and the project. */
  predicate BodyValid(calls: GenerateCalls) {
    calls.body.Done? && Given(calls.body.value.userId) && Given(calls.body.value.projectKey)
  }

  /** The route gets past the ticket fetch and the grouping with a non-empty list. */
  predicate HasTickets(calls: GenerateCalls) {
    BodyValid(calls) && calls.config.Done? && calls.config.value.Some?
    && calls.tickets.Done? && calls.tickets.value != [] && !GroupingThrows(calls.tickets.value)
  }

  /** Whichever awaited call throws first, the `catch` block answers 500 with the thrown
      value's message, or "Failed to generate report"; the board lookup is the one call
      whose failure is swallowed instead (`BoardLookupSwallowsFailure`). */
  lemma ThrownGives500(calls: GenerateCalls, parse: string -> Option<Names>)
    ensures var reply := HandleGenerate(calls, parse).reply;
            && (calls.body.Threw? ==> reply == Fail(calls.body.thrown))
            && (BodyValid(calls) && calls.config.Threw? ==> reply == Fail(calls.config.thrown))
            && (BodyValid(calls) && calls.config.Done? && calls.config.value.Some? && calls.tickets.Threw? ==>
                  reply == Fail(calls.tickets.thrown))
            && (BodyValid(calls) && calls.config.Done? && calls.config.value.Some? && calls.tickets.Done?
                && GroupingThrows(calls.tickets.value) ==>
                  reply == Fail(PushFailure))
            && (HasTickets(calls) && calls.names.Threw? ==> reply == Fail(calls.names.thrown))
            && (HasTickets(calls) && calls.names.Done? && calls.formatting.Threw? ==>
                  reply == Fail(calls.formatting.thrown))
            && (HasTickets(calls) && calls.names.Done? && calls.formatting.Done?
                && GenerateCall(calls.answer, calls.names.value, parse).Threw? ==>
                  reply == Fail(GenerateCall(calls.answer, calls.names.value, parse).thrown))
            && (HasTickets(calls) && calls.names.Done? && calls.formatting.Done?
                && GenerateCall(calls.answer, calls.names.value, parse).Done? && calls.saved.Threw? ==>
                  reply == Fail(calls.saved.thrown))
  {
    if HasTickets(calls) {
      var body := calls.body.value;
      AfterTicketsThrown(body.userId.value, body.projectKey.value, body.boardId, calls.config.value.value,
                         calls.tickets.value, calls, parse);
    }
  }

  /** From the names on, a thrown value is answered by the `catch` block. */
  lemma AfterTicketsThrown(userId: string, projectKey: string, boardId: Field<int>, config: JiraConfig,
                           tickets: seq<Ticket>, calls: GenerateCalls, parse: string -> Option<Names>)
    ensures var reply := AfterTickets(userId, projectKey, boardId, config, tickets, calls, parse).reply;
            && (calls.names.Threw? ==> reply == Fail(calls.names.thrown))
            && (calls.names.Done? && calls.formatting.Threw? ==> reply == Fail(calls.formatting.thrown))
            && (calls.names.Done? && calls.formatting.Done?
                && GenerateCall(calls.answer, calls.names.value, parse).Threw? ==>
                  reply == Fail(GenerateCall(calls.answer, calls.names.value, parse).thrown))
            && (calls.names.Done? && calls.formatting.Done?
                && GenerateCall(calls.answer, calls.names.value, parse).Done? && calls.saved.Threw? ==>
                  reply == Fail(calls.saved.thrown))
  {
    if calls.names.Done? && calls.formatting.Done? {
      var names, formatting := calls.names.value, calls.formatting.value;
      var boardName := BoardName(boardId, calls.boards);
      var g := Generating(userId, projectKey, boardName, tickets, names, calls, parse);
      assert AfterFormatting(userId, projectKey, boardId, config, tickets, names, formatting, calls, parse).reply
          == g.reply;
      GeneratingThrown(userId, projectKey, boardName, tickets, names, calls, parse);
    }
  }

  /** A throw from the model call or from the save is answered by the `catch` block. */
  lemma GeneratingThrown(userId: string, projectKey: string, boardName: Option<string>, tickets: seq<Ticket>,
                         names: Names, calls: GenerateCalls, parse: string -> Option<Names>)
    ensures var reply := Generating(userId, projectKey, boardName, tickets, names, calls, parse).reply;
            var g := GenerateCall(calls.answer, names, parse);
            && (g.Threw? ==> reply == Fail(g.thrown))
            && (g.Done? && calls.saved.Threw? ==> reply == Fail(calls.saved.thrown))
  {
  }
}
