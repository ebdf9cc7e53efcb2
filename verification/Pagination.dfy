/**
 `list_tasks` with offset tokens: filtered tasks in descending (timestamp, id) order, cut into pages.
 Following the tokens over an unchanged store shows every matching task once, in order.
 */
module Pagination {
  import opened Tasks

  // ----- The order -----

  /** Lexicographic order on ids. */
  predicate TextLess(a: string, b: string) {
    if b == "" then false
    else if a == "" then true
    else a[0] < b[0] || (a[0] == b[0] && TextLess(a[1..], b[1..]))
  }

  lemma {:induction false} TextLessTotal(a: string, b: string)
    ensures !(TextLess(a, b) && TextLess(b, a))
    ensures a == b || TextLess(a, b) || TextLess(b, a)
  {
    if a != "" && b != "" && a[0] == b[0] {
      TextLessTotal(a[1..], b[1..]);
      if a[1..] == b[1..] { assert a == [a[0]] + a[1..] && b == [b[0]] + b[1..]; }
    }
  }

  lemma {:induction false} TextLessTransitive(a: string, b: string, c: string)
    requires TextLess(a, b) && TextLess(b, c)
    ensures TextLess(a, c)
  {
    if a != "" && a[0] == b[0] == c[0] { TextLessTransitive(a[1..], b[1..], c[1..]); }
  }

  /** s is listed before t: newer first, then the larger id. */
  predicate Before(s: Task, t: Task) {
    s.status.timestamp > t.status.timestamp
    || (s.status.timestamp == t.status.timestamp && TextLess(t.id, s.id))
  }

  lemma BeforeTotal(s: Task, t: Task)
    ensures !(Before(s, t) && Before(t, s))
    ensures s.id != t.id ==> Before(s, t) || Before(t, s)
  {
    TextLessTotal(s.id, t.id);
  }

  lemma BeforeTransitive(s: Task, t: Task, u: Task)
    requires Before(s, t) && Before(t, u)
    ensures Before(s, u)
  {
    if s.status.timestamp == u.status.timestamp { TextLessTransitive(u.id, t.id, s.id); }
  }

  // ----- The filtered listing -----

  /** Empty text stands for a filter that is not given. */
  datatype Query = Query(contextId: string, tenant: string, status: Option<TaskState>, after: Option<nat>,
                         size: nat, token: string, view: View)

  /** How much of each listed task is shown: the newest messages only, and artifacts or none. */
  datatype View = View(historyLength: Option<nat>, includeArtifacts: bool)

  const TENANT_KEY := "_a2akit_tenant"

  /** The listing's loop passes over a task for one of these reasons. */
  ghost predicate PassedOver(q: Query, t: Task) {
    || (q.contextId != "" && t.contextId != q.contextId)
    || (q.status.Some? && t.status.state != q.status.value)
    || (q.tenant != "" && !(TENANT_KEY in t.metadata && t.metadata[TENANT_KEY] == q.tenant))
    || (q.after.Some? && t.status.timestamp <= q.after.value)
  }

  predicate Matches(q: Query, t: Task)
    ensures Matches(q, t) <==> !PassedOver(q, t)
  {
    && (q.contextId != "" ==> t.contextId == q.contextId)
    && (q.status.Some? ==> t.status.state == q.status.value)
    && (q.tenant != "" ==> TENANT_KEY in t.metadata && t.metadata[TENANT_KEY] == q.tenant)
    && (q.after.Some? ==> t.status.timestamp > q.after.value)
  }

  ghost predicate Descending(s: seq<Task>) {
    forall i, j :: 0 <= i < j < |s| ==> Before(s[i], s[j])
  }

  /** s is exactly the matching tasks of the store, once each, in listing order. */
  ghost predicate Lists(tasks: map<string, Task>, q: Query, s: seq<Task>) {
    && Descending(s)
    && (forall t :: t in s ==> t.id in tasks && tasks[t.id] == t && Matches(q, t))
    && (forall id :: id in tasks && Matches(q, tasks[id]) ==> tasks[id] in s)
  }

  ghost predicate Keyed(tasks: map<string, Task>) {
    forall id :: id in tasks ==> tasks[id].id == id
  }

  lemma FirstOfDescending(s: seq<Task>, t: Task)
    requires Descending(s) && t in s && t != s[0]
    ensures Before(s[0], t)
  {
  }

  /** A store has one listing, whatever order its dictionary or table is scanned in. */
  lemma {:induction false} ListingUnique(a: seq<Task>, b: seq<Task>)
    requires Descending(a) && Descending(b)
    requires forall t :: t in a <==> t in b
    ensures a == b
    decreases |a|
  {
    if a == [] {
      assert multiset(b) == multiset{} by { assert forall t :: t in multiset(b) ==> t in a; }
      assert |multiset(b)| == |b|;
    } else {
      assert a[0] in b && b[0] in a;
      if a[0] != b[0] {
        FirstOfDescending(a, b[0]);
        FirstOfDescending(b, a[0]);
        BeforeTotal(a[0], b[0]);
      }
      BeforeTotal(a[0], a[0]);
      forall t ensures t in a[1..] <==> t in b[1..] {
        assert t in a <==> t == a[0] || t in a[1..];
        assert t in b <==> t == b[0] || t in b[1..];
        assert a[0] !in a[1..] && b[0] !in b[1..];
      }
      ListingUnique(a[1..], b[1..]);
    }
  }

  /** The largest of a set of ids in listing order. */
  method FirstListed(tasks: map<string, Task>, ids: set<string>) returns (first: string)
    requires Keyed(tasks) && ids <= tasks.Keys && ids != {}
    ensures first in ids && forall id :: id in ids && id != first ==> Before(tasks[first], tasks[id])
  {
    first :| first in ids;
    var rest := ids - {first};
    while rest != {}
      invariant rest <= ids && first in ids && first !in rest
      invariant forall id :: id in ids - rest && id != first ==> Before(tasks[first], tasks[id])
      decreases |rest|
    {
      var id :| id in rest;
      BeforeTotal(tasks[first], tasks[id]);
      if Before(tasks[id], tasks[first]) {
        forall other | other in ids - rest && other != first ensures Before(tasks[id], tasks[other]) {
          BeforeTransitive(tasks[id], tasks[first], tasks[other]);
        }
        first := id;
      }
      rest := rest - {id};
    }
  }

  /** All tasks, newest first. */
  method SortTasks(tasks: map<string, Task>) returns (s: seq<Task>)
    requires Keyed(tasks)
    ensures Descending(s)
    ensures forall t :: t in s <==> t.id in tasks && tasks[t.id] == t
  {
    s := [];
    var rest := tasks.Keys;
    while rest != {}
      invariant rest <= tasks.Keys && Descending(s)
      invariant forall t :: t in s ==> t.id in tasks && tasks[t.id] == t && t.id !in rest
      invariant forall id :: id in tasks && id !in rest ==> tasks[id] in s
      invariant forall t, id :: t in s && id in rest ==> Before(t, tasks[id])
      decreases |rest|
    {
      var id := FirstListed(tasks, rest);
      s := s + [tasks[id]];
      rest := rest - {id};
    }
  }

  // ----- Tokens -----

  function Digit(d: nat): char
    requires d < 10
  {
    '0' + d as char
  }

  function Decimal(n: nat): (s: string)
    ensures s != ""
  {
    if n < 10 then [Digit(n)] else Decimal(n / 10) + [Digit(n % 10)]
  }

  /** `str(n)`. */
  function Render(n: int): (s: string)
    ensures s != ""
  {
    if n < 0 then "-" + Decimal(-n) else Decimal(n)
  }

  predicate IsDigit(c: char) { '0' <= c <= '9' }

  predicate AllDigits(s: string) {
    forall i :: 0 <= i < |s| ==> IsDigit(s[i])
  }

  function Value(s: string): nat
    requires AllDigits(s)
  {
    if s == "" then 0 else 10 * Value(s[..|s| - 1]) + (s[|s| - 1] - '0') as nat
  }

  /** `int(token)`, 0 when there is no token or it is not a number. */
  function Offset(token: string): int {
    if token != "" && token[0] == '-' && AllDigits(token[1..]) then 0 - Value(token[1..])
    else if AllDigits(token) then Value(token)
    else 0
  }

  lemma {:induction false} DecimalRoundTrip(n: nat)
    ensures AllDigits(Decimal(n)) && Value(Decimal(n)) == n
    decreases n
  {
    if n < 10 {
      var s := [Digit(n)];
      assert s[..0] == "" && (s[0] - '0') as nat == n;
      assert Value(s) == 10 * Value(s[..0]) + n;
    } else {
      DecimalRoundTrip(n / 10);
      var s := Decimal(n);
      assert s[..|s| - 1] == Decimal(n / 10);
      assert s[|s| - 1] == Digit(n % 10);
    }
  }

  lemma TokenRoundTrip(n: int)
    ensures Offset(Render(n)) == n
  {
    if n < 0 {
      DecimalRoundTrip(-n);
      assert Render(n)[1..] == Decimal(-n);
    } else {
      DecimalRoundTrip(n);
      assert IsDigit(Decimal(n)[0]);
    }
  }

  // ----- Pages -----

  datatype Page = Page(tasks: seq<Task>, next: string, total: nat)

  /** A slice bound as Python reads it: clipped, a negative one counted from the end. */
  function Bound(i: int, length: nat): (r: nat)
    ensures r <= length
  {
    if i < 0 then if i + length < 0 then 0 else i + length
    else if i < length then i else length
  }

  /** `s[i:j]`, empty when the bounds cross. */
  function Slice(s: seq<Task>, i: int, j: int): seq<Task> {
    var lo, hi := Bound(i, |s|), Bound(j, |s|);
    if lo <= hi then s[lo..hi] else []
  }

  /** `_trim_history`: the last messages; none for 0, all when no length is given. */
  function Trim(history: seq<Message>, length: Option<nat>): (r: seq<Message>)
    ensures length.None? ==> r == history
    ensures length.Some? ==> |r| == (if |history| < length.value then |history| else length.value)
    ensures r == history[|history| - |r|..]
  {
    if length.None? then history
    else if length.value == 0 then []
    else if length.value < |history| then history[|history| - length.value..] else history
  }

  function Show(v: View, t: Task): Task {
    t.(history := Trim(t.history, v.historyLength), artifacts := if v.includeArtifacts then t.artifacts else [])
  }

  function ShowAll(v: View, s: seq<Task>): (r: seq<Task>)
    ensures |r| == |s| && forall i :: 0 <= i < |s| ==> r[i] == Show(v, s[i])
  {
    if s == [] then [] else ShowAll(v, s[..|s| - 1]) + [Show(v, s[|s| - 1])]
  }

  /** One page of a listing: a slice, and a token while something is left. */
  function PageAt(listing: seq<Task>, offset: int, size: nat): Page {
    Page(Slice(listing, offset, offset + size),
         if offset + size < |listing| then Render(offset + size) else "",
         |listing|)
  }

  /** The page at a query's own token, as it is shown. */
  function PageOf(listing: seq<Task>, q: Query): Page { PageAt(ShowAll(q.view, listing), Offset(q.token), q.size) }

  /** The page is cut from a listing of the matching tasks. */
  ghost predicate Answers(tasks: map<string, Task>, q: Query, page: Page) {
    exists listing :: Lists(tasks, q, listing) && page == PageOf(listing, q)
  }

  /** The filter loop: keeps the order. */
  method Filter(all: seq<Task>, q: Query) returns (filtered: seq<Task>)
    requires Descending(all)
    ensures Descending(filtered)
    ensures forall t :: t in filtered <==> t in all && Matches(q, t)
  {
    filtered := [];
    for n := 0 to |all|
      invariant Descending(filtered)
      invariant forall t :: t in filtered <==> t in all[..n] && Matches(q, t)
    {
      assert all[..n + 1] == all[..n] + [all[n]];
      if Matches(q, all[n]) {
        forall i | 0 <= i < |filtered| ensures Before(filtered[i], all[n]) {
          assert filtered[i] in all[..n];
        }
        filtered := filtered + [all[n]];
      }
    }
    assert all[..|all|] == all;
  }

  /** The loop over the page: what is shown of each task. */
  method ShowPage(v: View, slice: seq<Task>) returns (results: seq<Task>)
    ensures results == ShowAll(v, slice)
  {
    results := [];
    for n := 0 to |slice|
      invariant results == ShowAll(v, slice[..n])
    {
      assert slice[..n + 1][..n] == slice[..n];
      results := results + [Show(v, slice[n])];
    }
    assert slice[..|slice|] == slice;
  }

  /** Showing a slice is slicing what is shown. */
  lemma ShowSlice(v: View, s: seq<Task>, i: int, j: int)
    ensures ShowAll(v, Slice(s, i, j)) == Slice(ShowAll(v, s), i, j)
  {
  }

  /** Sort, filter, cut and show. */
  method ListTasks(tasks: map<string, Task>, q: Query) returns (page: Page)
    requires Keyed(tasks) && 1 <= q.size <= 100
    ensures Answers(tasks, q, page)
  {
    var all := SortTasks(tasks);
    var filtered := Filter(all, q);
    assert Lists(tasks, q, filtered);
    var offset := Offset(q.token);
    var next := offset + q.size;
    var results := ShowPage(q.view, Slice(filtered, offset, next));
    ShowSlice(q.view, filtered, offset, next);
    page := Page(results, if next < |filtered| then Render(next) else "", |filtered|);
    assert page == PageOf(filtered, q);
  }

  /** The pages a client sees that follows the tokens, starting with the given one. */
  function Follow(listing: seq<Task>, size: nat, token: string): seq<Page>
    requires size > 0
    decreases |listing| - Offset(token)
  {
    var page := PageAt(listing, Offset(token), size);
    if page.next == "" then [page]
    else
      TokenRoundTrip(Offset(token) + size);
      [page] + Follow(listing, size, page.next)
  }

  function Concat(pages: seq<Page>): seq<Task> {
    if pages == [] then [] else pages[0].tasks + Concat(pages[1..])
  }

  /** The token on a page leads to the offset behind it. */
  lemma NextOffset(listing: seq<Task>, size: nat, token: string)
    ensures var page := PageAt(listing, Offset(token), size);
            page.next != "" ==> Offset(page.next) == Offset(token) + size < |listing|
  {
    TokenRoundTrip(Offset(token) + size);
  }

  lemma ConcatCons(page: Page, rest: seq<Page>)
    ensures Concat([page] + rest) == page.tasks + Concat(rest)
  {
    assert ([page] + rest)[1..] == rest;
  }

  /** A page is the stretch of the listing up to the next offset. */
  lemma PageIsStretch(listing: seq<Task>, offset: int, size: nat)
    requires 0 <= offset <= |listing|
    ensures var page := PageAt(listing, offset, size);
            && (page.next == "" ==> page.tasks == listing[offset..])
            && (page.next != "" ==> offset + size < |listing| && page.tasks + listing[offset + size..] == listing[offset..])
  {
  }

  lemma {:induction false} FollowFrom(listing: seq<Task>, size: nat, token: string)
    requires size > 0 && 0 <= Offset(token) <= |listing|
    ensures Concat(Follow(listing, size, token)) == listing[Offset(token)..]
    decreases |listing| - Offset(token)
  {
    var page := PageAt(listing, Offset(token), size);
    NextOffset(listing, size, token);
    PageIsStretch(listing, Offset(token), size);
    if page.next == "" {
      ConcatCons(page, []);
      assert [page] + [] == [page];
    } else {
      FollowFrom(listing, size, page.next);
      ConcatCons(page, Follow(listing, size, page.next));
    }
  }

  lemma {:induction false} FollowTotals(listing: seq<Task>, size: nat, token: string)
    requires size > 0
    ensures forall p :: p in Follow(listing, size, token) ==> p.total == |listing| && |p.tasks| <= size
    decreases |listing| - Offset(token)
  {
    var page := PageAt(listing, Offset(token), size);
    NextOffset(listing, size, token);
    if page.next != "" { FollowTotals(listing, size, page.next); }
  }

  /** The answers a client collects on an unchanged store, repeating the query with each next token until
      there is none. */
  ghost predicate Walk(tasks: map<string, Task>, q: Query, pages: seq<Page>)
    decreases |pages|
  {
    && pages != [] && Answers(tasks, q, pages[0])
    && if pages[0].next == "" then |pages| == 1 else Walk(tasks, q.(token := pages[0].next), pages[1..])
  }

  lemma OneListing(tasks: map<string, Task>, q: Query, a: seq<Task>, token: string, b: seq<Task>)
    requires Lists(tasks, q, a) && Lists(tasks, q.(token := token), b)
    ensures a == b
  {
    ListingUnique(a, b);
  }

  lemma AnswerIsPage(tasks: map<string, Task>, q: Query, listing: seq<Task>, page: Page)
    requires Lists(tasks, q, listing)
    ensures Answers(tasks, q, page) <==> page == PageOf(listing, q)
  {
    if Answers(tasks, q, page) {
      var other :| Lists(tasks, q, other) && page == PageOf(other, q);
      OneListing(tasks, q, listing, q.token, other);
    }
  }

  lemma FollowHead(shown: seq<Task>, size: nat, token: string)
    requires size > 0
    ensures var page, all := PageAt(shown, Offset(token), size), Follow(shown, size, token);
            && all != [] && all[0] == page
            && (page.next == "" ==> all == [page])
            && (page.next != "" ==> all[1..] == Follow(shown, size, page.next) && Offset(page.next) == Offset(token) + size < |shown|)
  {
    NextOffset(shown, size, token);
  }

  lemma SameListing(tasks: map<string, Task>, q: Query, token: string, listing: seq<Task>)
    requires Lists(tasks, q, listing)
    ensures Lists(tasks, q.(token := token), listing)
  {
  }

  /** A walk has no freedom: it is the one that cuts the one listing, as shown, from the first offset on. */
  lemma {:induction false} WalkIsFollow(tasks: map<string, Task>, q: Query, listing: seq<Task>, pages: seq<Page>)
    requires q.size > 0 && Lists(tasks, q, listing)
    ensures Walk(tasks, q, pages) <==> pages == Follow(ShowAll(q.view, listing), q.size, q.token)
    decreases |listing| - Offset(q.token)
  {
    var shown := ShowAll(q.view, listing);
    var page := PageOf(listing, q);
    FollowHead(shown, q.size, q.token);
    if pages != [] {
      AnswerIsPage(tasks, q, listing, pages[0]);
      assert pages == [pages[0]] + pages[1..];
      if pages[0] == page && page.next != "" {
        SameListing(tasks, q, page.next, listing);
        WalkIsFollow(tasks, q.(token := page.next), listing, pages[1..]);
      }
    }
  }

  /** What a client is shown of a task: its artifacts or none, the newest messages of its history, all else as stored. */
  ghost predicate Shown(v: View, t: Task, p: Task) {
    && p == t.(history := p.history, artifacts := p.artifacts)
    && (v.includeArtifacts ==> p.artifacts == t.artifacts)
    && (!v.includeArtifacts ==> p.artifacts == [])
    && |p.history| <= |t.history| && p.history == t.history[|t.history| - |p.history|..]
    && (v.historyLength.None? ==> |p.history| == |t.history|)
    && (v.historyLength.Some? ==> |p.history| <= v.historyLength.value
                                  && (|p.history| < v.historyLength.value ==> |p.history| == |t.history|))
  }

  lemma ShowShows(v: View, t: Task)
    ensures Shown(v, t, Show(v, t))
  {
  }

  lemma SliceHas(s: seq<Task>, i: int, j: int, k: nat) returns (t: Task)
    requires k < |Slice(s, i, j)|
    ensures t in s && Slice(s, i, j)[k] == t
  {
    t := Slice(s, i, j)[k];
  }

  /** Every task on a page is a matching task of the store, shown as asked. */
  lemma {:induction false} PageShows(tasks: map<string, Task>, q: Query, page: Page, k: nat)
    requires Answers(tasks, q, page) && k < |page.tasks|
    ensures var p := page.tasks[k];
            && p.id in tasks && Matches(q, tasks[p.id]) && Shown(q.view, tasks[p.id], p)
  {
    var listing :| Lists(tasks, q, listing) && page == PageOf(listing, q);
    var lo := Offset(q.token);
    ShowSlice(q.view, listing, lo, lo + q.size);
    var t := SliceHas(listing, lo, lo + q.size, k);
    ShowShows(q.view, t);
  }

  /** A token that is no number starts over: its page is the first one. */
  lemma MalformedStartsOver(listing: seq<Task>, q: Query, k: nat)
    requires k < |q.token| && !IsDigit(q.token[k]) && (k > 0 || q.token[k] != '-')
    ensures PageOf(listing, q) == PageOf(listing, q.(token := ""))
  {
    assert k > 0 ==> q.token[1..][k - 1] == q.token[k];
  }

  /** Pages are full but for the last, which has at least one task unless there is none at all. */
  lemma {:induction false} PagesFull(listing: seq<Task>, size: nat, token: string, k: nat)
    requires size > 0 && 0 <= Offset(token) && (Offset(token) < |listing| || Offset(token) == 0)
    requires k < |Follow(listing, size, token)|
    ensures var all := Follow(listing, size, token);
            && (k < |all| - 1 ==> |all[k].tasks| == size)
            && (k == |all| - 1 && listing != [] ==> 0 < |all[k].tasks| <= size)
    decreases |listing| - Offset(token)
  {
    FollowHead(listing, size, token);
    var page := PageAt(listing, Offset(token), size);
    if k > 0 { PagesFull(listing, size, page.next, k - 1); }
  }

  /** Over an unchanged store, the pages of a complete walk from the start concatenate to the matching tasks as
      shown, once each, in order; every page reports their number; and a complete walk exists. */
  lemma WalkListsEverything(tasks: map<string, Task>, q: Query, listing: seq<Task>)
    requires q.size > 0 && q.token == "" && Lists(tasks, q, listing)
    ensures exists pages :: Walk(tasks, q, pages)
    ensures forall pages :: Walk(tasks, q, pages) ==>
              && Concat(pages) == ShowAll(q.view, listing)
              && forall p: Page :: p in pages ==> p.total == |listing| && |p.tasks| <= q.size
  {
    var shown := ShowAll(q.view, listing);
    var all := Follow(shown, q.size, "");
    WalkIsFollow(tasks, q, listing, all);
    FollowFrom(shown, q.size, "");
    FollowTotals(shown, q.size, "");
    forall pages | Walk(tasks, q, pages) ensures pages == all { WalkIsFollow(tasks, q, listing, pages); }
  }
}
