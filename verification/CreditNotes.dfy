/**
 Credit notes against an invoice: the notes already there are summed, the sum checked against the total, and the note
 written with a compare-and-set of the invoice's credited_total (repositories/creditnotes.go, domain/billing/creditnote.go).
 A note's number is the place of its id in key order.
 */
module CreditNotes {
  import opened Installments
  import opened Sums

  /** How many notes one listing returns. */
  const PAGE := 100

  type NoteId = nat

  datatype Status = Draft | Open | Paid | Uncollectible | Void

  /** credited is absent on rows older than the attribute. */
  datatype Store = Store(status: Status, total: Cents, credited: Option<Cents>, notes: map<NoteId, Cents>)

  datatype Error = Invalid | Exists | Concurrent

  datatype Outcome = Committed(store: Store) | Refused(error: Error)

  predicate Creditable(status: Status) { status == Open || status == Paid || status == Uncollectible }

  /** The first notes in key order, a page of them. */
  predicate IsPage(page: set<NoteId>, notes: map<NoteId, Cents>) {
    && page <= notes.Keys && |page| == (if |notes| <= PAGE then |notes| else PAGE)
    && forall x, y :: x in page && y in notes && y !in page ==> x < y
  }

  function In(page: set<NoteId>): NoteId -> bool { (k: NoteId) => k in page }

  function All(): NoteId -> bool { (k: NoteId) => true }

  ghost function NotesSum(notes: map<NoteId, Cents>): Cents { SumWhere(notes, All()) }

  /** Issues a note on the status and the sum read. */
  function Issued(s: Store, status: Status, before: Cents, id: NoteId, amount: Cents): Outcome {
    if amount <= 0 || !Creditable(status) || before < 0 || before + amount > s.total then Refused(Invalid)
    else if id in s.notes then Refused(Exists)
    else if s.status != status || (s.credited.Some? && s.credited.value != before) then Refused(Concurrent)
    else Committed(s.(credited := Some(before + amount), notes := s.notes[id := amount]))
  }

  // ---- runs ----

  /** A note issued on the status read at one point and the notes listed at another, or the invoice changing status. */
  datatype Step =
    | Issuing(statusAt: nat, notesAt: nat, page: set<NoteId>, id: NoteId, amount: Cents)
    | Moving(status: Status)

  ghost predicate Follows(tr: seq<Store>, steps: seq<Step>, k: nat)
    requires |tr| == |steps| + 1 && k < |steps|
  {
    match steps[k]
    case Moving(status) => tr[k + 1] == tr[k].(status := status)
    case Issuing(a, b, page, id, amount) =>
      && a <= k && b <= k && IsPage(page, tr[b].notes)
      && Issued(tr[k], tr[a].status, SumWhere(tr[b].notes, In(page)), id, amount) == Committed(tr[k + 1])
  }

  ghost predicate Positive(notes: map<NoteId, Cents>) { forall k :: k in notes ==> notes[k] > 0 }

  /** The notes sum to what the row says was credited, and never pass the total. */
  ghost predicate Inv(s: Store) {
    Positive(s.notes) && NotesSum(s.notes) <= s.total && (s.credited.Some? ==> s.credited.value == NotesSum(s.notes))
  }

  /** An invoice as the notes found it: old rows have no credited_total and may already have notes. */
  ghost predicate Run(tr: seq<Store>, steps: seq<Step>) {
    && |tr| == |steps| + 1 && Inv(tr[0])
    && forall k {:trigger Follows(tr, steps, k)} :: 0 <= k < |steps| ==> Follows(tr, steps, k)
  }

  /** Notes are only added, and every added one sets credited_total. */
  ghost predicate Later(a: Store, b: Store) {
    && a.total == b.total
    && (forall k :: k in a.notes ==> k in b.notes && a.notes[k] == b.notes[k])
    && (a.credited.Some? ==> b.credited.Some?)
    && (b.credited.None? ==> a.notes == b.notes)
  }

  lemma {:induction false} RunLater(tr: seq<Store>, steps: seq<Step>, i: nat, j: nat)
    requires Run(tr, steps) && i <= j < |tr|
    ensures Later(tr[i], tr[j])
    decreases j
  {
    if i < j {
      RunLater(tr, steps, i, j - 1);
      assert Follows(tr, steps, j - 1);
    }
  }

  // ---- sums ----

  lemma {:induction false} SumPositive(notes: map<NoteId, Cents>, p: NoteId -> bool)
    requires Positive(notes)
    ensures SumWhere(notes, p) >= 0
    decreases |notes|
  {
    if |notes| > 0 {
      SumPositive(notes - {Pick(notes)}, p);
    }
  }

  /** A set of positive notes sums to no more than all of a larger table, and to as much only if it is all of it. */
  lemma SubsetSum(a: map<NoteId, Cents>, b: map<NoteId, Cents>, page: set<NoteId>)
    requires Positive(b) && page <= a.Keys && forall k :: k in a ==> k in b && a[k] == b[k]
    ensures SumWhere(a, In(page)) <= NotesSum(b)
    ensures SumWhere(a, In(page)) == NotesSum(b) <==> page == b.Keys
  {
    SumSame(a, b, In(page));
    var rest := (k: NoteId) => k !in page;
    SumSplit(b, All(), In(page), rest);
    SumPositive(b, rest);
    if page == b.Keys {
      SumNone(b, rest);
    } else {
      assert !(b.Keys <= page);
      var k :| k in b && k !in page;
      SumOver(b, rest, k);
    }
  }

  lemma SumOver(notes: map<NoteId, Cents>, p: NoteId -> bool, k: NoteId)
    requires Positive(notes) && k in notes && p(k)
    ensures SumWhere(notes, p) > 0
  {
    SumTake(notes, p, k);
    SumPositive(notes - {k}, p);
  }

  lemma OneMore(notes: map<NoteId, Cents>, seen: set<NoteId>, k: NoteId)
    requires k in notes && k !in seen
    ensures SumWhere(notes, In(seen + {k})) == SumWhere(notes, In(seen)) + notes[k]
  {
    SumTake(notes, In(seen + {k}), k);
    SumTake(notes, In(seen), k);
    SumAgree(notes - {k}, In(seen + {k}), In(seen));
  }

  lemma NoteAdded(s: Store, id: NoteId, amount: Cents)
    requires id !in s.notes
    ensures NotesSum(s.notes[id := amount]) == NotesSum(s.notes) + amount
  {
    SumAdd(s.notes, All(), id, amount);
  }

  // ---- what holds at every point ----

  lemma SizeOf(page: set<NoteId>, notes: map<NoteId, Cents>)
    requires page <= notes.Keys
    ensures |page| <= |notes| && (|page| == |notes| ==> page == notes.Keys)
  {
    SubsetSize(page, notes.Keys);
  }

  lemma {:induction false} SubsetSize(a: set<NoteId>, b: set<NoteId>)
    requires a <= b
    ensures |a| <= |b| && (|a| == |b| ==> a == b)
  {
    if a != {} {
      var x :| x in a;
      SubsetSize(a - {x}, b - {x});
    }
  }

  /** The sum a committed note acted on was the whole sum at the commit. */
  lemma ActedOnTheWhole(s: Store, t: Store, read: map<NoteId, Cents>, page: set<NoteId>, status: Status, id: NoteId, amount: Cents)
    requires Inv(s) && IsPage(page, read) && (forall k :: k in read ==> k in s.notes && read[k] == s.notes[k])
    requires s.credited.None? ==> read == s.notes && |read| <= PAGE
    requires Issued(s, status, SumWhere(read, In(page)), id, amount) == Committed(t)
    ensures page == s.notes.Keys && SumWhere(read, In(page)) == NotesSum(s.notes) && Inv(t)
  {
    SubsetSum(read, s.notes, page);
    SizeOf(page, read);
    NoteAdded(s, id, amount);
  }

  /** The start has its credited_total, or all its notes on one page. */
  ghost predicate Countable(s: Store) { s.credited.Some? || |s.notes| <= PAGE }

  /** In every interleaving the notes sum to credited_total and never exceed the invoice, old rows included. */
  lemma {:induction false} CreditsNeverPass(tr: seq<Store>, steps: seq<Step>, k: nat)
    requires Run(tr, steps) && Countable(tr[0]) && k < |tr|
    ensures Inv(tr[k])
    decreases k
  {
    if k > 0 {
      CreditsNeverPass(tr, steps, k - 1);
      assert Follows(tr, steps, k - 1);
      if steps[k - 1].Issuing? {
        IssueKeeps(tr, steps, k - 1);
      }
    }
  }

  lemma IssueKeeps(tr: seq<Store>, steps: seq<Step>, k: nat)
    requires Run(tr, steps) && Countable(tr[0]) && k < |steps| && Inv(tr[k]) && steps[k].Issuing?
    ensures Inv(tr[k + 1]) && steps[k].page == tr[k].notes.Keys && |steps[k].page| <= PAGE
  {
    assert Follows(tr, steps, k);
    var st := steps[k];
    RunLater(tr, steps, st.notesAt, k);
    RunLater(tr, steps, 0, k);
    ActedOnTheWhole(tr[k], tr[k + 1], tr[st.notesAt].notes, st.page, tr[st.statusAt].status, st.id, st.amount);
  }

  /** Of notes issued on one listing at most one commits. */
  lemma OneNotePerListing(tr: seq<Store>, steps: seq<Step>, j: nat, k: nat)
    requires Run(tr, steps) && Countable(tr[0]) && j < k < |steps| && steps[j].Issuing? && steps[k].Issuing?
    ensures steps[j].page != steps[k].page
  {
    CreditsNeverPass(tr, steps, j);
    CreditsNeverPass(tr, steps, k);
    assert Follows(tr, steps, j) && Follows(tr, steps, k);
    Whole(tr, steps, j);
    Whole(tr, steps, k);
    RunLater(tr, steps, j + 1, k);
  }

  lemma Whole(tr: seq<Store>, steps: seq<Step>, k: nat)
    requires Run(tr, steps) && Countable(tr[0]) && k < |steps| && steps[k].Issuing?
    ensures steps[k].page == tr[k].notes.Keys && |steps[k].page| <= PAGE
  {
    CreditsNeverPass(tr, steps, k);
    IssueKeeps(tr, steps, k);
  }

  /** Only an invoice whose notes fit one page is credited: past it every further note is refused. */
  lemma PastAPageNoneCommits(tr: seq<Store>, steps: seq<Step>, k: nat)
    requires Run(tr, steps) && Countable(tr[0]) && k < |steps|
    ensures steps[k].Issuing? ==> |tr[k].notes| <= PAGE
  {
    if steps[k].Issuing? {
      Whole(tr, steps, k);
      assert |tr[k].notes| == |tr[k].notes.Keys|;
    }
  }

  predicate Fits(s: Store, id: NoteId, amount: Cents, sum: Cents) {
    Creditable(s.status) && id !in s.notes && 0 < amount <= s.total - sum
  }

  /** On current reads, with the notes on one page, a note commits if and only if the invoice is live and what is left covers it. */
  lemma IssueCommitsIff(s: Store, page: set<NoteId>, id: NoteId, amount: Cents)
    requires Inv(s) && |s.notes| <= PAGE && IsPage(page, s.notes)
    ensures Issued(s, s.status, SumWhere(s.notes, In(page)), id, amount).Committed? <==> Fits(s, id, amount, NotesSum(s.notes))
  {
    WholePage(page, s.notes);
    SubsetSum(s.notes, s.notes, page);
    SumPositive(s.notes, In(page));
  }

  /** Whatever was read when, a note that commits goes on an invoice that is open, paid or uncollectible, adds itself alone, and is covered. */
  lemma NotesOnLiveInvoices(tr: seq<Store>, steps: seq<Step>, k: nat)
    requires Run(tr, steps) && Countable(tr[0]) && k < |steps| && steps[k].Issuing?
    ensures var s, t, st := tr[k], tr[k + 1], steps[k];
            && Fits(s, st.id, st.amount, NotesSum(s.notes)) && t.notes == s.notes[st.id := st.amount]
            && t.status == s.status && t.total == s.total && t.credited == Some(NotesSum(s.notes) + st.amount)
  {
    var sum, status := IssuedOnSum(tr, steps, k);
    IssuedFits(tr[k], tr[k + 1], status, sum, steps[k].id, steps[k].amount);
  }

  /** A committed note is one issued on the whole sum. */
  lemma IssuedOnSum(tr: seq<Store>, steps: seq<Step>, k: nat) returns (sum: Cents, status: Status)
    requires Run(tr, steps) && Countable(tr[0]) && k < |steps| && steps[k].Issuing?
    ensures sum == NotesSum(tr[k].notes) && Issued(tr[k], status, sum, steps[k].id, steps[k].amount) == Committed(tr[k + 1])
  {
    var st := steps[k];
    assert Follows(tr, steps, k);
    sum, status := SumWhere(tr[st.notesAt].notes, In(st.page)), tr[st.statusAt].status;
    CreditsNeverPass(tr, steps, k);
    RunLater(tr, steps, st.notesAt, k);
    RunLater(tr, steps, 0, k);
    ActedOnTheWhole(tr[k], tr[k + 1], tr[st.notesAt].notes, st.page, status, st.id, st.amount);
  }

  lemma IssuedFits(s: Store, t: Store, status: Status, sum: Cents, id: NoteId, amount: Cents)
    requires Issued(s, status, sum, id, amount) == Committed(t)
    ensures Fits(s, id, amount, sum) && t.notes == s.notes[id := amount]
    ensures t.status == s.status && t.total == s.total && t.credited == Some(sum + amount)
  {
  }

  /**
   A row without credited_total, credited on what its listing shows: the new credited_total is the sum of the notes if and
   only if they all fit the page.
   */
  lemma OldRowRightIff(s: Store, page: set<NoteId>, id: NoteId, amount: Cents)
    requires Positive(s.notes) && s.credited.None? && IsPage(page, s.notes)
    requires Issued(s, s.status, SumWhere(s.notes, In(page)), id, amount).Committed?
    ensures var t := Issued(s, s.status, SumWhere(s.notes, In(page)), id, amount).store;
            t.credited == Some(NotesSum(t.notes)) <==> |s.notes| <= PAGE
  {
    SubsetSum(s.notes, s.notes, page);
    WholePage(page, s.notes);
    NoteAdded(s, id, amount);
  }

  lemma WholePage(page: set<NoteId>, notes: map<NoteId, Cents>)
    requires IsPage(page, notes)
    ensures page == notes.Keys <==> |notes| <= PAGE
  {
    SizeOf(page, notes);
    assert |notes| == |notes.Keys|;
  }

  /** With more, a note for all that the page leaves always commits, and the notes pass the invoice. */
  lemma OldRowPasses(s: Store, page: set<NoteId>, id: NoteId)
    requires Inv(s) && s.credited.None? && Creditable(s.status) && IsPage(page, s.notes) && |s.notes| > PAGE && id !in s.notes
    ensures var before := SumWhere(s.notes, In(page));
            var r := Issued(s, s.status, before, id, s.total - before);
            r.Committed? && NotesSum(r.store.notes) > r.store.total
  {
    SubsetSum(s.notes, s.notes, page);
    SumPositive(s.notes, In(page));
    assert |s.notes| == |s.notes.Keys|;
    NoteAdded(s, id, s.total - SumWhere(s.notes, In(page)));
  }

  lemma PageOf(notes: map<NoteId, Cents>, taken: set<NoteId>, rest: set<NoteId>)
    requires taken + rest == notes.Keys && taken !! rest && |taken| <= PAGE && (rest == {} || |taken| == PAGE)
    requires forall x, y :: x in taken && y in rest ==> x < y
    ensures IsPage(taken, notes)
  {
    assert |notes| == |notes.Keys| && |taken + rest| == |taken| + |rest|;
    if rest == {} {
      assert taken == notes.Keys;
    }
  }

  // ---- as performed ----

  ghost function Ids(list: seq<NoteId>): set<NoteId> { set k | k in list }

  predicate Ascending(list: seq<NoteId>) { forall i, j :: 0 <= i < j < |list| ==> list[i] < list[j] }

  lemma IdsSnoc(list: seq<NoteId>, k: NoteId)
    ensures Ids(list + [k]) == Ids(list) + {k}
  {
  }

  /** list is the notes before rest, in order. */
  ghost predicate Listing(list: seq<NoteId>, rest: set<NoteId>, ids: set<NoteId>) {
    Ids(list) + rest == ids && Ids(list) !! rest && |Ids(list)| == |list| && Ascending(list) && AllBefore(Ids(list), rest)
  }

  ghost predicate AllBefore(a: set<NoteId>, b: set<NoteId>) { forall x, y :: x in a && y in b ==> x < y }

  lemma ListNext(list: seq<NoteId>, rest: set<NoteId>, ids: set<NoteId>, k: NoteId)
    requires Listing(list, rest, ids) && k in rest && forall j :: j in rest ==> k <= j
    ensures Listing(list + [k], rest - {k}, ids)
  {
    IdsSnoc(list, k);
    SetsNext(Ids(list), rest, ids, k);
    AscendingSnoc(list, k);
  }

  lemma SetsNext(taken: set<NoteId>, rest: set<NoteId>, ids: set<NoteId>, k: NoteId)
    requires taken + rest == ids && taken !! rest && AllBefore(taken, rest) && k in rest && forall j :: j in rest ==> k <= j
    ensures (taken + {k}) + (rest - {k}) == ids && (taken + {k}) !! (rest - {k})
    ensures |taken + {k}| == |taken| + 1 && AllBefore(taken + {k}, rest - {k})
    ensures forall x :: x in taken ==> x < k
  {
    assert k !in taken;
  }

  lemma AscendingSnoc(list: seq<NoteId>, k: NoteId)
    requires Ascending(list) && forall x :: x in Ids(list) ==> x < k
    ensures Ascending(list + [k])
  {
    assert forall i :: 0 <= i < |list| ==> list[i] in Ids(list);
  }

  /** One page of notes, oldest first. */
  method ListNotes(notes: map<NoteId, Cents>) returns (list: seq<NoteId>)
    ensures Ascending(list) && IsPage(Ids(list), notes)
  {
    list := [];
    var rest := notes.Keys;
    while rest != {} && |list| < PAGE
      invariant Listing(list, rest, notes.Keys) && |list| <= PAGE
      decreases rest
    {
      var k := Least(rest);
      ListNext(list, rest, notes.Keys, k);
      list := list + [k];
      rest := rest - {k};
    }
    PageOf(notes, Ids(list), rest);
  }

  method Least(ids: set<NoteId>) returns (k: NoteId)
    requires ids != {}
    ensures k in ids && forall j :: j in ids ==> k <= j
  {
    k :| k in ids;
    var rest := ids - {k};
    while rest != {}
      invariant rest <= ids && k in ids && k !in rest
      invariant forall j :: j in ids && j !in rest ==> k <= j
      decreases rest
    {
      var j :| j in rest;
      rest := rest - {j};
      if j < k {
        k := j;
      }
    }
  }

  method SumNotes(notes: map<NoteId, Cents>, list: seq<NoteId>) returns (total: Cents)
    requires Ascending(list) && Ids(list) <= notes.Keys
    ensures total == SumWhere(notes, In(Ids(list)))
  {
    total := 0;
    SumNone(notes, In(Ids([])));
    for i := 0 to |list|
      invariant total == SumWhere(notes, In(Ids(list[..i])))
    {
      assert list[..i + 1] == list[..i] + [list[i]];
      IdsSnoc(list[..i], list[i]);
      assert list[i] in Ids(list) && list[i] !in Ids(list[..i]);
      OneMore(notes, Ids(list[..i]), list[i]);
      total := total + notes[list[i]];
    }
    assert list[..|list|] == list;
  }

  class Invoice {
    const total: Cents
    var status: Status
    var credited: Option<Cents>
    var notes: map<NoteId, Cents>

    ghost function Now(): Store
      reads this
    {
      Store(status, total, credited, notes)
    }

    constructor (total: Cents, status: Status)
      ensures Now() == Store(status, total, None, map[])
    {
      this.total, this.status, credited, notes := total, status, None, map[];
    }

    /** What a listing adds up to. */
    method TotalCredited() returns (total: Cents, ghost page: set<NoteId>)
      ensures IsPage(page, notes) && total == SumWhere(notes, In(page))
    {
      var list := ListNotes(notes);
      total := SumNotes(notes, list);
      page := Ids(list);
    }

    method Commit(read: Status, before: Cents, id: NoteId, amount: Cents) returns (r: Option<Error>)
      modifies this
      ensures AnswersIssue(old(Now()), Now(), read, before, id, amount, r)
    {
      if amount <= 0 || !Creditable(read) || before < 0 || before + amount > total {
        return Some(Invalid);
      }
      if id in notes {
        return Some(Exists);
      }
      if status != read || (credited.Some? && credited.value != before) {
        return Some(Concurrent);
      }
      credited, notes := Some(before + amount), notes[id := amount];
      return None;
    }

    /** Others issue notes of their own, or move the invoice; none if calm. */
    method Others(calm: bool)
      requires Inv(Now()) && Countable(Now())
      modifies this
      ensures Inv(Now()) && Countable(Now()) && Later(old(Now()), Now()) && (calm ==> Now() == old(Now()))
    {
      var n: nat := *;
      if calm {
        return;
      }
      while n > 0
        invariant Inv(Now()) && Countable(Now()) && Later(old(Now()), Now())
      {
        var id: NoteId, amount: Cents, to: Status := *, *, *;
        OneOther(id, amount, to);
        n := n - 1;
      }
    }

    method OneOther(id: NoteId, amount: Cents, to: Status)
      requires Inv(Now()) && Countable(Now())
      modifies this
      ensures Inv(Now()) && Countable(Now()) && Later(old(Now()), Now())
    {
      ghost var page;
      var before;
      before, page := TotalCredited();
      var r := Commit(status, before, id, amount);
      if r.None? {
        ActedOnTheWhole(old(Now()), Now(), old(notes), page, old(status), id, amount);
      }
      status := to;
    }

    /** Sum, then write, with others in between: a note that commits leaves the invoice credited by exactly its notes. */
    method Issue(read: Status, id: NoteId, amount: Cents, calm: bool) returns (r: Option<Error>)
      requires Inv(Now()) && Countable(Now())
      modifies this
      ensures Inv(Now()) && Countable(Now()) && Later(old(Now()), Now())
      ensures r.None? ==> id !in old(notes) && id in notes && notes[id] == amount && credited == Some(NotesSum(notes))
      ensures calm ==> CalmAnswer(old(Now()), read, id, amount, r)
    {
      ghost var page;
      var before;
      before, page := TotalCredited();
      Others(calm);
      ghost var was := Now();
      r := Commit(read, before, id, amount);
      IssueAnswers(old(Now()), was, Now(), page, read, before, id, amount, r);
      if calm {
        CalmIssue(was, page, read, before, id, amount, r);
      }
    }
  }

  ghost predicate AnswersIssue(s: Store, t: Store, status: Status, before: Cents, id: NoteId, amount: Cents, r: Option<Error>) {
    match Issued(s, status, before, id, amount)
    case Committed(u) => r.None? && t == u
    case Refused(e) => r == Some(e) && t == s
  }

  lemma IssueAnswers(first: Store, s: Store, t: Store, page: set<NoteId>, status: Status, before: Cents, id: NoteId, amount: Cents, r: Option<Error>)
    requires Countable(first) && Inv(s) && Countable(s) && Later(first, s) && IsPage(page, first.notes) && before == SumWhere(first.notes, In(page))
    requires AnswersIssue(s, t, status, before, id, amount, r)
    ensures Inv(t) && Countable(t) && Later(first, t)
    ensures r.None? ==> id !in first.notes && id in t.notes && t.notes[id] == amount && t.credited == Some(NotesSum(t.notes))
  {
    if r.None? {
      IssuedAmong(first, s, t, page, status, id, amount);
    }
  }

  /** With nothing in between, and the notes on one page, it is issued if and only if the invoice is live and covers it. */
  ghost predicate CalmAnswer(s: Store, read: Status, id: NoteId, amount: Cents, r: Option<Error>) {
    read == s.status && |s.notes| <= PAGE ==> (r.None? <==> Fits(s, id, amount, NotesSum(s.notes)))
  }

  lemma CalmIssue(s: Store, page: set<NoteId>, read: Status, before: Cents, id: NoteId, amount: Cents, r: Option<Error>)
    requires Inv(s) && IsPage(page, s.notes) && before == SumWhere(s.notes, In(page))
    requires r.None? <==> Issued(s, read, before, id, amount).Committed?
    ensures CalmAnswer(s, read, id, amount, r)
  {
    if read == s.status && |s.notes| <= PAGE {
      IssueCommitsIff(s, page, id, amount);
    }
  }

  lemma IssuedAmong(first: Store, s: Store, t: Store, page: set<NoteId>, status: Status, id: NoteId, amount: Cents)
    requires Countable(first) && Inv(s) && Later(first, s) && IsPage(page, first.notes)
    requires Issued(s, status, SumWhere(first.notes, In(page)), id, amount) == Committed(t)
    ensures Inv(t) && Later(first, t) && id !in first.notes && t.credited == Some(NotesSum(t.notes))
  {
    ActedOnTheWhole(s, t, first.notes, page, status, id, amount);
  }
}
