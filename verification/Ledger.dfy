/**
 The byte ledger the two sides keep together: the kernel records bytes per key, polls fold keys into
 the running total. The runs are those of `PollProtocol`, in which a poll gets the bytes of a key in
 one step and removes the key in another, with kernel events and other polls in between.

 A `Book` has one page per key ever recorded. It only watches: no step of the program reads it.
 */
module Ledger {
  import opened Common
  import opened Sums
  import opened ConnTracer
  import opened ServiceMap
  import opened PollProtocol

  datatype Page = Page(
    last: nat,    // bytes the socket had sent when the key was last recorded
    folded: nat,  // bytes folded from the key so far
    early: nat,   // bytes that had been folded from it when it was last recorded
    lost: nat,    // bytes removed from the map since then that the remover did not hold
    extra: nat)   // bytes the remover held that were not in the map

  const BLANK: Page := Page(0, 0, 0, 0, 0)

  type Book = map<ConnectionKey, Page>

  function PageOf(b: Book, key: ConnectionKey): Page { if key in b then b[key] else BLANK }

  function Over(a: nat, b: nat): nat { if a > b then a - b else 0 }

  /** The key a step acts on: the one an event records, or the one a remove takes out of the map. */
  function Acts(w: World, s: Step): Option<ConnectionKey> {
    match s
    case Event(e) =>
      (match Touched(w.kernel, e)
       case Some((key, _)) => Some(key)
       case None => None)
    case Remove(p) =>
      var held := WorkerOf(w, p).held;
      if held.Some? && held.value.0 in w.kernel.connections then Some(held.value.0) else None
    case _ => None
  }

  /** The bytes a step that acts on a key brings: the socket's counter, or the bytes held. */
  function Brought(w: World, s: Step): nat
    requires Acts(w, s).Some?
  {
    if s.Event? then Counter(s.e) else WorkerOf(w, s.p).held.value.1
  }

  function Stored(w: World, key: ConnectionKey): nat {
    if key in w.kernel.connections then w.kernel.connections[key].bytesSent else 0
  }

  function PageAfter(page: Page, event: bool, brought: nat, stored: nat): Page {
    if event then Page(brought, page.folded, page.folded, 0, 0)
    else page.(folded := page.folded + brought,
               lost := page.lost + Over(stored, brought),
               extra := page.extra + Over(brought, stored))
  }

  function Booked(b: Book, w: World, s: Step): Book {
    match Acts(w, s)
    case Some(key) => b[key := PageAfter(PageOf(b, key), s.Event?, Brought(w, s), Stored(w, key))]
    case None => b
  }

  function BookOf(b: Book, w: World, steps: seq<Step>, r: Resolver): Book
    decreases |steps|
  {
    if steps == [] then b else BookOf(Booked(b, w, steps[0]), Next(w, steps[0], r), steps[1..], r)
  }

  // ---------------------------------------------------------------------------
  // Per key

  /** The bytes the folds so far took from a key. */
  function Took(w: World, key: ConnectionKey): nat { Plus(FoldsOf(w.folds, key)) }

  ghost predicate PageBalanced(page: Page, stored: nat, took: nat) {
    && page.folded + stored + page.lost == page.last + page.early + page.extra
    && page.folded == took
  }

  ghost predicate KeysBalanced(w: World, b: Book) {
    && w.kernel.connections.Keys <= b.Keys
    && forall key :: PageBalanced(PageOf(b, key), Stored(w, key), Took(w, key))
  }

  lemma {:induction false} StoredAfter(w: World, s: Step, r: Resolver, key: ConnectionKey)
    ensures Stored(Next(w, s, r), key) ==
            if Acts(w, s) != Some(key) then Stored(w, key) else if s.Event? then Brought(w, s) else 0
    ensures key in Next(w, s, r).kernel.connections ==> key in w.kernel.connections || Acts(w, s) == Some(key)
  {
  }

  lemma {:induction false} TookAfter(w: World, s: Step, r: Resolver, key: ConnectionKey)
    ensures Took(Next(w, s, r), key) == Took(w, key) + if Acts(w, s) == Some(key) && s.Remove? then Brought(w, s) else 0
  {
    if s.Remove? && Acts(w, s).Some? {
      var fold := WorkerOf(w, s.p).held.value;
      FoldsMore(w.folds, fold, key);
      assert FoldsOf(w.folds, key) + [] == FoldsOf(w.folds, key);
      PlusMore(FoldsOf(w.folds, key), fold.1);
    }
  }

  lemma {:induction false} KeysBalancedStep(w: World, b: Book, s: Step, r: Resolver)
    requires KeysBalanced(w, b)
    ensures KeysBalanced(Next(w, s, r), Booked(b, w, s))
  {
    var w', b' := Next(w, s, r), Booked(b, w, s);
    forall key ensures PageBalanced(PageOf(b', key), Stored(w', key), Took(w', key)) {
      StoredAfter(w, s, r, key);
      TookAfter(w, s, r, key);
      assert PageBalanced(PageOf(b, key), Stored(w, key), Took(w, key));
    }
    forall key | key in w'.kernel.connections ensures key in b' { StoredAfter(w, s, r, key); }
  }

  // ---------------------------------------------------------------------------
  // Per pair

  /** One figure of every page that belongs to a pair. */
  ghost function Column(b: Book, r: Resolver, c: Connection, f: Page -> nat): map<ConnectionKey, nat> {
    map k | k in b && r(k) == Some(c) :: f(b[k])
  }

  function LastOf(p: Page): nat { p.last }
  function FoldedOf(p: Page): nat { p.folded }
  function EarlyOf(p: Page): nat { p.early }
  function LostOf(p: Page): nat { p.lost }
  function ExtraOf(p: Page): nat { p.extra }

  /** What the program accounts for under a pair: its running total and what it still finds in the map. */
  ghost function Accounted(w: World, r: Resolver, c: Connection): nat {
    Total(w.past, c) + Sum(BytesOf(w.kernel.connections, r, c))
  }

  /** What there is to account for: the bytes each socket had sent when a key of the pair was last recorded. */
  ghost function Recorded(b: Book, r: Resolver, c: Connection): nat { Sum(Column(b, r, c, LastOf)) }

  /** Bytes folded from keys of the pair that were recorded again afterwards. */
  ghost function Early(b: Book, r: Resolver, c: Connection): nat { Sum(Column(b, r, c, EarlyOf)) }

  /** Bytes that left the map without being folded. */
  ghost function Lost(b: Book, r: Resolver, c: Connection): nat { Sum(Column(b, r, c, LostOf)) }

  /** Bytes that were folded without being in the map. */
  ghost function Extra(b: Book, r: Resolver, c: Connection): nat { Sum(Column(b, r, c, ExtraOf)) }

  /** The running total is what was folded. */
  ghost predicate PastBalanced(w: World, b: Book, r: Resolver) {
    forall c :: Total(w.past, c) == Sum(Column(b, r, c, FoldedOf))
  }

  ghost predicate Balanced(w: World, b: Book, r: Resolver) { KeysBalanced(w, b) && PastBalanced(w, b, r) }

  lemma {:induction false} ColumnSet(b: Book, key: ConnectionKey, p: Page, r: Resolver, c: Connection, f: Page -> nat)
    requires f(BLANK) == 0
    ensures Sum(Column(b[key := p], r, c, f)) + (if r(key) == Some(c) then f(PageOf(b, key)) else 0) ==
            Sum(Column(b, r, c, f)) + (if r(key) == Some(c) then f(p) else 0)
  {
    if r(key) == Some(c) {
      assert Column(b[key := p], r, c, f) == Column(b, r, c, f)[key := f(p)];
      SumSet(Column(b, r, c, f), key, f(p));
    } else {
      assert Column(b[key := p], r, c, f) == Column(b, r, c, f);
    }
  }

  lemma {:induction false} ColumnZero(b: Book, r: Resolver, c: Connection, f: Page -> nat)
    ensures Sum(Column(b, r, c, f)) == 0 <==> forall k :: k in b && r(k) == Some(c) ==> f(b[k]) == 0
  {
    SumZero(Column(b, r, c, f));
    assert forall k :: k in Column(b, r, c, f) <==> k in b && r(k) == Some(c);
  }

  lemma {:induction false} PastAfter(w: World, s: Step, r: Resolver, c: Connection)
    ensures Total(Next(w, s, r).past, c) ==
            Total(w.past, c) +
            if Acts(w, s).Some? && s.Remove? && r(Acts(w, s).value) == Some(c) then Brought(w, s) else 0
  {
  }

  lemma {:induction false} PastBalancedStep(w: World, b: Book, s: Step, r: Resolver)
    requires PastBalanced(w, b, r)
    ensures PastBalanced(Next(w, s, r), Booked(b, w, s), r)
  {
    forall c ensures Total(Next(w, s, r).past, c) == Sum(Column(Booked(b, w, s), r, c, FoldedOf)) {
      PastAfter(w, s, r, c);
      if Acts(w, s).Some? {
        var key := Acts(w, s).value;
        ColumnSet(b, key, PageAfter(PageOf(b, key), s.Event?, Brought(w, s), Stored(w, key)), r, c, FoldedOf);
      }
    }
  }

  lemma {:induction false} BalancedStep(w: World, b: Book, s: Step, r: Resolver)
    requires Balanced(w, b, r)
    ensures Balanced(Next(w, s, r), Booked(b, w, s), r)
  {
    KeysBalancedStep(w, b, s, r);
    PastBalancedStep(w, b, s, r);
  }

  lemma {:induction false} BalancedRun(w: World, b: Book, steps: seq<Step>, r: Resolver)
    requires Balanced(w, b, r)
    ensures Balanced(Run(w, steps, r), BookOf(b, w, steps, r), r)
    decreases |steps|
  {
    if steps == [] {
    } else {
      BalancedStep(w, b, steps[0], r);
      BalancedRun(Next(w, steps[0], r), Booked(b, w, steps[0]), steps[1..], r);
    }
  }

  lemma {:induction false} StartBalanced(r: Resolver)
    ensures Balanced(START, map[], r)
  {
    forall c ensures Sum(Column(map[], r, c, FoldedOf)) == 0 {
      assert Column(map[], r, c, FoldedOf) == map[];
    }
  }

  lemma {:induction false} BalancedIdentity(w: World, b: Book, r: Resolver, c: Connection)
    requires Balanced(w, b, r)
    ensures Accounted(w, r, c) + Lost(b, r, c) == Recorded(b, r, c) + Early(b, r, c) + Extra(b, r, c)
  {
    var folded, stored, lost := Column(b, r, c, FoldedOf), BytesOf(w.kernel.connections, r, c), Column(b, r, c, LostOf);
    var last, early, extra := Column(b, r, c, LastOf), Column(b, r, c, EarlyOf), Column(b, r, c, ExtraOf);
    assert folded.Keys + stored.Keys + lost.Keys == last.Keys + early.Keys + extra.Keys;
    forall k | k in folded.Keys + stored.Keys + lost.Keys
      ensures At(folded, k) + At(stored, k) + At(lost, k) == At(last, k) + At(early, k) + At(extra, k)
    {
      assert k in b && r(k) == Some(c);
      assert PageBalanced(PageOf(b, k), Stored(w, k), Took(w, k));
    }
    SumsAgree3(folded, stored, lost, last, early, extra);
  }

  /**
   For every run of kernel events and polls, however their steps interleave, and every pair: what
   the program accounts for and what it lost make up what was recorded, what was folded before its
   key was recorded again, and what was folded without being there.
   */
  lemma {:induction false} Identity(steps: seq<Step>, r: Resolver, c: Connection)
    ensures var (w, b) := (Run(START, steps, r), BookOf(map[], START, steps, r));
            Accounted(w, r, c) + Lost(b, r, c) == Recorded(b, r, c) + Early(b, r, c) + Extra(b, r, c)
  {
    StartBalanced(r);
    BalancedRun(START, map[], steps, r);
    BalancedIdentity(Run(START, steps, r), BookOf(map[], START, steps, r), r, c);
  }

  /** The same for every single key. */
  lemma {:induction false} KeyIdentity(steps: seq<Step>, r: Resolver, key: ConnectionKey)
    ensures var (w, page) := (Run(START, steps, r), PageOf(BookOf(map[], START, steps, r), key));
            && Took(w, key) + Stored(w, key) + page.lost == page.last + page.early + page.extra
            && page.folded == Took(w, key)
  {
    StartBalanced(r);
    BalancedRun(START, map[], steps, r);
    var (w, b) := (Run(START, steps, r), BookOf(map[], START, steps, r));
    assert PageBalanced(PageOf(b, key), Stored(w, key), Took(w, key));
  }

  // ---------------------------------------------------------------------------
  // When the books agree at every moment

  /**
   A step that disturbs the books: an event records a key that bytes were folded from, or a remove
   takes out a key that does not hold the bytes its get found.
   */
  ghost predicate Disturbs(w: World, s: Step) {
    Acts(w, s).Some? &&
    var key := Acts(w, s).value;
    if s.Event? then Took(w, key) > 0 else Brought(w, s) != Stored(w, key)
  }

  ghost predicate DisturbsPair(w: World, s: Step, r: Resolver, c: Connection) {
    Disturbs(w, s) && r(Acts(w, s).value) == Some(c)
  }

  /** No step of the run disturbs a key of the pair. */
  ghost predicate Undisturbed(w: World, steps: seq<Step>, r: Resolver, c: Connection)
    decreases |steps|
  {
    steps == [] || (!DisturbsPair(w, steps[0], r, c) && Undisturbed(Next(w, steps[0], r), steps[1..], r, c))
  }

  /** At every moment of the run the pair is accounted for exactly. */
  ghost predicate AlwaysAccounted(w: World, b: Book, steps: seq<Step>, r: Resolver, c: Connection)
    decreases |steps|
  {
    && Accounted(w, r, c) == Recorded(b, r, c)
    && (steps == [] || AlwaysAccounted(Next(w, steps[0], r), Booked(b, w, steps[0]), steps[1..], r, c))
  }

  ghost predicate EvenPage(p: Page) { p.early == 0 && p.lost == 0 && p.extra == 0 }

  ghost predicate Even(b: Book, r: Resolver, c: Connection) {
    forall k :: k in b && r(k) == Some(c) ==> EvenPage(b[k])
  }

  lemma {:induction false} EvenIsAccounted(w: World, b: Book, r: Resolver, c: Connection)
    requires Balanced(w, b, r) && Even(b, r, c)
    ensures Accounted(w, r, c) == Recorded(b, r, c)
  {
    BalancedIdentity(w, b, r, c);
    ColumnZero(b, r, c, EarlyOf);
    ColumnZero(b, r, c, LostOf);
    ColumnZero(b, r, c, ExtraOf);
  }

  /** A page that was even is even after the step, unless the step disturbs its key; then one figure alone is off. */
  lemma {:induction false} PageStep(w: World, b: Book, s: Step)
    requires KeysBalanced(w, b) && Acts(w, s).Some? && EvenPage(PageOf(b, Acts(w, s).value))
    ensures var page := PageOf(Booked(b, w, s), Acts(w, s).value);
            if Disturbs(w, s) then OffPage(page) else EvenPage(page)
  {
    var key := Acts(w, s).value;
    assert PageBalanced(PageOf(b, key), Stored(w, key), Took(w, key));
  }

  lemma {:induction false} UndisturbedStep(w: World, b: Book, s: Step, r: Resolver, c: Connection)
    requires Balanced(w, b, r) && Even(b, r, c) && !DisturbsPair(w, s, r, c)
    ensures Even(Booked(b, w, s), r, c)
  {
    if Acts(w, s).Some? && r(Acts(w, s).value) == Some(c) { PageStep(w, b, s); }
  }

  /** One figure of one page alone is off. */
  ghost predicate OffPage(p: Page) {
    || (p.early > 0 && p.lost == 0 && p.extra == 0)
    || (p.early == 0 && p.lost > 0 && p.extra == 0)
    || (p.early == 0 && p.lost == 0 && p.extra > 0)
  }

  lemma {:induction false} OffIsNotAccounted(w: World, b: Book, r: Resolver, c: Connection, key: ConnectionKey)
    requires Balanced(w, b, r) && key in b && r(key) == Some(c) && OffPage(b[key])
    requires forall k :: k in b && k != key && r(k) == Some(c) ==> EvenPage(b[k])
    ensures Accounted(w, r, c) != Recorded(b, r, c)
  {
    BalancedIdentity(w, b, r, c);
    ColumnZero(b, r, c, EarlyOf);
    ColumnZero(b, r, c, LostOf);
    ColumnZero(b, r, c, ExtraOf);
    assert EarlyOf(b[key]) == b[key].early && LostOf(b[key]) == b[key].lost && ExtraOf(b[key]) == b[key].extra;
  }

  lemma {:induction false} DisturbedStep(w: World, b: Book, s: Step, r: Resolver, c: Connection)
    requires Balanced(w, b, r) && Even(b, r, c) && DisturbsPair(w, s, r, c)
    ensures Accounted(Next(w, s, r), r, c) != Recorded(Booked(b, w, s), r, c)
  {
    PageStep(w, b, s);
    BalancedStep(w, b, s, r);
    OffIsNotAccounted(Next(w, s, r), Booked(b, w, s), r, c, Acts(w, s).value);
  }

  lemma {:induction false} AccountedRun(w: World, b: Book, steps: seq<Step>, r: Resolver, c: Connection)
    requires Balanced(w, b, r) && Even(b, r, c)
    ensures AlwaysAccounted(w, b, steps, r, c) <==> Undisturbed(w, steps, r, c)
    decreases |steps|
  {
    EvenIsAccounted(w, b, r, c);
    if steps == [] {
    } else if DisturbsPair(w, steps[0], r, c) {
      DisturbedStep(w, b, steps[0], r, c);
    } else {
      BalancedStep(w, b, steps[0], r);
      UndisturbedStep(w, b, steps[0], r, c);
      AccountedRun(Next(w, steps[0], r), Booked(b, w, steps[0]), steps[1..], r, c);
    }
  }

  /**
   For every run and every pair: the program accounts for exactly what was recorded, at every moment
   of the run, if and only if no event records a key of the pair after bytes were folded from it, and
   every remove finds in the map the bytes its get found.
   */
  lemma {:induction false} AccountedExactly(steps: seq<Step>, r: Resolver, c: Connection)
    ensures AlwaysAccounted(START, map[], steps, r, c) <==> Undisturbed(START, steps, r, c)
  {
    StartBalanced(r);
    AccountedRun(START, map[], steps, r, c);
  }

  /** At every moment what was folded from the key and what is stored under it make up what was last recorded. */
  ghost predicate KeyAlwaysAccounted(w: World, b: Book, steps: seq<Step>, r: Resolver, key: ConnectionKey)
    decreases |steps|
  {
    && Took(w, key) + Stored(w, key) == PageOf(b, key).last
    && (steps == [] || KeyAlwaysAccounted(Next(w, steps[0], r), Booked(b, w, steps[0]), steps[1..], r, key))
  }

  ghost predicate KeyUndisturbed(w: World, steps: seq<Step>, r: Resolver, key: ConnectionKey)
    decreases |steps|
  {
    || steps == []
    || (&& !(Disturbs(w, steps[0]) && Acts(w, steps[0]) == Some(key))
        && KeyUndisturbed(Next(w, steps[0], r), steps[1..], r, key))
  }

  lemma {:induction false} KeyAccountedRun(w: World, b: Book, steps: seq<Step>, r: Resolver, key: ConnectionKey)
    requires KeysBalanced(w, b) && EvenPage(PageOf(b, key))
    ensures KeyAlwaysAccounted(w, b, steps, r, key) <==> KeyUndisturbed(w, steps, r, key)
    ensures KeyUndisturbed(w, steps, r, key) ==> EvenPage(PageOf(BookOf(b, w, steps, r), key))
    decreases |steps|
  {
    assert PageBalanced(PageOf(b, key), Stored(w, key), Took(w, key));
    if steps == [] {
    } else {
      var (s, w', b') := (steps[0], Next(w, steps[0], r), Booked(b, w, steps[0]));
      KeysBalancedStep(w, b, s, r);
      assert PageBalanced(PageOf(b', key), Stored(w', key), Took(w', key));
      if Acts(w, s) == Some(key) { PageStep(w, b, s); }
      if !(Disturbs(w, s) && Acts(w, s) == Some(key)) { KeyAccountedRun(w', b', steps[1..], r, key); }
    }
  }

  /** The same if-and-only-if for a single key. */
  lemma {:induction false} KeyAccountedExactly(steps: seq<Step>, r: Resolver, key: ConnectionKey)
    ensures KeyAlwaysAccounted(START, map[], steps, r, key) <==> KeyUndisturbed(START, steps, r, key)
  {
    StartBalanced(r);
    KeyAccountedRun(START, map[], steps, r, key);
  }

  // ---------------------------------------------------------------------------
  // Folds that no event divides

  ghost predicate Holds(w: World, p: nat, key: ConnectionKey) {
    p in w.polls && w.polls[p].held.Some? && w.polls[p].held.value.0 == key
  }

  /** An event records a key of the pair that some poll has got and not yet removed. */
  ghost predicate Divides(w: World, s: Step, r: Resolver, c: Connection) {
    s.Event? && Acts(w, s).Some? && r(Acts(w, s).value) == Some(c) && exists p :: Holds(w, p, Acts(w, s).value)
  }

  ghost predicate Undivided(w: World, steps: seq<Step>, r: Resolver, c: Connection)
    decreases |steps|
  {
    steps == [] || (!Divides(w, steps[0], r, c) && Undivided(Next(w, steps[0], r), steps[1..], r, c))
  }

  /** What polls hold of the pair is what the map holds. */
  ghost predicate HeldFresh(w: World, r: Resolver, c: Connection) {
    forall p, key :: Holds(w, p, key) && r(key) == Some(c) && key in w.kernel.connections ==>
      w.polls[p].held.value.1 == Stored(w, key)
  }

  lemma {:induction false} HeldFreshStep(w: World, s: Step, r: Resolver, c: Connection)
    requires HeldFresh(w, r, c) && !Divides(w, s, r, c)
    ensures HeldFresh(Next(w, s, r), r, c)
    ensures DisturbsPair(w, s, r, c) ==> s.Event?
  {
    var w' := Next(w, s, r);
    forall p, key | Holds(w', p, key) && r(key) == Some(c) && key in w'.kernel.connections
      ensures w'.polls[p].held.value.1 == Stored(w', key)
    {
      StoredAfter(w, s, r, key);
      if Holds(w, p, key) { assert Acts(w, s) != Some(key); }
    }
    if s.Remove? && Acts(w, s).Some? { assert Holds(w, s.p, Acts(w, s).value); }
  }

  /** No page of the pair has lost bytes or extra ones. */
  ghost predicate Whole(b: Book, r: Resolver, c: Connection) {
    forall k :: k in b && r(k) == Some(c) ==> b[k].lost == 0 && b[k].extra == 0
  }

  lemma {:induction false} WholeStep(w: World, b: Book, s: Step, r: Resolver, c: Connection)
    requires Whole(b, r, c) && (DisturbsPair(w, s, r, c) ==> s.Event?)
    ensures Whole(Booked(b, w, s), r, c)
  {
  }

  /** Bytes folded early stay in the books. */
  ghost predicate EarlyAt(b: Book, key: ConnectionKey) { key in b && b[key].early > 0 && b[key].folded > 0 }

  lemma {:induction false} EarlyStays(w: World, b: Book, steps: seq<Step>, r: Resolver, key: ConnectionKey)
    requires EarlyAt(b, key)
    ensures EarlyAt(BookOf(b, w, steps, r), key)
    decreases |steps|
  {
    if steps == [] {
    } else {
      EarlyStays(Next(w, steps[0], r), Booked(b, w, steps[0]), steps[1..], r, key);
    }
  }

  lemma {:induction false} UndividedRun(w: World, b: Book, steps: seq<Step>, r: Resolver, c: Connection)
    requires Balanced(w, b, r) && Whole(b, r, c) && HeldFresh(w, r, c) && Undivided(w, steps, r, c)
    ensures Whole(BookOf(b, w, steps, r), r, c)
    ensures Even(b, r, c) ==> (Even(BookOf(b, w, steps, r), r, c) <==> Undisturbed(w, steps, r, c))
    decreases |steps|
  {
    if steps == [] {
    } else {
      var (s, w', b') := (steps[0], Next(w, steps[0], r), Booked(b, w, steps[0]));
      HeldFreshStep(w, s, r, c);
      WholeStep(w, b, s, r, c);
      BalancedStep(w, b, s, r);
      UndividedRun(w', b', steps[1..], r, c);
      if Even(b, r, c) && DisturbsPair(w, s, r, c) {
        var key := Acts(w, s).value;
        assert PageBalanced(PageOf(b, key), Stored(w, key), Took(w, key));
        assert EarlyAt(b', key);
        EarlyStays(w', b', steps[1..], r, key);
      } else if Even(b, r, c) {
        UndisturbedStep(w, b, s, r, c);
      }
    }
  }

  /**
   When no event records a key of the pair between its get and its remove, as when the two are
   adjacent, the program over-counts by exactly what it folded from keys recorded again afterwards.
   So at the end of the run it accounts for what was recorded if and only if no event recorded a key
   of the pair after bytes were folded from it.
   */
  lemma {:induction false} ConservedExactly(steps: seq<Step>, r: Resolver, c: Connection)
    requires Undivided(START, steps, r, c)
    ensures var (w, b) := (Run(START, steps, r), BookOf(map[], START, steps, r));
            && Accounted(w, r, c) == Recorded(b, r, c) + Early(b, r, c)
            && (Accounted(w, r, c) == Recorded(b, r, c) <==> Undisturbed(START, steps, r, c))
  {
    StartBalanced(r);
    UndividedRun(START, map[], steps, r, c);
    Identity(steps, r, c);
    var b := BookOf(map[], START, steps, r);
    ColumnZero(b, r, c, EarlyOf);
    ColumnZero(b, r, c, LostOf);
    ColumnZero(b, r, c, ExtraOf);
  }

  // ---------------------------------------------------------------------------
  // The client side

  /** A resolver that keeps the role, as `BuildConnection` does. */
  ghost predicate KeepsRole(r: Resolver) { forall key, c :: r(key) == Some(c) ==> c.role == key.role }

  lemma {:induction false} ResolverKeepsRole(at: Lookups)
    ensures KeepsRole(ResolverOf(at))
  {
    forall key, c | ResolverOf(at)(key) == Some(c) ensures c.role == key.role {
      assert BuildConnection(key, at(key).0, at(key).1) == Some(c);
    }
  }

  /** Ids drawn at SYN_RECV belong to servers. */
  ghost predicate RolesSound(k: Kernel, h: History, b: Book) {
    && h.recv <= h.used
    && (forall sk :: sk in k.sockets && k.sockets[sk].id in h.recv ==> k.sockets[sk].role == ROLE_SERVER)
    && (forall key :: key in b ==> key.id in h.used && (key.id in h.recv ==> key.role == ROLE_SERVER))
  }

  lemma {:induction false} RolesSoundStep(w: World, h: History, b: Book, s: Step, r: Resolver)
    requires SocketsSound(w.kernel, h) && RolesSound(w.kernel, h, b) && w.kernel.connections.Keys <= b.Keys
    requires s.Event? ==> Legal(w.kernel, h, s.e)
    ensures RolesSound(Next(w, s, r).kernel, NoteStep(h, w, s), Booked(b, w, s))
  {
  }

  /** A legal step disturbs no key but one whose id was drawn at SYN_RECV. */
  lemma {:induction false} OnlyRecvDisturbed(w: World, h: History, s: Step)
    requires Sound(w, h) && Disturbs(w, s)
    requires s.Event? ==> Legal(w.kernel, h, s.e)
    ensures Acts(w, s).value.id in h.recv
  {
    var key := Acts(w, s).value;
    if s.Event? {
      ClosedUntouched(w.kernel, h, s.e);
      assert key.id !in h.recv ==> FoldsOf(w.folds, key) == [];
    } else {
      assert WorkerSound(w.polls[s.p], w.kernel, h);
    }
  }

  lemma {:induction false} ClientUndisturbed(
    w: World, h: History, b: Book, steps: seq<Step>, r: Resolver, c: Connection)
    requires Sound(w, h) && RolesSound(w.kernel, h, b) && KeysBalanced(w, b)
    requires LegalRun(w, h, steps, r) && KeepsRole(r) && c.role == ROLE_CLIENT
    ensures Undisturbed(w, steps, r, c)
    decreases |steps|
  {
    if steps == [] {
    } else {
      var s := steps[0];
      RolesSoundStep(w, h, b, s, r);
      if DisturbsPair(w, s, r, c) { OnlyRecvDisturbed(w, h, s); }
      SoundStep(w, h, s, r);
      KeysBalancedStep(w, b, s, r);
      ClientUndisturbed(Next(w, s, r), NoteStep(h, w, s), Booked(b, w, s), steps[1..], r, c);
    }
  }

  /**
   In every interleaving of legal kernel events with the single steps of any number of polls, each
   pair seen from its client side is accounted for exactly, at every moment. Only pairs seen from
   the server side can be off.
   */
  lemma {:induction false} ClientSideExact(steps: seq<Step>, r: Resolver, c: Connection)
    requires LegalRun(START, NO_HISTORY, steps, r) && KeepsRole(r) && c.role == ROLE_CLIENT
    ensures AlwaysAccounted(START, map[], steps, r, c)
  {
    StartBalanced(r);
    ClientUndisturbed(START, NO_HISTORY, map[], steps, r, c);
    AccountedExactly(steps, r, c);
  }

  /** The same for the program's own resolver. */
  lemma {:induction false} ClientSideOfProgram(steps: seq<Step>, at: Lookups, c: Connection)
    requires LegalRun(START, NO_HISTORY, steps, ResolverOf(at)) && c.role == ROLE_CLIENT
    ensures AlwaysAccounted(START, map[], steps, ResolverOf(at), c)
  {
    ResolverKeepsRole(at);
    ClientSideExact(steps, ResolverOf(at), c);
  }

  // ---------------------------------------------------------------------------
  // Polls that are atomic with respect to the kernel

  /** Legal kernel events that record no bytes at SYN_RECV and happen while no poll is under way. */
  ghost predicate Orderly(w: World, h: History, s: Step) {
    s.Event? ==>
      && Legal(w.kernel, h, s.e) && AllIdle(w)
      && (s.e.SynRecv? && s.e.view.Some? ==> s.e.view.value.bytesSent == 0)
  }

  ghost predicate OrderlyRun(w: World, h: History, steps: seq<Step>, r: Resolver)
    decreases |steps|
  {
    || steps == []
    || (Orderly(w, h, steps[0]) && OrderlyRun(Next(w, steps[0], r), NoteStep(h, w, steps[0]), steps[1..], r))
  }

  /** Only closed keys have bytes to fold. */
  ghost predicate Harmless(w: World, closed: set<ConnectionKey>) {
    && (forall k :: k in w.kernel.connections && !Active(w.kernel.connections[k]) && Stored(w, k) != 0 ==> k in closed)
    && (forall k :: Took(w, k) != 0 ==> k in closed)
  }

  /** What polls carry is inactive if it is still stored, and what they hold of it is what is stored. */
  ghost predicate CarriesInactive(me: Worker, m: Entries) {
    && (forall key :: key in me.todo && key in m ==> !Active(m[key]))
    && (me.held.Some? && me.held.value.0 in m ==>
          !Active(m[me.held.value.0]) && me.held.value.1 == m[me.held.value.0].bytesSent)
  }

  ghost predicate Settled(w: World, h: History) {
    && Inv(w.kernel, h) && Harmless(w, h.closed.Keys)
    && forall p :: p in w.polls ==> CarriesInactive(w.polls[p], w.kernel.connections)
  }

  /** What an event leaves inactive with bytes is closed by it, or was there before. */
  lemma {:induction false} InactiveAfter(k: Kernel, h: History, e: KernelEvent, key: ConnectionKey)
    requires SocketsSound(k, h)
    requires e.SynRecv? && e.view.Some? ==> e.view.value.bytesSent == 0
    requires key in After(k, e).connections && !Active(After(k, e).connections[key])
    requires After(k, e).connections[key].bytesSent != 0
    ensures key in Note(h, k, e).closed || (key in k.connections && After(k, e).connections[key] == k.connections[key])
  {
  }

  lemma {:induction false} HarmlessEvent(w: World, h: History, e: KernelEvent, r: Resolver)
    requires Settled(w, h) && Orderly(w, h, Event(e))
    ensures Harmless(Next(w, Event(e), r), Note(h, w.kernel, e).closed.Keys)
  {
    var w' := Next(w, Event(e), r);
    forall k ensures Took(w', k) == Took(w, k) { TookAfter(w, Event(e), r, k); }
    forall k | k in w'.kernel.connections && !Active(w'.kernel.connections[k]) && Stored(w', k) != 0
      ensures k in Note(h, w.kernel, e).closed
    {
      InactiveAfter(w.kernel, h, e, k);
    }
  }

  lemma {:induction false} SettledEvent(w: World, h: History, s: Step, r: Resolver)
    requires Settled(w, h) && Orderly(w, h, s) && s.Event?
    ensures Settled(Next(w, s, r), NoteStep(h, w, s)) && !Disturbs(w, s)
  {
    InvStep(w.kernel, h, s.e);
    HarmlessEvent(w, h, s.e, r);
    if Touched(w.kernel, s.e).Some? { ClosedUntouched(w.kernel, h, s.e); }
  }

  /** A step of a poll leaves polls that carry inactive keys only. */
  lemma {:induction false} CarriesAfter(w: World, s: Step, r: Resolver)
    requires !s.Event? && forall p :: p in w.polls ==> CarriesInactive(w.polls[p], w.kernel.connections)
    ensures var w' := Next(w, s, r); forall p :: p in w'.polls ==> CarriesInactive(w'.polls[p], w'.kernel.connections)
  {
  }

  lemma {:induction false} HarmlessPoll(w: World, h: History, s: Step, r: Resolver)
    requires Settled(w, h) && !s.Event?
    ensures Harmless(Next(w, s, r), h.closed.Keys)
  {
    if Acts(w, s).Some? { assert CarriesInactive(w.polls[s.p], w.kernel.connections); }
    forall k ensures Took(Next(w, s, r), k) != 0 ==> k in h.closed { TookAfter(w, s, r, k); }
  }

  lemma {:induction false} SettledPoll(w: World, h: History, s: Step, r: Resolver)
    requires Settled(w, h) && !s.Event?
    ensures Settled(Next(w, s, r), h) && !Disturbs(w, s)
  {
    CarriesAfter(w, s, r);
    HarmlessPoll(w, h, s, r);
    if Acts(w, s).Some? {
      InvRemove(w.kernel, h, {Acts(w, s).value});
      assert CarriesInactive(w.polls[s.p], w.kernel.connections);
    }
  }

  lemma {:induction false} SettledStep(w: World, h: History, s: Step, r: Resolver)
    requires Settled(w, h) && Orderly(w, h, s)
    ensures Settled(Next(w, s, r), NoteStep(h, w, s)) && !Disturbs(w, s)
  {
    if s.Event? { SettledEvent(w, h, s, r); } else { SettledPoll(w, h, s, r); }
  }

  lemma {:induction false} SettledRun(w: World, h: History, steps: seq<Step>, r: Resolver, c: Connection)
    requires Settled(w, h) && OrderlyRun(w, h, steps, r)
    ensures Undisturbed(w, steps, r, c)
    decreases |steps|
  {
    if steps == [] {
    } else {
      SettledStep(w, h, steps[0], r);
      SettledRun(Next(w, steps[0], r), NoteStep(h, w, steps[0]), steps[1..], r, c);
    }
  }

  /**
   Conservation: over every run of polls that are atomic with respect to the kernel, though not with
   respect to each other, every pair's running total plus the bytes of its entries still stored is,
   at every moment, the sum over all its keys ever recorded of the bytes last recorded.
   */
  lemma {:induction false} Conservation(steps: seq<Step>, r: Resolver, c: Connection)
    requires OrderlyRun(START, NO_HISTORY, steps, r)
    ensures AlwaysAccounted(START, map[], steps, r, c)
  {
    SettledRun(START, NO_HISTORY, steps, r, c);
    AccountedExactly(steps, r, c);
  }

  /**
   64-bit totals suffice in every run as long as the recorded bytes and the excess do: no total the
   program keeps, and no answer it gives, exceeds them.
   */
  lemma {:induction false} NoOverflow(steps: seq<Step>, r: Resolver, c: Connection)
    requires var b := BookOf(map[], START, steps, r); Recorded(b, r, c) + Early(b, r, c) + Extra(b, r, c) < TWO_64
    ensures var w := Run(START, steps, r);
            && Total(w.past, c) < TWO_64
            && Total(PollAnswer(w.past, w.kernel.connections, r), c) < TWO_64
            && Total(PollPast(w.past, w.kernel.connections, r), c) < TWO_64
  {
    Identity(steps, r, c);
    var w := Run(START, steps, r);
    var m := w.kernel.connections;
    CreditTotal(w.past, OpenOf(m), r, c);
    CreditTotal(w.past, InactiveOf(m), r, c);
    SumMonotone(BytesOf(OpenOf(m), r, c), BytesOf(m, r, c));
    SumMonotone(BytesOf(InactiveOf(m), r, c), BytesOf(m, r, c));
  }
}
