/**
 What a poll answers while kernel events and other polls run. The poll takes the running total when its
 walk begins, and then adds the bytes of the open connections it comes by, each as it is at that moment.
 */
module Answers {
  import opened Common
  import opened Sums
  import opened ConnTracer
  import opened ServiceMap
  import opened PollProtocol
  import opened Ledger

  /** The bytes the walk found under each key it added. */
  type Found = map<ConnectionKey, nat>

  ghost predicate FoundAt(w: World, steps: seq<Step>, r: Resolver, key: ConnectionKey, bytes: nat, i: nat) {
    i <= |steps| &&
    var m := Run(w, steps[..i], r).kernel.connections;
    key in m && Eligible(key, m[key]) && m[key].bytesSent == bytes
  }

  /** The walk came by each key at some moment of the steps taken meanwhile. */
  ghost predicate FoundDuring(w: World, steps: seq<Step>, r: Resolver, found: Found) {
    forall key :: key in found ==> exists i: nat :: FoundAt(w, steps, r, key, found[key], i)
  }

  ghost function FoundOf(found: Found, r: Resolver, c: Connection): Found {
    map key | key in found && r(key) == Some(c) :: found[key]
  }

  /** The answer of a walk that began in `w`. */
  ghost function Answer(w: World, found: Found, r: Resolver, c: Connection): nat {
    Total(w.past, c) + Sum(FoundOf(found, r, c))
  }

  /** With nothing going on meanwhile it is the answer of `Poll`. */
  lemma {:induction false} QuietAnswer(w: World, r: Resolver, c: Connection)
    ensures var m := OpenOf(w.kernel.connections);
            Answer(w, map k | k in m :: m[k].bytesSent, r, c) == Total(PollAnswer(w.past, w.kernel.connections, r), c)
  {
    var m := OpenOf(w.kernel.connections);
    assert FoundOf(map k | k in m :: m[k].bytesSent, r, c) == BytesOf(m, r, c);
    CreditTotal(w.past, m, r, c);
  }

  // ---------------------------------------------------------------------------
  // Counters that do not fall

  /** Every event finds its socket's counter at or above what was last recorded under the key. */
  ghost predicate CountersRise(w: World, b: Book, steps: seq<Step>, r: Resolver)
    decreases |steps|
  {
    || steps == []
    || (&& (steps[0].Event? && Acts(w, steps[0]).Some? ==>
              PageOf(b, Acts(w, steps[0]).value).last <= Brought(w, steps[0]))
        && CountersRise(Next(w, steps[0], r), Booked(b, w, steps[0]), steps[1..], r))
  }

  lemma {:induction false} LastRises(w: World, b: Book, steps: seq<Step>, r: Resolver, key: ConnectionKey)
    requires CountersRise(w, b, steps, r)
    ensures PageOf(b, key).last <= PageOf(BookOf(b, w, steps, r), key).last
    ensures key in b ==> key in BookOf(b, w, steps, r)
    decreases |steps|
  {
    if steps == [] {
    } else {
      LastRises(Next(w, steps[0], r), Booked(b, w, steps[0]), steps[1..], r, key);
    }
  }

  /** What was folded from a key at the start and what is stored later on stay within what is last recorded. */
  lemma {:induction false} KeyBound(
    w: World, b: Book, steps: seq<Step>, r: Resolver, c: Connection, key: ConnectionKey, i: nat)
    requires Balanced(w, b, r) && Even(b, r, c) && r(key) == Some(c) && i <= |steps|
    requires Undisturbed(w, steps, r, c) && CountersRise(w, b, steps, r)
    ensures Took(w, key) + Stored(Run(w, steps[..i], r), key) <= PageOf(BookOf(b, w, steps, r), key).last
    ensures key in Run(w, steps[..i], r).kernel.connections ==> key in BookOf(b, w, steps, r)
    decreases |steps|
  {
    if i == 0 {
      assert PageBalanced(PageOf(b, key), Stored(w, key), Took(w, key));
      LastRises(w, b, steps, r, key);
    } else {
      BalancedStep(w, b, steps[0], r);
      UndisturbedStep(w, b, steps[0], r, c);
      TookAfter(w, steps[0], r, key);
      assert steps[..i][1..] == steps[1..][..i - 1];
      KeyBound(Next(w, steps[0], r), Booked(b, w, steps[0]), steps[1..], r, c, key, i - 1);
    }
  }

  lemma {:induction false} WalkBound(w: World, b: Book, steps: seq<Step>, r: Resolver, c: Connection, found: Found)
    requires Balanced(w, b, r) && Even(b, r, c)
    requires Undisturbed(w, steps, r, c) && CountersRise(w, b, steps, r) && FoundDuring(w, steps, r, found)
    ensures Answer(w, found, r, c) <= Recorded(BookOf(b, w, steps, r), r, c)
  {
    var folded, seen := Column(b, r, c, FoldedOf), FoundOf(found, r, c);
    var last := Column(BookOf(b, w, steps, r), r, c, LastOf);
    forall key | key in Joined(folded, seen) ensures key in last && Joined(folded, seen)[key] <= last[key] {
      var i: nat := 0;
      if key in seen { i :| FoundAt(w, steps, r, key, found[key], i); }
      KeyBound(w, b, steps, r, c, key, i);
      LastRises(w, b, steps, r, key);
      assert PageBalanced(PageOf(b, key), Stored(w, key), Took(w, key));
    }
    SumJoin(folded, seen, Joined(folded, seen));
    SumMonotone(Joined(folded, seen), last);
  }

  lemma {:induction false} BoundFrom(
    w: World, b: Book, before: seq<Step>, walk: seq<Step>, r: Resolver, c: Connection, found: Found)
    requires Balanced(w, b, r) && Even(b, r, c)
    requires Undisturbed(w, before + walk, r, c) && CountersRise(w, b, before + walk, r)
    requires FoundDuring(Run(w, before, r), walk, r, found)
    ensures Answer(Run(w, before, r), found, r, c) <= Recorded(BookOf(b, w, before + walk, r), r, c)
    decreases |before|
  {
    if before == [] {
      assert before + walk == walk;
      WalkBound(w, b, walk, r, c, found);
    } else {
      BalancedStep(w, b, before[0], r);
      UndisturbedStep(w, b, before[0], r, c);
      assert (before + walk)[0] == before[0] && (before + walk)[1..] == before[1..] + walk;
      BoundFrom(Next(w, before[0], r), Booked(b, w, before[0]), before[1..], walk, r, c, found);
    }
  }

  /**
   For every run that does not disturb the pair, with counters that do not fall: whatever happens
   while a poll walks the map, it answers at most what has been recorded when the walk ends.
   */
  lemma {:induction false} AnswerBound(before: seq<Step>, walk: seq<Step>, r: Resolver, c: Connection, found: Found)
    requires Undisturbed(START, before + walk, r, c) && CountersRise(START, map[], before + walk, r)
    requires FoundDuring(Run(START, before, r), walk, r, found)
    ensures Answer(Run(START, before, r), found, r, c) <= Recorded(BookOf(map[], START, before + walk, r), r, c)
  {
    StartBalanced(r);
    BoundFrom(START, map[], before, walk, r, c, found);
  }

  /** In particular for every pair seen from its client side, in every legal run. */
  lemma {:induction false} ClientAnswerBound(
    before: seq<Step>, walk: seq<Step>, r: Resolver, c: Connection, found: Found)
    requires LegalRun(START, NO_HISTORY, before + walk, r) && KeepsRole(r) && c.role == ROLE_CLIENT
    requires CountersRise(START, map[], before + walk, r)
    requires FoundDuring(Run(START, before, r), walk, r, found)
    ensures Answer(Run(START, before, r), found, r, c) <= Recorded(BookOf(map[], START, before + walk, r), r, c)
  {
    StartBalanced(r);
    ClientUndisturbed(START, NO_HISTORY, map[], before + walk, r, c);
    AnswerBound(before, walk, r, c, found);
  }
}
