/** Incarnations of entries: what identifies them, and what happens to their books while they last. */
module Incarnations {
  import opened Machine
  import opened ProcTracker
  import opened Sums
  import opened Ledger
  import opened LedgerProofs

  ghost predicate Accounts(w: World) {
    && Structure(w)
    && Balance(w)
    && Metered(w.maps.procs, w.books)
    && LivedThreads(w.threads, w.life)
    && LivedBooks(w.books, w.life)
  }

  lemma AccountsKept(w: World, e: Event)
    requires Accounts(w)
    ensures Accounts(Step(w, e))
  {
    StructureKept(w, e);
    BalanceKept(w, e);
    MeterKept(w, e);
    LivedThreadsKept(w, e);
    LivedBooksKept(w, e);
  }

  lemma BootAccounts(w: World)
    requires Boot(w)
    ensures Accounts(w)
  {
    forall g: u32 ensures Pending(w.threads, g) == 0 {
      SumZero(w.threads, ShareOf(g));
    }
  }

  lemma {:induction false} AlwaysAccounted(w: World, events: seq<Event>)
    requires Accounts(w)
    ensures Accounts(After(w, events))
    decreases |events|
  {
    if events != [] {
      AlwaysAccounted(w, events[..|events| - 1]);
      AccountsKept(After(w, events[..|events| - 1]), events[|events| - 1]);
    }
  }

  // ---- One incarnation ----

  /** g is tracked at both looks, as the same incarnation. */
  ghost predicate Stays(w: World, w': World, g: u32) {
    g in w.born && g in w'.born && w'.born[g] == w.born[g]
  }

  ghost predicate Grows(b: Book, b': Book) {
    && b'.opening == b.opening && b.ran <= b'.ran && b.credit <= b'.credit
    && b.lostAtExit <= b'.lostAtExit && b.lostOtherwise <= b'.lostOtherwise
  }

  /** An entry with an old birth number has been there all along, and its book has only grown. */
  ghost predicate Continues(w: World, w': World, g: u32) {
    && Lookup(w'.born, g) == Lookup(w.born, g) != None
    && g in w.books && g in w'.books && Grows(w.books[g], w'.books[g])
  }

  lemma ChargesGrow(books: map<u32, Book>, k: u32, ns: nat, atExit: bool, g: u32)
    requires g in books
    ensures g in Ran(books, k, ns) && Grows(books[g], Ran(books, k, ns)[g])
    ensures g in Earn(books, k, ns) && Grows(books[g], Earn(books, k, ns)[g])
    ensures g in Lose(books, k, ns, atExit) && Grows(books[g], Lose(books, k, ns, atExit)[g])
  {
  }

  /** An entry after an event is the same incarnation as before, or a new one with the next number. */
  lemma SameOrNew(w: World, e: Event, g: u32)
    requires Registered(w.born, w.books, w.maps.procs.Keys, w.births) && g in Step(w, e).born
    ensures Stays(w, Step(w, e), g) || Step(w, e).born[g] == w.births
  {
    if !Enabled(w, e) {
    } else if e.Fork? {
      assert Step(w, e) == ForkStep(w, e.now, e.child);
    } else if e.Iterate? {
      assert Step(w, e) == IterateStep(w, e.now, e.task);
    } else if e.Tick? {
      assert Step(w, e) == TickStep(w, e.now, e.interval, e.live);
    } else {
      BornUnmoved(w, e);
    }
  }

  lemma BornUnmoved(w: World, e: Event)
    requires Enabled(w, e) && !e.Fork? && !e.Iterate? && !e.Tick?
    ensures Step(w, e).born == w.born
  {
  }

  lemma SameIncarnation(w: World, e: Event, g: u32)
    requires Registered(w.born, w.books, w.maps.procs.Keys, w.births)
    requires Stays(w, Step(w, e), g)
    ensures Continues(w, Step(w, e), g)
  {
    if !Enabled(w, e) {
    } else if e.Fork? {
      SameIncarnationFork(w, e.now, e.child, g);
    } else if e.Iterate? {
      SameIncarnationIterate(w, e.now, e.task, g);
    } else if e.Tick? {
      assert Continues(w, TickStep(w, e.now, e.interval, e.live), g);
    } else {
      SameIncarnationCharges(w, e, g);
    }
  }

  lemma SameIncarnationFork(w: World, now: u64, child: Task, g: u32)
    requires Registered(w.born, w.books, w.maps.procs.Keys, w.births)
    requires Stays(w, ForkStep(w, now, child), g)
    ensures Continues(w, ForkStep(w, now, child), g)
    ensures ForkStep(w, now, child).books[g] == w.books[g]
  {
  }

  lemma SameIncarnationIterate(w: World, now: u64, task: Task, g: u32)
    requires Registered(w.born, w.books, w.maps.procs.Keys, w.births) && CanIterate(w, now, task)
    requires Stays(w, IterateStep(w, now, task), g)
    ensures Continues(w, IterateStep(w, now, task), g)
    ensures IterateStep(w, now, task).books[g] == IteratedBooks(w, task.pid)[g]
  {
    var t := w.threads[task.pid];
    ChargesGrow(w.books, t.tgid, Gap(t), t.cut.Some?, g);
  }

  lemma SameIncarnationCharges(w: World, e: Event, g: u32)
    requires g in w.born && g in w.books && Enabled(w, e) && !e.Fork? && !e.Iterate? && !e.Tick?
    ensures Continues(w, Step(w, e), g)
  {
    if e.Run? {
      ChargesGrow(w.books, w.threads[e.tid].tgid, e.ns, false, g);
    } else if e.MoveBaseline? {
      var t := w.threads[w.handlers[e.cpu].tid];
      ChargesGrow(w.books, t.tgid, Gap(t), t.cut.Some?, g);
    } else if e.Credit? {
      var h := w.handlers[e.cpu];
      ChargesGrow(w.books, h.tgid, Delta(h.baseline, h.runtime), false, g);
    } else if e.Release? {
      ChargesGrow(w.books, w.threads[e.tid].tgid, Gap(w.threads[e.tid]), false, g);
    } else {
      assert Step(w, e).books == w.books && Step(w, e).born == w.born;
    }
  }

  lemma BirthsStep(w: World, e: Event)
    ensures w.births <= Step(w, e).births
  {
    if !Enabled(w, e) {
    } else if e.Fork? {
      assert w.births <= ForkStep(w, e.now, e.child).births;
    } else if e.Iterate? {
      assert w.births <= IterateStep(w, e.now, e.task).births;
    } else {
      assert w.births == Step(w, e).births;
    }
  }

  lemma {:induction false} BirthsRise(w: World, events: seq<Event>)
    ensures w.births <= After(w, events).births
    decreases |events|
  {
    if events != [] {
      BirthsRise(w, events[..|events| - 1]);
      BirthsStep(After(w, events[..|events| - 1]), events[|events| - 1]);
    }
  }

  /** The same incarnation at both ends of a run is the same one before its last event. */
  lemma StaysBefore(w: World, events: seq<Event>, g: u32)
    requires Accounts(w) && events != [] && Stays(w, After(w, events), g)
    ensures var before := events[..|events| - 1];
            && Accounts(After(w, before)) && Stays(w, After(w, before), g)
            && Stays(After(w, before), After(w, events), g)
            && Continues(After(w, before), After(w, events), g)
  {
    var before := events[..|events| - 1];
    AlwaysAccounted(w, before);
    BirthsRise(w, before);
    SameOrNew(After(w, before), events[|events| - 1], g);
    SameIncarnation(After(w, before), events[|events| - 1], g);
  }

  /** Between two looks at the same incarnation the book only grows, whatever happened meanwhile. */
  lemma {:induction false} BookGrows(w: World, events: seq<Event>, g: u32)
    requires Accounts(w) && Stays(w, After(w, events), g)
    ensures Continues(w, After(w, events), g)
    decreases |events|
  {
    if events != [] {
      StaysBefore(w, events, g);
      BookGrows(w, events[..|events| - 1], g);
    }
  }
}
