/** Publication over restarts: a run that ended in any way, finished, failed or
    killed, is followed by a new one in its place, which may well have the same
    process id, as a restarted pod has. What a reader of the marker file may conclude. */
module PublicationRestarts {
  import opened PublicationNames
  import opened Publication

  datatype Event = Call(i: nat, amount: nat) | Restart(i: nat, next: Publisher)

  /** The publishers running now, and the directory they share. */
  datatype Site = Site(pubs: seq<Publisher>, system: System)

  function Then(site: Site, e: Event): Site {
    match e
    case Call(i, amount) =>
      if Schedulable(site.pubs, site.system, i)
      then site.(system := Step(site.pubs, site.system, i, amount)) else site
    case Restart(i, next) =>
      if i < |site.pubs| && |site.system.pcs| == |site.pubs|
      then Site(site.pubs[i := next], site.system.(pcs := site.system.pcs[i := Starting])) else site
  }

  function After(site: Site, events: seq<Event>): Site {
    if events == [] then site else Then(After(site, events[..|events|-1]), events[|events|-1])
  }

  /** Of all the runs there ever are, none stages a file under a name that some run
      uses for its own temporary files. */
  ghost predicate Tidy(all: set<Publisher>) {
    && (forall p | p in all :: '.' !in p.pid)
    && (forall p, q | p in all && q in all :: Respects(p, q))
  }

  ghost predicate Respects(p: Publisher, q: Publisher) {
    forall k | 0 <= k < |p.files| :: q.Scratch(p.Dest(k)) ==> p.Dest(k) == COMPLETION_MARKER
  }

  ghost predicate Among(all: set<Publisher>, pubs: seq<Publisher>) {
    Coexist(pubs) && forall i | 0 <= i < |pubs| :: pubs[i] in all
  }

  /** All runs are among `all`, and runs at the same time share no temporary name. */
  ghost predicate Orderly(all: set<Publisher>, site: Site, events: seq<Event>) {
    forall k | 0 <= k <= |events| :: Among(all, After(site, events[..k]).pubs)
  }

  lemma AmongIsSeparated(all: set<Publisher>, pubs: seq<Publisher>)
    requires Tidy(all) && Among(all, pubs)
    ensures Separated(pubs)
  {
    forall i, j, k | 0 <= i < |pubs| && 0 <= j < |pubs| && 0 <= k < |pubs[j].files|
      ensures pubs[i].Scratch(pubs[j].Dest(k)) ==> pubs[j].Dest(k) == COMPLETION_MARKER
    {
      assert Respects(pubs[j], pubs[i]);
    }
  }

  lemma OrderlyBefore(all: set<Publisher>, site: Site, events: seq<Event>)
    requires Orderly(all, site, events) && events != []
    ensures var front := events[..|events|-1];
            Orderly(all, site, front) && Among(all, After(site, front).pubs) && Among(all, After(site, events).pubs)
  {
    hide Among, After;
    var front := events[..|events|-1];
    forall k | 0 <= k <= |front| ensures Among(all, After(site, front[..k]).pubs) {
      assert front[..k] == events[..k];
    }
    assert front[..|front|] == front && events[..|events|] == events;
  }

  // ------------------------------------------------------------------- invariant

  /** Every publisher's progress stays justified over any number of restarts. */
  lemma {:induction false} RestartsKeepInv(all: set<Publisher>, site: Site, events: seq<Event>)
    requires Tidy(all) && Orderly(all, site, events) && Inv(site.pubs, site.system)
    ensures Inv(After(site, events).pubs, After(site, events).system)
  {
    hide Tidy, Among, Inv, Then, Orderly;
    if events != [] {
      OrderlyBefore(all, site, events);
      RestartsKeepInv(all, site, events[..|events|-1]);
      ThenKeepsInv(all, After(site, events[..|events|-1]), events[|events|-1]);
    }
  }

  lemma ThenKeepsInv(all: set<Publisher>, site: Site, e: Event)
    requires Tidy(all) && Among(all, site.pubs) && Inv(site.pubs, site.system)
    ensures Inv(Then(site, e).pubs, Then(site, e).system)
  {
    hide Tidy, Among, NoLinks, Published, StepOne;
    if e.Call? {
      AmongIsSeparated(all, site.pubs);
      hide Inv, Local;
      if Schedulable(site.pubs, site.system, e.i) {
        StepKeepsInv(site.pubs, site.system, e.i, e.amount);
      }
    }
  }

  // --------------------------------------------------------- committed artifacts

  /** Over any number of restarts a committed artifact keeps inode and content. */
  lemma {:induction false} CommittedOutlivesRestarts(all: set<Publisher>, site: Site, events: seq<Event>,
                                                     name: string, content: Bytes)
    requires Tidy(all) && Orderly(all, site, events) && Inv(site.pubs, site.system)
    requires (forall p | p in all :: !p.Scratch(name)) && site.system.shared.Holds(name, content)
    ensures var sh := After(site, events).system.shared;
            sh.Holds(name, content) && sh.names[name] == site.system.shared.names[name]
  {
    hide Tidy, Among, Inv, Orderly, Step, Publisher.Scratch;
    if events != [] {
      var front, e := events[..|events|-1], events[|events|-1];
      OrderlyBefore(all, site, events);
      CommittedOutlivesRestarts(all, site, front, name, content);
      RestartsKeepInv(all, site, front);
      var t := After(site, front);
      AmongIsSeparated(all, t.pubs);
      if e.Call? && Schedulable(t.pubs, t.system, e.i) {
        StepKeepsInv(t.pubs, t.system, e.i, e.amount);
        assert t.pubs[e.i] in all by { OneAmong(all, t.pubs, e.i); }
      }
    }
  }

  lemma OneAmong(all: set<Publisher>, pubs: seq<Publisher>, i: nat)
    requires Among(all, pubs) && i < |pubs|
    ensures pubs[i] in all
  {
  }

  // ------------------------------------------------------------------ the marker

  /** Some run has all its files present with equal content, and its id is in the marker. */
  ghost predicate Vouched(all: set<Publisher>, sh: Shared) {
    COMPLETION_MARKER in sh.names ==>
      exists p :: p in all && Published(p, sh, |p.files|) && sh.Holds(COMPLETION_MARKER, p.MarkerText())
  }

  /** Only starting and finishing runs touch the marker. */
  lemma StepSparesMarker(p: Publisher, sh: Shared, pc: Pc, amount: nat)
    requires Apart(p) && NoLinks(sh) && Local(p, sh, pc) && !pc.Starting? && !pc.MarkMoving?
    requires COMPLETION_MARKER in sh.names
    ensures var sh' := StepOne(p, sh, pc, amount).0;
            && COMPLETION_MARKER in sh'.names && sh'.names[COMPLETION_MARKER] == sh.names[COMPLETION_MARKER]
            && forall text | sh.Holds(COMPLETION_MARKER, text) :: sh'.Holds(COMPLETION_MARKER, text)
  {
    hide Published, Apart, Truncate, WriteAt, Publisher.Temp, MarkerTempName;
    MarkerIsNoTemp(p);
    match pc
    case Opening(k) => TruncateKeeps(sh, p.Temp(k), []);
    case Marking => TruncateKeeps(sh, MarkerTempName(p.pid), p.MarkerText());
    case _ =>
  }

  lemma MarkerIsNoTemp(p: Publisher)
    requires Apart(p)
    ensures COMPLETION_MARKER != MarkerTempName(p.pid)
    ensures forall k | 0 <= k < |p.files| :: p.Temp(k) != COMPLETION_MARKER
  {
    hide TempName, MarkerTempName;
    forall k | 0 <= k < |p.files| ensures p.Temp(k) != COMPLETION_MARKER {
      TempNamesDistinct(p.Dest(k), p.pid, "", p.pid);
    }
    TempNamesDistinct("", p.pid, "", p.pid);
  }

  lemma StepKeepsVouched(all: set<Publisher>, site: Site, i: nat, amount: nat)
    requires Tidy(all) && Among(all, site.pubs) && Inv(site.pubs, site.system) && Schedulable(site.pubs, site.system, i)
    requires Vouched(all, site.system.shared)
    ensures Vouched(all, Step(site.pubs, site.system, i, amount).shared)
  {
    hide Tidy, Among, NoLinks, Published, StepOne, Publisher.MarkerText, MarkerTempName;
    var q, sh, pc := site.pubs[i], site.system.shared, site.system.pcs[i];
    var sh' := Step(site.pubs, site.system, i, amount).shared;
    AmongIsSeparated(all, site.pubs);
    OneAmong(all, site.pubs, i);
    StepKeepsInv(site.pubs, site.system, i, amount);
    if pc.Starting? {
      StartingClears(q, sh, amount);
    } else if pc.MarkMoving? {
      MarkMovingVouches(q, sh, amount);
      if MarkerTempName(q.pid) in sh.names {
        FinishedIsPublished(site.pubs, Step(site.pubs, site.system, i, amount), i);
      }
    } else if COMPLETION_MARKER in sh'.names {
      NoStepMakesMarker(q, sh, pc, amount);
      StepSparesMarker(q, sh, pc, amount);
      var p :| p in all && Published(p, sh, |p.files|) && sh.Holds(COMPLETION_MARKER, p.MarkerText());
      AllRespect(all, p, q);
      PublishedKept(p, q, sh, sh', |p.files|);
    }
  }

  lemma AllRespect(all: set<Publisher>, p: Publisher, q: Publisher)
    requires Tidy(all) && p in all && q in all
    ensures forall k | 0 <= k < |p.files| :: q.Scratch(p.Dest(k)) ==> p.Dest(k) == COMPLETION_MARKER
  {
    assert Respects(p, q);
  }

  lemma StartingClears(p: Publisher, sh: Shared, amount: nat)
    ensures COMPLETION_MARKER !in StepOne(p, sh, Starting, amount).0.names
  {
  }

  lemma MarkMovingVouches(p: Publisher, sh: Shared, amount: nat)
    requires Local(p, sh, MarkMoving)
    ensures var (sh', pc') := StepOne(p, sh, MarkMoving, amount);
            if MarkerTempName(p.pid) in sh.names then pc' == Finished && sh'.Holds(COMPLETION_MARKER, p.MarkerText())
            else sh' == sh
  {
    hide Published;
  }

  lemma FinishedIsPublished(pubs: seq<Publisher>, s: System, i: nat)
    requires Inv(pubs, s) && i < |pubs| && s.pcs[i] == Finished
    ensures Published(pubs[i], s.shared, |pubs[i].files|)
  {
    assert Local(pubs[i], s.shared, s.pcs[i]);
  }

  lemma NoStepMakesMarker(p: Publisher, sh: Shared, pc: Pc, amount: nat)
    requires Apart(p) && NoLinks(sh) && Local(p, sh, pc) && !pc.MarkMoving?
    requires COMPLETION_MARKER in StepOne(p, sh, pc, amount).0.names
    ensures COMPLETION_MARKER in sh.names
  {
    hide Published, Apart, Truncate, WriteAt, Publisher.Temp, MarkerTempName;
    MarkerIsNoTemp(p);
    match pc
    case Opening(k) => TruncateKeeps(sh, p.Temp(k), []);
    case Marking => TruncateKeeps(sh, MarkerTempName(p.pid), p.MarkerText());
    case _ =>
  }

  lemma NoMarkerIsVouched(all: set<Publisher>, sh: Shared)
    requires COMPLETION_MARKER !in sh.names
    ensures Vouched(all, sh)
  {
  }

  /** What the marker tells a reader: if it was not there before, then at any later
      moment, however many runs were killed and started again in between, some run
      has every file it staged present with equal content, and the marker names it. */
  lemma {:induction false} MarkerVouchesForAll(all: set<Publisher>, site: Site, events: seq<Event>)
    requires Tidy(all) && Orderly(all, site, events) && Inv(site.pubs, site.system)
    requires COMPLETION_MARKER !in site.system.shared.names
    ensures Vouched(all, After(site, events).system.shared)
  {
    hide Tidy, Among, Inv, Orderly, Vouched, Step;
    if events == [] {
      NoMarkerIsVouched(all, site.system.shared);
    } else {
      var front, e := events[..|events|-1], events[|events|-1];
      OrderlyBefore(all, site, events);
      MarkerVouchesForAll(all, site, front);
      RestartsKeepInv(all, site, front);
      var t := After(site, front);
      if e.Call? && Schedulable(t.pubs, t.system, e.i) {
        StepKeepsVouched(all, t, e.i, e.amount);
      }
    }
  }
}
