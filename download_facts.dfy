/**
 * What the desktop worker's loop guarantees, stated over the specification functions of `Downloader`
 * (which the worker's methods are proved to follow): one `download_finished` signal per item reached,
 * in item order and `True` only on success; one call into yt_dlp per started item, writing into the
 * right folder; nothing started once the stop flag is seen; and the closing "all completed" status
 * exactly when the flag is clear at the end.
 */
module DownloadFacts {
  import opened Text
  import opened Filename
  import opened VideoInfo
  import opened Downloader

  /** A view of the signals: the `download_finished` signals, the calls into yt_dlp, or the closing status. */
  datatype View = Finishes | Calls | Summary

  predicate Keeps(v: View, e: Event) {
    match v
    case Finishes => e.Finished?
    case Calls => e.DownloadCall?
    case Summary => e == Status(AllDone)
  }

  /** The signals among `es` that view `v` keeps, in order. */
  function Only(v: View, es: seq<Event>): seq<Event> {
    if es == [] then [] else (if Keeps(v, es[0]) then [es[0]] else []) + Only(v, es[1..])
  }

  /** The finish signals expected for items `k`, `k + 1`, ... with the given outcomes. */
  function Reports(items: seq<Item>, k: nat, outcomes: seq<Outcome>): seq<Event>
    requires k + |outcomes| <= |items|
    decreases |outcomes|
  {
    if outcomes == [] then []
    else [Finished(items[k].title, outcomes[0].Succeeded?)] + Reports(items, k + 1, outcomes[1..])
  }

  /** The download calls expected for items `k`, `k + 1`, ... with the given outcomes: one per started item. */
  function StartedCalls(job: Job, items: seq<Item>, k: nat, outcomes: seq<Outcome>): seq<Event>
    requires k + |outcomes| <= |items|
    decreases |outcomes|
  {
    if outcomes == [] then []
    else (if Started(outcomes[0]) then [CallFor(job, items[k])] else []) + StartedCalls(job, items, k + 1, outcomes[1..])
  }

  /** One finish signal per outcome, for the item in the same position, `True` exactly for a success. */
  lemma {:induction false} ReportsShape(items: seq<Item>, k: nat, outcomes: seq<Outcome>)
    requires k + |outcomes| <= |items|
    ensures var fs := Reports(items, k, outcomes);
      |fs| == |outcomes|
      && forall i :: 0 <= i < |fs| ==> fs[i] == Finished(items[k + i].title, outcomes[i].Succeeded?)
    decreases |outcomes|
  {
    if outcomes != [] {
      var fs := Reports(items, k, outcomes);
      var rest := Reports(items, k + 1, outcomes[1..]);
      ReportsShape(items, k + 1, outcomes[1..]);
      assert fs == [Finished(items[k].title, outcomes[0].Succeeded?)] + rest;
      forall i | 1 <= i < |fs|
        ensures fs[i] == Finished(items[k + i].title, outcomes[i].Succeeded?)
      {
        assert fs[i] == rest[i - 1];
      }
    }
  }

  /** A call into yt_dlp for one of items `k`, `k + 1`, ..., into the job's folder with the job's format. */
  predicate CallInto(job: Job, items: seq<Item>, k: nat, c: Event) {
    c.DownloadCall? && c.outtmpl == Join(OutputDir(job), Template) && c.format == job.format
    && exists j :: k <= j < |items| && c.url == items[j].url
  }

  /** At most one call per outcome, each into the job's folder with the job's format, for one of the items. */
  lemma {:induction false} StartedCallsShape(job: Job, items: seq<Item>, k: nat, outcomes: seq<Outcome>)
    requires k + |outcomes| <= |items|
    ensures var calls := StartedCalls(job, items, k, outcomes);
      |calls| <= |outcomes| && forall c :: c in calls ==> CallInto(job, items, k, c)
    decreases |outcomes|
  {
    if outcomes != [] {
      var h := if Started(outcomes[0]) then [CallFor(job, items[k])] else [];
      var rest := StartedCalls(job, items, k + 1, outcomes[1..]);
      StartedCallsShape(job, items, k + 1, outcomes[1..]);
      assert StartedCalls(job, items, k, outcomes) == h + rest;
      forall c: Event | c in h + rest
        ensures CallInto(job, items, k, c)
      {
        if c in rest {
          assert CallInto(job, items, k + 1, c);
          var j :| k + 1 <= j < |items| && c.url == items[j].url;
        } else {
          assert c == CallFor(job, items[k]);
          assert c.url == items[k].url;
        }
      }
    }
  }

  /** What view `v` keeps of the signals of `item` when it ends with outcome `o`. */
  function ItemView(v: View, job: Job, item: Item, o: Outcome): seq<Event> {
    match v
    case Finishes => [Finished(item.title, o.Succeeded?)]
    case Calls => if Started(o) then [CallFor(job, item)] else []
    case Summary => []
  }

  /** What view `v` keeps of the signals of items `k`, `k + 1`, ... when they end with `outcomes`. */
  function RunView(v: View, job: Job, items: seq<Item>, k: nat, outcomes: seq<Outcome>): seq<Event>
    requires k + |outcomes| <= |items|
  {
    match v
    case Finishes => Reports(items, k, outcomes)
    case Calls => StartedCalls(job, items, k, outcomes)
    case Summary => []
  }

  lemma RunViewCons(v: View, job: Job, items: seq<Item>, k: nat, outcomes: seq<Outcome>)
    requires k + |outcomes| <= |items| && outcomes != []
    ensures RunView(v, job, items, k, outcomes)
         == ItemView(v, job, items[k], outcomes[0]) + RunView(v, job, items, k + 1, outcomes[1..])
  {
  }

  lemma {:induction false} OnlyAppend(v: View, a: seq<Event>, b: seq<Event>)
    ensures Only(v, a + b) == Only(v, a) + Only(v, b)
    decreases |a|
  {
    if a == [] {
      assert a + b == b;
    } else {
      var h := if Keeps(v, a[0]) then [a[0]] else [];
      assert (a + b)[0] == a[0];
      assert (a + b)[1..] == a[1..] + b;
      OnlyAppend(v, a[1..], b);
      calc {
        Only(v, a + b);
        h + Only(v, a[1..] + b);
        h + (Only(v, a[1..]) + Only(v, b));
        (h + Only(v, a[1..])) + Only(v, b);
      }
    }
  }

  lemma OnlyOne(v: View, e: Event)
    ensures Only(v, [e]) == if Keeps(v, e) then [e] else []
  {
    assert [e][1..] == [];
  }

  /** Progress, log and error signals are in no view. */
  lemma {:induction false} Hidden(v: View, es: seq<Event>)
    requires forall e :: e in es ==> e.Progress? || e.Log? || e.Error?
    ensures Only(v, es) == []
    decreases |es|
  {
    if es != [] {
      assert es[0] in es;
      assert forall e :: e in es[1..] ==> e in es;
      Hidden(v, es[1..]);
    }
  }

  /** The closing status is among `es` exactly when the summary view of `es` is not empty. */
  lemma {:induction false} SummaryShows(es: seq<Event>)
    ensures Status(AllDone) in es <==> Only(Summary, es) != []
    decreases |es|
  {
    if es != [] {
      SummaryShows(es[1..]);
      assert es == [es[0]] + es[1..];
    }
  }

  /** Three signals whose first two are outside view `v`: the view keeps what it keeps of the third. */
  lemma OnlyThird(v: View, x: Event, y: Event, z: Event)
    requires !Keeps(v, x) && !Keeps(v, y)
    ensures Only(v, [x, y, z]) == Only(v, [z])
  {
    assert [x, y, z][1..] == [y, z];
    assert [y, z][1..] == [z];
  }

  /** The closing signals of an item hold its one finish signal, last, and nothing else any view keeps. */
  lemma OutcomeSignals(v: View, title: string, o: Outcome)
    ensures Only(v, OutcomeEvents(title, o)) == if v == Finishes then [Finished(title, o.Succeeded?)] else []
    ensures OutcomeEvents(title, o)[|OutcomeEvents(title, o)| - 1] == Finished(title, o.Succeeded?)
  {
    var fin := Finished(title, o.Succeeded?);
    OnlyOne(v, fin);
    match o
    case Succeeded =>
    case Halted =>
      assert AllDone[0] == 'ا' && StoppedStatus[0] == 'ت';
      OnlyThird(v, Status(StoppedStatus), Log(StopText), fin);
    case Stopped =>
      assert AllDone[0] == 'ا' && ItemStoppedText(title)[0] == 'ت';
      OnlyThird(v, Status(ItemStoppedText(title)), Log(ItemStoppedText(title)), fin);
    case DirFailed(m) =>
      OnlyThird(v, Error(m), Log(m), fin);
    case Failed(m) =>
      OnlyThird(v, Error(m), Log(m), fin);
  }

  lemma OnlyAppend4(v: View, a: seq<Event>, b: seq<Event>, c: seq<Event>, d: seq<Event>)
    ensures Only(v, a + b + c + d) == Only(v, a) + Only(v, b) + Only(v, c) + Only(v, d)
  {
    OnlyAppend(v, a, b);
    OnlyAppend(v, a + b, c);
    OnlyAppend(v, a + b + c, d);
  }

  /** The hook emits nothing any view keeps. */
  lemma HookSignalsHidden(v: View, calls: seq<HookCall>, lib: LibResult)
    ensures Only(v, RunHooks(false, calls, 0, lib).events) == []
  {
    Hidden(v, RunHooks(false, calls, 0, lib).events);
  }

  /** The signals of a started item, given that nothing before its call and nothing from the hook is in a view. */
  lemma StartedView(v: View, job: Job, item: Item, before: seq<Event>, hook: seq<Event>, o: Outcome)
    requires Only(v, before) == [] && Only(v, hook) == [] && Started(o)
    ensures Only(v, before + [CallFor(job, item)] + hook + OutcomeEvents(item.title, o)) == ItemView(v, job, item, o)
  {
    var call := CallFor(job, item);
    OutcomeSignals(v, item.title, o);
    OnlyOne(v, call);
    OnlyAppend4(v, before, [call], hook, OutcomeEvents(item.title, o));
    assert Only(v, before + [call] + hook + OutcomeEvents(item.title, o))
        == Only(v, [call]) + Only(v, OutcomeEvents(item.title, o));
  }

  /** A started item: its one call and its one finish signal are all that the views keep of it. */
  lemma TransferStepView(v: View, job: Job, item: Item, before: seq<Event>, env: ItemEnv)
    requires Only(v, before) == []
    ensures var st := TransferStep(job, item, before, env);
      Only(v, st.events) == ItemView(v, job, item, st.outcome)
  {
    var t := RunHooks(false, env.calls, 0, env.result);
    HookSignalsHidden(v, env.calls, env.result);
    StartedView(v, job, item, before, t.events, TransferOutcome(item.title, t.result));
  }

  /** The signals that open an item, with or without the log line of a new folder, are in no view. */
  lemma StartHidden(v: View, k: nat, total: nat, title: string, path: string)
    ensures Only(v, StartEvents(k, total, title)) == []
    ensures Only(v, StartEvents(k, total, title) + [Log(DirCreatedLog(path))]) == []
  {
    var start := StartEvents(k, total, title);
    assert AllDone[0] == 'ا' && StartStatus(k, total, title)[0] == 'ج';
    assert start == [start[0]] + [start[1]];
    OnlyOne(v, start[0]);
    OnlyOne(v, start[1]);
    OnlyOne(v, Log(DirCreatedLog(path)));
    OnlyAppend(v, [start[0]], [start[1]]);
    OnlyAppend(v, start, [Log(DirCreatedLog(path))]);
  }

  /** An item whose folder cannot be created: its one finish signal, `False`, is all the views keep of it. */
  lemma DirFailedView(v: View, k: nat, total: nat, title: string, e: string)
    ensures Only(v, StartEvents(k, total, title) + OutcomeEvents(title, DirFailed(DirFailMessage(e))))
         == if v == Finishes then [Finished(title, false)] else []
  {
    StartHidden(v, k, total, title, "");
    OutcomeSignals(v, title, DirFailed(DirFailMessage(e)));
    OnlyAppend(v, StartEvents(k, total, title), OutcomeEvents(title, DirFailed(DirFailMessage(e))));
  }

  /** An iteration entered with the flag set, or stopped before its check: only its `False` signal. */
  lemma HaltedStepView(v: View, job: Job, k: nat, total: nat, item: Item, flag: bool, env: ItemEnv)
    requires flag || env.stopBeforeCheck
    ensures var st := ItemStep(job, k, total, item, flag, env);
      Only(v, st.events) == ItemView(v, job, item, st.outcome)
  {
    OutcomeSignals(v, item.title, Halted);
  }

  /** An iteration whose collection folder cannot be created. */
  lemma DirFailedStepView(v: View, job: Job, k: nat, total: nat, item: Item, flag: bool, env: ItemEnv)
    requires !(flag || env.stopBeforeCheck) && Truthy(job.playlistTitle) && env.dir.DirCreateFailed?
    ensures var st := ItemStep(job, k, total, item, flag, env);
      Only(v, st.events) == ItemView(v, job, item, st.outcome)
  {
    var o := DirFailed(DirFailMessage(env.dir.text));
    assert ItemStep(job, k, total, item, flag, env)
        == Step(false, StartEvents(k, total, item.title) + OutcomeEvents(item.title, o), o);
    DirFailedView(v, k, total, item.title, env.dir.text);
  }

  /** An iteration that creates the collection's folder before the download. */
  lemma DirCreatedView(v: View, job: Job, k: nat, total: nat, item: Item, flag: bool, env: ItemEnv)
    requires !(flag || env.stopBeforeCheck) && Truthy(job.playlistTitle) && env.dir.DirCreated?
    ensures var st := ItemStep(job, k, total, item, flag, env);
      Only(v, st.events) == ItemView(v, job, item, st.outcome)
  {
    StartHidden(v, k, total, item.title, OutputDir(job));
    TransferStepView(v, job, item, StartEvents(k, total, item.title) + [Log(DirCreatedLog(OutputDir(job)))], env);
  }

  /** An iteration that downloads without creating a folder. */
  lemma PlainStartView(v: View, job: Job, k: nat, total: nat, item: Item, flag: bool, env: ItemEnv)
    requires !(flag || env.stopBeforeCheck) && !(Truthy(job.playlistTitle) && !env.dir.DirExists?)
    ensures var st := ItemStep(job, k, total, item, flag, env);
      Only(v, st.events) == ItemView(v, job, item, st.outcome)
  {
    StartHidden(v, k, total, item.title, "");
    TransferStepView(v, job, item, StartEvents(k, total, item.title), env);
  }

  /**
   * One iteration of the loop emits exactly one finish signal, `True` only on success; it calls yt_dlp
   * exactly when it starts the item; and it never emits the closing status.
   */
  lemma ItemStepView(v: View, job: Job, k: nat, total: nat, item: Item, flag: bool, env: ItemEnv)
    ensures var st := ItemStep(job, k, total, item, flag, env);
      Only(v, st.events) == ItemView(v, job, item, st.outcome)
  {
    if flag || env.stopBeforeCheck {
      HaltedStepView(v, job, k, total, item, flag, env);
    } else if Truthy(job.playlistTitle) && env.dir.DirCreateFailed? {
      DirFailedStepView(v, job, k, total, item, flag, env);
    } else if Truthy(job.playlistTitle) && env.dir.DirCreated? {
      DirCreatedView(v, job, k, total, item, flag, env);
    } else {
      PlainStartView(v, job, k, total, item, flag, env);
    }
  }

  /** Putting an item's signals in front of a run's puts its view in front of the run's. */
  lemma ConsView(v: View, job: Job, items: seq<Item>, k: nat, o: Outcome, os: seq<Outcome>, first: seq<Event>, rest: seq<Event>)
    requires k + 1 + |os| <= |items|
    requires Only(v, first) == ItemView(v, job, items[k], o)
    requires Only(v, rest) == RunView(v, job, items, k + 1, os)
    ensures Only(v, first + rest) == RunView(v, job, items, k, [o] + os)
  {
    OnlyAppend(v, first, rest);
    RunViewCons(v, job, items, k, [o] + os);
    assert ([o] + os)[1..] == os;
  }

  /** Every iteration of `body` over `items` emits what view `v` keeps of an item with its outcome. */
  predicate ItemsViewed(v: View, job: Job, items: seq<Item>, body: (nat, bool) -> Step) {
    forall i: nat, f: bool :: i < |items| ==> Only(v, body(i, f).events) == ItemView(v, job, items[i], body(i, f).outcome)
  }

  /** An iteration that halts ends the loop with its own signals. */
  lemma LoopHaltedView(v: View, job: Job, items: seq<Item>, body: (nat, bool) -> Step, k: nat, flag: bool)
    requires k < |items| && body(k, flag).outcome.Halted?
    requires Only(v, body(k, flag).events) == ItemView(v, job, items[k], Halted)
    ensures var r := Loop(body, |items|, k, flag);
      Only(v, r.events) == RunView(v, job, items, k, r.outcomes)
  {
    var st := body(k, flag);
    assert Loop(body, |items|, k, flag) == Run(st.flag, st.events, [Halted]);
    ConsView(v, job, items, k, Halted, [], st.events, []);
    assert st.events + [] == st.events;
  }

  /** An iteration that does not halt puts its signals in front of the rest of the loop's. */
  lemma LoopNextView(v: View, job: Job, items: seq<Item>, body: (nat, bool) -> Step, k: nat, flag: bool)
    requires k < |items| && !body(k, flag).outcome.Halted?
    requires Only(v, body(k, flag).events) == ItemView(v, job, items[k], body(k, flag).outcome)
    requires var rest := Loop(body, |items|, k + 1, body(k, flag).flag);
      Only(v, rest.events) == RunView(v, job, items, k + 1, rest.outcomes)
    ensures var r := Loop(body, |items|, k, flag);
      Only(v, r.events) == RunView(v, job, items, k, r.outcomes)
  {
    var st := body(k, flag);
    var rest := Loop(body, |items|, k + 1, st.flag);
    assert Loop(body, |items|, k, flag) == Run(rest.flag, st.events + rest.events, [st.outcome] + rest.outcomes);
    ConsView(v, job, items, k, st.outcome, rest.outcomes, st.events, rest.events);
  }

  /** A loop whose every iteration is viewed item by item is viewed item by item, up to where it stops. */
  lemma {:induction false} LoopView(v: View, job: Job, items: seq<Item>, body: (nat, bool) -> Step, k: nat, flag: bool)
    requires k <= |items| && ItemsViewed(v, job, items, body)
    ensures var r := Loop(body, |items|, k, flag);
      Only(v, r.events) == RunView(v, job, items, k, r.outcomes)
    decreases |items| - k
  {
    if k < |items| {
      var st := body(k, flag);
      assert Only(v, st.events) == ItemView(v, job, items[k], st.outcome);
      if st.outcome.Halted? {
        LoopHaltedView(v, job, items, body, k, flag);
      } else {
        LoopView(v, job, items, body, k + 1, st.flag);
        LoopNextView(v, job, items, body, k, flag);
      }
    }
  }

  /**
   * The loop from item `k` on: one finish signal per item reached, in item order, `True` only on success;
   * one call per started item, in item order; never the closing status.
   */
  lemma RunItemsView(v: View, job: Job, items: seq<Item>, k: nat, flag: bool, env: nat -> ItemEnv)
    requires k <= |items|
    ensures var r := RunItems(job, items, k, flag, env);
      Only(v, r.events) == RunView(v, job, items, k, r.outcomes)
  {
    var body := Iterations(job, items, env);
    forall i: nat, f: bool | i < |items|
      ensures Only(v, body(i, f).events) == ItemView(v, job, items[i], body(i, f).outcome)
    {
      ItemStepView(v, job, i, |items|, items[i], f, env(i));
    }
    LoopView(v, job, items, body, k, flag);
  }

  /**
   * One iteration of the loop halts exactly when the flag is set at the check, which leaves it set; a
   * set flag stays set; a folder failure leaves it clear.
   */
  lemma ItemStepHalts(job: Job, k: nat, total: nat, item: Item, flag: bool, env: ItemEnv)
    ensures var st := ItemStep(job, k, total, item, flag, env);
      (st.outcome.Halted? <==> flag || env.stopBeforeCheck)
      && (flag ==> st.flag)
      && (st.outcome.Halted? ==> st.flag)
      && (st.outcome.DirFailed? ==> !st.flag)
  {
    if !(flag || env.stopBeforeCheck) && !(Truthy(job.playlistTitle) && env.dir.DirCreateFailed?) {
      var start := StartEvents(k, total, item.title);
      var before := if Truthy(job.playlistTitle) && env.dir.DirCreated? then start + [Log(DirCreatedLog(OutputDir(job)))]
                    else start;
      assert ItemStep(job, k, total, item, flag, env) == TransferStep(job, item, before, env);
      TransferStepStarts(job, item, before, env);
    }
  }

  /** A started item ends started: neither halted nor failed on its folder. */
  lemma TransferStepStarts(job: Job, item: Item, before: seq<Event>, env: ItemEnv)
    ensures Started(TransferStep(job, item, before, env).outcome)
  {
  }

  /** No item but the last one reached is halted. */
  predicate HaltedOnlyLast(os: seq<Outcome>) {
    forall i :: 0 <= i < |os| - 1 ==> !os[i].Halted?
  }

  /** The last item reached was halted. */
  predicate EndsHalted(os: seq<Outcome>) {
    |os| > 0 && os[|os| - 1].Halted?
  }

  /** Putting an item that was not halted in front changes neither property. */
  lemma PrependStarted(o: Outcome, os: seq<Outcome>)
    requires !o.Halted?
    ensures HaltedOnlyLast([o] + os) <==> HaltedOnlyLast(os)
    ensures EndsHalted([o] + os) <==> EndsHalted(os)
  {
    var s := [o] + os;
    assert forall i :: 0 < i < |s| ==> s[i] == os[i - 1];
    if HaltedOnlyLast(s) {
      forall j | 0 <= j < |os| - 1
        ensures !os[j].Halted?
      {
        assert os[j] == s[j + 1];
      }
    }
  }

  /** The three stopping properties of the outcomes `os` of items `k`, `k + 1`, ... of `n`, ending with the flag at `flag`. */
  predicate StopsCleanly(k: nat, n: nat, os: seq<Outcome>, flag: bool) {
    HaltedOnlyLast(os) && (k + |os| < n ==> EndsHalted(os)) && (EndsHalted(os) ==> flag)
  }

  /** A started item in front of a run that stops cleanly keeps it so. */
  lemma ConsStops(k: nat, n: nat, o: Outcome, os: seq<Outcome>, flag: bool)
    requires !o.Halted? && StopsCleanly(k + 1, n, os, flag)
    ensures StopsCleanly(k, n, [o] + os, flag)
  {
    PrependStarted(o, os);
  }

  /** A halted iteration of `body` leaves the flag set. */
  predicate HaltSets(body: (nat, bool) -> Step, n: nat) {
    forall i: nat, f: bool :: i < n && body(i, f).outcome.Halted? ==> body(i, f).flag
  }

  /** A loop whose halted iterations leave the flag set stops cleanly. */
  lemma {:induction false} LoopHalts(body: (nat, bool) -> Step, n: nat, k: nat, flag: bool)
    requires k <= n && HaltSets(body, n)
    ensures var r := Loop(body, n, k, flag);
      StopsCleanly(k, n, r.outcomes, r.flag)
    decreases n - k
  {
    if k < n {
      var st := body(k, flag);
      if st.outcome.Halted? {
        assert StopsCleanly(k, n, [Halted], st.flag);
      } else {
        var rest := Loop(body, n, k + 1, st.flag);
        LoopHalts(body, n, k + 1, st.flag);
        ConsStops(k, n, st.outcome, rest.outcomes, rest.flag);
      }
    }
  }

  /**
   * Stopping in the loop: only the last item reached can be halted, and the loop ends before the last
   * item only by halting, which leaves the flag set.
   */
  lemma RunItemsHalts(job: Job, items: seq<Item>, k: nat, flag: bool, env: nat -> ItemEnv)
    requires k <= |items|
    ensures var r := RunItems(job, items, k, flag, env);
      HaltedOnlyLast(r.outcomes)
      && (k + |r.outcomes| < |items| ==> EndsHalted(r.outcomes))
      && (EndsHalted(r.outcomes) ==> r.flag)
  {
    var body := Iterations(job, items, env);
    forall i: nat, f: bool | i < |items| && body(i, f).outcome.Halted?
      ensures body(i, f).flag
    {
      ItemStepHalts(job, i, |items|, items[i], f, env(i));
    }
    LoopHalts(body, |items|, k, flag);
  }

  /** A flag already set halts the very next item, and a set flag stays set to the end of the loop. */
  lemma RunItemsFlagSticks(job: Job, items: seq<Item>, k: nat, flag: bool, env: nat -> ItemEnv)
    requires k <= |items|
    ensures var r := RunItems(job, items, k, flag, env);
      (flag ==> r.flag) && (flag && k < |items| ==> r.outcomes == [Halted])
  {
    if flag && k < |items| {
      ItemStepHalts(job, k, |items|, items[k], flag, env(k));
      RunItemsUnfold(job, items, k, flag, env);
    }
  }

  /** A run that gives up before the loop reports an error and nothing else: no item, no call, no finish, no closing status. */
  lemma AbortedRunSignals(req: Request, env: RunEnv)
    requires PlanOf(req, env).Abort?
    ensures var r := RunDownloadSpec(req, env);
      r.outcomes == [] && Only(Finishes, r.events) == [] && Only(Calls, r.events) == [] && Status(AllDone) !in r.events
      && |r.events| == 2 && r.events[0].Error? && r.events[1] == Log(FailPrefix + r.events[0].text)
  {
    var es := PlanOf(req, env).events;
    Hidden(Finishes, es);
    Hidden(Calls, es);
  }

  /** The closing signals, present when the flag is clear, add the closing status to the summary view only. */
  lemma TailView(v: View, events: seq<Event>, flag: bool)
    ensures Only(v, events + (if flag then [] else [Status(AllDone), Log(AllDone)]))
         == Only(v, events) + (if v == Summary && !flag then [Status(AllDone)] else [])
  {
    var tail: seq<Event> := if flag then [] else [Status(AllDone), Log(AllDone)];
    if !flag {
      assert tail == [tail[0]] + [tail[1]];
      OnlyOne(v, tail[0]);
      OnlyOne(v, tail[1]);
      OnlyAppend(v, [tail[0]], [tail[1]]);
    }
    OnlyAppend(v, events, tail);
  }

  /** A run that reaches the loop: what each view keeps is what the loop's view keeps, plus the closing status when the flag is clear at the end. */
  lemma RunDownloadView(v: View, req: Request, env: RunEnv)
    requires PlanOf(req, env).Go?
    ensures var r := RunDownloadSpec(req, env);
      var p := PlanOf(req, env);
      Only(v, r.events) == RunView(v, p.job, p.items, 0, r.outcomes)
        + (if v == Summary && !r.flag then [Status(AllDone)] else [])
  {
    var p := PlanOf(req, env);
    var body := RunItems(p.job, p.items, 0, false, env.items);
    RunItemsView(v, p.job, p.items, 0, false, env.items);
    TailView(v, body.events, body.flag || env.stopBeforeEnd);
  }

  /**
   * A run that reaches the loop reports one finish signal per item reached (at least the first), in order,
   * calls yt_dlp once per started item, and ends with the closing status exactly when the flag is clear
   * at the end.
   */
  lemma RunDownloadSignals(req: Request, env: RunEnv)
    requires PlanOf(req, env).Go?
    ensures var r := RunDownloadSpec(req, env);
      var items := PlanOf(req, env).items;
      1 <= |r.outcomes| <= |items|
      && Only(Finishes, r.events) == Reports(items, 0, r.outcomes)
      && Only(Calls, r.events) == StartedCalls(PlanOf(req, env).job, items, 0, r.outcomes)
      && (Status(AllDone) in r.events <==> !r.flag)
  {
    RunDownloadView(Finishes, req, env);
    RunDownloadView(Calls, req, env);
    RunDownloadView(Summary, req, env);
    SummaryShows(RunDownloadSpec(req, env).events);
  }

  /** A run resolved from the URL has no playlist title in effect: every call writes directly into the base folder. */
  lemma ResolvedRunsWriteUnderBase(req: Request, env: RunEnv)
    requires !(req.selected.Some? && |req.selected.value| > 0)
    ensures forall c :: c in Only(Calls, RunDownloadSpec(req, env).events) ==>
      c.DownloadCall? && c.outtmpl == Join(req.base, Template)
  {
    if PlanOf(req, env).Go? {
      var p := PlanOf(req, env);
      RunDownloadView(Calls, req, env);
      StartedCallsShape(p.job, p.items, 0, RunDownloadSpec(req, env).outcomes);
    } else {
      AbortedRunSignals(req, env);
    }
  }

  /** A run over a selection with a truthy collection title writes into the sanitised collection folder. */
  lemma PlaylistRunsWriteUnderCollection(req: Request, env: RunEnv)
    requires req.selected.Some? && |req.selected.value| > 0 && Truthy(req.playlistOverride)
    ensures forall c :: c in Only(Calls, RunDownloadSpec(req, env).events) ==>
      c.DownloadCall? && c.outtmpl == Join(Join(req.base, Sanitize(req.playlistOverride.value)), Template)
  {
    var p := PlanOf(req, env);
    RunDownloadView(Calls, req, env);
    StartedCallsShape(p.job, p.items, 0, RunDownloadSpec(req, env).outcomes);
  }

  /**
   * A stop request that lands before the first item is checked: that item is reported as not finished,
   * nothing is downloaded, and the closing status is not emitted.
   */
  lemma StopBeforeFirstItem(req: Request, env: RunEnv)
    requires PlanOf(req, env).Go? && env.items(0).stopBeforeCheck
    ensures var r := RunDownloadSpec(req, env);
      r.outcomes == [Halted] && r.flag && Only(Calls, r.events) == []
      && Only(Finishes, r.events) == [Finished(PlanOf(req, env).items[0].title, false)]
      && Status(AllDone) !in r.events
  {
    var job, items := PlanOf(req, env).job, PlanOf(req, env).items;
    ItemStepHalts(job, 0, |items|, items[0], false, env.items(0));
    RunDownloadSignals(req, env);
  }

  /**
   * Inside one download call the flag ends up set exactly when it was set already or a stop request landed
   * before some hook invocation; once that happens the call ends with the hook's stop error.
   */
  lemma {:induction false} HookStops(flag: bool, calls: seq<HookCall>, j: nat, lib: LibResult)
    requires j <= |calls|
    ensures var t := RunHooks(flag, calls, j, lib);
      t.flag <==> flag || exists i :: j <= i < |calls| && calls[i].userStop
    ensures (exists i :: j <= i < |calls| && (flag || calls[i].userStop)) ==>
      RunHooks(flag, calls, j, lib).result == DownloadError(StopText)
    decreases |calls| - j
  {
    if j < |calls| {
      var f := flag || calls[j].userStop;
      if !f {
        HookStops(f, calls, j + 1, lib);
        assert (exists i :: j <= i < |calls| && calls[i].userStop)
           <==> (exists i :: j + 1 <= i < |calls| && calls[i].userStop);
      }
    }
  }

  /** A stop request during an item's download ends that item as stopped, with the flag set. */
  lemma StopDuringDownload(job: Job, item: Item, before: seq<Event>, env: ItemEnv, i: nat)
    requires i < |env.calls| && env.calls[i].userStop
    ensures TransferStep(job, item, before, env).outcome == Stopped
    ensures TransferStep(job, item, before, env).flag
  {
    HookStops(false, env.calls, 0, env.result);
    assert StopPhrase <= StopText;
  }

  /** Without a stop request the download call ends as the library's call ends, and the flag stays clear. */
  lemma NoStopNoInterference(job: Job, item: Item, before: seq<Event>, env: ItemEnv)
    requires forall i :: 0 <= i < |env.calls| ==> !env.calls[i].userStop
    ensures TransferStep(job, item, before, env).outcome == TransferOutcome(item.title, env.result)
    ensures !TransferStep(job, item, before, env).flag
  {
    HookStops(false, env.calls, 0, env.result);
  }

  /** A message that puts the item's title between a fixed opening and the rest names the item. */
  lemma PrefixNamesItem(title: string, rest: string)
    ensures Contains(DownloadErrorPrefix(title) + rest, title)
    ensures Contains(UnexpectedErrorPrefix(title) + rest, title)
  {
    var p, q := "خطأ في تحميل ", "خطأ غير متوقع أثناء تحميل ";
    assert DownloadErrorPrefix(title) + rest == p + title + (": " + rest);
    ContainsWithin(p, title, ": " + rest, title);
    assert UnexpectedErrorPrefix(title) + rest == q + title + (": " + rest);
    ContainsWithin(q, title, ": " + rest, title);
  }

  /** Every failure message names the item. */
  lemma FailureNamesItem(title: string, result: LibResult)
    ensures TransferOutcome(title, result).Failed? ==> Contains(TransferOutcome(title, result).message, title)
  {
    match result
    case Completed =>
    case DownloadError(text) =>
      PrefixNamesItem(title, TimeoutAdvice);
      PrefixNamesItem(title, ForbiddenAdvice);
      PrefixNamesItem(title, text);
    case OtherError(text) =>
      PrefixNamesItem(title, text);
  }

  /** A timeout is reported as such even when the text also mentions a 403; the stop message wins over both. */
  lemma TimeoutBeforeForbidden(title: string, text: string)
    requires Contains(text, "Read timed out") && Contains(text, "HTTP Error 403")
    ensures TransferOutcome(title, DownloadError(text))
      == if Contains(text, StopPhrase) then Stopped else Failed(DownloadErrorPrefix(title) + TimeoutAdvice)
  {
  }

  /** Any other library error keeps the library's text in the message. */
  lemma OtherFailuresKeepText(title: string, result: LibResult)
    requires !result.Completed? && !Contains(result.text, StopPhrase)
    requires !Contains(result.text, "Read timed out") && !Contains(result.text, "HTTP Error 403")
    ensures Contains(TransferOutcome(title, result).message, result.text)
  {
    if result.DownloadError? {
      ContainsAtEnd(DownloadErrorPrefix(title), result.text);
    } else {
      ContainsAtEnd(UnexpectedErrorPrefix(title), result.text);
    }
  }
}
